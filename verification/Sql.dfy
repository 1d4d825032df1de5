/** The fragment of SQL that the job queries are written in: a WHERE clause as the
    tokens of its text, how a database reads it (AND binds tighter than OR), and its
    value under three-valued logic with parameters bound to placeholders by position. */
module Sql {
  import opened Common

  datatype Tri = True | False | Unknown

  function And3(a: Tri, b: Tri): Tri {
    if a == False || b == False then False else if a == True && b == True then True else Unknown
  }

  function Or3(a: Tri, b: Tri): Tri {
    if a == True || b == True then True else if a == False && b == False then False else Unknown
  }

  /** The truth tables: AND is true if both are and false if one is; OR the other way round. */
  lemma TruthTables(a: Tri, b: Tri)
    ensures (And3(a, b) == True <==> a == b == True) && (And3(a, b) == False <==> a == False || b == False)
    ensures (Or3(a, b) == False <==> a == b == False) && (Or3(a, b) == True <==> a == True || b == True)
    ensures (Not3(a) == True <==> a == False) && (Not3(a) == False <==> a == True)
  {
  }

  function Known(b: bool): Tri {
    if b then True else False
  }

  /** The atomic predicates of the job queries. `n` counts the placeholders of a list. */
  datatype Test =
    | CompanyILike              // jobs.company ILIKE ?
    | TitleILike                // jobs.title ILIKE ?
    | SourceNameIn(n: nat)      // jobs.source_name IN (?, ..., ?)
    | RemovedIsNull(yes: bool)  // jobs.removed_at IS [NOT] NULL
    | EmailedIsNull(yes: bool)  // jobs.emailed_at IS [NOT] NULL
    | StatusIsNull              // jobs.status IS NULL
    | StatusIn(n: nat)          // jobs.status IN (?, ..., ?)
    | StatusIsNot               // jobs.status != ?
    | GeoStatusIsNull           // geocoded_locations.status IS NULL
    | GeoStatusIsNotResolved    // geocoded_locations.status != 'resolved'
    | GeoStatusIsPlaced         // geocoded_locations.status IN ('resolved', 'manual')
    | DisplayNameIs             // geocoded_locations.display_name = ?
    | DuplicateIs(flag: bool)   // jobs.is_duplicate = TRUE / FALSE
    | RegionIn(n: nat)          // geocoded_locations.region IN (?, ..., ?)
    | WithinMiles               // haversine_miles(geo.lat, geo.lng, ?, ?) <= ?
    | UserIs                    // jobs.user_id = ?

  function TestHoles(t: Test): nat {
    match t
    case CompanyILike => 1
    case TitleILike => 1
    case SourceNameIn(n) => n
    case StatusIn(n) => n
    case StatusIsNot => 1
    case DisplayNameIs => 1
    case RegionIn(n) => n
    case WithinMiles => 3
    case UserIs => 1
    case _ => 0
  }

  datatype Token = LPar | RPar | AndWord | OrWord | Atom(test: Test)

  datatype Param = Text(text: string) | Number(number: real)

  /** `IN ()` is not SQL. */
  predicate EmptyList(t: Test) {
    t == SourceNameIn(0) || t == StatusIn(0) || t == RegionIn(0)
  }

  // ---- rows ------------------------------------------------------------------

  datatype Geo = Geo(location: string, status: string, displayName: Option<string>, region: Option<string>,
                     lat: Option<real>, lng: Option<real>)

  /** A job row LEFT JOINed with at most one geocoded location. */
  datatype Joined = Joined(
    title: string, company: Option<string>, sourceName: string, removedAt: Option<int>, emailedAt: Option<int>,
    status: Option<string>, isDuplicate: bool, user: string, geo: Option<Geo>)

  /** The database's own text matching and distance function. */
  datatype Engine = Engine(ilike: (string, string) -> bool, miles: (real, real, real, real) -> real)

  function TextOf(p: Param): Option<string> {
    if p.Text? then Some(p.text) else None
  }

  function ILike(env: Engine, v: Option<string>, pattern: Option<string>): Tri {
    if v.None? || pattern.None? then Unknown else Known(env.ilike(v.value, pattern.value))
  }

  function Equal(v: Option<string>, w: Option<string>): Tri {
    if v.None? || w.None? then Unknown else Known(v == w)
  }

  /** Comparing with NULL is unknown, and comparing otherwise is not. */
  lemma EqualMeans(v: Option<string>, w: Option<string>)
    ensures Equal(v, w) == Unknown <==> v.None? || w.None?
    ensures Equal(v, w) == True <==> v.Some? && v == w
  {
  }

  /** `v IN (p1, ..., pn)`: the disjunction of the equalities. */
  function In(v: Option<string>, list: seq<Param>): Tri {
    if list == [] then False else Or3(Equal(v, TextOf(list[0])), In(v, list[1..]))
  }

  function Not3(a: Tri): Tri {
    match a
    case True => False
    case False => True
    case Unknown => Unknown
  }

  function EvalTest(env: Engine, t: Test, args: seq<Param>, r: Joined): Tri
    requires |args| == TestHoles(t)
  {
    match t
    case CompanyILike => ILike(env, r.company, TextOf(args[0]))
    case TitleILike => ILike(env, Some(r.title), TextOf(args[0]))
    case SourceNameIn(_) => In(Some(r.sourceName), args)
    case RemovedIsNull(yes) => Known(r.removedAt.None? == yes)
    case EmailedIsNull(yes) => Known(r.emailedAt.None? == yes)
    case StatusIsNull => Known(r.status.None?)
    case StatusIn(_) => In(r.status, args)
    case StatusIsNot => Not3(Equal(r.status, TextOf(args[0])))
    case GeoStatusIsNull => Known(r.geo.None?)
    case GeoStatusIsNotResolved => if r.geo.None? then Unknown else Known(r.geo.value.status != "resolved")
    case GeoStatusIsPlaced =>
      if r.geo.None? then Unknown else Known(r.geo.value.status == "resolved" || r.geo.value.status == "manual")
    case DisplayNameIs => Equal(if r.geo.None? then None else r.geo.value.displayName, TextOf(args[0]))
    case DuplicateIs(flag) => Known(r.isDuplicate == flag)
    case RegionIn(_) => In(if r.geo.None? then None else r.geo.value.region, args)
    case WithinMiles =>
      if r.geo.None? || r.geo.value.lat.None? || r.geo.value.lng.None? || !args[0].Number? || !args[1].Number?
         || !args[2].Number?
      then Unknown
      else Known(env.miles(r.geo.value.lat.value, r.geo.value.lng.value, args[0].number, args[1].number)
                 <= args[2].number)
    case UserIs => Equal(Some(r.user), TextOf(args[0]))
  }

  // ---- reading the text --------------------------------------------------------

  datatype Expr = Leaf(test: Test) | And(left: Expr, right: Expr) | Or(left: Expr, right: Expr)

  function Holes(e: Expr): nat {
    match e
    case Leaf(t) => TestHoles(t)
    case And(l, r) => Holes(l) + Holes(r)
    case Or(l, r) => Holes(l) + Holes(r)
  }

  /** Parameters are bound to placeholders from left to right. */
  function Eval(env: Engine, e: Expr, params: seq<Param>, r: Joined): Tri
    requires |params| == Holes(e)
  {
    match e
    case Leaf(t) => EvalTest(env, t, params, r)
    case And(a, b) => And3(Eval(env, a, params[..Holes(a)], r), Eval(env, b, params[Holes(a)..], r))
    case Or(a, b) => Or3(Eval(env, a, params[..Holes(a)], r), Eval(env, b, params[Holes(a)..], r))
  }

  type Parse = Option<(Expr, seq<Token>)>

  function ParsePrimary(ts: seq<Token>): (r: Parse)
    ensures r.Some? ==> |r.value.1| < |ts|
    decreases |ts|, 0
  {
    if ts == [] then None
    else match ts[0]
      case Atom(t) => if EmptyList(t) then None else Some((Leaf(t), ts[1..]))
      case LPar =>
        var inner := ParseOr(ts[1..]);
        if inner.Some? && inner.value.1 != [] && inner.value.1[0] == RPar
        then Some((inner.value.0, inner.value.1[1..]))
        else None
      case _ => None
  }

  function ParseAnd(ts: seq<Token>): (r: Parse)
    ensures r.Some? ==> |r.value.1| < |ts|
    decreases |ts|, 1
  {
    var first := ParsePrimary(ts);
    if first.None? || first.value.1 == [] || first.value.1[0] != AndWord then first
    else
      var more := ParseAnd(first.value.1[1..]);
      if more.None? then None else Some((And(first.value.0, more.value.0), more.value.1))
  }

  function ParseOr(ts: seq<Token>): (r: Parse)
    ensures r.Some? ==> |r.value.1| < |ts|
    decreases |ts|, 2
  {
    var first := ParseAnd(ts);
    if first.None? || first.value.1 == [] || first.value.1[0] != OrWord then first
    else
      var more := ParseOr(first.value.1[1..]);
      if more.None? then None else Some((Or(first.value.0, more.value.0), more.value.1))
  }

  // ---- conjunctions of clauses ---------------------------------------------------

  /** A clause with its parameters: one test, or two tests joined by OR in parentheses. */
  datatype Part =
    | Single(test: Test, args: seq<Param>)
    | Either(first: Test, second: Test, args: seq<Param>)

  function Render(p: Part): seq<Token> {
    match p
    case Single(t, _) => [Atom(t)]
    case Either(a, b, _) => [LPar, Atom(a), OrWord, Atom(b), RPar]
  }

  function ExprOf(p: Part): Expr {
    match p
    case Single(t, _) => Leaf(t)
    case Either(a, b, _) => Or(Leaf(a), Leaf(b))
  }

  predicate Filled(p: Part) {
    && |p.args| == Holes(ExprOf(p))
    && (match p
        case Single(t, _) => !EmptyList(t)
        case Either(a, b, _) => !EmptyList(a) && !EmptyList(b))
  }

  predicate AllFilled(parts: seq<Part>) {
    forall p :: p in parts ==> Filled(p)
  }

  function Clauses(parts: seq<Part>): seq<seq<Token>> {
    seq(|parts|, i requires 0 <= i < |parts| => Render(parts[i]))
  }

  function Params(parts: seq<Part>): seq<Param> {
    if parts == [] then [] else parts[0].args + Params(parts[1..])
  }

  /** `" AND ".join(clauses)`. */
  function JoinAnd(clauses: seq<seq<Token>>): seq<Token> {
    if clauses == [] then []
    else if |clauses| == 1 then clauses[0]
    else clauses[0] + [AndWord] + JoinAnd(clauses[1..])
  }

  function Conjunction(parts: seq<Part>): Expr
    requires parts != []
  {
    if |parts| == 1 then ExprOf(parts[0]) else And(ExprOf(parts[0]), Conjunction(parts[1..]))
  }

  lemma ParsePart(p: Part, rest: seq<Token>)
    requires Filled(p)
    ensures ParsePrimary(Render(p) + rest) == Some((ExprOf(p), rest))
  {
    var ts := Render(p) + rest;
    match p {
      case Single(t, _) => assert ts[1..] == rest;
      case Either(a, b, _) =>
        var inner := ts[1..];
        assert inner == [Atom(a), OrWord, Atom(b), RPar] + rest;
        assert inner[1..] == [OrWord, Atom(b), RPar] + rest;
        assert ParsePrimary(inner) == Some((Leaf(a), inner[1..]));
        assert ParseAnd(inner) == ParsePrimary(inner);
        var after := inner[1..][1..];
        assert after == [Atom(b), RPar] + rest;
        assert after[1..] == [RPar] + rest;
        assert ParsePrimary(after) == Some((Leaf(b), after[1..]));
        assert ParseOr(after) == ParseAnd(after) == ParsePrimary(after);
        assert ParseOr(inner) == Some((Or(Leaf(a), Leaf(b)), after[1..]));
        assert after[1..][1..] == rest;
    }
  }

  /** The joined text reads as the conjunction of its clauses. */
  lemma {:induction false} ParseJoined(parts: seq<Part>)
    requires parts != [] && AllFilled(parts)
    ensures ParseAnd(JoinAnd(Clauses(parts))) == Some((Conjunction(parts), []))
  {
    var cs := Clauses(parts);
    assert parts[0] in parts;
    if |parts| == 1 {
      ParsePart(parts[0], []);
      assert Render(parts[0]) + [] == Render(parts[0]);
    } else {
      var rest := JoinAnd(cs[1..]);
      assert cs[1..] == Clauses(parts[1..]);
      ParseJoined(parts[1..]);
      ParsePart(parts[0], [AndWord] + rest);
      assert JoinAnd(cs) == Render(parts[0]) + ([AndWord] + rest);
      assert ([AndWord] + rest)[1..] == rest;
    }
  }

  ghost predicate AllTrue(env: Engine, parts: seq<Part>, r: Joined)
    requires AllFilled(parts)
  {
    forall p :: p in parts ==> Eval(env, ExprOf(p), p.args, r) == True
  }

  /** The first of several clauses takes its own parameters, the others the rest. */
  lemma FirstOfParams(parts: seq<Part>)
    requires |parts| > 1 && AllFilled(parts)
    ensures AllFilled(parts[1..]) && Holes(ExprOf(parts[0])) == |parts[0].args|
    ensures |Params(parts)| == |parts[0].args| + |Params(parts[1..])|
    ensures Params(parts)[..|parts[0].args|] == parts[0].args
    ensures Params(parts)[|parts[0].args|..] == Params(parts[1..])
  {
    assert parts[0] in parts;
    assert forall p :: p in parts[1..] ==> p in parts;
  }

  lemma AllTrueCons(env: Engine, parts: seq<Part>, r: Joined)
    requires parts != [] && Filled(parts[0]) && AllFilled(parts[1..]) && AllFilled(parts)
    ensures AllTrue(env, parts, r)
       <==> Eval(env, ExprOf(parts[0]), parts[0].args, r) == True && AllTrue(env, parts[1..], r)
  {
    assert parts == [parts[0]] + parts[1..];
  }

  lemma {:induction false} EvalConjunction(env: Engine, parts: seq<Part>, r: Joined)
    requires parts != [] && AllFilled(parts)
    ensures |Params(parts)| == Holes(Conjunction(parts))
    ensures Eval(env, Conjunction(parts), Params(parts), r) == True <==> AllTrue(env, parts, r)
  {
    var first := ExprOf(parts[0]);
    assert parts[0] in parts;
    if |parts| == 1 {
      assert Params(parts) == parts[0].args;
    } else {
      FirstOfParams(parts);
      EvalConjunction(env, parts[1..], r);
      AllTrueCons(env, parts, r);
    }
  }

  /** Value of a WHERE text with its parameters; no text admits every row. None when the
      text does not read, or the placeholders and parameters differ in number. */
  function Admits(env: Engine, text: seq<Token>, params: seq<Param>, r: Joined): Option<bool> {
    if text == [] then (if params == [] then Some(true) else None)
    else
      var e := ParseOr(text);
      if e.None? || e.value.1 != [] || Holes(e.value.0) != |params| then None
      else Some(Eval(env, e.value.0, params, r) == True)
  }

  lemma AdmitsJoined(env: Engine, parts: seq<Part>, r: Joined)
    requires AllFilled(parts)
    ensures Admits(env, JoinAnd(Clauses(parts)), Params(parts), r) == Some(AllTrue(env, parts, r))
  {
    if parts != [] {
      ParseJoined(parts);
      EvalConjunction(env, parts, r);
      var text := JoinAnd(Clauses(parts));
      assert ParseOr(text) == ParseAnd(text);
    }
  }

  lemma {:induction false} ParamsConcat(a: seq<Part>, b: seq<Part>)
    ensures Params(a + b) == Params(a) + Params(b)
  {
    if a == [] {
      assert a + b == b;
    } else {
      assert (a + b)[1..] == a[1..] + b;
      ParamsConcat(a[1..], b);
    }
  }

  lemma ClausesConcat(a: seq<Part>, b: seq<Part>)
    ensures Clauses(a + b) == Clauses(a) + Clauses(b)
  {
  }

  lemma {:induction false} JoinAndConcat(a: seq<seq<Token>>, b: seq<seq<Token>>)
    requires a != [] && b != []
    ensures JoinAnd(a + b) == JoinAnd(a) + [AndWord] + JoinAnd(b)
  {
    if |a| == 1 {
      assert (a + b)[1..] == b;
    } else {
      assert (a + b)[1..] == a[1..] + b;
      JoinAndConcat(a[1..], b);
      assert a[0] + [AndWord] + (JoinAnd(a[1..]) + [AndWord] + JoinAnd(b))
          == (a[0] + [AndWord] + JoinAnd(a[1..])) + [AndWord] + JoinAnd(b);
    }
  }
}
