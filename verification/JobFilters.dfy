/** The filters of the job list compiled to a WHERE clause and its parameters. */
module JobFilters {
  import opened Common
  import opened Sql

  /** An absent list and an empty one filter alike, as do an absent text and an empty one. */
  datatype Filters = Filters(
    company: Option<string>, search: Option<string>, sourceNames: seq<string>, removed: Option<string>,
    emailed: Option<string>, statuses: seq<string>, location: Option<string>, duplicates: Option<string>,
    states: seq<string>, zipLat: Option<real>, zipLng: Option<real>, radius: Option<real>, user: Option<string>)

  const UNRESOLVED := "__unresolved__"

  predicate Given(x: Option<string>) {
    x.Some? && x.value != ""
  }

  function Like(s: string): string {
    "%" + s + "%"
  }

  function Texts(ss: seq<string>): seq<Param> {
    seq(|ss|, i requires 0 <= i < |ss| => Text(ss[i]))
  }

  function Named(statuses: seq<string>): seq<string> {
    Filter(statuses, (s: string) => s != "none")
  }

  /** The clauses the filters call for, with their parameters, in the order they are appended. */
  function CompanyPart(f: Filters): seq<Part> {
    if Given(f.company) then [Single(CompanyILike, [Text(Like(f.company.value))])] else []
  }

  function SearchPart(f: Filters): seq<Part> {
    if Given(f.search)
    then [Either(TitleILike, CompanyILike, [Text(Like(f.search.value)), Text(Like(f.search.value))])] else []
  }

  function SourcePart(f: Filters): seq<Part> {
    if f.sourceNames != [] then [Single(SourceNameIn(|f.sourceNames|), Texts(f.sourceNames))] else []
  }

  function TextParts(f: Filters): seq<Part> {
    CompanyPart(f) + SearchPart(f) + SourcePart(f)
  }

  function FlagParts(f: Filters): seq<Part> {
    (if f.removed == Some("active") then [Single(RemovedIsNull(true), [])]
     else if f.removed == Some("removed") then [Single(RemovedIsNull(false), [])] else [])
    + (if f.emailed == Some("sent") then [Single(EmailedIsNull(false), [])]
       else if f.emailed == Some("not_sent") then [Single(EmailedIsNull(true), [])] else [])
  }

  function StatusParts(f: Filters): seq<Part> {
    var named := Named(f.statuses);
    if f.statuses == [] then []
    else if "none" in f.statuses && named != [] then [Either(StatusIsNull, StatusIn(|named|), Texts(named))]
    else if "none" in f.statuses then [Single(StatusIsNull, [])]
    else [Single(StatusIn(|named|), Texts(named))]
  }

  function LocationPart(f: Filters): seq<Part> {
    if f.location == Some(UNRESOLVED) then [Either(GeoStatusIsNull, GeoStatusIsNotResolved, [])]
    else if Given(f.location) then [Single(DisplayNameIs, [Text(f.location.value)])] else []
  }

  function DuplicatePart(f: Filters): seq<Part> {
    if f.duplicates == Some("only") then [Single(DuplicateIs(true), [])]
    else if f.duplicates != Some("include") then [Single(DuplicateIs(false), [])] else []
  }

  function StatePart(f: Filters): seq<Part> {
    if f.states != [] then [Single(RegionIn(|f.states|), Texts(f.states))] else []
  }

  function PlaceParts(f: Filters): seq<Part> {
    LocationPart(f) + DuplicatePart(f) + StatePart(f)
  }

  function ScopeParts(f: Filters): seq<Part> {
    (if f.zipLat.Some? && f.zipLng.Some? && f.radius.Some?
     then [Single(WithinMiles, [Number(f.zipLat.value), Number(f.zipLng.value), Number(f.radius.value)])] else [])
    + (if f.user.Some? then [Single(UserIs, [Text(f.user.value)])] else [])
  }

  function Parts(f: Filters): seq<Part> {
    TextParts(f) + FlagParts(f) + StatusParts(f) + PlaceParts(f) + ScopeParts(f)
  }

  // ---- what the filters mean -------------------------------------------------------

  predicate MatchesText(env: Engine, f: Filters, r: Joined) {
    && (f.company.Some? && f.company.value != "" ==>
          r.company.Some? && env.ilike(r.company.value, "%" + f.company.value + "%"))
    && (f.search.Some? && f.search.value != "" ==>
          || env.ilike(r.title, "%" + f.search.value + "%")
          || (r.company.Some? && env.ilike(r.company.value, "%" + f.search.value + "%")))
    && (f.sourceNames != [] ==> r.sourceName in f.sourceNames)
  }

  predicate MatchesFlags(f: Filters, r: Joined) {
    && (f.removed == Some("active") ==> r.removedAt.None?)
    && (f.removed == Some("removed") ==> r.removedAt.Some?)
    && (f.emailed == Some("sent") ==> r.emailedAt.Some?)
    && (f.emailed == Some("not_sent") ==> r.emailedAt.None?)
  }

  /** The choice "none" stands for jobs without a status, never for a status of that name. */
  predicate MatchesStatus(f: Filters, r: Joined) {
    f.statuses != [] ==>
      if r.status.None? then "none" in f.statuses else r.status.value != "none" && r.status.value in f.statuses
  }

  /** A job whose location was never resolved matches "unresolved", and no place or state. */
  predicate MatchesPlace(f: Filters, r: Joined) {
    && (match f.location
        case None => true
        case Some(place) =>
          if place == "__unresolved__" then r.geo.None? || r.geo.value.status != "resolved"
          else place != "" ==> r.geo.Some? && r.geo.value.displayName == Some(place))
    && (f.duplicates == Some("only") ==> r.isDuplicate)
    && (f.duplicates != Some("only") && f.duplicates != Some("include") ==> !r.isDuplicate)
    && (f.states != [] ==> r.geo.Some? && r.geo.value.region.Some? && r.geo.value.region.value in f.states)
  }

  predicate MatchesScope(env: Engine, f: Filters, r: Joined) {
    && (f.zipLat.Some? && f.zipLng.Some? && f.radius.Some? ==>
          && r.geo.Some? && r.geo.value.lat.Some? && r.geo.value.lng.Some?
          && env.miles(r.geo.value.lat.value, r.geo.value.lng.value, f.zipLat.value, f.zipLng.value) <= f.radius.value)
    && (f.user.Some? ==> r.user == f.user.value)
  }

  predicate Matches(env: Engine, f: Filters, r: Joined) {
    MatchesText(env, f, r) && MatchesFlags(f, r) && MatchesStatus(f, r) && MatchesPlace(f, r) && MatchesScope(env, f, r)
  }

  lemma {:induction false} InTexts(v: Option<string>, ss: seq<string>)
    ensures In(v, Texts(ss)) == True <==> v.Some? && v.value in ss
  {
    if ss != [] {
      assert Texts(ss)[1..] == Texts(ss[1..]);
      InTexts(v, ss[1..]);
      assert ss == [ss[0]] + ss[1..];
    }
  }

  lemma AllTrueConcat(env: Engine, a: seq<Part>, b: seq<Part>, r: Joined)
    requires AllFilled(a) && AllFilled(b)
    ensures AllFilled(a + b) && (AllTrue(env, a + b, r) <==> AllTrue(env, a, r) && AllTrue(env, b, r))
  {
    assert forall p :: p in a ==> p in a + b;
    assert forall p :: p in b ==> p in a + b;
  }

  lemma AllTrueOne(env: Engine, p: Part, r: Joined)
    requires Filled(p)
    ensures AllFilled([p]) && (AllTrue(env, [p], r) <==> Eval(env, ExprOf(p), p.args, r) == True)
  {
    assert p in [p];
  }

  lemma CompanyMeaning(env: Engine, f: Filters, r: Joined)
    ensures AllFilled(CompanyPart(f))
    ensures AllTrue(env, CompanyPart(f), r) <==>
              (Given(f.company) ==> r.company.Some? && env.ilike(r.company.value, Like(f.company.value)))
  {
    if CompanyPart(f) != [] { AllTrueOne(env, CompanyPart(f)[0], r); }
  }

  lemma SearchMeaning(env: Engine, f: Filters, r: Joined)
    ensures AllFilled(SearchPart(f))
    ensures AllTrue(env, SearchPart(f), r) <==>
              (Given(f.search) ==> env.ilike(r.title, Like(f.search.value))
                                   || (r.company.Some? && env.ilike(r.company.value, Like(f.search.value))))
  {
    if SearchPart(f) != [] {
      var p := SearchPart(f)[0];
      AllTrueOne(env, p, r);
      assert p.args[..1] == [p.args[0]] && p.args[1..] == [p.args[1]];
    }
  }

  lemma SourceMeaning(env: Engine, f: Filters, r: Joined)
    ensures AllFilled(SourcePart(f))
    ensures AllTrue(env, SourcePart(f), r) <==> (f.sourceNames != [] ==> r.sourceName in f.sourceNames)
  {
    if SourcePart(f) != [] {
      InTexts(Some(r.sourceName), f.sourceNames);
      AllTrueOne(env, SourcePart(f)[0], r);
    }
  }

  lemma TextMeaning(env: Engine, f: Filters, r: Joined)
    ensures AllFilled(TextParts(f)) && (AllTrue(env, TextParts(f), r) <==> MatchesText(env, f, r))
  {
    CompanyMeaning(env, f, r);
    SearchMeaning(env, f, r);
    SourceMeaning(env, f, r);
    AllTrueConcat(env, CompanyPart(f), SearchPart(f), r);
    AllTrueConcat(env, CompanyPart(f) + SearchPart(f), SourcePart(f), r);
  }

  lemma FlagMeaning(env: Engine, f: Filters, r: Joined)
    ensures AllFilled(FlagParts(f)) && (AllTrue(env, FlagParts(f), r) <==> MatchesFlags(f, r))
  {
    var a := if f.removed == Some("active") then [Single(RemovedIsNull(true), [])]
             else if f.removed == Some("removed") then [Single(RemovedIsNull(false), [])] else [];
    var b := if f.emailed == Some("sent") then [Single(EmailedIsNull(false), [])]
             else if f.emailed == Some("not_sent") then [Single(EmailedIsNull(true), [])] else [];
    AllTrueConcat(env, a, b, r);
    if a != [] { AllTrueOne(env, a[0], r); }
    if b != [] { AllTrueOne(env, b[0], r); }
  }

  /** The test for no status, the test for named statuses, and the two joined by OR, each
      true just for the statuses it names. */
  lemma StatusTests(env: Engine, named: seq<string>, r: Joined)
    ensures Eval(env, ExprOf(Single(StatusIsNull, [])), [], r) == True <==> r.status.None?
    ensures Eval(env, ExprOf(Single(StatusIn(|named|), Texts(named))), Texts(named), r) == True
            <==> r.status.Some? && r.status.value in named
    ensures Eval(env, ExprOf(Either(StatusIsNull, StatusIn(|named|), Texts(named))), Texts(named), r) == True
            <==> r.status.None? || r.status.value in named
  {
    InTexts(r.status, named);
    assert Texts(named)[..0] == [] && Texts(named)[0..] == Texts(named);
  }

  lemma StatusMeaning(env: Engine, f: Filters, r: Joined)
    ensures AllFilled(StatusParts(f)) && (AllTrue(env, StatusParts(f), r) <==> MatchesStatus(f, r))
  {
    if f.statuses != [] {
      assert f.statuses[0] in f.statuses;
      assert "none" !in f.statuses ==> f.statuses[0] in Named(f.statuses);
      StatusTests(env, Named(f.statuses), r);
      AllTrueOne(env, StatusParts(f)[0], r);
    }
  }

  lemma LocationMeaning(env: Engine, f: Filters, r: Joined)
    ensures AllFilled(LocationPart(f))
    ensures AllTrue(env, LocationPart(f), r) <==>
              && (f.location == Some(UNRESOLVED) ==> r.geo.None? || r.geo.value.status != "resolved")
              && (Given(f.location) && f.location != Some(UNRESOLVED)
                  ==> r.geo.Some? && r.geo.value.displayName == f.location)
  {
    if LocationPart(f) != [] { AllTrueOne(env, LocationPart(f)[0], r); }
  }

  lemma DuplicateMeaning(env: Engine, f: Filters, r: Joined)
    ensures AllFilled(DuplicatePart(f))
    ensures AllTrue(env, DuplicatePart(f), r) <==>
              && (f.duplicates == Some("only") ==> r.isDuplicate)
              && (f.duplicates != Some("only") && f.duplicates != Some("include") ==> !r.isDuplicate)
  {
    if DuplicatePart(f) != [] { AllTrueOne(env, DuplicatePart(f)[0], r); }
  }

  lemma StateMeaning(env: Engine, f: Filters, r: Joined)
    ensures AllFilled(StatePart(f))
    ensures AllTrue(env, StatePart(f), r) <==>
              (f.states != [] ==> r.geo.Some? && r.geo.value.region.Some? && r.geo.value.region.value in f.states)
  {
    if StatePart(f) != [] {
      InTexts(if r.geo.None? then None else r.geo.value.region, f.states);
      AllTrueOne(env, StatePart(f)[0], r);
    }
  }

  lemma PlaceMeaning(env: Engine, f: Filters, r: Joined)
    ensures AllFilled(PlaceParts(f)) && (AllTrue(env, PlaceParts(f), r) <==> MatchesPlace(f, r))
  {
    LocationMeaning(env, f, r);
    DuplicateMeaning(env, f, r);
    StateMeaning(env, f, r);
    AllTrueConcat(env, LocationPart(f), DuplicatePart(f), r);
    AllTrueConcat(env, LocationPart(f) + DuplicatePart(f), StatePart(f), r);
  }

  lemma ScopeMeaning(env: Engine, f: Filters, r: Joined)
    ensures AllFilled(ScopeParts(f)) && (AllTrue(env, ScopeParts(f), r) <==> MatchesScope(env, f, r))
  {
    var a := if f.zipLat.Some? && f.zipLng.Some? && f.radius.Some?
             then [Single(WithinMiles, [Number(f.zipLat.value), Number(f.zipLng.value), Number(f.radius.value)])]
             else [];
    var b := if f.user.Some? then [Single(UserIs, [Text(f.user.value)])] else [];
    AllTrueConcat(env, a, b, r);
    if a != [] { AllTrueOne(env, a[0], r); }
    if b != [] { AllTrueOne(env, b[0], r); }
  }

  lemma PartsMeaning(env: Engine, f: Filters, r: Joined)
    ensures AllFilled(Parts(f)) && (AllTrue(env, Parts(f), r) <==> Matches(env, f, r))
  {
    TextMeaning(env, f, r);
    FlagMeaning(env, f, r);
    StatusMeaning(env, f, r);
    PlaceMeaning(env, f, r);
    ScopeMeaning(env, f, r);
    AllTrueConcat(env, TextParts(f), FlagParts(f), r);
    AllTrueConcat(env, TextParts(f) + FlagParts(f), StatusParts(f), r);
    AllTrueConcat(env, TextParts(f) + FlagParts(f) + StatusParts(f), PlaceParts(f), r);
    AllTrueConcat(env, TextParts(f) + FlagParts(f) + StatusParts(f) + PlaceParts(f), ScopeParts(f), r);
  }

  // ---- the compiler ------------------------------------------------------------------

  /** The two lists that the source appends to hold what has been compiled so far. */
  ghost predicate Compiled(clauses: seq<seq<Token>>, params: seq<Param>, parts: seq<Part>) {
    clauses == Clauses(parts) && params == Params(parts)
  }

  lemma AppendPart(clauses: seq<seq<Token>>, params: seq<Param>, parts: seq<Part>, p: Part)
    requires Compiled(clauses, params, parts)
    ensures Compiled(clauses + [Render(p)], params + p.args, parts + [p])
  {
    ClausesConcat(parts, [p]);
    ParamsConcat(parts, [p]);
    assert Params([p]) == p.args;
    assert Clauses([p]) == [Render(p)];
  }

  /** The clauses on company, search text and source names. */
  method TextClauses(f: Filters, clauses0: seq<seq<Token>>, params0: seq<Param>, ghost parts: seq<Part>)
    returns (clauses: seq<seq<Token>>, params: seq<Param>)
    requires Compiled(clauses0, params0, parts)
    ensures Compiled(clauses, params, parts + TextParts(f))
  {
    clauses, params := clauses0, params0;
    ghost var done := parts;
    if Given(f.company) {
      AppendPart(clauses, params, done, Single(CompanyILike, [Text(Like(f.company.value))]));
      clauses := clauses + [[Atom(CompanyILike)]];
      params := params + [Text(Like(f.company.value))];
      done := done + [Single(CompanyILike, [Text(Like(f.company.value))])];
    }
    if Given(f.search) {
      var pattern := Text(Like(f.search.value));
      AppendPart(clauses, params, done, Either(TitleILike, CompanyILike, [pattern, pattern]));
      clauses := clauses + [[LPar, Atom(TitleILike), OrWord, Atom(CompanyILike), RPar]];
      params := params + [pattern, pattern];
      done := done + [Either(TitleILike, CompanyILike, [pattern, pattern])];
    }
    if f.sourceNames != [] {
      AppendPart(clauses, params, done, Single(SourceNameIn(|f.sourceNames|), Texts(f.sourceNames)));
      clauses := clauses + [[Atom(SourceNameIn(|f.sourceNames|))]];
      params := params + Texts(f.sourceNames);
      done := done + [Single(SourceNameIn(|f.sourceNames|), Texts(f.sourceNames))];
    }
    assert done == parts + TextParts(f);
  }

  method FlagClauses(f: Filters, clauses0: seq<seq<Token>>, params0: seq<Param>, ghost parts: seq<Part>)
    returns (clauses: seq<seq<Token>>, params: seq<Param>)
    requires Compiled(clauses0, params0, parts)
    ensures Compiled(clauses, params, parts + FlagParts(f))
  {
    clauses, params := clauses0, params0;
    ghost var done := parts;
    if f.removed == Some("active") || f.removed == Some("removed") {
      AppendPart(clauses, params, done, Single(RemovedIsNull(f.removed == Some("active")), []));
      clauses := clauses + [[Atom(RemovedIsNull(f.removed == Some("active")))]];
      done := done + [Single(RemovedIsNull(f.removed == Some("active")), [])];
      assert params + [] == params;
    }
    if f.emailed == Some("sent") || f.emailed == Some("not_sent") {
      AppendPart(clauses, params, done, Single(EmailedIsNull(f.emailed == Some("not_sent")), []));
      clauses := clauses + [[Atom(EmailedIsNull(f.emailed == Some("not_sent")))]];
      done := done + [Single(EmailedIsNull(f.emailed == Some("not_sent")), [])];
      assert params + [] == params;
    }
    assert done == parts + FlagParts(f);
  }

  method StatusClauses(f: Filters, clauses0: seq<seq<Token>>, params0: seq<Param>, ghost parts: seq<Part>)
    returns (clauses: seq<seq<Token>>, params: seq<Param>)
    requires Compiled(clauses0, params0, parts)
    ensures Compiled(clauses, params, parts + StatusParts(f))
  {
    clauses, params := clauses0, params0;
    if f.statuses != [] {
      var named := Named(f.statuses);
      AppendPart(clauses, params, parts, StatusParts(f)[0]);
      if "none" in f.statuses && named != [] {
        clauses := clauses + [[LPar, Atom(StatusIsNull), OrWord, Atom(StatusIn(|named|)), RPar]];
        params := params + Texts(named);
      } else if "none" in f.statuses {
        clauses := clauses + [[Atom(StatusIsNull)]];
        assert params + [] == params;
      } else {
        clauses := clauses + [[Atom(StatusIn(|named|))]];
        params := params + Texts(named);
      }
    } else {
      assert parts + [] == parts;
    }
  }

  method LocationClauses(f: Filters, clauses0: seq<seq<Token>>, params0: seq<Param>, ghost parts: seq<Part>)
    returns (clauses: seq<seq<Token>>, params: seq<Param>)
    requires Compiled(clauses0, params0, parts)
    ensures Compiled(clauses, params, parts + LocationPart(f))
  {
    clauses, params := clauses0, params0;
    if f.location == Some(UNRESOLVED) {
      AppendPart(clauses, params, parts, Either(GeoStatusIsNull, GeoStatusIsNotResolved, []));
      clauses := clauses + [[LPar, Atom(GeoStatusIsNull), OrWord, Atom(GeoStatusIsNotResolved), RPar]];
      assert params + [] == params;
    } else if Given(f.location) {
      AppendPart(clauses, params, parts, Single(DisplayNameIs, [Text(f.location.value)]));
      clauses := clauses + [[Atom(DisplayNameIs)]];
      params := params + [Text(f.location.value)];
    } else {
      assert parts + [] == parts;
    }
  }

  method DuplicateClauses(f: Filters, clauses0: seq<seq<Token>>, params: seq<Param>, ghost parts: seq<Part>)
    returns (clauses: seq<seq<Token>>)
    requires Compiled(clauses0, params, parts)
    ensures Compiled(clauses, params, parts + DuplicatePart(f))
  {
    clauses := clauses0;
    if f.duplicates == Some("only") || f.duplicates != Some("include") {
      AppendPart(clauses, params, parts, Single(DuplicateIs(f.duplicates == Some("only")), []));
      clauses := clauses + [[Atom(DuplicateIs(f.duplicates == Some("only")))]];
      assert params + [] == params;
    } else {
      assert parts + [] == parts;
    }
  }

  method PlaceClauses(f: Filters, clauses0: seq<seq<Token>>, params0: seq<Param>, ghost parts: seq<Part>)
    returns (clauses: seq<seq<Token>>, params: seq<Param>)
    requires Compiled(clauses0, params0, parts)
    ensures Compiled(clauses, params, parts + PlaceParts(f))
  {
    clauses, params := LocationClauses(f, clauses0, params0, parts);
    clauses := DuplicateClauses(f, clauses, params, parts + LocationPart(f));
    ghost var done := parts + LocationPart(f) + DuplicatePart(f);
    if f.states != [] {
      AppendPart(clauses, params, done, Single(RegionIn(|f.states|), Texts(f.states)));
      clauses := clauses + [[Atom(RegionIn(|f.states|))]];
      params := params + Texts(f.states);
    } else {
      assert done + [] == done;
    }
    assert parts + PlaceParts(f) == done + StatePart(f);
  }

  method ScopeClauses(f: Filters, clauses0: seq<seq<Token>>, params0: seq<Param>, ghost parts: seq<Part>)
    returns (clauses: seq<seq<Token>>, params: seq<Param>)
    requires Compiled(clauses0, params0, parts)
    ensures Compiled(clauses, params, parts + ScopeParts(f))
  {
    clauses, params := clauses0, params0;
    ghost var done := parts;
    if f.zipLat.Some? && f.zipLng.Some? && f.radius.Some? {
      var circle := [Number(f.zipLat.value), Number(f.zipLng.value), Number(f.radius.value)];
      AppendPart(clauses, params, done, Single(WithinMiles, circle));
      clauses := clauses + [[Atom(WithinMiles)]];
      params := params + circle;
      done := done + [Single(WithinMiles, circle)];
    }
    if f.user.Some? {
      AppendPart(clauses, params, done, Single(UserIs, [Text(f.user.value)]));
      clauses := clauses + [[Atom(UserIs)]];
      params := params + [Text(f.user.value)];
      done := done + [Single(UserIs, [Text(f.user.value)])];
    }
    assert done == parts + ScopeParts(f);
  }

  lemma PrefixParts(f: Filters) returns (p1: seq<Part>, p2: seq<Part>, p3: seq<Part>, p4: seq<Part>)
    ensures p1 == [] + TextParts(f) && p2 == p1 + FlagParts(f) && p3 == p2 + StatusParts(f) && p4 == p3 + PlaceParts(f)
    ensures p4 + ScopeParts(f) == Parts(f)
  {
    p1 := TextParts(f);
    p2 := p1 + FlagParts(f);
    p3 := p2 + StatusParts(f);
    p4 := p3 + PlaceParts(f);
    assert [] + TextParts(f) == TextParts(f);
  }

  /** `_job_filters_sql`: clauses and parameters appended filter by filter, then joined. */
  method JobFiltersSql(f: Filters) returns (text: seq<Token>, params: seq<Param>)
    ensures text == JoinAnd(Clauses(Parts(f))) && params == Params(Parts(f))
  {
    var clauses: seq<seq<Token>> := [];
    ghost var p1, p2, p3, p4 := PrefixParts(f);
    clauses, params := TextClauses(f, clauses, [], []);
    clauses, params := FlagClauses(f, clauses, params, p1);
    clauses, params := StatusClauses(f, clauses, params, p2);
    clauses, params := PlaceClauses(f, clauses, params, p3);
    clauses, params := ScopeClauses(f, clauses, params, p4);
    text := JoinAnd(clauses);
  }

  /** For every combination of filters and every row: the text reads, has as many
      placeholders as parameters, and admits exactly the rows the filters describe. */
  lemma FiltersMean(env: Engine, f: Filters, r: Joined)
    ensures Admits(env, JoinAnd(Clauses(Parts(f))), Params(Parts(f)), r) == Some(Matches(env, f, r))
  {
    PartsMeaning(env, f, r);
    AdmitsJoined(env, Parts(f), r);
  }

  // ---- list_mappable_jobs --------------------------------------------------------------

  function MapParts(exclude: Option<string>): seq<Part> {
    [Single(GeoStatusIsPlaced, [])]
    + if Given(exclude) then [Either(StatusIsNull, StatusIsNot, [Text(exclude.value)])] else []
  }

  predicate Mappable(exclude: Option<string>, r: Joined) {
    && r.geo.Some? && (r.geo.value.status == "resolved" || r.geo.value.status == "manual")
    && (exclude.Some? && exclude.value != "" ==> r.status != exclude)
  }

  lemma MapPartsCompiled(exclude: Option<string>)
    ensures Clauses(MapParts(exclude))
         == [[Atom(GeoStatusIsPlaced)]]
            + if Given(exclude) then [[LPar, Atom(StatusIsNull), OrWord, Atom(StatusIsNot), RPar]] else []
    ensures Params(MapParts(exclude)) == if Given(exclude) then [Text(exclude.value)] else []
  {
    assert Params(MapParts(exclude)[1..]) == if Given(exclude) then [Text(exclude.value)] + [] else [];
  }

  /** The extension of the compiled text: a second join appended to the first. */
  method MappableSql(f: Filters, exclude: Option<string>) returns (text: seq<Token>, params: seq<Param>)
    ensures text == JoinAnd(Clauses(Parts(f) + MapParts(exclude))) && params == Params(Parts(f) + MapParts(exclude))
  {
    text, params := JobFiltersSql(f);
    var clauses := [[Atom(GeoStatusIsPlaced)]];
    if Given(exclude) {
      clauses := clauses + [[LPar, Atom(StatusIsNull), OrWord, Atom(StatusIsNot), RPar]];
      params := params + [Text(exclude.value)];
    }
    MapPartsCompiled(exclude);
    text := AppendClauses(Parts(f), MapParts(exclude), text, clauses);
    ParamsConcat(Parts(f), MapParts(exclude));
    assert params == Params(Parts(f)) + Params(MapParts(exclude));
  }

  /** `where + " AND " + more if where else more`. */
  method AppendClauses(ghost parts: seq<Part>, ghost more: seq<Part>, text: seq<Token>, clauses: seq<seq<Token>>)
    returns (extended: seq<Token>)
    requires text == JoinAnd(Clauses(parts)) && clauses == Clauses(more) && more != []
    ensures extended == JoinAnd(Clauses(parts + more))
  {
    ClausesConcat(parts, more);
    if parts != [] {
      SomeText(parts);
    }
    if text == [] {
      assert Clauses(parts) + clauses == clauses;
      extended := JoinAnd(clauses);
    } else {
      JoinAndConcat(Clauses(parts), clauses);
      extended := text + [AndWord] + JoinAnd(clauses);
    }
  }

  lemma SomeText(parts: seq<Part>)
    requires parts != []
    ensures JoinAnd(Clauses(parts)) != []
  {
    assert Render(parts[0]) != [];
  }

  lemma MapMeaning(env: Engine, exclude: Option<string>, r: Joined)
    ensures AllFilled(MapParts(exclude)) && (AllTrue(env, MapParts(exclude), r) <==> Mappable(exclude, r))
  {
    var a := [Single(GeoStatusIsPlaced, [])];
    var b := if Given(exclude) then [Either(StatusIsNull, StatusIsNot, [Text(exclude.value)])] else [];
    AllTrueOne(env, a[0], r);
    if b != [] { AllTrueOne(env, b[0], r); }
    AllTrueConcat(env, a, b, r);
  }

  /** The extended text still reads, with parameters in placeholder order, and admits
      the matching rows that are placed on the map and not of the excluded status. */
  lemma MappableMeans(env: Engine, f: Filters, exclude: Option<string>, r: Joined)
    ensures var parts := Parts(f) + MapParts(exclude);
            Admits(env, JoinAnd(Clauses(parts)), Params(parts), r) == Some(Matches(env, f, r) && Mappable(exclude, r))
  {
    PartsMeaning(env, f, r);
    MapMeaning(env, exclude, r);
    AllTrueConcat(env, Parts(f), MapParts(exclude), r);
    AdmitsJoined(env, Parts(f) + MapParts(exclude), r);
  }
}
