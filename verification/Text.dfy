/** Stripping, splitting and joining of comma-separated settings. */
module Text {
  import opened Common

  /** Characters for which `str.isspace` holds. */
  predicate IsSpace(c: char) {
    '\t' <= c <= '\r' || '\U{1c}' <= c <= ' ' || c == '\U{85}' || c == '\U{a0}' || c == '\U{1680}'
    || '\U{2000}' <= c <= '\U{200a}' || c == '\U{2028}' || c == '\U{2029}' || c == '\U{202f}'
    || c == '\U{205f}' || c == '\U{3000}'
  }

  function StripLeft(s: string): (r: string)
    ensures |r| <= |s|
    ensures r != "" ==> !IsSpace(r[0])
  {
    if s != "" && IsSpace(s[0]) then StripLeft(s[1..]) else s
  }

  function StripRight(s: string): (r: string)
    ensures |r| <= |s| && r == s[..|r|]
    ensures r != "" ==> !IsSpace(r[|r| - 1])
  {
    if s != "" && IsSpace(s[|s| - 1]) then StripRight(s[..|s| - 1]) else s
  }

  function Strip(s: string): (r: string)
    ensures r != "" ==> !IsSpace(r[0]) && !IsSpace(r[|r| - 1])
  {
    StripRight(StripLeft(s))
  }

  /** A string that neither starts nor ends with white space is left alone. */
  lemma StripStripped(s: string)
    requires s != "" ==> !IsSpace(s[0]) && !IsSpace(s[|s| - 1])
    ensures Strip(s) == s
  {
  }

  predicate AllSpace(s: string) {
    forall i :: 0 <= i < |s| ==> IsSpace(s[i])
  }

  /** Stripping cuts white space off both ends and nothing else. */
  lemma StripCuts(s: string) returns (left: string, right: string)
    ensures s == left + Strip(s) + right && AllSpace(left) && AllSpace(right)
    ensures Strip(s) == "" <==> AllSpace(s)
  {
    left := StripLeftCuts(s);
    right := StripRightCuts(StripLeft(s));
    assert s == left + (Strip(s) + right);
    if Strip(s) != "" {
      assert s[|left|] == Strip(s)[0];
    }
  }

  lemma {:induction false} StripLeftCuts(s: string) returns (left: string)
    ensures s == left + StripLeft(s) && AllSpace(left)
  {
    if s != "" && IsSpace(s[0]) {
      left := StripLeftCuts(s[1..]);
      left := [s[0]] + left;
    } else {
      left := "";
    }
  }

  lemma {:induction false} StripRightCuts(s: string) returns (right: string)
    ensures s == StripRight(s) + right && AllSpace(right)
  {
    if s != "" && IsSpace(s[|s| - 1]) {
      right := StripRightCuts(s[..|s| - 1]);
      right := right + [s[|s| - 1]];
    } else {
      right := "";
    }
  }

  /** `[v.strip() for v in values if v.strip()]`. */
  function Stripped(values: seq<string>): seq<string> {
    if values == [] then []
    else (if Strip(values[0]) != "" then [Strip(values[0])] else []) + Stripped(values[1..])
  }

  /** The stripped values in order, the blank ones left out. */
  lemma StrippedSnoc(values: seq<string>, v: string)
    ensures Stripped(values + [v]) == Stripped(values) + if AllSpace(v) then [] else [Strip(v)]
  {
    var left, right := StripCuts(v);
    if values == [] {
      assert [] + [v] == [v] && [v][1..] == [];
    } else {
      assert (values + [v])[1..] == values[1..] + [v];
      StrippedSnoc(values[1..], v);
    }
  }

  predicate NoComma(s: string) {
    ',' !in s
  }

  /** `s.split(",")`. */
  function Split(s: string): (parts: seq<string>)
    ensures parts != []
    ensures forall p :: p in parts ==> NoComma(p)
  {
    if s == "" then [""]
    else
      var rest := Split(s[1..]);
      assert rest[0] in rest;
      if s[0] == ',' then [""] + rest else [[s[0]] + rest[0]] + rest[1..]
  }

  /** `",".join(parts)`. */
  function Join(parts: seq<string>): string {
    if parts == [] then ""
    else if |parts| == 1 then parts[0]
    else parts[0] + "," + Join(parts[1..])
  }

  lemma SplitCons(c: char, s: string)
    ensures var rest := Split(s);
            Split([c] + s) == if c == ',' then [""] + rest else [[c] + rest[0]] + rest[1..]
  {
    assert ([c] + s)[1..] == s;
  }

  lemma {:induction false} SplitConcat(a: string, b: string)
    ensures Split(a + "," + b) == Split(a) + Split(b)
  {
    if a == "" {
      SplitCons(',', b);
      assert a + "," + b == [','] + b;
    } else {
      var c, rest := a[0], a[1..];
      assert a == [c] + rest;
      assert a + "," + b == [c] + (rest + "," + b);
      SplitConcat(rest, b);
      SplitCons(c, rest);
      SplitCons(c, rest + "," + b);
    }
  }

  lemma {:induction false} SplitOne(p: string)
    requires NoComma(p)
    ensures Split(p) == [p]
  {
    if p != "" {
      assert p[0] in p && forall c :: c in p[1..] ==> c in p;
      SplitOne(p[1..]);
      assert [p[0]] + p[1..] == p;
    }
  }

  /** Splitting a joined list gives the list back, unless the list is empty. */
  lemma {:induction false} SplitJoin(parts: seq<string>)
    requires forall p :: p in parts ==> NoComma(p)
    ensures Split(Join(parts)) == if parts == [] then [""] else parts
  {
    if |parts| == 1 {
      SplitOne(parts[0]);
    } else if |parts| > 1 {
      SplitJoin(parts[1..]);
      SplitConcat(parts[0], Join(parts[1..]));
      SplitOne(parts[0]);
    }
  }

  predicate NonEmpty(s: string) {
    s != ""
  }

  /** `[p for p in s.split(",") if p]`. */
  function Items(s: string): seq<string> {
    Filter(Split(s), NonEmpty)
  }

  /** A list of non-empty comma-free strings survives being stored as one string. */
  lemma ItemsOfJoin(parts: seq<string>)
    requires forall p :: p in parts ==> NoComma(p) && p != ""
    ensures Items(Join(parts)) == parts
  {
    SplitJoin(parts);
    if parts == [] {
      assert [""][..0] == [];
    } else {
      FilterAll(parts, NonEmpty);
    }
  }
}
