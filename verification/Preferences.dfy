/** Saving, exporting, previewing and importing a user's preferences. */
module Preferences {
  import opened Common
  import opened Text

  type User = string

  const DAY_CODES: seq<string> := ["mon", "tue", "wed", "thu", "fri", "sat", "sun"]
  const JOB_STATUSES: seq<string> := ["applied", "ignored", "accepted", "rejected", "not_interested"]
  const MAX_DIGEST_RECIPIENTS := 5

  /** `^[^@\s]+@[^@\s]+\.[^@\s]+$` on a stripped string. */
  predicate ValidEmail(a: string) {
    && (forall i :: 0 <= i < |a| ==> !IsSpace(a[i]))
    && exists i, j :: 0 < i && i + 1 < j < |a| - 1 && a[i] == '@' && a[j] == '.'
                      && forall k :: 0 <= k < |a| && a[k] == '@' ==> k == i
  }

  /** One row of the settings table, without its SMTP columns. */
  datatype Prefs = Prefs(
    emailDays: string, resendJobs: bool, emailTo: Option<string>, hideNotInterested: bool,
    maxPerCompany: int, excludeStatuses: string, weeklyCheckin: bool)

  /** The codes that were chosen, in the order of the code list. */
  function InOrder(codes: seq<string>, chosen: seq<string>): (r: seq<string>)
    ensures forall c :: c in r <==> c in codes && c in chosen
  {
    Filter(codes, (c: string) => c in chosen)
  }

  /** The address that a string holds, if any. */
  function Address(v: string): seq<string> {
    if ValidEmail(Strip(v)) then [Strip(v)] else []
  }

  /** `[v.strip() for v in values if v.strip() and _is_valid_email(v.strip())]`. */
  function Addresses(values: seq<string>): seq<string> {
    if values == [] then [] else Address(values[0]) + Addresses(values[1..])
  }

  predicate AllValid(values: seq<string>) {
    forall i :: 0 <= i < |values| ==> ValidEmail(values[i])
  }

  function AtMost(values: seq<string>, n: nat): (r: seq<string>)
    ensures r <= values && |r| == if |values| <= n then |values| else n
  {
    if |values| <= n then values else values[..n]
  }

  // ---- the form --------------------------------------------------------------------

  /** The submitted form; `maxPerCompany` is what `int` makes of the field, if anything. */
  datatype Form = Form(
    emailDays: seq<string>, resendJobs: bool, emailTo: seq<string>, hideNotInterested: bool,
    maxPerCompany: Option<int>, excludeStatuses: seq<string>, weeklyCheckin: bool)

  datatype Saving = Saved(prefs: Prefs) | TooManyAddresses | InvalidAddress

  function SaveForm(form: Form): Saving {
    var emails := Stripped(form.emailTo);
    if |emails| > MAX_DIGEST_RECIPIENTS then TooManyAddresses
    else if !AllValid(emails) then InvalidAddress
    else Saved(Prefs(
                 Join(InOrder(DAY_CODES, form.emailDays)), form.resendJobs, Some(Join(emails)), form.hideNotInterested,
                 NonNegative(form.maxPerCompany.GetOr(0)), Join(InOrder(JOB_STATUSES, form.excludeStatuses)),
                 form.weeklyCheckin))
  }

  function NonNegative(n: int): int {
    if n < 0 then 0 else n
  }

  // ---- the export file -------------------------------------------------------------

  datatype Json =
    | Null | Bool(flag: bool) | Int(n: int) | Float(text: string) | Str(s: string)
    | List(items: seq<Json>) | Obj(fields: map<string, Json>)

  function Strs(values: seq<string>): seq<Json> {
    seq(|values|, i requires 0 <= i < |values| => Str(values[i]))
  }

  /** The exported `preferences` object; None is the failure on a row whose `email_to` is null. */
  function Export(settings: Option<Prefs>): Option<Json> {
    match settings
    case None =>
      Some(Payload([], false, [], true, 0, [], false))
    case Some(p) =>
      if p.emailTo.None? then None
      else Some(Payload(Items(p.emailDays), p.resendJobs, Items(p.emailTo.value), p.hideNotInterested,
                        p.maxPerCompany, Items(p.excludeStatuses), p.weeklyCheckin))
  }

  function Payload(days: seq<string>, resend: bool, emails: seq<string>, conceal: bool, max: int,
                   statuses: seq<string>, weekly: bool): Json
  {
    Obj(map["email_days" := List(Strs(days)), "resend_jobs" := Bool(resend), "email_to" := List(Strs(emails)),
            "hide_not_interested_on_map" := Bool(conceal), "digest_max_per_company" := Int(max),
            "digest_exclude_statuses" := List(Strs(statuses)), "send_weekly_checkin" := Bool(weekly)])
  }

  // ---- the import ------------------------------------------------------------------

  datatype Parsing = Parsed(prefs: Prefs) | NoPreferences | NotAnObject

  function Get(fields: map<string, Json>, key: string): Json {
    if key in fields then fields[key] else Null
  }

  /** The strings of a JSON list; of anything else, none. */
  function Strings(j: Json): seq<string> {
    if j.List? then StringsOf(j.items) else []
  }

  function StringsOf(items: seq<Json>): seq<string> {
    if items == [] then []
    else
      var n := |items| - 1;
      StringsOf(items[..n]) + (if items[n].Str? then [items[n].s] else [])
  }

  function Flag(j: Json, default: bool): bool {
    if j.Bool? then j.flag else default
  }

  /** A JSON boolean passes for the integer it is in Python. */
  function Limit(j: Json): int {
    match j
    case Int(n) => NonNegative(n)
    case Bool(b) => if b then 1 else 0
    case _ => 0
  }

  function FromJson(days: Json, resend: Json, emails: Json, conceal: Json, max: Json, statuses: Json,
                    weekly: Json): Prefs {
    Prefs(Join(InOrder(DAY_CODES, Strings(days))), Flag(resend, false),
          Some(Join(AtMost(Addresses(Strings(emails)), MAX_DIGEST_RECIPIENTS))), Flag(conceal, true),
          Limit(max), Join(InOrder(JOB_STATUSES, Strings(statuses))), Flag(weekly, false))
  }

  function ParseFields(f: map<string, Json>): Prefs {
    FromJson(Get(f, "email_days"), Get(f, "resend_jobs"), Get(f, "email_to"), Get(f, "hide_not_interested_on_map"),
             Get(f, "digest_max_per_company"), Get(f, "digest_exclude_statuses"), Get(f, "send_weekly_checkin"))
  }

  function Parse(preferences: Json): Parsing {
    match preferences
    case Null => NoPreferences
    case Obj(f) => Parsed(ParseFields(f))
    case _ => NotAnObject
  }

  /** The settings table. */
  class SettingsStore {
    var rows: map<User, Prefs>

    constructor ()
      ensures rows == map[]
    {
      rows := map[];
    }

    /** A form with too many addresses, or one that is not valid, is turned away whole;
        any other is stored in normal form, each flag as it was ticked, and nobody else's
        settings change. */
    method SavePreferences(user: User, form: Form) returns (outcome: Saving)
      modifies this
      ensures outcome == SaveForm(form)
      ensures rows == if outcome.Saved? then old(rows)[user := outcome.prefs] else old(rows)
      ensures outcome.TooManyAddresses? <==> |Stripped(form.emailTo)| > 5
      ensures outcome.Saved? <==>
                |Stripped(form.emailTo)| <= 5 && forall a :: a in Stripped(form.emailTo) ==> ValidEmail(a)
      ensures outcome.Saved? ==>
                && Normal(outcome.prefs, form.emailDays, Stripped(form.emailTo), form.excludeStatuses)
                && (outcome.prefs.resendJobs <==> form.resendJobs)
                && (outcome.prefs.hideNotInterested <==> form.hideNotInterested)
                && (outcome.prefs.weeklyCheckin <==> form.weeklyCheckin)
                && var max := form.maxPerCompany;
                   outcome.prefs.maxPerCompany == if max.Some? && max.value >= 0 then max.value else 0
    {
      var days := Join(InOrder(DAY_CODES, form.emailDays));
      var submitted := Stripped(form.emailTo);
      var max := NonNegative(form.maxPerCompany.GetOr(0));
      var statuses := Join(InOrder(JOB_STATUSES, form.excludeStatuses));
      if |submitted| > MAX_DIGEST_RECIPIENTS {
        return TooManyAddresses;
      }
      if !AllValid(submitted) {
        return InvalidAddress;
      }
      var prefs := Prefs(days, form.resendJobs, Some(Join(submitted)), form.hideNotInterested, max, statuses,
                         form.weeklyCheckin);
      rows := rows[user := prefs];
      return Saved(prefs);
    }

    /** The preferences part of a confirmed import: a preferences object is stored in
        normal form, from whatever it holds; a file without one, or with something else
        in its place, changes nothing; and no other user's settings change. */
    method ImportPreferences(user: User, preferences: Json) returns (outcome: Parsing)
      modifies this
      ensures outcome.NoPreferences? <==> preferences.Null?
      ensures outcome.Parsed? <==> preferences.Obj?
      ensures !preferences.Obj? ==> rows == old(rows)
      ensures preferences.Obj? ==>
                && rows == old(rows)[user := outcome.prefs]
                && Normal(outcome.prefs, Strings(Get(preferences.fields, "email_days")),
                          KeptAddresses(preferences.fields),
                          Strings(Get(preferences.fields, "digest_exclude_statuses")))
                && (outcome.prefs.resendJobs <==> Get(preferences.fields, "resend_jobs") == Bool(true))
                && (outcome.prefs.hideNotInterested
                    <==> Get(preferences.fields, "hide_not_interested_on_map") != Bool(false))
                && (outcome.prefs.weeklyCheckin <==> Get(preferences.fields, "send_weekly_checkin") == Bool(true))
                && var max := Get(preferences.fields, "digest_max_per_company");
                   outcome.prefs.maxPerCompany
                   == if max.Int? && max.n >= 0 then max.n else if max == Bool(true) then 1 else 0
    {
      outcome := Parse(preferences);
      if outcome.Parsed? {
        AddressesValid(Strings(Get(preferences.fields, "email_to")));
        rows := rows[user := outcome.prefs];
      }
    }
  }

  // ---- the preview -----------------------------------------------------------------

  datatype Key =
    EmailDays | ResendJobs | EmailTo | HideNotInterested | MaxPerCompany | ExcludeStatuses | WeeklyCheckin

  const KEYS: seq<Key> :=
    [EmailDays, ResendJobs, EmailTo, HideNotInterested, MaxPerCompany, ExcludeStatuses, WeeklyCheckin]

  datatype Value = Missing | Text(s: string) | Truth(b: bool) | Count(n: int)

  function Field(p: Prefs, key: Key): Value {
    match key
    case EmailDays => Text(p.emailDays)
    case ResendJobs => Truth(p.resendJobs)
    case EmailTo => if p.emailTo.Some? then Text(p.emailTo.value) else Missing
    case HideNotInterested => Truth(p.hideNotInterested)
    case MaxPerCompany => Count(p.maxPerCompany)
    case ExcludeStatuses => Text(p.excludeStatuses)
    case WeeklyCheckin => Truth(p.weeklyCheckin)
  }

  /** Each key shows its own column. */
  lemma FieldsAre(p: Prefs)
    ensures Field(p, EmailDays) == Text(p.emailDays) && Field(p, ResendJobs) == Truth(p.resendJobs)
    ensures Field(p, EmailTo) == if p.emailTo.Some? then Text(p.emailTo.value) else Missing
    ensures Field(p, HideNotInterested) == Truth(p.hideNotInterested)
    ensures Field(p, MaxPerCompany) == Count(p.maxPerCompany)
    ensures Field(p, ExcludeStatuses) == Text(p.excludeStatuses) && Field(p, WeeklyCheckin) == Truth(p.weeklyCheckin)
  {
  }

  datatype Change = Change(key: Key, old_: Value, new_: Value)

  function OldValue(existing: Option<Prefs>, key: Key): Value {
    if existing.Some? then Field(existing.value, key) else Missing
  }

  function Changes(existing: Option<Prefs>, prefs: Prefs, keys: seq<Key>): seq<Change> {
    if keys == [] then []
    else
      var n := |keys| - 1;
      var was, becomes := OldValue(existing, keys[n]), Field(prefs, keys[n]);
      Changes(existing, prefs, keys[..n]) + (if was != becomes then [Change(keys[n], was, becomes)] else [])
  }

  method PreferenceDiff(existing: Option<Prefs>, parsed: Parsing) returns (changes: seq<Change>)
    requires !parsed.NotAnObject?
    ensures changes == if parsed.Parsed? then Changes(existing, parsed.prefs, KEYS) else []
  {
    changes := [];
    if parsed.NoPreferences? {
      return;
    }
    for i := 0 to |KEYS|
      invariant changes == Changes(existing, parsed.prefs, KEYS[..i])
    {
      var was, becomes := OldValue(existing, KEYS[i]), Field(parsed.prefs, KEYS[i]);
      if was != becomes {
        changes := changes + [Change(KEYS[i], was, becomes)];
      }
      assert KEYS[..i + 1][..i] == KEYS[..i];
    }
    assert KEYS[..|KEYS|] == KEYS;
  }

  lemma {:induction false} ChangesListed(existing: Option<Prefs>, prefs: Prefs, keys: seq<Key>, c: Change)
    ensures c in Changes(existing, prefs, keys)
       <==> c.key in keys && c.old_ == OldValue(existing, c.key) && c.new_ == Field(prefs, c.key) && c.old_ != c.new_
  {
    if keys != [] {
      var n := |keys| - 1;
      ChangesListed(existing, prefs, keys[..n], c);
      assert keys == keys[..n] + [keys[n]];
    }
  }

  lemma EveryKey(key: Key)
    ensures key in KEYS
  {
    assert KEYS[0] == EmailDays && KEYS[1] == ResendJobs && KEYS[2] == EmailTo && KEYS[3] == HideNotInterested
        && KEYS[4] == MaxPerCompany && KEYS[5] == ExcludeStatuses && KEYS[6] == WeeklyCheckin;
  }

  /** The preview is empty exactly when importing changes nothing. */
  lemma NoChangeIffEqual(p: Prefs, prefs: Prefs)
    ensures Changes(Some(p), prefs, KEYS) == [] <==> p == prefs
  {
    forall key: Key ensures Field(p, key) != Field(prefs, key)
                            <==> Change(key, Field(p, key), Field(prefs, key)) in Changes(Some(p), prefs, KEYS)
    {
      EveryKey(key);
      ChangesListed(Some(p), prefs, KEYS, Change(key, Field(p, key), Field(prefs, key)));
    }
    if Changes(Some(p), prefs, KEYS) == [] {
      assert Field(p, EmailDays) == Field(prefs, EmailDays) && Field(p, ResendJobs) == Field(prefs, ResendJobs)
          && Field(p, EmailTo) == Field(prefs, EmailTo)
          && Field(p, HideNotInterested) == Field(prefs, HideNotInterested)
          && Field(p, MaxPerCompany) == Field(prefs, MaxPerCompany)
          && Field(p, ExcludeStatuses) == Field(prefs, ExcludeStatuses)
          && Field(p, WeeklyCheckin) == Field(prefs, WeeklyCheckin);
    } else {
      var c := Changes(Some(p), prefs, KEYS)[0];
      assert c in Changes(Some(p), prefs, KEYS);
      ChangesListed(Some(p), prefs, KEYS, c);
    }
  }

  // ---- code lists come back --------------------------------------------------------

  lemma InOrderTwice(codes: seq<string>, chosen: seq<string>)
    ensures InOrder(codes, InOrder(codes, chosen)) == InOrder(codes, chosen)
  {
    FilterCongruent(codes, (c: string) => c in InOrder(codes, chosen), (c: string) => c in chosen);
  }

  lemma {:induction false} StringsOfStrs(values: seq<string>)
    ensures Strings(List(Strs(values))) == values
  {
    if values != [] {
      var n := |values| - 1;
      StringsOfStrs(values[..n]);
      assert Strs(values)[..n] == Strs(values[..n]);
      assert values == values[..n] + [values[n]];
    }
  }

  predicate Codes(codes: seq<string>) {
    forall c :: c in codes ==> NoComma(c) && c != ""
  }

  /** A stored code list survives export and import. */
  lemma CodesRoundTrip(codes: seq<string>, chosen: seq<string>)
    requires Codes(codes)
    ensures var stored := Join(InOrder(codes, chosen));
            Join(InOrder(codes, Strings(List(Strs(Items(stored)))))) == stored
  {
    ItemsOfJoin(InOrder(codes, chosen));
    StringsOfStrs(InOrder(codes, chosen));
    InOrderTwice(codes, chosen);
  }

  lemma CodeLists()
    ensures Codes(DAY_CODES) && Codes(JOB_STATUSES)
  {
  }

  // ---- addresses come back, without commas -----------------------------------------

  lemma ValidIsStripped(a: string)
    requires ValidEmail(a)
    ensures Strip(a) == a && a != ""
  {
    StripStripped(a);
  }

  lemma {:induction false} AddressesConcat(a: seq<string>, b: seq<string>)
    ensures Addresses(a + b) == Addresses(a) + Addresses(b)
  {
    if a == [] {
      assert a + b == b;
    } else {
      assert (a + b)[1..] == a[1..] + b;
      AddressesConcat(a[1..], b);
    }
  }

  /** The stripped values that are addresses, in order. */
  lemma AddressesSnoc(values: seq<string>, v: string)
    ensures Addresses([]) == []
    ensures Addresses(values + [v]) == Addresses(values) + if ValidEmail(Strip(v)) then [Strip(v)] else []
  {
    AddressesConcat(values, [v]);
    OneOf(v);
  }

  /** The strings of a list, in order; of anything but a list, none. */
  lemma StringsSnoc(items: seq<Json>, j: Json)
    ensures Strings(List([])) == [] && (!j.List? ==> Strings(j) == [])
    ensures Strings(List(items + [j])) == Strings(List(items)) + if j.Str? then [j.s] else []
  {
    assert (items + [j])[..|items|] == items;
  }

  lemma OneOf(v: string)
    ensures Addresses([v]) == Address(v)
    ensures v == "" ==> Address(v) == []
  {
    assert [v][1..] == [];
  }

  /** Skipping an empty string changes nothing. */
  lemma SkipOne(kept: seq<string>, front: seq<string>, v: string)
    requires Addresses(kept) == Addresses(front)
    ensures Addresses(kept + (if NonEmpty(v) then [v] else [])) == Addresses(front + [v])
  {
    AddressesConcat(front, [v]);
    AddressesConcat(kept, [v]);
    OneOf(v);
    assert kept + [] == kept;
  }

  lemma {:induction false} AddressesSkipEmpty(values: seq<string>)
    ensures Addresses(Filter(values, NonEmpty)) == Addresses(values)
  {
    if values != [] {
      var front, v := values[..|values| - 1], values[|values| - 1];
      AddressesSkipEmpty(front);
      FilterSnoc(front, v, NonEmpty);
      SkipOne(Filter(front, NonEmpty), front, v);
      LastOf(values);
    }
  }

  lemma LastOf(values: seq<string>)
    requires values != []
    ensures values == values[..|values| - 1] + [values[|values| - 1]]
  {
  }

  // ---- how much of a stored list comes back ------------------------------------------

  /** The length of the joined list, with a comma after every part. */
  function Weight(parts: seq<string>): nat {
    if parts == [] then 0 else |parts[0]| + 1 + Weight(parts[1..])
  }

  lemma {:induction false} JoinWeight(parts: seq<string>)
    ensures |Join(parts)| == if parts == [] then 0 else Weight(parts) - 1
  {
    if parts != [] {
      JoinWeight(parts[1..]);
    }
  }

  lemma {:induction false} WeightConcat(a: seq<string>, b: seq<string>)
    ensures Weight(a + b) == Weight(a) + Weight(b)
  {
    if a == [] {
      assert a + b == b;
    } else {
      assert (a + b)[1..] == a[1..] + b;
      WeightConcat(a[1..], b);
    }
  }

  lemma {:induction false} SplitWeight(s: string)
    ensures Weight(Split(s)) == |s| + 1
  {
    if s != "" {
      SplitWeight(s[1..]);
      var rest := Split(s[1..]);
      assert ([""] + rest)[1..] == rest;
      assert ([[s[0]] + rest[0]] + rest[1..])[1..] == rest[1..];
    }
  }

  function Ats(s: string): nat {
    if s == "" then 0 else (if s[0] == '@' then 1 else 0) + Ats(s[1..])
  }

  function AtsOf(parts: seq<string>): nat {
    if parts == [] then 0 else Ats(parts[0]) + AtsOf(parts[1..])
  }

  lemma {:induction false} SplitAts(s: string)
    ensures AtsOf(Split(s)) == Ats(s)
  {
    if s != "" {
      SplitAts(s[1..]);
      var rest := Split(s[1..]);
      assert ([""] + rest)[1..] == rest;
      var first := [s[0]] + rest[0];
      assert first[1..] == rest[0];
      assert ([first] + rest[1..])[1..] == rest[1..];
    }
  }

  lemma {:induction false} NoAts(s: string)
    requires forall i :: 0 <= i < |s| ==> s[i] != '@'
    ensures Ats(s) == 0
  {
    if s != "" {
      NoAts(s[1..]);
    }
  }

  lemma {:induction false} OneAt(s: string, i: nat)
    requires i < |s| && s[i] == '@' && forall k :: 0 <= k < |s| && s[k] == '@' ==> k == i
    ensures Ats(s) == 1
  {
    if i == 0 {
      NoAts(s[1..]);
    } else {
      assert s[1..][i - 1] == '@';
      OneAt(s[1..], i - 1);
    }
  }

  lemma {:induction false} SomeAt(s: string, i: nat)
    requires i < |s| && s[i] == '@'
    ensures Ats(s) >= 1
  {
    if i > 0 {
      SomeAt(s[1..], i - 1);
    }
  }

  /** A part that yields an address holds an '@' and is no shorter than it. */
  lemma YieldingPart(p: string)
    ensures |Address(p)| <= Ats(p)
    ensures Weight(Address(p)) + 1 - |Address(p)| <= |p| + 1
  {
    var a := Strip(p);
    if ValidEmail(a) {
      var i, j :| 0 < i && i + 1 < j < |a| - 1 && a[i] == '@' && a[j] == '.'
                && forall k :: 0 <= k < |a| && a[k] == '@' ==> k == i;
      StripWithin(p, i);
      var at :| 0 <= at < |p| && p[at] == a[i];
      SomeAt(p, at);
    }
  }

  lemma {:induction false} StripLeftWithin(s: string, i: nat)
    requires i < |StripLeft(s)|
    ensures exists k :: 0 <= k < |s| && s[k] == StripLeft(s)[i]
  {
    if s != "" && IsSpace(s[0]) {
      StripLeftWithin(s[1..], i);
      var k :| 0 <= k < |s[1..]| && s[1..][k] == StripLeft(s)[i];
      assert s[k + 1] == StripLeft(s)[i];
    }
  }

  lemma StripWithin(s: string, i: nat)
    requires i < |Strip(s)|
    ensures |Strip(s)| <= |s|
    ensures exists k :: 0 <= k < |s| && s[k] == Strip(s)[i]
  {
    assert Strip(s)[i] == StripLeft(s)[i];
    StripLeftWithin(s, i);
  }

  /** Parts yield at most one address per '@', and lose the weight of parts that yield none. */
  lemma {:induction false} YieldBound(parts: seq<string>)
    ensures var r := Addresses(parts);
            |r| <= AtsOf(parts) && Weight(r) + (|parts| - |r|) <= Weight(parts)
  {
    if parts != [] {
      var rest := parts[1..];
      YieldBound(rest);
      YieldingPart(parts[0]);
      WeightConcat(Address(parts[0]), Addresses(rest));
    }
  }

  lemma {:induction false} SplitsAtCommas(s: string)
    ensures |Split(s)| == 1 <==> NoComma(s)
  {
    if s != "" {
      SplitsAtCommas(s[1..]);
      assert s == [s[0]] + s[1..];
    }
  }

  /** What comes back of one address: at most one address, lighter when it had a comma. */
  lemma OneAddress(a: string)
    requires ValidEmail(a)
    ensures var r := Addresses(Split(a));
            && |r| <= 1 && Weight(r) <= |a| + 1
            && (NoComma(a) ==> r == [a]) && (!NoComma(a) ==> Weight(r) < |a| + 1)
  {
    var i, j :| 0 < i && i + 1 < j < |a| - 1 && a[i] == '@' && a[j] == '.'
              && forall k :: 0 <= k < |a| && a[k] == '@' ==> k == i;
    OneAt(a, i);
    SplitAts(a);
    SplitWeight(a);
    YieldBound(Split(a));
    SplitsAtCommas(a);
    if NoComma(a) {
      SplitOne(a);
      ValidIsStripped(a);
      OneOf(a);
    }
  }

  predicate CommaFree(values: seq<string>) {
    forall i :: 0 <= i < |values| ==> NoComma(values[i])
  }

  /** What comes back of a joined list: never more addresses, and lighter when one of
      them had a comma. */
  ghost predicate ComesBack(values: seq<string>, r: seq<string>) {
    && |r| <= |values| && Weight(r) <= Weight(values)
    && (CommaFree(values) ==> r == values) && (!CommaFree(values) ==> Weight(r) < Weight(values))
  }

  lemma ComesBackOne(v: string, r: seq<string>)
    requires |r| <= 1 && Weight(r) <= |v| + 1
    requires (NoComma(v) ==> r == [v]) && (!NoComma(v) ==> Weight(r) < |v| + 1)
    ensures ComesBack([v], r)
  {
    assert CommaFree([v]) <==> NoComma([v][0]);
    assert Weight([v]) == |v| + 1;
  }

  lemma ComesBackBoth(a: seq<string>, ra: seq<string>, b: seq<string>, rb: seq<string>)
    requires ComesBack(a, ra) && ComesBack(b, rb)
    ensures ComesBack(a + b, ra + rb)
  {
    WeightConcat(a, b);
    WeightConcat(ra, rb);
    if CommaFree(a + b) {
      assert forall i :: 0 <= i < |a| ==> a[i] == (a + b)[i];
      assert forall i :: 0 <= i < |b| ==> b[i] == (a + b)[i + |a|];
    } else if CommaFree(a) {
      assert forall i :: 0 <= i < |a| ==> NoComma(a[i]) && a[i] == (a + b)[i];
      var i :| 0 <= i < |a + b| && !NoComma((a + b)[i]);
      assert !NoComma(b[i - |a|]);
    }
  }

  lemma {:induction false} ManyAddresses(values: seq<string>)
    requires AllValid(values) && values != []
    ensures ComesBack(values, Addresses(Split(Join(values))))
  {
    var v, rest := values[0], values[1..];
    OneAddress(v);
    ComesBackOne(v, Addresses(Split(v)));
    assert values == [v] + rest;
    if rest != [] {
      ManyAddresses(rest);
      SplitConcat(v, Join(rest));
      AddressesConcat(Split(v), Split(Join(rest)));
      ComesBackBoth([v], Addresses(Split(v)), rest, Addresses(Split(Join(rest))));
    }
  }

  /** The stored recipients after an export and an import. */
  function Reread(emailTo: string): string {
    Join(AtMost(Addresses(Strings(List(Strs(Items(emailTo))))), MAX_DIGEST_RECIPIENTS))
  }

  lemma RereadSplits(stored: string)
    ensures Reread(stored) == Join(AtMost(Addresses(Split(stored)), MAX_DIGEST_RECIPIENTS))
  {
    StringsOfStrs(Items(stored));
    AddressesSkipEmpty(Split(stored));
  }

  lemma ComesBackEqual(emails: seq<string>, r: seq<string>)
    requires emails != [] && |emails| <= MAX_DIGEST_RECIPIENTS && ComesBack(emails, r) && emails[0] != ""
    ensures Join(AtMost(r, MAX_DIGEST_RECIPIENTS)) == Join(emails) <==> CommaFree(emails)
  {
    JoinWeight(emails);
    JoinWeight(r);
  }

  /** A stored recipient list survives export and import exactly when no address in it
      has a comma. */
  lemma RecipientsRoundTrip(emails: seq<string>)
    requires AllValid(emails) && |emails| <= MAX_DIGEST_RECIPIENTS
    ensures Reread(Join(emails)) == Join(emails) <==> CommaFree(emails)
  {
    RereadSplits(Join(emails));
    if emails == [] {
      OneOf("");
    } else {
      ManyAddresses(emails);
      ValidIsStripped(emails[0]);
      ComesBackEqual(emails, Addresses(Split(Join(emails))));
    }
  }

  // ---- the whole settings ------------------------------------------------------------

  /** What both the form and an import store. */
  ghost predicate Normal(p: Prefs, days: seq<string>, emails: seq<string>, statuses: seq<string>) {
    && p.emailDays == Join(InOrder(DAY_CODES, days))
    && p.emailTo == Some(Join(emails)) && AllValid(emails) && |emails| <= 5
    && p.maxPerCompany >= 0
    && p.excludeStatuses == Join(InOrder(JOB_STATUSES, statuses))
  }

  lemma KeysDiffer()
    ensures |"email_days"| == 10 && |"resend_jobs"| == 11 && |"email_to"| == 8
    ensures |"hide_not_interested_on_map"| == 26 && |"digest_max_per_company"| == 22
    ensures |"digest_exclude_statuses"| == 23 && |"send_weekly_checkin"| == 19
  {
  }

  lemma PayloadFields(j: Json, days: seq<string>, resend: bool, emails: seq<string>, conceal: bool, max: int,
                      statuses: seq<string>, weekly: bool)
    requires j == Payload(days, resend, emails, conceal, max, statuses, weekly)
    ensures Parse(j)
         == Parsed(FromJson(List(Strs(days)), Bool(resend), List(Strs(emails)), Bool(conceal), Int(max),
                            List(Strs(statuses)), Bool(weekly)))
  {
    var f := j.fields;
    KeysDiffer();
    assert Get(f, "email_days") == List(Strs(days));
    assert Get(f, "resend_jobs") == Bool(resend);
    assert Get(f, "email_to") == List(Strs(emails));
    assert Get(f, "hide_not_interested_on_map") == Bool(conceal);
    assert Get(f, "digest_max_per_company") == Int(max);
    assert Get(f, "digest_exclude_statuses") == List(Strs(statuses));
    assert Get(f, "send_weekly_checkin") == Bool(weekly);
  }

  lemma StoredAgain(p: Prefs, days: seq<string>, statuses: seq<string>)
    requires p.emailDays == Join(InOrder(DAY_CODES, days)) && p.emailTo.Some? && p.maxPerCompany >= 0
    requires p.excludeStatuses == Join(InOrder(JOB_STATUSES, statuses))
    ensures FromJson(List(Strs(Items(p.emailDays))), Bool(p.resendJobs), List(Strs(Items(p.emailTo.value))),
                     Bool(p.hideNotInterested), Int(p.maxPerCompany), List(Strs(Items(p.excludeStatuses))),
                     Bool(p.weeklyCheckin))
         == p.(emailTo := Some(Reread(p.emailTo.value)))
  {
    CodeLists();
    CodesRoundTrip(DAY_CODES, days);
    CodesRoundTrip(JOB_STATUSES, statuses);
  }

  lemma NormalReread(p: Prefs, days: seq<string>, emails: seq<string>, statuses: seq<string>)
    requires Normal(p, days, emails, statuses)
    ensures Export(Some(p)).Some?
    ensures Parse(Export(Some(p)).value) == Parsed(p.(emailTo := Some(Reread(p.emailTo.value))))
  {
    StoredAgain(p, days, statuses);
    ExportReads(p, Items(p.emailDays), Items(p.emailTo.value), Items(p.excludeStatuses));
  }

  lemma ExportReads(p: Prefs, days: seq<string>, emails: seq<string>, statuses: seq<string>)
    requires p.emailTo.Some?
    requires days == Items(p.emailDays) && emails == Items(p.emailTo.value) && statuses == Items(p.excludeStatuses)
    ensures Export(Some(p)).Some?
    ensures Parse(Export(Some(p)).value)
         == Parsed(FromJson(List(Strs(days)), Bool(p.resendJobs), List(Strs(emails)), Bool(p.hideNotInterested),
                            Int(p.maxPerCompany), List(Strs(statuses)), Bool(p.weeklyCheckin)))
  {
    var j := ExportIs(p, days, emails, statuses);
    PayloadFields(j, days, p.resendJobs, emails, p.hideNotInterested, p.maxPerCompany, statuses, p.weeklyCheckin);
  }

  lemma ExportIs(p: Prefs, days: seq<string>, emails: seq<string>, statuses: seq<string>) returns (j: Json)
    requires p.emailTo.Some?
    requires days == Items(p.emailDays) && emails == Items(p.emailTo.value) && statuses == Items(p.excludeStatuses)
    ensures Export(Some(p)) == Some(j)
    ensures j == Payload(days, p.resendJobs, emails, p.hideNotInterested, p.maxPerCompany, statuses, p.weeklyCheckin)
  {
    j := Export(Some(p)).value;
  }

  /** Exporting normal settings and parsing the file changes nothing but, perhaps, the
      recipients: those come back exactly when no address has a comma. */
  lemma NormalRoundTrip(p: Prefs, days: seq<string>, emails: seq<string>, statuses: seq<string>)
    requires Normal(p, days, emails, statuses)
    ensures Export(Some(p)).Some?
    ensures Parse(Export(Some(p)).value) == Parsed(p.(emailTo := Some(Reread(p.emailTo.value))))
    ensures Parse(Export(Some(p)).value) == Parsed(p) <==> CommaFree(emails)
  {
    NormalReread(p, days, emails, statuses);
    RecipientsRoundTrip(emails);
  }

  /** Settings saved through the form: parsing the exported payload returns the stored
      values, with an empty preview, if and only if no submitted address has a comma. */
  lemma FormRoundTrip(form: Form)
    requires SaveForm(form).Saved?
    ensures var p := SaveForm(form).prefs;
            && Export(Some(p)).Some? && Parse(Export(Some(p)).value).Parsed?
            && var q := Parse(Export(Some(p)).value).prefs;
            && (q == p <==> CommaFree(Stripped(form.emailTo)))
            && (Changes(Some(p), q, KEYS) == [] <==> CommaFree(Stripped(form.emailTo)))
  {
    var p := SaveForm(form).prefs;
    NormalRoundTrip(p, form.emailDays, Stripped(form.emailTo), form.excludeStatuses);
    NoChangeIffEqual(p, Parse(Export(Some(p)).value).prefs);
  }

  /** The addresses that parsing a file keeps. */
  function KeptAddresses(fields: map<string, Json>): (r: seq<string>)
    ensures r <= Addresses(Strings(Get(fields, "email_to")))
    ensures |r| == 5 || r == Addresses(Strings(Get(fields, "email_to")))
  {
    AtMost(Addresses(Strings(Get(fields, "email_to"))), MAX_DIGEST_RECIPIENTS)
  }

  lemma {:induction false} AddressesValid(values: seq<string>)
    ensures AllValid(Addresses(values))
  {
    if values != [] {
      AddressesValid(values[1..]);
    }
  }

  /** Parsing any preferences object, exporting what was stored and parsing again gives the
      same, if and only if no kept address has a comma. */
  lemma ParseExportParse(fields: map<string, Json>)
    ensures var p := Parse(Obj(fields)).prefs;
            && Export(Some(p)).Some?
            && (Parse(Export(Some(p)).value) == Parse(Obj(fields)) <==> CommaFree(KeptAddresses(fields)))
  {
    AddressesValid(Strings(Get(fields, "email_to")));
    NormalRoundTrip(Parse(Obj(fields)).prefs, Strings(Get(fields, "email_days")), KeptAddresses(fields),
                    Strings(Get(fields, "digest_exclude_statuses")));
  }

  predicate Plain(s: string) {
    s != "" && forall i :: 0 <= i < |s| ==> !IsSpace(s[i]) && s[i] != '@'
  }

  /** An address is valid exactly when it is a name, an '@', a domain, a dot and an ending,
      none of them empty and none with white space or another '@'. */
  lemma ValidEmailMeans(a: string)
    ensures ValidEmail(a)
       <==> exists name, domain, end ::
              Plain(name) && Plain(domain) && Plain(end) && a == name + "@" + domain + "." + end
  {
    if ValidEmail(a) {
      var i, j :| 0 < i && i + 1 < j < |a| - 1 && a[i] == '@' && a[j] == '.'
                && forall k :: 0 <= k < |a| && a[k] == '@' ==> k == i;
      var name, domain, end := a[..i], a[i + 1..j], a[j + 1..];
      assert Plain(name) && Plain(domain) && Plain(end);
      assert a == name + "@" + domain + "." + end;
    }
    if exists name, domain, end ::
         Plain(name) && Plain(domain) && Plain(end) && a == name + "@" + domain + "." + end {
      var name, domain, end :| Plain(name) && Plain(domain) && Plain(end) && a == name + "@" + domain + "." + end;
      PartsValid(name, domain, end);
    }
  }

  lemma PartsValid(name: string, domain: string, end: string)
    requires Plain(name) && Plain(domain) && Plain(end)
    ensures ValidEmail(name + "@" + domain + "." + end)
  {
    var a := name + "@" + domain + "." + end;
    var i, j := |name|, |name| + 1 + |domain|;
    assert a[i] == '@' && a[j] == '.';
    forall k | 0 <= k < |a| && k != i ensures a[k] != '@' && !IsSpace(a[k]) {
      assert a[k] == if k < i then name[k] else if k < j then domain[k - i - 1]
                     else if k == j then '.' else end[k - j - 1];
    }
  }

  lemma CommaAddressValid()
    ensures ValidEmail("a,b@c.d")
  {
    var a := "a,b@c.d";
    assert a[3] == '@' && a[5] == '.';
  }

  /** What exporting without any settings says is what an empty preferences object means. */
  lemma NoSettingsIsEmptyFile()
    ensures Export(None).Some? && Parse(Export(None).value) == Parse(Obj(map[]))
  {
    PayloadFields(Export(None).value, [], false, [], true, 0, [], false);
    EmptyFile();
    assert Strs([]) == [];
  }

  lemma EmptyFile()
    ensures Parse(Obj(map[]))
         == Parsed(FromJson(List([]), Bool(false), List([]), Bool(true), Int(0), List([]), Bool(false)))
  {
    assert forall key :: Get(map[], key) == Null;
  }

  /** Exporting fails on exactly the rows whose recipients are null. */
  lemma ExportFails(settings: Option<Prefs>)
    ensures Export(settings).None? <==> settings.Some? && settings.value.emailTo.None?
  {
  }

  /** A valid address with a comma: stored, exported, and read back as another address. */
  lemma CommaAddress()
    ensures ValidEmail("a,b@c.d") && Reread("a,b@c.d") != "a,b@c.d"
  {
    var a := "a,b@c.d";
    CommaAddressValid();
    RecipientsRoundTrip([a]);
    assert a[1] == ',' && a == [a][0];
    assert Join([a]) == a;
  }
}
