/** The list and count queries over the joined tables. */
module JobQueries {
  import opened Common
  import opened Sql
  import opened JobFilters

  datatype JobRow = JobRow(
    user: string, key: string, title: string, company: Option<string>, location: Option<string>,
    locationOverride: Option<string>, sourceName: string, removedAt: Option<int>, emailedAt: Option<int>,
    status: Option<string>, isDuplicate: bool, firstSeenAt: int)

  datatype Account = Account(id: string, username: string)

  /** Primary keys: (user, key) of jobs, location of geocoded_locations, id of users. */
  datatype Tables = Tables(jobs: seq<JobRow>, geos: seq<Geo>, users: seq<Account>)

  predicate PrimaryKeys(t: Tables) {
    && (forall i, j :: 0 <= i < j < |t.jobs| ==> t.jobs[i].user != t.jobs[j].user || t.jobs[i].key != t.jobs[j].key)
    && (forall i, j :: 0 <= i < j < |t.geos| ==> t.geos[i].location != t.geos[j].location)
    && (forall i, j :: 0 <= i < j < |t.users| ==> t.users[i].id != t.users[j].id)
  }

  // ---- LEFT JOIN --------------------------------------------------------------------

  function Pairs<A, B>(a: A, bs: seq<B>): (r: seq<(A, Option<B>)>)
    ensures |r| == |bs|
  {
    seq(|bs|, i requires 0 <= i < |bs| => (a, Some(bs[i])))
  }

  /** Every left row with each of its matches, or with NULLs when it has none. */
  function JoinOne<A, B(!new)>(a: A, right: seq<B>, on: (A, B) -> bool): seq<(A, Option<B>)> {
    var bs := Filter(right, b => on(a, b));
    if bs == [] then [(a, None)] else Pairs(a, bs)
  }

  function LeftJoin<A, B(!new)>(left: seq<A>, right: seq<B>, on: (A, B) -> bool): seq<(A, Option<B>)> {
    if left == [] then []
    else LeftJoin(left[..|left| - 1], right, on) + JoinOne(left[|left| - 1], right, on)
  }

  /** No two rows on the right match the same left row. */
  ghost predicate AtMostOne<A(!new), B>(right: seq<B>, on: (A, B) -> bool) {
    forall a, i, j :: 0 <= i < j < |right| ==> !(on(a, right[i]) && on(a, right[j]))
  }

  lemma {:induction false} FewMatches<A(!new), B(!new)>(a: A, right: seq<B>, on: (A, B) -> bool)
    requires AtMostOne(right, on)
    ensures |Filter(right, b => on(a, b))| <= 1
  {
    if right != [] {
      var n := |right| - 1;
      FewMatches(a, right[..n], on);
      var front := Filter(right[..n], b => on(a, b));
      assert front != [] ==> front[0] in front;
    }
  }

  /** A condition on the left row, for a joined row. */
  function OnLeft<A, B>(p: A -> bool): ((A, Option<B>)) -> bool {
    (x: (A, Option<B>)) => p(x.0)
  }

  lemma OneRow<A(!new), B(!new)>(a: A, right: seq<B>, on: (A, B) -> bool, p: A -> bool)
    requires AtMostOne(right, on)
    ensures Lefts(Filter(JoinOne(a, right, on), OnLeft(p))) == if p(a) then [a] else []
  {
    FewMatches(a, right, on);
    var one := JoinOne(a, right, on);
    assert |one| == 1 && one[0].0 == a && one[..0] == [];
    assert Filter(one, OnLeft(p)) == if p(a) then one else [];
  }

  /** Filtering the joined rows by a condition on the left side counts, and lists, the
      left rows that meet it: a join on a unique key neither drops nor repeats a row. */
  lemma {:induction false} JoinKeepsRows<A(!new), B(!new)>(left: seq<A>, right: seq<B>, on: (A, B) -> bool,
                                                           p: A -> bool)
    requires AtMostOne(right, on)
    ensures Lefts(Filter(LeftJoin(left, right, on), OnLeft(p))) == Filter(left, p)
  {
    if left != [] {
      var n := |left| - 1;
      var front, one := LeftJoin(left[..n], right, on), JoinOne(left[n], right, on);
      JoinKeepsRows(left[..n], right, on, p);
      OneRow(left[n], right, on, p);
      FilterConcat(front, one, OnLeft(p));
      LeftsConcat(Filter(front, OnLeft(p)), Filter(one, OnLeft(p)));
    }
  }

  function Lefts<A, B>(xs: seq<(A, Option<B>)>): (r: seq<A>)
    ensures |r| == |xs|
  {
    seq(|xs|, i requires 0 <= i < |xs| => xs[i].0)
  }

  lemma LeftsConcat<A, B>(a: seq<(A, Option<B>)>, b: seq<(A, Option<B>)>)
    ensures Lefts(a + b) == Lefts(a) + Lefts(b)
  {
  }

  // ---- list_jobs and count_jobs -------------------------------------------------------

  /** NULL equals nothing, so a job without a location matches no geocoded row. */
  function OnLocation(): (JobRow, Geo) -> bool {
    (j: JobRow, g: Geo) => j.location == Some(g.location)
  }

  type Located = (JobRow, Option<Geo>)

  function OnOverride(): (Located, Geo) -> bool {
    (x: Located, g: Geo) => x.0.locationOverride == Some(g.location)
  }

  type Overridden = (Located, Option<Geo>)

  function OnUser(): (Overridden, Account) -> bool {
    (x: Overridden, a: Account) => x.0.0.user == a.id
  }

  function JoinedOf(x: Located): Joined {
    var j := x.0;
    Joined(j.title, j.company, j.sourceName, j.removedAt, j.emailedAt, j.status, j.isDuplicate, j.user, x.1)
  }

  /** The compiled WHERE clause, evaluated on a job with its own location. */
  function Selected(env: Engine, f: Filters): Located -> bool {
    (x: Located) => Admits(env, JoinAnd(Clauses(Parts(f))), Params(Parts(f)), JoinedOf(x)) == Some(true)
  }

  /** The rows that both queries range over. */
  function Hits(env: Engine, t: Tables, f: Filters): seq<Located> {
    Filter(LeftJoin(t.jobs, t.geos, OnLocation()), Selected(env, f))
  }

  function CountJobs(env: Engine, t: Tables, f: Filters): nat {
    |Hits(env, t, f)|
  }

  /** `list_jobs` without LIMIT, before ORDER BY: three joins, then the same filters. */
  function SelectJobs(env: Engine, t: Tables, f: Filters): seq<(Overridden, Option<Account>)> {
    Filter(LeftJoin(LeftJoin(LeftJoin(t.jobs, t.geos, OnLocation()), t.geos, OnOverride()), t.users, OnUser()),
           OnLeft(OnLeft(Selected(env, f))))
  }

  /** Both queries see the same jobs: the list has as many rows as the count says. */
  lemma CountIsListLength(env: Engine, t: Tables, f: Filters)
    requires PrimaryKeys(t)
    ensures Lefts(Lefts(SelectJobs(env, t, f))) == Hits(env, t, f)
    ensures |SelectJobs(env, t, f)| == CountJobs(env, t, f)
  {
    var located := LeftJoin(t.jobs, t.geos, OnLocation());
    var overridden := LeftJoin(located, t.geos, OnOverride());
    var p := Selected(env, f);
    UniqueMatches(t);
    JoinKeepsRows(overridden, t.users, OnUser(), OnLeft(p));
    JoinKeepsRows(located, t.geos, OnOverride(), p);
  }

  lemma UniqueMatches(t: Tables)
    requires PrimaryKeys(t)
    ensures AtMostOne(t.geos, OnOverride()) && AtMostOne(t.users, OnUser()) && AtMostOne(t.geos, OnLocation())
  {
  }

  /** Each stored job is joined once, so it is listed at most once. */
  lemma EachJobOnce(t: Tables)
    requires PrimaryKeys(t)
    ensures Lefts(LeftJoin(t.jobs, t.geos, OnLocation())) == t.jobs
  {
    var all := LeftJoin(t.jobs, t.geos, OnLocation());
    var any := (j: JobRow) => true;
    UniqueMatches(t);
    JoinKeepsRows(t.jobs, t.geos, OnLocation(), any);
    FilterAll(all, OnLeft(any));
    FilterAll(t.jobs, any);
  }

  /** Each stored job is in the list exactly when the filters describe it. */
  lemma ListedIffMatching(env: Engine, t: Tables, f: Filters, x: Located)
    requires x in LeftJoin(t.jobs, t.geos, OnLocation())
    ensures x in Hits(env, t, f) <==> Matches(env, f, JoinedOf(x))
  {
    FiltersMean(env, f, JoinedOf(x));
  }

  // ---- the list, row by row ----------------------------------------------------------

  /** The geocoded row of a location, if there is one. */
  predicate GeoOf(geos: seq<Geo>, location: Option<string>, g: Option<Geo>) {
    match g
    case Some(found) => found in geos && location == Some(found.location)
    case None => forall other :: other in geos ==> location != Some(other.location)
  }

  predicate AccountOf(users: seq<Account>, id: string, a: Option<Account>) {
    match a
    case Some(found) => found in users && found.id == id
    case None => forall other :: other in users ==> other.id != id
  }

  /** The row that the filters see of a job. */
  function Seen(j: JobRow, g: Option<Geo>): Joined {
    Joined(j.title, j.company, j.sourceName, j.removedAt, j.emailedAt, j.status, j.isDuplicate, j.user, g)
  }

  /** A joined row is a left row with its match, or with none when it has none. */
  lemma {:induction false} JoinedRow<A, B(!new)>(left: seq<A>, right: seq<B>, on: (A, B) -> bool, x: (A, Option<B>))
    requires x in LeftJoin(left, right, on)
    ensures x.0 in left
    ensures match x.1
            case Some(b) => b in right && on(x.0, b)
            case None => forall b :: b in right ==> !on(x.0, b)
  {
    var n := |left| - 1;
    if x in LeftJoin(left[..n], right, on) {
      JoinedRow(left[..n], right, on, x);
    } else {
      var bs := Filter(right, b => on(left[n], b));
      assert x in JoinOne(left[n], right, on);
      if bs == [] {
        forall b | b in right ensures !on(left[n], b) {
          assert b !in bs;
        }
      } else {
        var i :| 0 <= i < |bs| && x == Pairs(left[n], bs)[i];
        assert bs[i] in bs;
      }
    }
  }

  /** Every row of the list is a stored job with the geocoded rows of its own two locations
      and its user's account. */
  lemma ListedRow(env: Engine, t: Tables, f: Filters, x: (Overridden, Option<Account>))
    requires PrimaryKeys(t) && x in SelectJobs(env, t, f)
    ensures var j := x.0.0.0;
            && j in t.jobs
            && GeoOf(t.geos, j.location, x.0.0.1) && GeoOf(t.geos, j.locationOverride, x.0.1)
            && AccountOf(t.users, j.user, x.1)
  {
    var located := LeftJoin(t.jobs, t.geos, OnLocation());
    var overridden := LeftJoin(located, t.geos, OnOverride());
    JoinedRow(overridden, t.users, OnUser(), x);
    JoinedRow(located, t.geos, OnOverride(), x.0);
    JoinedRow(t.jobs, t.geos, OnLocation(), x.0.0);
  }

  lemma SameGeo(t: Tables, location: Option<string>, g: Option<Geo>, h: Option<Geo>)
    requires PrimaryKeys(t) && GeoOf(t.geos, location, g) && GeoOf(t.geos, location, h)
    ensures g == h
  {
    if g.Some? && h.Some? {
      var a :| 0 <= a < |t.geos| && t.geos[a] == g.value;
      var b :| 0 <= b < |t.geos| && t.geos[b] == h.value;
      if a != b { assert false; }
    }
  }

  lemma LocatedOnce(t: Tables, j: JobRow, g: Option<Geo>)
    requires PrimaryKeys(t) && j in t.jobs && GeoOf(t.geos, j.location, g)
    ensures (j, g) in LeftJoin(t.jobs, t.geos, OnLocation())
  {
    var all := LeftJoin(t.jobs, t.geos, OnLocation());
    EachJobOnce(t);
    var i :| 0 <= i < |t.jobs| && t.jobs[i] == j;
    assert Lefts(all)[i] == j && all[i] in all;
    JoinedRow(t.jobs, t.geos, OnLocation(), all[i]);
    SameGeo(t, j.location, g, all[i].1);
  }

  lemma LeftsHas<A, B>(xs: seq<(A, Option<B>)>, a: A)
    ensures a in Lefts(xs) <==> exists x :: x in xs && x.0 == a
  {
    if a in Lefts(xs) {
      var i :| 0 <= i < |xs| && Lefts(xs)[i] == a;
      assert xs[i] in xs;
    }
    if x: (A, Option<B>) :| x in xs && x.0 == a {
      LeftsMember(xs, x);
    }
  }

  /** Which jobs are listed: a stored job is, exactly when the filters describe it together
      with the geocoded row of its own location. */
  lemma JobListedIff(env: Engine, t: Tables, f: Filters, j: JobRow, g: Option<Geo>)
    requires PrimaryKeys(t) && j in t.jobs && GeoOf(t.geos, j.location, g)
    ensures (exists x :: x in SelectJobs(env, t, f) && x.0.0.0 == j) <==> Matches(env, f, Seen(j, g))
    ensures j in Lefts(Hits(env, t, f)) <==> Matches(env, f, Seen(j, g))
  {
    var rows := SelectJobs(env, t, f);
    CountIsListLength(env, t, f);
    LocatedOnce(t, j, g);
    ListedIffMatching(env, t, f, (j, g));
    LeftsHas(Hits(env, t, f), j);
    if x: Located :| x in Hits(env, t, f) && x.0 == j {
      JoinedRow(t.jobs, t.geos, OnLocation(), x);
      SameGeo(t, j.location, g, x.1);
      LeftsHas(Lefts(rows), x);
      var y: Overridden :| y in Lefts(rows) && y.0 == x;
      LeftsHas(rows, y);
    }
    if x: (Overridden, Option<Account>) :| x in rows && x.0.0.0 == j {
      LeftsMember(rows, x);
      LeftsMember(Lefts(rows), x.0);
      LeftsMember(Hits(env, t, f), x.0.0);
    }
  }

  lemma {:induction false} DistinctCount<T>(s: seq<T>)
    requires Distinct(s)
    ensures |set x | x in s| == |s|
  {
    if s != [] {
      var n := |s| - 1;
      DistinctCount(s[..n]);
      assert (set x | x in s) == (set x | x in s[..n]) + {s[n]};
    }
  }

  /** The count is the number of stored jobs that the filters describe so. */
  lemma CountIs(env: Engine, t: Tables, f: Filters, matching: set<JobRow>)
    requires PrimaryKeys(t)
    requires forall j :: j in matching ==> j in t.jobs
    requires forall j, g :: j in t.jobs && GeoOf(t.geos, j.location, g) ==>
               (j in matching <==> Matches(env, f, Seen(j, g)))
    ensures CountJobs(env, t, f) == |matching|
  {
    var rows := Lefts(Hits(env, t, f));
    HitsApart(env, t, f);
    forall i, j | 0 <= i < j < |rows| ensures rows[i] != rows[j] {
      assert Apart(Hits(env, t, f)[i].0, Hits(env, t, f)[j].0);
    }
    forall j ensures j in rows <==> j in matching {
      CountedIff(env, t, f, j, j in matching);
    }
    DistinctCount(rows);
    assert (set j | j in rows) == matching;
  }

  lemma CountedIff(env: Engine, t: Tables, f: Filters, j: JobRow, matches: bool)
    requires PrimaryKeys(t) && (matches ==> j in t.jobs)
    requires forall g :: j in t.jobs && GeoOf(t.geos, j.location, g) ==> (matches <==> Matches(env, f, Seen(j, g)))
    ensures j in Lefts(Hits(env, t, f)) <==> matches
  {
    var all := LeftJoin(t.jobs, t.geos, OnLocation());
    LeftsHas(Hits(env, t, f), j);
    EachJobOnce(t);
    if j in Lefts(Hits(env, t, f)) {
      var x: Located :| x in Hits(env, t, f) && x.0 == j;
      LeftsMember(all, x);
    }
    if j in t.jobs {
      LeftsHas(all, j);
      var x: Located :| x in all && x.0 == j;
      JoinedRow(t.jobs, t.geos, OnLocation(), x);
      JobListedIff(env, t, f, j, x.1);
    }
  }

  // ---- one user's list ---------------------------------------------------------------

  /** No key twice. */
  predicate KeysOnce(rows: seq<JobRow>) {
    forall i, j :: 0 <= i < j < |rows| ==> rows[i].key != rows[j].key
  }

  predicate Apart(a: JobRow, b: JobRow) {
    a.user != b.user || a.key != b.key
  }

  predicate AllApart(xs: seq<Located>) {
    forall i, j :: 0 <= i < j < |xs| ==> Apart(xs[i].0, xs[j].0)
  }

  lemma {:induction false} FilterKeepsApart(xs: seq<Located>, p: Located -> bool)
    requires AllApart(xs)
    ensures AllApart(Filter(xs, p))
  {
    if xs != [] {
      var n := |xs| - 1;
      var front := Filter(xs[..n], p);
      FilterKeepsApart(xs[..n], p);
      forall i | 0 <= i < |front| ensures Apart(front[i].0, xs[n].0) {
        assert front[i] in front && front[i] in xs[..n];
        var m :| 0 <= m < n && xs[..n][m] == front[i];
        assert xs[m] == front[i];
      }
    }
  }

  lemma HitsApart(env: Engine, t: Tables, f: Filters)
    requires PrimaryKeys(t)
    ensures AllApart(Hits(env, t, f))
  {
    var all := LeftJoin(t.jobs, t.geos, OnLocation());
    EachJobOnce(t);
    forall i, j | 0 <= i < j < |all| ensures Apart(all[i].0, all[j].0) {
      assert Lefts(all)[i] == t.jobs[i] && Lefts(all)[j] == t.jobs[j];
    }
    FilterKeepsApart(all, Selected(env, f));
  }

  /** A list filtered by one user shows stored jobs of that user, no key twice. */
  lemma OneUserOwnKeys(env: Engine, t: Tables, f: Filters)
    requires PrimaryKeys(t) && f.user.Some?
    ensures KeysOnce(Lefts(Hits(env, t, f)))
    ensures forall a :: a in Lefts(Hits(env, t, f)) ==> a in t.jobs && a.user == f.user.value
  {
    var rows := Lefts(Hits(env, t, f));
    HitsApart(env, t, f);
    forall a | a in rows ensures a in t.jobs && a.user == f.user.value {
      HitIsOwn(env, t, f, a);
    }
    forall i, j | 0 <= i < j < |rows| ensures rows[i].key != rows[j].key {
      assert rows[i] in rows && rows[j] in rows;
      assert Apart(Hits(env, t, f)[i].0, Hits(env, t, f)[j].0);
    }
  }

  lemma HitIsOwn(env: Engine, t: Tables, f: Filters, a: JobRow)
    requires PrimaryKeys(t) && f.user.Some? && a in Lefts(Hits(env, t, f))
    ensures a in t.jobs && a.user == f.user.value
  {
    var hits := Hits(env, t, f);
    var i :| 0 <= i < |hits| && Lefts(hits)[i] == a;
    assert hits[i] in hits;
    ListedIffMatching(env, t, f, hits[i]);
    LeftsMember(LeftJoin(t.jobs, t.geos, OnLocation()), hits[i]);
    EachJobOnce(t);
  }

  lemma LeftsMember<A, B>(xs: seq<(A, Option<B>)>, x: (A, Option<B>))
    requires x in xs
    ensures x.0 in Lefts(xs)
  {
    var i :| 0 <= i < |xs| && xs[i] == x;
    assert Lefts(xs)[i] == x.0;
  }
}
