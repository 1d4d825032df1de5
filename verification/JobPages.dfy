/** The order of the job list, its pages, and what the passing of time does to them. */
module JobPages {
  import opened Common
  import opened Sql
  import opened JobFilters
  import opened JobQueries

  // ---- ORDER BY column, key ------------------------------------------------------------

  /** A sort column that only the row decides, by its position in the database's order
      (NULLs included), or the age in days, which reads the clock of the query. */
  datatype Sort = Column(rank: JobRow -> int) | AgeDays

  /** `keyRank` is the position of a key, which tells keys apart. */
  datatype Order = Order(sort: Sort, keyRank: string -> int, descending: bool)

  ghost predicate TellsKeysApart(o: Order) {
    forall k, l :: o.keyRank(k) == o.keyRank(l) ==> k == l
  }

  /** The sort column of a row when a query reads the clock at `now`. */
  function Rank(o: Order, now: int, r: JobRow): int {
    match o.sort
    case Column(rank) => rank(r)
    case AgeDays => r.removedAt.GetOr(now) - r.firstSeenAt
  }

  predicate Precedes(o: Order, now: int, a: JobRow, b: JobRow) {
    var (x, y) := if o.descending then (b, a) else (a, b);
    Rank(o, now, x) < Rank(o, now, y) || (Rank(o, now, x) == Rank(o, now, y) && o.keyRank(x.key) <= o.keyRank(y.key))
  }

  predicate InOrder(o: Order, now: int, s: seq<JobRow>) {
    forall i, j :: 0 <= i < j < |s| ==> Precedes(o, now, s[i], s[j])
  }

  /** One answer of the database to the ordered query: any arrangement that is in order. */
  ghost predicate Listing(o: Order, now: int, rows: seq<JobRow>, answer: seq<JobRow>) {
    multiset(answer) == multiset(rows) && InOrder(o, now, answer)
  }

  // ---- when the order is total -----------------------------------------------------------

  /** Two rows that the order does not tell apart. */
  predicate Tied(o: Order, now: int, a: JobRow, b: JobRow) {
    a != b && Rank(o, now, a) == Rank(o, now, b) && a.key == b.key
  }

  ghost predicate NoTies(o: Order, now: int, rows: seq<JobRow>) {
    forall a, b :: a in rows && b in rows ==> !Tied(o, now, a, b)
  }

  lemma BothWays(o: Order, now: int, a: JobRow, b: JobRow)
    requires TellsKeysApart(o) && Precedes(o, now, a, b) && Precedes(o, now, b, a)
    ensures a == b || Tied(o, now, a, b)
  {
    assert o.keyRank(a.key) == o.keyRank(b.key);
  }

  lemma SameFirst(o: Order, now: int, a: seq<JobRow>, b: seq<JobRow>)
    requires TellsKeysApart(o) && NoTies(o, now, a) && multiset(a) == multiset(b)
    requires InOrder(o, now, a) && InOrder(o, now, b) && a != [] && b != []
    ensures a[0] == b[0]
  {
    assert a[0] in multiset(a) && b[0] in multiset(b);
    assert a[0] in b && b[0] in a;
    if a[0] != b[0] {
      var i :| 0 <= i < |a| && a[i] == b[0];
      var j :| 0 <= j < |b| && b[j] == a[0];
      BothWays(o, now, a[0], b[0]);
    }
  }

  lemma RestCounts(s: seq<JobRow>)
    requires s != []
    ensures s == [s[0]] + s[1..] && multiset(s[1..]) == multiset(s) - multiset{s[0]}
  {
    assert s == [s[0]] + s[1..];
  }

  lemma {:induction false} SortedOnce(o: Order, now: int, a: seq<JobRow>, b: seq<JobRow>)
    requires TellsKeysApart(o) && NoTies(o, now, a) && multiset(a) == multiset(b)
    requires InOrder(o, now, a) && InOrder(o, now, b)
    ensures a == b
  {
    assert |a| == |multiset(a)| == |multiset(b)| == |b|;
    if a != [] {
      SameFirst(o, now, a, b);
      RestCounts(a);
      RestCounts(b);
      SortedOnce(o, now, a[1..], b[1..]);
    }
  }

  predicate Alike(o: Order, now: int, a: JobRow, b: JobRow) {
    Rank(o, now, a) == Rank(o, now, b) && o.keyRank(a.key) == o.keyRank(b.key)
  }

  lemma AlikeInOrder(o: Order, now: int, s: seq<JobRow>, s': seq<JobRow>)
    requires InOrder(o, now, s) && |s'| == |s| && forall i :: 0 <= i < |s| ==> Alike(o, now, s[i], s'[i])
    ensures InOrder(o, now, s')
  {
    forall i, j | 0 <= i < j < |s'| ensures Precedes(o, now, s'[i], s'[j]) {
      assert Precedes(o, now, s[i], s[j]) && Alike(o, now, s[i], s'[i]) && Alike(o, now, s[j], s'[j]);
    }
  }

  lemma SwapTied(o: Order, now: int, rows: seq<JobRow>, listing: seq<JobRow>, i: nat, j: nat)
    requires Listing(o, now, rows, listing) && i < |listing| && j < |listing| && Tied(o, now, listing[i], listing[j])
    ensures var swapped := listing[i := listing[j]][j := listing[i]];
            Listing(o, now, rows, swapped) && swapped != listing
  {
    var swapped := listing[i := listing[j]][j := listing[i]];
    assert swapped[i] == listing[j];
    AlikeInOrder(o, now, listing, swapped);
  }

  /** The list has one possible order if and only if no two of its rows are tied. */
  lemma OneListingIffNoTies(o: Order, now: int, rows: seq<JobRow>, listing: seq<JobRow>)
    requires TellsKeysApart(o) && Listing(o, now, rows, listing)
    ensures (forall other :: Listing(o, now, rows, other) ==> other == listing) <==> NoTies(o, now, rows)
  {
    assert forall x :: x in rows <==> x in multiset(rows);
    assert forall x :: x in listing <==> x in multiset(listing);
    if NoTies(o, now, rows) {
      forall other | Listing(o, now, rows, other) ensures other == listing {
        SortedOnce(o, now, listing, other);
      }
    } else {
      var a, b :| a in rows && b in rows && Tied(o, now, a, b);
      TiedMaySwap(o, now, rows, listing, a, b);
    }
  }

  lemma TiedMaySwap(o: Order, now: int, rows: seq<JobRow>, listing: seq<JobRow>, a: JobRow, b: JobRow)
    requires Listing(o, now, rows, listing) && a in listing && b in listing && Tied(o, now, a, b)
    ensures exists other :: Listing(o, now, rows, other) && other != listing
  {
    var i :| 0 <= i < |listing| && listing[i] == a;
    var j :| 0 <= j < |listing| && listing[j] == b;
    SwapTied(o, now, rows, listing, i, j);
  }

  lemma KeysOnceNoTies(o: Order, now: int, rows: seq<JobRow>)
    requires KeysOnce(rows)
    ensures NoTies(o, now, rows)
  {
    forall a, b | a in rows && b in rows ensures !Tied(o, now, a, b) {
      var i :| 0 <= i < |rows| && rows[i] == a;
      var j :| 0 <= j < |rows| && rows[j] == b;
      assert i != j ==> rows[i].key != rows[j].key;
    }
  }

  /** For one user the order is total at any instant: every answer is the same list. */
  lemma OneListingPerUser(o: Order, now: int, rows: seq<JobRow>, first: seq<JobRow>, second: seq<JobRow>)
    requires TellsKeysApart(o) && KeysOnce(rows)
    requires Listing(o, now, rows, first) && Listing(o, now, rows, second)
    ensures first == second
  {
    KeysOnceNoTies(o, now, rows);
    OneListingIffNoTies(o, now, rows, first);
  }

  /** Across users it is not: two users' copies of one posting, found at the same time,
      may come in either order, so two page requests may disagree. */
  lemma TwoUsersMaySwap(o: Order, now: int, a: JobRow, b: JobRow)
    requires TellsKeysApart(o) && a != b && a.key == b.key && Rank(o, now, a) == Rank(o, now, b)
    ensures Listing(o, now, [a, b], [a, b]) && Listing(o, now, [a, b], [b, a])
  {
    assert InOrder(o, now, [a, b]);
    assert [a, b][0 := b][1 := a] == [b, a];
    SwapTied(o, now, [a, b], [a, b], 0, 1);
  }

  // ---- pages ---------------------------------------------------------------------------

  datatype Pagination = Pagination(page: int, totalPages: int, offset: int, hasPrev: bool, hasNext: bool)

  /** `requested` is the page number as `int()` reads it, None when it cannot. */
  function Paginate(total: nat, requested: Option<int>, pageSize: int): (p: Pagination)
    requires pageSize > 0
    ensures 1 <= p.page <= p.totalPages
    ensures (p.totalPages - 1) * pageSize < total <= p.totalPages * pageSize || (total == 0 && p.totalPages == 1)
    ensures p.offset == (p.page - 1) * pageSize && (p.offset < total || total == 0)
    ensures p.hasPrev <==> p.offset > 0
    ensures p.hasNext <==> p.offset + pageSize < total
  {
    var ceil := -((0 - total) / pageSize);
    var totalPages := if ceil > 1 then ceil else 1;
    var n := requested.GetOr(1);
    var page := if n < 1 then 1 else if n > totalPages then totalPages else n;
    CeilBounds(total, pageSize, ceil);
    OffsetBounds(page, totalPages, pageSize);
    Pagination(page, totalPages, (page - 1) * pageSize, page > 1, page < totalPages)
  }

  lemma CeilBounds(total: nat, size: int, ceil: int)
    requires size > 0 && ceil == -((0 - total) / size)
    ensures (ceil - 1) * size < total <= ceil * size
  {
    var q := (0 - total) / size;
    assert q * size <= 0 - total < q * size + size;
    assert ceil * size == -(q * size);
  }

  lemma Scaled(x: int, y: int, size: int)
    requires 0 <= x <= y && size > 0
    ensures 0 <= x * size <= y * size
    ensures x > 0 ==> x * size >= size
    ensures x < y ==> x * size + size <= y * size
  {
    assert y * size == x * size + (y - x) * size;
    if x > 0 {
      assert x * size == size + (x - 1) * size;
    }
    if x < y {
      assert (y - x) * size == size + (y - x - 1) * size;
    }
  }

  lemma OffsetBounds(page: int, totalPages: int, size: int)
    requires 1 <= page <= totalPages && size > 0
    ensures 0 <= (page - 1) * size <= (totalPages - 1) * size
    ensures page > 1 <==> (page - 1) * size > 0
    ensures page < totalPages ==> (page - 1) * size + size <= (totalPages - 1) * size
  {
    Scaled(page - 1, totalPages - 1, size);
  }

  /** What the first `n` pages show, each page answering its own query. */
  function Shown(answers: seq<seq<JobRow>>, total: nat, size: int): seq<JobRow>
    requires size > 0
  {
    if answers == [] then []
    else
      var n := |answers|;
      Shown(answers[..n - 1], total, size) + Window(answers[n - 1], Paginate(total, Some(n), size).offset, size)
  }

  /** Where the rows of page `n + 1` start. */
  function Start(n: nat, size: nat): nat {
    if n == 0 then 0 else Start(n - 1, size) + size
  }

  lemma {:induction false} StartIs(n: nat, size: nat)
    ensures Start(n, size) == n * size
  {
    if n > 0 {
      StartIs(n - 1, size);
      Scaled(n - 1, n, size + 1);
    }
  }

  lemma PageStarts(total: nat, n: nat, size: int)
    requires size > 0 && n < Paginate(total, None, size).totalPages
    ensures Paginate(total, Some(n + 1), size).offset == Start(n, size)
  {
    StartIs(n, size);
  }

  lemma LastPageEnds(total: nat, n: nat, size: int)
    requires size > 0 && n == Paginate(total, None, size).totalPages
    ensures n > 0 && total <= Start(n, size)
  {
    StartIs(n, size);
  }

  // ---- pages of one listing --------------------------------------------------------------

  /** Nothing that was before position `m` falls behind what was after it. */
  ghost predicate StaysAhead(o: Order, later: int, listing: seq<JobRow>, m: int) {
    forall p, q :: 0 <= p < m <= q < |listing| ==> Precedes(o, later, listing[p], listing[q])
  }

  /** Each page is asked for at its own instant; `answers[i]` is the list behind page `i + 1`. */
  ghost predicate Answered(o: Order, rows: seq<JobRow>, nows: seq<int>, answers: seq<seq<JobRow>>) {
    && TellsKeysApart(o) && |nows| == |answers|
    && (forall i, j :: 0 <= i < j < |nows| ==> nows[i] <= nows[j])
    && (forall i :: 0 <= i < |answers| ==> Listing(o, nows[i], rows, answers[i]))
  }

  /** The same for a list of one user. */
  ghost predicate Asked(o: Order, rows: seq<JobRow>, nows: seq<int>, answers: seq<seq<JobRow>>) {
    KeysOnce(rows) && Answered(o, rows, nows, answers)
  }

  /** When page `i + 1` is asked for, no row of the pages before it has fallen behind a row
      that they left to come. */
  ghost predicate HeldAt(o: Order, nows: seq<int>, answers: seq<seq<JobRow>>, size: nat, i: int)
    requires |nows| == |answers| && 0 < i < |answers|
  {
    StaysAhead(o, nows[i], answers[i - 1], Start(i, size))
  }

  ghost predicate NoneFallsBack(o: Order, nows: seq<int>, answers: seq<seq<JobRow>>, size: nat)
    requires |nows| == |answers|
  {
    forall i :: 0 < i < |answers| ==> HeldAt(o, nows, answers, size, i)
  }

  lemma ListingKeysOnce(o: Order, now: int, rows: seq<JobRow>, listing: seq<JobRow>)
    requires KeysOnce(rows) && Listing(o, now, rows, listing)
    ensures |listing| == |rows| && KeysOnce(listing)
    ensures forall x :: x in listing <==> x in rows
  {
    assert |listing| == |multiset(listing)| == |multiset(rows)| == |rows|;
    forall x ensures x in listing <==> x in rows {
      assert x in multiset(listing) <==> x in multiset(rows);
    }
    forall i, j | 0 <= i < j < |listing| ensures listing[i].key != listing[j].key {
      RepeatsShow(rows, listing, i, j);
    }
  }

  lemma {:induction false} CountsOnce(rows: seq<JobRow>, x: JobRow)
    requires KeysOnce(rows) && x in rows
    ensures multiset(rows)[x] == 1
  {
    var n := |rows| - 1;
    assert rows == rows[..n] + [rows[n]];
    if rows[n] == x {
      assert x !in rows[..n];
    } else {
      CountsOnce(rows[..n], x);
    }
  }

  lemma RepeatsShow(rows: seq<JobRow>, listing: seq<JobRow>, i: nat, j: nat)
    requires KeysOnce(rows) && multiset(listing) == multiset(rows) && i < j < |listing|
    ensures listing[i].key != listing[j].key
  {
    assert listing[i] in multiset(listing) && listing[j] in multiset(listing);
    var a :| 0 <= a < |rows| && rows[a] == listing[i];
    var b :| 0 <= b < |rows| && rows[b] == listing[j];
    if a == b {
      assert listing == listing[..i] + [listing[i]] + listing[i + 1..j] + [listing[j]] + listing[j + 1..];
      CountsOnce(rows, listing[i]);
    }
  }

  // ---- prefixes of two listings ----------------------------------------------------------

  lemma MultisetOnce(s: seq<JobRow>, x: JobRow)
    requires KeysOnce(s)
    ensures multiset(s)[x] <= 1
  {
    if x in s {
      CountsOnce(s, x);
    }
  }

  /** Prefixes of one length, the one within the other, hold the same rows. */
  lemma PrefixCount(s: seq<JobRow>, t: seq<JobRow>, m: nat)
    requires KeysOnce(s) && KeysOnce(t) && |s| == |t|
    requires forall x :: x in UpTo(s, m) ==> x in UpTo(t, m)
    ensures multiset(UpTo(s, m)) == multiset(UpTo(t, m))
    ensures forall x :: x in UpTo(t, m) ==> x in UpTo(s, m)
  {
    var a, b := UpTo(s, m), UpTo(t, m);
    forall x ensures multiset(a)[x] <= multiset(b)[x] {
      MultisetOnce(a, x);
      assert x in a ==> x in multiset(b);
    }
    SameSizes(multiset(a), multiset(b));
    forall x | x in b ensures x in a {
      assert x in multiset(b);
    }
  }

  /** With keys told apart, rows of one listing that precede each other are one row. */
  lemma SameRow(o: Order, now: int, listing: seq<JobRow>, x: JobRow, y: JobRow)
    requires TellsKeysApart(o) && KeysOnce(listing) && x in listing && y in listing
    requires Precedes(o, now, x, y) && Precedes(o, now, y, x)
    ensures x == y
  {
    KeysOnceNoTies(o, now, listing);
    BothWays(o, now, x, y);
  }

  ghost predicate TwoListings(o: Order, rows: seq<JobRow>, now: int, a: seq<JobRow>, now': int, b: seq<JobRow>) {
    TellsKeysApart(o) && KeysOnce(rows) && Listing(o, now, rows, a) && Listing(o, now', rows, b)
  }

  lemma IndexIn(s: seq<JobRow>, m: nat, x: JobRow) returns (i: nat)
    requires x in UpTo(s, m)
    ensures i < |s| && i < m && s[i] == x
  {
    i :| 0 <= i < |UpTo(s, m)| && UpTo(s, m)[i] == x;
  }

  lemma InPrefix(s: seq<JobRow>, m: nat, i: nat)
    requires i < |s|
    ensures i < m ==> s[i] in UpTo(s, m)
  {
    if i < m {
      assert UpTo(s, m)[i] == s[i];
    }
  }

  lemma IndexPast(s: seq<JobRow>, m: nat, x: JobRow) returns (i: nat)
    requires x in s && x !in UpTo(s, m)
    ensures m <= i < |s| && s[i] == x
  {
    i :| 0 <= i < |s| && s[i] == x;
    InPrefix(s, m, i);
  }

  lemma PastPrefix(s: seq<JobRow>, m: nat, i: nat)
    requires KeysOnce(s) && m <= i < |s|
    ensures s[i] !in UpTo(s, m)
  {
    forall j | 0 <= j < |UpTo(s, m)| ensures UpTo(s, m)[j] != s[i] {
      assert s[j].key != s[i].key;
    }
  }

  lemma LaterInListing(o: Order, now: int, a: seq<JobRow>, m: nat, y: JobRow, x: JobRow)
    requires InOrder(o, now, a) && x in a && y in UpTo(a, m) && x !in UpTo(a, m)
    ensures Precedes(o, now, y, x)
  {
    var p := IndexIn(a, m, y);
    var q := IndexPast(a, m, x);
  }

  /** When a row leaves the first `m`, another one comes in. */
  lemma Newcomer(a: seq<JobRow>, b: seq<JobRow>, m: nat, y: JobRow) returns (x: JobRow)
    requires KeysOnce(a) && KeysOnce(b) && |a| == |b|
    requires y in UpTo(a, m) && y !in UpTo(b, m)
    ensures x in UpTo(b, m) && x !in UpTo(a, m)
  {
    if forall x :: x in UpTo(b, m) ==> x in UpTo(a, m) {
      PrefixCount(b, a, m);
    }
    x :| x in UpTo(b, m) && x !in UpTo(a, m);
  }

  lemma AheadKeeps(o: Order, rows: seq<JobRow>, now: int, a: seq<JobRow>, now': int, b: seq<JobRow>, m: nat, y: JobRow)
    requires TwoListings(o, rows, now, a, now', b) && StaysAhead(o, now', a, m) && y in UpTo(a, m)
    ensures y in UpTo(b, m)
  {
    ListingKeysOnce(o, now, rows, a);
    ListingKeysOnce(o, now', rows, b);
    if y !in UpTo(b, m) {
      var x := Newcomer(a, b, m, y);
      var p := IndexIn(a, m, y);
      var q := IndexPast(a, m, x);
      LaterInListing(o, now', b, m, x, y);
      SameRow(o, now', b, x, y);
    }
  }

  lemma KeptAhead(o: Order, rows: seq<JobRow>, now: int, a: seq<JobRow>, now': int, b: seq<JobRow>, m: nat)
    requires TwoListings(o, rows, now, a, now', b) && forall x :: x in UpTo(a, m) ==> x in UpTo(b, m)
    ensures StaysAhead(o, now', a, m)
  {
    ListingKeysOnce(o, now, rows, a);
    ListingKeysOnce(o, now', rows, b);
    PrefixCount(a, b, m);
    forall p, q | 0 <= p < m <= q < |a| ensures Precedes(o, now', a[p], a[q]) {
      assert UpTo(a, m)[p] == a[p];
      PastPrefix(a, m, q);
      LaterInListing(o, now', b, m, a[p], a[q]);
    }
  }

  /** The rows before position `m` are the same in two listings exactly when none of them
      falls behind a row after it. */
  lemma SameFirsts(o: Order, rows: seq<JobRow>, now: int, a: seq<JobRow>, now': int, b: seq<JobRow>, m: nat)
    requires TwoListings(o, rows, now, a, now', b)
    ensures StaysAhead(o, now', a, m) <==> forall x :: x in UpTo(a, m) ==> x in UpTo(b, m)
    ensures StaysAhead(o, now', a, m) ==> multiset(UpTo(a, m)) == multiset(UpTo(b, m))
  {
    if StaysAhead(o, now', a, m) {
      forall x | x in UpTo(a, m) ensures x in UpTo(b, m) {
        AheadKeeps(o, rows, now, a, now', b, m, x);
      }
      ListingKeysOnce(o, now, rows, a);
      ListingKeysOnce(o, now', rows, b);
      PrefixCount(a, b, m);
    } else if forall x :: x in UpTo(a, m) ==> x in UpTo(b, m) {
      KeptAhead(o, rows, now, a, now', b, m);
    }
  }

  // ---- falling behind is for good --------------------------------------------------------

  /** From `now` on, whatever comes before `y` stays before it. */
  ghost predicate OnlyFalls(o: Order, now: int, y: JobRow) {
    forall a, b, z :: now <= a <= b && Precedes(o, a, z, y) ==> Precedes(o, b, z, y)
  }

  /** One of the two is active and the other removed. */
  predicate MixedPair(a: JobRow, b: JobRow) {
    a.removedAt.Some? != b.removedAt.Some?
  }

  lemma FallsOn(o: Order, now: int, later: int, y: JobRow)
    requires OnlyFalls(o, now, y) && now <= later
    ensures OnlyFalls(o, later, y)
  {
  }

  /** By age, ascending, active rows fall behind removed ones; descending, removed rows
      behind active ones; by any other column nothing does. */
  lemma FallsForGood(o: Order, before: int, now: int, y: JobRow, x: JobRow)
    requires before <= now && Precedes(o, before, y, x) && !Precedes(o, now, y, x)
    ensures OnlyFalls(o, now, y)
    ensures o.sort.AgeDays? && MixedPair(y, x) && (y.removedAt.Some? <==> o.descending)
  {
  }

  lemma BehindStays(o: Order, rows: seq<JobRow>, now: int, a: seq<JobRow>, now': int, b: seq<JobRow>, m: nat, y: JobRow)
    requires TwoListings(o, rows, now, a, now', b) && now <= now' && OnlyFalls(o, now, y)
    requires y in rows && y !in UpTo(a, m)
    ensures y !in UpTo(b, m)
  {
    ListingKeysOnce(o, now, rows, a);
    ListingKeysOnce(o, now', rows, b);
    if y in UpTo(b, m) {
      var z := Newcomer(b, a, m, y);
      LaterInListing(o, now, a, m, z, y);
      LaterInListing(o, now', b, m, y, z);
      SameRow(o, now', b, y, z);
    }
  }

  // ---- what the pages show ---------------------------------------------------------------

  /** The windows of the first pages, by where they start. */
  function Windows(answers: seq<seq<JobRow>>, size: nat, n: nat): seq<JobRow>
    requires n <= |answers|
  {
    if n == 0 then []
    else Windows(answers, size, n - 1) + Window(answers[n - 1], Start(n - 1, size), size)
  }

  lemma {:induction false} ShownAreWindows(answers: seq<seq<JobRow>>, total: nat, size: int, n: nat)
    requires size > 0 && n <= |answers| && n <= Paginate(total, None, size).totalPages
    ensures Shown(answers[..n], total, size) == Windows(answers, size, n)
  {
    if n > 0 {
      ShownAreWindows(answers, total, size, n - 1);
      PageStarts(total, n - 1, size);
      assert answers[..n][..n - 1] == answers[..n - 1];
    }
  }

  lemma {:induction false} WindowsGrow(answers: seq<seq<JobRow>>, size: nat, j: nat, n: nat, y: JobRow)
    requires j <= n <= |answers|
    ensures multiset(Windows(answers, size, j))[y] <= multiset(Windows(answers, size, n))[y]
    decreases n
  {
    if j < n {
      WindowsGrow(answers, size, j, n - 1, y);
    }
  }

  lemma NextPage(answers: seq<seq<JobRow>>, size: nat, n: nat, m: nat)
    requires n < |answers| && m == Start(n, size)
    ensures Start(n + 1, size) == m + size
    ensures Windows(answers, size, n + 1) == Windows(answers, size, n) + Window(answers[n], m, size)
    ensures UpTo(answers[n], m + size) == UpTo(answers[n], m) + Window(answers[n], m, size)
  {
    NextWindow(answers[n], m, size);
  }

  lemma PageShows(answers: seq<seq<JobRow>>, size: nat, n: nat, m: nat, y: JobRow)
    requires n < |answers| && m == Start(n, size) && y !in UpTo(answers[n], m)
    ensures Start(n + 1, size) == m + size
    ensures y in UpTo(answers[n], m + size) <==> y in Window(answers[n], m, size)
    ensures var before, after := multiset(Windows(answers, size, n))[y], multiset(Windows(answers, size, n + 1))[y];
            if y in Window(answers[n], m, size) then before < after else before == after
  {
    NextPage(answers, size, n, m);
    assert y in Window(answers[n], m, size) <==> y in multiset(Window(answers[n], m, size));
  }

  lemma NextFirsts(answers: seq<seq<JobRow>>, size: nat, n: nat)
    requires n < |answers|
    requires multiset(Windows(answers, size, n)) == multiset(UpTo(answers[n], Start(n, size)))
    ensures multiset(Windows(answers, size, n + 1)) == multiset(UpTo(answers[n], Start(n + 1, size)))
  {
    NextPage(answers, size, n, Start(n, size));
  }

  /** Page `i + 1` starts after the same rows as in the query before it. */
  predicate SameBefore(answers: seq<seq<JobRow>>, size: nat, i: nat)
    requires 0 < i < |answers|
  {
    multiset(UpTo(answers[i - 1], Start(i, size))) == multiset(UpTo(answers[i], Start(i, size)))
  }

  lemma FirstsStep(answers: seq<seq<JobRow>>, size: nat, n: nat)
    requires 0 < n < |answers| && SameBefore(answers, size, n)
    requires multiset(Windows(answers, size, n - 1)) == multiset(UpTo(answers[n - 1], Start(n - 1, size)))
    ensures multiset(Windows(answers, size, n)) == multiset(UpTo(answers[n], Start(n, size)))
  {
    NextFirsts(answers, size, n - 1);
  }

  lemma {:induction false} FirstsAdd(answers: seq<seq<JobRow>>, size: nat, n: nat)
    requires n < |answers| && forall i :: 0 < i <= n ==> SameBefore(answers, size, i)
    ensures multiset(Windows(answers, size, n)) == multiset(UpTo(answers[n], Start(n, size)))
  {
    if n > 0 {
      FirstsAdd(answers, size, n - 1);
      FirstsStep(answers, size, n);
    }
  }

  lemma HeldFirsts(o: Order, rows: seq<JobRow>, nows: seq<int>, answers: seq<seq<JobRow>>, size: nat, i: nat)
    requires Asked(o, rows, nows, answers) && 0 < i < |answers| && HeldAt(o, nows, answers, size, i)
    ensures SameBefore(answers, size, i)
  {
    SameFirsts(o, rows, nows[i - 1], answers[i - 1], nows[i], answers[i], Start(i, size));
  }

  /** As long as no row falls back, the pages so far show the rows that come first. */
  lemma FirstsShown(o: Order, rows: seq<JobRow>, nows: seq<int>, answers: seq<seq<JobRow>>, size: nat, n: nat)
    requires Asked(o, rows, nows, answers) && n < |answers|
    requires forall i :: 0 < i <= n ==> HeldAt(o, nows, answers, size, i)
    ensures multiset(Windows(answers, size, n)) == multiset(UpTo(answers[n], Start(n, size)))
  {
    forall i | 0 < i <= n ensures SameBefore(answers, size, i) {
      HeldFirsts(o, rows, nows, answers, size, i);
    }
    FirstsAdd(answers, size, n);
  }

  lemma AllUpToEnd(o: Order, rows: seq<JobRow>, now: int, listing: seq<JobRow>, m: nat)
    requires KeysOnce(rows) && Listing(o, now, rows, listing) && |rows| <= m
    ensures UpTo(listing, m) == listing
    ensures forall y :: y in rows ==> y in UpTo(listing, m)
  {
    ListingKeysOnce(o, now, rows, listing);
  }

  /** When row `y` is past page `i + 1`, the next query leaves it past that page. */
  predicate StillToCome(answers: seq<seq<JobRow>>, size: nat, y: JobRow, i: nat)
    requires i + 1 < |answers|
  {
    y !in UpTo(answers[i], Start(i + 1, size)) ==> y !in UpTo(answers[i + 1], Start(i + 1, size))
  }

  /** A row that stays past the pages so far until it is shown, is shown. */
  lemma {:induction false} ShownLater(answers: seq<seq<JobRow>>, size: nat, j: nat, m: nat, y: JobRow)
    requires j < |answers| && m == Start(j, size) && y !in UpTo(answers[j], m)
    requires forall i :: j <= i < |answers| - 1 ==> StillToCome(answers, size, y, i)
    requires y in UpTo(answers[|answers| - 1], Start(|answers|, size))
    ensures multiset(Windows(answers, size, |answers|))[y] > multiset(Windows(answers, size, j))[y]
    decreases |answers| - j
  {
    PageShows(answers, size, j, m, y);
    if y in Window(answers[j], m, size) {
      WindowsGrow(answers, size, j + 1, |answers|, y);
    } else if j + 1 < |answers| {
      assert StillToCome(answers, size, y, j);
      ShownLater(answers, size, j + 1, m + size, y);
    }
  }

  /** A row that only falls is shown by the pages to come. */
  lemma FallingShown(o: Order, rows: seq<JobRow>, nows: seq<int>, answers: seq<seq<JobRow>>, size: nat, j: nat,
                     y: JobRow)
    requires Asked(o, rows, nows, answers) && |rows| <= Start(|answers|, size) && j < |answers|
    requires y in rows && OnlyFalls(o, nows[j], y) && y !in UpTo(answers[j], Start(j, size))
    ensures multiset(Windows(answers, size, |answers|))[y] > multiset(Windows(answers, size, j))[y]
  {
    var n := |answers| - 1;
    forall i | j <= i < n ensures StillToCome(answers, size, y, i) {
      FallsOn(o, nows[j], nows[i], y);
      StaysToCome(o, rows, nows, answers, size, i, y);
    }
    AllUpToEnd(o, rows, nows[n], answers[n], Start(|answers|, size));
    ShownLater(answers, size, j, Start(j, size), y);
  }

  lemma StaysToCome(o: Order, rows: seq<JobRow>, nows: seq<int>, answers: seq<seq<JobRow>>, size: nat, i: nat,
                    y: JobRow)
    requires Asked(o, rows, nows, answers) && i + 1 < |answers| && y in rows && OnlyFalls(o, nows[i], y)
    ensures StillToCome(answers, size, y, i)
  {
    var m := Start(i + 1, size);
    if y !in UpTo(answers[i], m) {
      BehindStays(o, rows, nows[i], answers[i], nows[i + 1], answers[i + 1], m, y);
    }
  }

  lemma LeastFall(o: Order, nows: seq<int>, answers: seq<seq<JobRow>>, size: nat, n: nat) returns (i: nat)
    requires |nows| == |answers| && n <= |answers|
    requires exists i :: 0 < i < n && !HeldAt(o, nows, answers, size, i)
    ensures 0 < i < n && !HeldAt(o, nows, answers, size, i)
    ensures forall j :: 0 < j < i ==> HeldAt(o, nows, answers, size, j)
  {
    if exists j :: 0 < j < n - 1 && !HeldAt(o, nows, answers, size, j) {
      i := LeastFall(o, nows, answers, size, n - 1);
    } else {
      i := n - 1;
    }
  }

  lemma FirstFall(o: Order, rows: seq<JobRow>, nows: seq<int>, answers: seq<seq<JobRow>>, size: nat) returns (i: nat)
    requires Asked(o, rows, nows, answers) && !NoneFallsBack(o, nows, answers, size)
    ensures 0 < i < |answers| && !HeldAt(o, nows, answers, size, i)
    ensures multiset(Windows(answers, size, i - 1)) == multiset(UpTo(answers[i - 1], Start(i - 1, size)))
  {
    i := LeastFall(o, nows, answers, size, |answers|);
    FirstsShown(o, rows, nows, answers, size, i - 1);
  }

  lemma OvertakenBy(o: Order, rows: seq<JobRow>, now: int, a: seq<JobRow>, now': int, b: seq<JobRow>, m: nat,
                    y: JobRow, x: JobRow)
    requires TwoListings(o, rows, now, a, now', b)
    requires y in UpTo(a, m) && y !in UpTo(b, m) && x in UpTo(b, m) && x !in UpTo(a, m)
    ensures Precedes(o, now, y, x) && !Precedes(o, now', y, x)
  {
    ListingKeysOnce(o, now, rows, a);
    ListingKeysOnce(o, now', rows, b);
    LaterInListing(o, now, a, m, y, x);
    LaterInListing(o, now', b, m, x, y);
    if Precedes(o, now', y, x) {
      SameRow(o, now', b, x, y);
    }
  }

  lemma Overtaken(o: Order, rows: seq<JobRow>, now: int, a: seq<JobRow>, now': int, b: seq<JobRow>, m: nat, y: JobRow)
    requires TwoListings(o, rows, now, a, now', b) && now <= now'
    requires y in UpTo(a, m) && y !in UpTo(b, m)
    ensures OnlyFalls(o, now', y)
  {
    ListingKeysOnce(o, now, rows, a);
    ListingKeysOnce(o, now', rows, b);
    var x := Newcomer(a, b, m, y);
    OvertakenBy(o, rows, now, a, now', b, m, y, x);
    FallsForGood(o, now, now', y, x);
  }

  lemma Fallen(o: Order, rows: seq<JobRow>, now: int, a: seq<JobRow>, now': int, b: seq<JobRow>, m: nat)
    returns (y: JobRow)
    requires TwoListings(o, rows, now, a, now', b) && now <= now' && !StaysAhead(o, now', a, m)
    ensures y in rows && y in UpTo(a, m) && y !in UpTo(b, m) && OnlyFalls(o, now', y)
  {
    SameFirsts(o, rows, now, a, now', b, m);
    y :| y in UpTo(a, m) && y !in UpTo(b, m);
    ListingKeysOnce(o, now, rows, a);
    Overtaken(o, rows, now, a, now', b, m, y);
  }

  /** A row that falls back over a page boundary is shown twice. */
  lemma FallenShownTwice(o: Order, rows: seq<JobRow>, nows: seq<int>, answers: seq<seq<JobRow>>, size: nat)
    returns (y: JobRow)
    requires Asked(o, rows, nows, answers) && |rows| <= Start(|answers|, size)
    requires !NoneFallsBack(o, nows, answers, size)
    ensures y in rows && multiset(Windows(answers, size, |answers|))[y] >= 2
  {
    var i := FirstFall(o, rows, nows, answers, size);
    y := FallenAt(o, rows, nows, answers, size, i);
    ShownTwice(o, rows, nows, answers, size, i, y);
  }

  lemma ShownTwice(o: Order, rows: seq<JobRow>, nows: seq<int>, answers: seq<seq<JobRow>>, size: nat, i: nat, y: JobRow)
    requires Asked(o, rows, nows, answers) && |rows| <= Start(|answers|, size) && 0 < i < |answers|
    requires y in rows && y in UpTo(answers[i - 1], Start(i, size)) && y !in UpTo(answers[i], Start(i, size))
    requires OnlyFalls(o, nows[i], y)
    requires multiset(Windows(answers, size, i - 1)) == multiset(UpTo(answers[i - 1], Start(i - 1, size)))
    ensures multiset(Windows(answers, size, |answers|))[y] >= 2
  {
    FirstsOnce(answers, size, i, y);
    FallingShown(o, rows, nows, answers, size, i, y);
  }

  lemma FallenAt(o: Order, rows: seq<JobRow>, nows: seq<int>, answers: seq<seq<JobRow>>, size: nat, i: nat)
    returns (y: JobRow)
    requires Asked(o, rows, nows, answers) && 0 < i < |answers| && !HeldAt(o, nows, answers, size, i)
    ensures y in rows && y in UpTo(answers[i - 1], Start(i, size)) && y !in UpTo(answers[i], Start(i, size))
    ensures OnlyFalls(o, nows[i], y)
  {
    y := Fallen(o, rows, nows[i - 1], answers[i - 1], nows[i], answers[i], Start(i, size));
  }

  lemma Occurs(s: seq<JobRow>, y: JobRow)
    requires y in s
    ensures multiset(s)[y] >= 1
  {
    assert y in multiset(s);
  }

  lemma FirstsOnce(answers: seq<seq<JobRow>>, size: nat, i: nat, y: JobRow)
    requires 0 < i <= |answers| && y in UpTo(answers[i - 1], Start(i, size))
    requires multiset(Windows(answers, size, i - 1)) == multiset(UpTo(answers[i - 1], Start(i - 1, size)))
    ensures multiset(Windows(answers, size, i))[y] >= 1
  {
    NextFirsts(answers, size, i - 1);
    Occurs(UpTo(answers[i - 1], Start(i, size)), y);
  }

  lemma LastShown(answers: seq<seq<JobRow>>, size: nat, n: nat)
    requires n < |answers| && |answers[n]| <= Start(n + 1, size)
    requires multiset(Windows(answers, size, n)) == multiset(UpTo(answers[n], Start(n, size)))
    ensures multiset(Windows(answers, size, n + 1)) == multiset(answers[n])
  {
    UpToAll(answers[n], Start(n + 1, size));
    NextFirsts(answers, size, n);
  }

  lemma AllShown(o: Order, rows: seq<JobRow>, nows: seq<int>, answers: seq<seq<JobRow>>, size: nat, n: nat)
    requires Asked(o, rows, nows, answers) && |answers| == n + 1 && |rows| <= Start(|answers|, size)
    requires NoneFallsBack(o, nows, answers, size)
    ensures multiset(Windows(answers, size, n + 1)) == multiset(rows)
  {
    FirstsShown(o, rows, nows, answers, size, n);
    ListingKeysOnce(o, nows[n], rows, answers[n]);
    LastShown(answers, size, n);
  }

  lemma WindowsTile(o: Order, rows: seq<JobRow>, nows: seq<int>, answers: seq<seq<JobRow>>, size: nat)
    requires Asked(o, rows, nows, answers) && answers != [] && |rows| <= Start(|answers|, size)
    ensures multiset(Windows(answers, size, |answers|)) == multiset(rows) <==> NoneFallsBack(o, nows, answers, size)
  {
    if NoneFallsBack(o, nows, answers, size) {
      AllShown(o, rows, nows, answers, size, |answers| - 1);
    } else {
      var y := FallenShownTwice(o, rows, nows, answers, size);
      CountsOnce(rows, y);
    }
  }

  lemma AllPages(total: nat, answers: seq<seq<JobRow>>, size: int)
    requires size > 0 && |answers| == Paginate(total, None, size).totalPages
    ensures Shown(answers, total, size) == Windows(answers, size, |answers|)
    ensures answers != [] && total <= Start(|answers|, size)
  {
    ShownAreWindows(answers, total, size, |answers|);
    LastPageEnds(total, |answers|, size);
    assert answers[..|answers|] == answers;
  }

  /** Pages 1 to the last of one user's list, each a query of its own at its own instant:
      together they show every row exactly once if and only if, from each page to the next,
      no row already shown falls behind one still to come. */
  lemma PagesTile(o: Order, rows: seq<JobRow>, nows: seq<int>, answers: seq<seq<JobRow>>, size: int)
    requires size > 0 && Asked(o, rows, nows, answers) && |answers| == Paginate(|rows|, None, size).totalPages
    ensures multiset(Shown(answers, |rows|, size)) == multiset(rows) <==> NoneFallsBack(o, nows, answers, size)
  {
    AllPages(|rows|, answers, size);
    WindowsTile(o, rows, nows, answers, size);
  }

  /** The pages of one user's filtered list, as the count and list queries give them while
      the tables stay as they are: they show every job that the filters describe exactly
      once if and only if no shown row falls behind one still to come. */
  lemma UserPagesTile(env: Engine, t: Tables, f: Filters, o: Order, nows: seq<int>, answers: seq<seq<JobRow>>,
                      size: int)
    requires PrimaryKeys(t) && f.user.Some? && size > 0
    requires Answered(o, Lefts(Hits(env, t, f)), nows, answers)
    requires |answers| == Paginate(CountJobs(env, t, f), None, size).totalPages
    ensures multiset(Shown(answers, CountJobs(env, t, f), size)) == multiset(Lefts(Hits(env, t, f)))
       <==> NoneFallsBack(o, nows, answers, size)
  {
    OneUserOwnKeys(env, t, f);
    PagesTile(o, Lefts(Hits(env, t, f)), nows, answers, size);
  }

  // ---- which rows fall back --------------------------------------------------------------

  ghost predicate MixedPairsStay(o: Order, later: int, listing: seq<JobRow>, m: int) {
    forall p, q :: 0 <= p < m <= q < |listing| && MixedPair(listing[p], listing[q])
               ==> Precedes(o, later, listing[p], listing[q])
  }

  /** Only in the order by age, and only between an active row and a removed one, can time
      turn the order round. */
  lemma OnlyMixedPairsCross(o: Order, rows: seq<JobRow>, nows: seq<int>, answers: seq<seq<JobRow>>, size: nat, i: nat)
    requires Asked(o, rows, nows, answers) && 0 < i < |answers|
    ensures HeldAt(o, nows, answers, size, i)
       <==> (o.sort.AgeDays? ==> MixedPairsStay(o, nows[i], answers[i - 1], Start(i, size)))
  {
    var a, m := answers[i - 1], Start(i, size);
    forall p, q | 0 <= p < m <= q < |a| && !Precedes(o, nows[i], a[p], a[q])
      ensures o.sort.AgeDays? && MixedPair(a[p], a[q])
    {
      FallsForGood(o, nows[i - 1], nows[i], a[p], a[q]);
    }
  }

  /** Rows whose order the clock does not change. */
  predicate Steady(o: Order, rows: seq<JobRow>) {
    o.sort.Column? || forall a, b :: a in rows && b in rows ==> !MixedPair(a, b)
  }

  lemma StaysInOrder(o: Order, now: int, later: int, s: seq<JobRow>)
    requires Steady(o, s) && now <= later && InOrder(o, now, s)
    ensures InOrder(o, later, s)
  {
    forall p, q | 0 <= p < q < |s| ensures Precedes(o, later, s[p], s[q]) {
      assert s[p] in s && s[q] in s;
      if !Precedes(o, later, s[p], s[q]) {
        FallsForGood(o, now, later, s[p], s[q]);
      }
    }
  }

  lemma SteadyAnswers(o: Order, rows: seq<JobRow>, nows: seq<int>, answers: seq<seq<JobRow>>, i: nat)
    requires Asked(o, rows, nows, answers) && Steady(o, rows) && i < |answers|
    ensures answers[i] == answers[0]
  {
    if i > 0 {
      ListingKeysOnce(o, nows[0], rows, answers[0]);
      StaysInOrder(o, nows[0], nows[i], answers[0]);
      OneListingPerUser(o, nows[i], rows, answers[0], answers[i]);
    }
  }

  lemma {:induction false} WindowsOfOne(answers: seq<seq<JobRow>>, size: nat, n: nat, listing: seq<JobRow>)
    requires n <= |answers| && forall i :: 0 <= i < n ==> answers[i] == listing
    ensures Windows(answers, size, n) == UpTo(listing, Start(n, size))
  {
    if n > 0 {
      WindowsOfOne(answers, size, n - 1, listing);
      NextWindow(listing, Start(n - 1, size), size);
    }
  }

  /** By any other column, or when the list holds active rows only or removed rows only,
      every page cuts the same list and the pages one after the other are that list. */
  lemma SteadyPages(o: Order, rows: seq<JobRow>, nows: seq<int>, answers: seq<seq<JobRow>>, size: int)
    requires size > 0 && Asked(o, rows, nows, answers) && Steady(o, rows)
    requires |answers| == Paginate(|rows|, None, size).totalPages
    ensures answers != [] && Shown(answers, |rows|, size) == answers[0]
  {
    AllPages(|rows|, answers, size);
    forall i | 0 <= i < |answers| ensures answers[i] == answers[0] {
      SteadyAnswers(o, rows, nows, answers, i);
    }
    WindowsOfOne(answers, size, |answers|, answers[0]);
    AllUpToEnd(o, rows, nows[0], answers[0], Start(|answers|, size));
  }

  lemma FirstOfEach(a: JobRow, r: JobRow)
    ensures Windows([[a, r], [r, a]], 1, 2) == [a, a]
  {
    assert Windows([[a, r], [r, a]], 1, 1) == [a];
  }

  /** The order in words: by the column, or by the time from first seen to removed or now;
      rows that tie by their key; and all of it the other way round when descending. */
  lemma OrderMeans(o: Order, now: int, a: JobRow, b: JobRow)
    ensures var x, y := if o.sort.Column? then o.sort.rank(a)
                        else (if a.removedAt.Some? then a.removedAt.value else now) - a.firstSeenAt,
                        if o.sort.Column? then o.sort.rank(b)
                        else (if b.removedAt.Some? then b.removedAt.value else now) - b.firstSeenAt;
            Precedes(o, now, a, b)
            <==> if o.descending then x > y || (x == y && o.keyRank(a.key) >= o.keyRank(b.key))
                 else x < y || (x == y && o.keyRank(a.key) <= o.keyRank(b.key))
  {
  }

  /** By age, youngest first: active row `a` passes removed row `r` between the two requests,
      so both pages show `a` and none shows `r`. */
  lemma AgeShowsTwice(o: Order, a: JobRow, r: JobRow, before: int, after: int)
    requires TellsKeysApart(o) && o.sort.AgeDays? && !o.descending
    requires a.removedAt.None? && r.removedAt.Some? && a.key != r.key
    requires before - a.firstSeenAt < r.removedAt.value - r.firstSeenAt < after - a.firstSeenAt
    ensures Asked(o, [a, r], [before, after], [[a, r], [r, a]]) && Paginate(2, None, 1).totalPages == 2
    ensures Shown([[a, r], [r, a]], 2, 1) == [a, a]
  {
    var answers := [[a, r], [r, a]];
    assert Listing(o, before, [a, r], [a, r]) && Listing(o, after, [a, r], [r, a]) by {
      assert [a, r][0 := r][1 := a] == [r, a];
    }
    AllPages(2, answers, 1);
    FirstOfEach(a, r);
  }
}
