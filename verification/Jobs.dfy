/** Scraped job postings: identity, de-duplication by key, and keyword filters. */
module Jobs {
  import opened Common

  type Key = string
  type SourceId = string

  datatype Job = Job(
    key: Key, title: string, url: string, company: Option<string>, location: Option<string>,
    postedDate: Option<string>, sourceName: string, sourceId: Option<SourceId>, summary: Option<string>)

  function Keys(jobs: seq<Job>): set<Key> {
    set j | j in jobs :: j.key
  }

  predicate DistinctKeys(jobs: seq<Job>) {
    forall i, j :: 0 <= i < j < |jobs| ==> jobs[i].key != jobs[j].key
  }

  // ---- list({j.key: j for j in jobs}.values()) ------------------------------

  /** Position of the entry with key `k`, or the length when there is none. */
  function IndexOfKey(jobs: seq<Job>, k: Key): (i: nat)
    ensures i <= |jobs|
    ensures i < |jobs| ==> jobs[i].key == k
    ensures forall m :: 0 <= m < i ==> jobs[m].key != k
  {
    if jobs == [] then 0
    else if jobs[0].key == k then 0
    else 1 + IndexOfKey(jobs[1..], k)
  }

  /** Position of the last entry with key `k`, or -1. */
  function LastIndexOfKey(jobs: seq<Job>, k: Key): (i: int)
    ensures -1 <= i < |jobs|
    ensures i >= 0 ==> jobs[i].key == k
    ensures forall m :: i < m < |jobs| ==> jobs[m].key != k
  {
    if jobs == [] then -1
    else if jobs[|jobs| - 1].key == k then |jobs| - 1
    else LastIndexOfKey(jobs[..|jobs| - 1], k)
  }

  /** Building a dict keyed by `key` and listing its values: an assignment to a
      key already present keeps the old position and takes the new value. */
  function Dedupe(jobs: seq<Job>): (r: seq<Job>)
    ensures |r| <= |jobs|
  {
    if jobs == [] then []
    else
      var j := jobs[|jobs| - 1];
      var d := Dedupe(jobs[..|jobs| - 1]);
      var i := IndexOfKey(d, j.key);
      if i < |d| then d[i := j] else d + [j]
  }

  lemma KeysSnoc(jobs: seq<Job>, j: Job)
    ensures Keys(jobs + [j]) == Keys(jobs) + {j.key}
  {
    forall k | k in Keys(jobs) ensures k in Keys(jobs + [j]) {
      var x :| x in jobs && x.key == k;
      assert x in jobs + [j];
    }
    assert j in jobs + [j];
  }

  lemma KeysReplaced(jobs: seq<Job>, i: nat, j: Job)
    requires i < |jobs| && jobs[i].key == j.key
    ensures Keys(jobs[i := j]) == Keys(jobs)
  {
    var r := jobs[i := j];
    forall k | k in Keys(jobs) ensures k in Keys(r) {
      var m :| 0 <= m < |jobs| && jobs[m].key == k;
      assert r[m] in r && r[m].key == k;
    }
    assert jobs[i] in jobs;
  }

  /** The result has the same keys, each exactly once. */
  lemma {:induction false} DedupeKeys(jobs: seq<Job>)
    ensures Keys(Dedupe(jobs)) == Keys(jobs) && DistinctKeys(Dedupe(jobs))
  {
    if jobs != [] {
      var n := |jobs| - 1;
      var d := Dedupe(jobs[..n]);
      DedupeKeys(jobs[..n]);
      assert jobs == jobs[..n] + [jobs[n]];
      KeysSnoc(jobs[..n], jobs[n]);
      var i := IndexOfKey(d, jobs[n].key);
      if i < |d| {
        KeysReplaced(d, i, jobs[n]);
        assert d[i] in d;
      } else {
        KeysSnoc(d, jobs[n]);
      }
    }
  }

  /** Entries keep the order in which their keys were first seen. */
  lemma {:induction false} DedupeOrder(jobs: seq<Job>)
    ensures forall i, j :: 0 <= i < j < |Dedupe(jobs)| ==>
              IndexOfKey(jobs, Dedupe(jobs)[i].key) < IndexOfKey(jobs, Dedupe(jobs)[j].key) < |jobs|
  {
    if jobs != [] {
      var n := |jobs| - 1;
      var front, last, d0 := jobs[..n], jobs[n], Dedupe(jobs[..n]);
      assert jobs == front + [last];
      DedupeOrder(front);
      DedupeKeys(front);
      KeyHasIndex(d0, last.key);
      forall i, j | 0 <= i < j < |Dedupe(jobs)|
        ensures IndexOfKey(jobs, Dedupe(jobs)[i].key) < IndexOfKey(jobs, Dedupe(jobs)[j].key) < |jobs|
      {
        DedupeOrderStep(front, last, d0, i, j);
      }
    }
  }

  lemma DedupeOrderStep(front: seq<Job>, last: Job, d0: seq<Job>, i: nat, j: nat)
    requires Keys(d0) == Keys(front)
    requires i < |d0| && j <= |d0|
    requires j < |d0| ==> IndexOfKey(front, d0[i].key) < IndexOfKey(front, d0[j].key)
    requires j == |d0| ==> last.key !in Keys(front)
    ensures IndexOfKey(front + [last], d0[i].key)
            < IndexOfKey(front + [last], if j < |d0| then d0[j].key else last.key) < |front + [last]|
  {
    assert d0[i] in d0;
    IndexInFront(front, last, d0[i].key);
    if j < |d0| {
      assert d0[j] in d0;
      IndexInFront(front, last, d0[j].key);
    } else {
      IndexAtEnd(front, last);
    }
  }

  lemma IndexInFront(front: seq<Job>, last: Job, k: Key)
    requires k in Keys(front)
    ensures IndexOfKey(front + [last], k) == IndexOfKey(front, k) < |front|
  {
    KeyHasIndex(front, k);
    IndexOfKeySnoc(front, last, k);
  }

  lemma IndexAtEnd(front: seq<Job>, last: Job)
    requires last.key !in Keys(front)
    ensures IndexOfKey(front + [last], last.key) == |front|
  {
    KeyHasIndex(front, last.key);
    IndexOfKeySnoc(front, last, last.key);
  }

  lemma KeyHasIndex(jobs: seq<Job>, k: Key)
    ensures k in Keys(jobs) <==> IndexOfKey(jobs, k) < |jobs|
    ensures k in Keys(jobs) <==> LastIndexOfKey(jobs, k) >= 0
  {
    if k in Keys(jobs) {
      var j :| j in jobs && j.key == k;
      var m :| 0 <= m < |jobs| && jobs[m] == j;
    }
  }

  lemma {:induction false} IndexOfKeySnoc(jobs: seq<Job>, j: Job, k: Key)
    ensures IndexOfKey(jobs + [j], k) ==
            if IndexOfKey(jobs, k) < |jobs| then IndexOfKey(jobs, k)
            else if j.key == k then |jobs| else |jobs| + 1
  {
    var i := IndexOfKey(jobs + [j], k);
    if i < |jobs| {
      assert (jobs + [j])[i] == jobs[i];
    }
    if IndexOfKey(jobs, k) < |jobs| {
      assert (jobs + [j])[IndexOfKey(jobs, k)] == jobs[IndexOfKey(jobs, k)];
    }
    assert (jobs + [j])[|jobs|] == j;
    assert forall m :: 0 <= m < |jobs| ==> (jobs + [j])[m] == jobs[m];
  }

  /** Each surviving entry is the last one scraped for its key. */
  lemma {:induction false} DedupeLast(jobs: seq<Job>)
    ensures forall d :: d in Dedupe(jobs) ==>
              LastIndexOfKey(jobs, d.key) >= 0 && d == jobs[LastIndexOfKey(jobs, d.key)]
  {
    if jobs != [] {
      var n := |jobs| - 1;
      var front, j := jobs[..n], jobs[n];
      DedupeLast(front);
      DedupeKeys(jobs);
      forall d | d in Dedupe(jobs)
        ensures LastIndexOfKey(jobs, d.key) >= 0 && d == jobs[LastIndexOfKey(jobs, d.key)]
      {
        if d != j {
          var i := IndexOfKey(Dedupe(front), j.key);
          assert i < |Dedupe(jobs)| && Dedupe(jobs)[i] == j;
          assert d in Dedupe(front) && d.key != j.key;
        }
      }
    }
  }

  // ---- keyword filters -------------------------------------------------------

  function LowerChar(c: char): char {
    if 'A' <= c <= 'Z' then (c as int + 32) as char else c
  }

  function Lower(s: string): (r: string)
    ensures |r| == |s|
  {
    seq(|s|, i requires 0 <= i < |s| => LowerChar(s[i]))
  }

  /** Title, company and location in one lower-case string. */
  function Fields(j: Job): string {
    Lower(j.title + " " + j.company.GetOr("") + " " + j.location.GetOr(""))
  }

  predicate StartsWith(s: string, prefix: string) {
    |prefix| <= |s| && s[..|prefix|] == prefix
  }

  predicate Contains(s: string, needle: string) {
    exists i :: 0 <= i <= |s| && StartsWith(s[i..], needle)
  }

  predicate Mentions(j: Job, keywords: seq<string>) {
    exists k :: k in keywords && Contains(Fields(j), Lower(k))
  }

  /** Equal letters, in whichever case. */
  predicate SameLetter(a: char, b: char) {
    || a == b || ('A' <= a <= 'Z' && b as int == a as int + 32) || ('A' <= b <= 'Z' && a as int == b as int + 32)
  }

  /** The keyword stands at position `i` of the text, whatever the case. */
  predicate StandsAt(text: string, i: nat, keyword: string) {
    i + |keyword| <= |text| && forall m :: 0 <= m < |keyword| ==> SameLetter(text[i + m], keyword[m])
  }

  lemma LowerSame(a: char, b: char)
    ensures LowerChar(a) == LowerChar(b) <==> SameLetter(a, b)
  {
  }

  lemma LowerStands(text: string, i: nat, keyword: string)
    ensures i <= |text| && StartsWith(Lower(text)[i..], Lower(keyword)) <==> StandsAt(text, i, keyword)
  {
    if i + |keyword| <= |text| {
      var part := Lower(text)[i..][..|keyword|];
      forall m | 0 <= m < |keyword|
        ensures part[m] == Lower(keyword)[m] <==> SameLetter(text[i + m], keyword[m])
      {
        LowerSame(text[i + m], keyword[m]);
      }
      if StandsAt(text, i, keyword) {
        assert part == Lower(keyword);
      }
      if part == Lower(keyword) {
        forall m | 0 <= m < |keyword| ensures SameLetter(text[i + m], keyword[m]) {
          assert part[m] == Lower(keyword)[m];
        }
      }
    }
  }

  /** A posting mentions a keyword that stands somewhere in its title, company and location,
      written one after the other. */
  lemma MentionsIff(j: Job, keywords: seq<string>)
    ensures var text := j.title + " " + j.company.GetOr("") + " " + j.location.GetOr("");
            Mentions(j, keywords) <==> exists k, i: nat :: k in keywords && StandsAt(text, i, k)
  {
    var text := j.title + " " + j.company.GetOr("") + " " + j.location.GetOr("");
    if Mentions(j, keywords) {
      var k :| k in keywords && Contains(Fields(j), Lower(k));
      var i :| 0 <= i <= |Fields(j)| && StartsWith(Fields(j)[i..], Lower(k));
      LowerStands(text, i, k);
    }
    if k, i: nat :| k in keywords && StandsAt(text, i, k) {
      LowerStands(text, i, k);
      assert Contains(Fields(j), Lower(k));
    }
  }

  function ApplyKeywordFilters(jobs: seq<Job>, includes: seq<string>, excludes: seq<string>): (r: seq<Job>)
    ensures forall j :: j in r <==>
              j in jobs && (includes == [] || Mentions(j, includes)) && !Mentions(j, excludes)
  {
    var kept := if includes == [] then jobs else Filter(jobs, (j: Job) => Mentions(j, includes));
    if excludes == [] then kept else Filter(kept, (j: Job) => !Mentions(j, excludes))
  }

  /** Both comprehensions together keep the postings in order, each as often as it came. */
  lemma KeywordFiltersKeepOrder(jobs: seq<Job>, includes: seq<string>, excludes: seq<string>, wanted: Job -> bool)
    requires forall j: Job :: wanted(j) == ((includes == [] || Mentions(j, includes)) && !Mentions(j, excludes))
    ensures ApplyKeywordFilters(jobs, includes, excludes) == Filter(jobs, wanted)
  {
    if includes == [] {
      FilterCongruent(jobs, (j: Job) => !Mentions(j, excludes), wanted);
      if excludes == [] { FilterAll(jobs, wanted); }
    } else if excludes == [] {
      FilterCongruent(jobs, (j: Job) => Mentions(j, includes), wanted);
    } else {
      FilterFilter(jobs, (j: Job) => Mentions(j, includes), (j: Job) => !Mentions(j, excludes), wanted);
    }
  }
}
