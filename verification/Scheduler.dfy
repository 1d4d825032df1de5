/** `run_once` and `_run_user`, in the order of their calls, against oracles for the
    adapters, the URL check and SMTP. */
module Scheduler {
  import opened Common
  import opened Text
  import opened Jobs
  import opened JobTable
  import opened JobStore
  import opened Sources
  import opened Pipeline
  import opened Delivery

  /** What an adapter did: the postings it found, or an exception. */
  type Answer = Option<seq<Job>>

  // ---- scraping ------------------------------------------------------------------

  function RawOf(sources: seq<Source>, answers: Source -> Answer): seq<Job> {
    if sources == [] then []
    else RawOf(sources[..|sources| - 1], answers) + answers(sources[|sources| - 1]).GetOr([])
  }

  function FilteredOf(sources: seq<Source>, answers: Source -> Answer): seq<Job> {
    if sources == [] then []
    else
      var s := sources[|sources| - 1];
      FilteredOf(sources[..|sources| - 1], answers)
      + ApplyKeywordFilters(answers(s).GetOr([]), s.includeKeywords, s.excludeKeywords)
  }

  function Succeeded(sources: seq<Source>, answers: Source -> Answer): set<SourceKey> {
    if sources == [] then {}
    else
      var s := sources[|sources| - 1];
      Succeeded(sources[..|sources| - 1], answers) + if answers(s).Some? then {s.id} else {}
  }

  function Failed(sources: seq<Source>, answers: Source -> Answer): seq<Source> {
    if sources == [] then []
    else
      var s := sources[|sources| - 1];
      Failed(sources[..|sources| - 1], answers) + if answers(s).None? then [s] else []
  }

  lemma {:induction false} FilteredAreRaw(sources: seq<Source>, answers: Source -> Answer)
    ensures forall j :: j in FilteredOf(sources, answers) ==> j in RawOf(sources, answers)
  {
    if sources != [] {
      FilteredAreRaw(sources[..|sources| - 1], answers);
    }
  }

  lemma ScrapeStep(sources: seq<Source>, answers: Source -> Answer, i: nat)
    requires i < |sources|
    ensures var s := sources[i];
            var found := answers(s).GetOr([]);
            && RawOf(sources[..i + 1], answers) == RawOf(sources[..i], answers) + found
            && FilteredOf(sources[..i + 1], answers)
               == FilteredOf(sources[..i], answers) + ApplyKeywordFilters(found, s.includeKeywords, s.excludeKeywords)
            && Succeeded(sources[..i + 1], answers)
               == Succeeded(sources[..i], answers) + (if answers(s).Some? then {s.id} else {})
            && Failed(sources[..i + 1], answers)
               == Failed(sources[..i], answers) + (if answers(s).None? then [s] else [])
  {
    assert sources[..i + 1][..i] == sources[..i];
  }

  method Scrape(sources: seq<Source>, answers: Source -> Answer)
    returns (raw: seq<Job>, filtered: seq<Job>, succeeded: set<SourceKey>, failed: seq<Source>)
    ensures raw == RawOf(sources, answers) && filtered == FilteredOf(sources, answers)
    ensures succeeded == Succeeded(sources, answers) && failed == Failed(sources, answers)
  {
    raw, filtered, succeeded, failed := [], [], {}, [];
    var i := 0;
    while i < |sources|
      invariant 0 <= i <= |sources|
      invariant raw == RawOf(sources[..i], answers) && filtered == FilteredOf(sources[..i], answers)
      invariant succeeded == Succeeded(sources[..i], answers)
      invariant failed == Failed(sources[..i], answers)
    {
      ScrapeStep(sources, answers, i);
      match answers(sources[i]) {
        case None =>
          assert ApplyKeywordFilters([], sources[i].includeKeywords, sources[i].excludeKeywords) == [];
          failed := failed + [sources[i]];
        case Some(found) =>
          succeeded := succeeded + {sources[i].id};
          raw := raw + found;
          filtered := filtered + ApplyKeywordFilters(found, sources[i].includeKeywords, sources[i].excludeKeywords);
      }
      i := i + 1;
    }
    assert sources[..i] == sources;
  }

  // ---- what the sources answered -----------------------------------------------------

  /** An enabled source of the list answered, with this posting among its own. */
  predicate AnsweredWith(sources: seq<Source>, answers: Source -> Answer, s: Source, j: Job) {
    s in sources && s.enabled && answers(s).Some? && j in answers(s).value
  }

  /** Some enabled source found the key. */
  ghost predicate FoundKey(sources: seq<Source>, answers: Source -> Answer, k: Key) {
    exists s, j :: AnsweredWith(sources, answers, s, j) && j.key == k
  }

  /** Some enabled source found it in a posting that passes the source's keywords. */
  ghost predicate KeptKey(sources: seq<Source>, answers: Source -> Answer, k: Key) {
    exists s, j :: AnsweredWith(sources, answers, s, j) && Passes(s, j) && j.key == k
  }

  predicate Passes(s: Source, j: Job) {
    (s.includeKeywords == [] || Mentions(j, s.includeKeywords)) && !Mentions(j, s.excludeKeywords)
  }

  /** The list names the source, but nobody heard from it: disabled, or failed. */
  predicate Unheard(sources: seq<Source>, answers: Source -> Answer, id: SourceKey) {
    && (exists s :: s in sources && s.id == id)
    && (forall s :: s in sources && s.id == id ==> !s.enabled || answers(s).None?)
  }

  predicate Listed(sources: seq<Source>, id: SourceKey) {
    exists s :: s in sources && s.id == id
  }

  lemma {:induction false} RawMember(sources: seq<Source>, answers: Source -> Answer, j: Job)
    ensures j in RawOf(sources, answers) <==> exists s :: s in sources && answers(s).Some? && j in answers(s).value
  {
    if sources != [] {
      var n := |sources| - 1;
      RawMember(sources[..n], answers, j);
      assert sources == sources[..n] + [sources[n]];
    }
  }

  lemma FilteredLast(sources: seq<Source>, answers: Source -> Answer, j: Job)
    requires sources != []
    ensures var n := |sources| - 1;
            j in FilteredOf(sources, answers)
            <==> j in FilteredOf(sources[..n], answers) || KeptBy(answers, sources[n], j)
  {
  }

  lemma {:induction false} FilteredMember(sources: seq<Source>, answers: Source -> Answer, j: Job)
    ensures j in FilteredOf(sources, answers) <==> exists s :: s in sources && KeptBy(answers, s, j)
  {
    if sources != [] {
      var n := |sources| - 1;
      FilteredMember(sources[..n], answers, j);
      FilteredLast(sources, answers, j);
      assert forall s :: s in sources <==> s in sources[..n] || s == sources[n];
    }
  }

  predicate KeptBy(answers: Source -> Answer, s: Source, j: Job) {
    answers(s).Some? && j in answers(s).value && Passes(s, j)
  }

  lemma {:induction false} SucceededIff(sources: seq<Source>, answers: Source -> Answer, id: SourceKey)
    ensures id in Succeeded(sources, answers) <==> exists s :: s in sources && s.id == id && answers(s).Some?
  {
    if sources != [] {
      var n := |sources| - 1;
      SucceededIff(sources[..n], answers, id);
      assert sources == sources[..n] + [sources[n]];
    }
  }

  lemma {:induction false} FailedIff(sources: seq<Source>, answers: Source -> Answer, s: Source)
    ensures s in Failed(sources, answers) <==> s in sources && answers(s).None?
  {
    if sources != [] {
      var n := |sources| - 1;
      FailedIff(sources[..n], answers, s);
      assert sources == sources[..n] + [sources[n]];
    }
  }

  lemma RawKeys(sources: seq<Source>, answers: Source -> Answer, k: Key)
    ensures k in Keys(RawOf(EnabledOf(sources), answers)) <==> FoundKey(sources, answers, k)
  {
    var raw := RawOf(EnabledOf(sources), answers);
    if k in Keys(raw) {
      var j :| j in raw && j.key == k;
      RawMember(EnabledOf(sources), answers, j);
      var s :| s in EnabledOf(sources) && answers(s).Some? && j in answers(s).value;
      assert AnsweredWith(sources, answers, s, j);
    }
    if FoundKey(sources, answers, k) {
      var s, j :| AnsweredWith(sources, answers, s, j) && j.key == k;
      RawMember(EnabledOf(sources), answers, j);
    }
  }

  lemma FilteredKeysKept(sources: seq<Source>, answers: Source -> Answer, k: Key)
    ensures k in Keys(FilteredOf(EnabledOf(sources), answers)) <==> KeptKey(sources, answers, k)
  {
    var filtered := FilteredOf(EnabledOf(sources), answers);
    if k in Keys(filtered) {
      var j :| j in filtered && j.key == k;
      FilteredMember(EnabledOf(sources), answers, j);
      var s :| s in EnabledOf(sources) && KeptBy(answers, s, j);
      assert AnsweredWith(sources, answers, s, j);
    }
    if KeptKey(sources, answers, k) {
      var s, j :| AnsweredWith(sources, answers, s, j) && Passes(s, j) && j.key == k;
      FilteredMember(EnabledOf(sources), answers, j);
      assert KeptBy(answers, s, j);
    }
  }

  lemma HeardOf(sources: seq<Source>, answers: Source -> Answer, id: SourceKey)
    ensures id in SourceIds(sources) <==> Listed(sources, id)
    ensures Unheard(sources, answers, id)
       <==> id in SourceIds(sources) && id !in Succeeded(EnabledOf(sources), answers)
  {
    SucceededIff(EnabledOf(sources), answers, id);
  }

  // ---- run_once --------------------------------------------------------------------

  datatype RunSummary = RunSummary(newJobs: seq<Job>, foundJobs: seq<Job>, failed: seq<Source>, urlRemoved: nat)

  /** The table after a whole `run_once`; `gone` is None when the URL check raised. */
  function RunTable(rows: Table, u: User, sources: seq<Source>, answers: Source -> Answer,
                    gone: Option<set<RowId>>, now: Time): Table
  {
    var active := EnabledOf(sources);
    var stored := StoreScrape(rows, u, FilteredOf(active, answers), RawOf(active, answers), SourceIds(sources),
                              Succeeded(active, answers), now);
    if gone.None? then stored else SetRemoved(stored, CheckedIds(stored, Some(u), gone.value), now)
  }

  /** What a run without URL check makes of one row that was stored before: a posting that
      was found again is active, under the URL of one of the answers, and loses its mailed
      mark exactly if it was removed or its source is no longer listed; one that was not
      found keeps everything, but is removed exactly if its source answered or is no longer
      listed. */
  ghost predicate RowAfter(row: Row, row': Row, k: Key, sources: seq<Source>, answers: Source -> Answer, now: Time) {
    var src := row.job.sourceId;
    if FoundKey(sources, answers, k) then
      && (exists s, j :: AnsweredWith(sources, answers, s, j) && j.key == k && j.url == row'.job.url)
      && row' == row.(job := row.job.(url := row'.job.url), removedAt := None,
                      emailedAt := if row.removedAt.Some? || (src.Some? && !Listed(sources, src.value))
                                   then None else row.emailedAt)
    else
      row' == row.(removedAt := if row.removedAt.None? && src.Some? && !Unheard(sources, answers, src.value)
                                then Some(now) else row.removedAt)
  }

  /** A new row is a posting that an enabled source answered with and that passes its
      keywords, under the URL of one of the answers. */
  ghost predicate RowNew(row': Row, k: Key, sources: seq<Source>, answers: Source -> Answer, now: Time) {
    && (exists s, j :: AnsweredWith(sources, answers, s, j) && Passes(s, j) && j.key == k
                       && j.(url := row'.job.url) == row'.job)
    && (exists s, j :: AnsweredWith(sources, answers, s, j) && j.key == k && j.url == row'.job.url)
    && row' == Row(row'.job, now, None, None, None, false, None, None)
  }

  /** The whole table: the rows of the user are as just described, the keys that are new are
      those that a source kept, and nobody else's rows change. */
  ghost predicate Stores(rows: Table, after: Table, u: User, sources: seq<Source>, answers: Source -> Answer,
                         now: Time)
  {
    && (forall id :: id in after <==> id in rows || (id.user == u && KeptKey(sources, answers, id.key)))
    && (forall id :: id in rows && id.user != u ==> id in after && after[id] == rows[id])
    && (forall id :: id in rows && id.user == u ==>
          id in after && RowAfter(rows[id], after[id], id.key, sources, answers, now))
    && (forall id :: id in after && id !in rows ==> RowNew(after[id], id.key, sources, answers, now))
  }

  /** The URL check removes the active rows of the user that it found gone, if it finished. */
  predicate Checks(stored: Table, after: Table, u: User, gone: Option<set<RowId>>, now: Time) {
    && after.Keys == stored.Keys
    && forall id :: id in stored ==>
         after[id] == if gone.Some? && id in gone.value && id.user == u && stored[id].removedAt.None?
                      then stored[id].(removedAt := Some(now)) else stored[id]
  }

  lemma StoredUrl(sources: seq<Source>, answers: Source -> Answer, k: Key, stored: string)
    requires FoundKey(sources, answers, k)
    ensures var url := LatestUrl(Dedupe(RawOf(EnabledOf(sources), answers)), k, stored);
            exists s, j :: AnsweredWith(sources, answers, s, j) && j.key == k && j.url == url
  {
    var raw := RawOf(EnabledOf(sources), answers);
    RawKeys(sources, answers, k);
    HealedUrl(raw, k, stored);
    var j := raw[LastIndexOfKey(raw, k)];
    RawMember(EnabledOf(sources), answers, j);
    var s :| s in EnabledOf(sources) && answers(s).Some? && j in answers(s).value;
    assert AnsweredWith(sources, answers, s, j);
  }

  lemma UnfoundUrl(sources: seq<Source>, answers: Source -> Answer, k: Key, stored: string)
    requires !FoundKey(sources, answers, k)
    ensures LatestUrl(Dedupe(RawOf(EnabledOf(sources), answers)), k, stored) == stored
  {
    RawKeys(sources, answers, k);
    HealedUrl(RawOf(EnabledOf(sources), answers), k, stored);
  }

  /** A row after healing and reconciling, as the lists and sets of the run have it. */
  lemma ReconciledRow(saved: Table, u: User, sources: seq<Source>, answers: Source -> Answer, now: Time, id: RowId)
    requires id in saved && id.user == u
    ensures var active := EnabledOf(sources);
            var raw := Dedupe(RawOf(active, answers));
            var r := Reconcile(Heal(saved, u, raw), u, SourceIds(sources), Succeeded(active, answers), Keys(raw), now);
            id in r && RowAfter(saved[id], r[id], id.key, sources, answers, now)
  {
    var active := EnabledOf(sources);
    var raw := Dedupe(RawOf(active, answers));
    var row := saved[id];
    DedupeKeys(RawOf(active, answers));
    RawKeys(sources, answers, id.key);
    ReconcileClosedForm(Heal(saved, u, raw), u, SourceIds(sources), Succeeded(active, answers), Keys(raw), now);
    if row.job.sourceId.Some? {
      HeardOf(sources, answers, row.job.sourceId.value);
    }
    if FoundKey(sources, answers, id.key) {
      StoredUrl(sources, answers, id.key, row.job.url);
    } else {
      UnfoundUrl(sources, answers, id.key, row.job.url);
    }
  }

  lemma FreshStored(sources: seq<Source>, answers: Source -> Answer, rows: Table, u: User, now: Time, id: RowId)
    requires var saved := Insert(rows, u, NewJobs(rows, u, Dedupe(FilteredOf(EnabledOf(sources), answers))), now);
             id in saved && id !in rows
    ensures var saved := Insert(rows, u, NewJobs(rows, u, Dedupe(FilteredOf(EnabledOf(sources), answers))), now);
            && id.user == u && saved[id] == FreshRow(saved[id].job, now)
            && exists s, j :: AnsweredWith(sources, answers, s, j) && Passes(s, j) && j.key == id.key
                              && j == saved[id].job
  {
    var filtered := FilteredOf(EnabledOf(sources), answers);
    var saved := Insert(rows, u, NewJobs(rows, u, Dedupe(filtered)), now);
    var j := saved[id].job;
    assert j in Dedupe(filtered);
    DedupeLast(filtered);
    assert j in filtered;
    FilteredMember(EnabledOf(sources), answers, j);
    var s :| s in EnabledOf(sources) && KeptBy(answers, s, j);
    assert AnsweredWith(sources, answers, s, j);
  }

  lemma NewRowAfter(row: Row, row': Row, k: Key, sources: seq<Source>, answers: Source -> Answer, now: Time)
    requires RowAfter(row, row', k, sources, answers, now) && row == FreshRow(row.job, now)
    requires exists s, j :: AnsweredWith(sources, answers, s, j) && Passes(s, j) && j.key == k && j == row.job
    ensures RowNew(row', k, sources, answers, now)
  {
    var s, j :| AnsweredWith(sources, answers, s, j) && Passes(s, j) && j.key == k && j == row.job;
    assert FoundKey(sources, answers, k);
    assert j.(url := row'.job.url) == row'.job;
  }

  /** What a run without URL check leaves, for every list of sources and every answers. */
  lemma RunStores(rows: Table, u: User, sources: seq<Source>, answers: Source -> Answer, now: Time)
    ensures Stores(rows, RunTable(rows, u, sources, answers, None, now), u, sources, answers, now)
  {
    var active := EnabledOf(sources);
    var filtered := FilteredOf(active, answers);
    var saved := Insert(rows, u, NewJobs(rows, u, Dedupe(filtered)), now);
    var after := RunTable(rows, u, sources, answers, None, now);
    RunKeys(rows, u, sources, answers, now);
    forall id | id in after && id.user == u
      ensures if id in rows then RowAfter(rows[id], after[id], id.key, sources, answers, now)
              else RowNew(after[id], id.key, sources, answers, now)
    {
      ReconciledRow(saved, u, sources, answers, now, id);
      if id !in rows {
        FreshStored(sources, answers, rows, u, now, id);
        NewRowAfter(saved[id], after[id], id.key, sources, answers, now);
      }
    }
  }

  lemma RunKeys(rows: Table, u: User, sources: seq<Source>, answers: Source -> Answer, now: Time)
    ensures var filtered := FilteredOf(EnabledOf(sources), answers);
            var after := RunTable(rows, u, sources, answers, None, now);
            && after.Keys == Insert(rows, u, NewJobs(rows, u, Dedupe(filtered)), now).Keys
            && (forall id :: id in after <==> id in rows || (id.user == u && KeptKey(sources, answers, id.key)))
            && (forall id :: id in rows && id.user != u ==> after[id] == rows[id])
  {
    var active := EnabledOf(sources);
    var filtered, raw := FilteredOf(active, answers), Dedupe(RawOf(active, answers));
    var saved := Insert(rows, u, NewJobs(rows, u, Dedupe(filtered)), now);
    SavedKeys(rows, u, filtered, now);
    ReconcileKeys(Heal(saved, u, raw), u, SourceIds(sources), Succeeded(active, answers), Keys(raw), now);
    forall k ensures k in Keys(filtered) <==> KeptKey(sources, answers, k) {
      FilteredKeysKept(sources, answers, k);
    }
  }

  lemma RunChecks(rows: Table, u: User, sources: seq<Source>, answers: Source -> Answer, gone: Option<set<RowId>>,
                  now: Time)
    ensures Checks(RunTable(rows, u, sources, answers, None, now), RunTable(rows, u, sources, answers, gone, now), u,
                   gone, now)
  {
    RemovedAreChecked(RunTable(rows, u, sources, answers, None, now), u, gone, now);
  }

  lemma RemovedAreChecked(stored: Table, u: User, gone: Option<set<RowId>>, now: Time)
    ensures var after := if gone.None? then stored
                         else SetRemoved(stored, CheckedIds(stored, Some(u), gone.value), now);
            Checks(stored, after, u, gone, now)
  {
  }

  /** The same as `StoragePhase` has it: in particular the URL is that of the last answer. */
  lemma RunStorage(rows: Table, u: User, sources: seq<Source>, answers: Source -> Answer, now: Time, id: RowId)
    ensures var raw, filtered := RawOf(EnabledOf(sources), answers), FilteredOf(EnabledOf(sources), answers);
            var r := RunTable(rows, u, sources, answers, None, now);
            && (id in r <==> id in rows || (id.user == u && id.key in Keys(filtered)))
            && (id in rows && id.user != u ==> r[id] == rows[id])
            && (id in r && id.user == u && id.key in Keys(raw) ==>
                  && LastIndexOfKey(raw, id.key) >= 0
                  && r[id].job.url == raw[LastIndexOfKey(raw, id.key)].url && r[id].Active())
            && (id in r && id !in rows ==> r[id].Unmailed() && r[id].status.None? && !r[id].isDuplicate)
  {
    FilteredAreRaw(EnabledOf(sources), answers);
    StoragePhase(rows, u, FilteredOf(EnabledOf(sources), answers), RawOf(EnabledOf(sources), answers),
                 SourceIds(sources), Succeeded(EnabledOf(sources), answers), now, id);
  }

  /** The postings a run finds, and those of them that are not stored. */
  function Found(sources: seq<Source>, answers: Source -> Answer): seq<Job> {
    Dedupe(FilteredOf(EnabledOf(sources), answers))
  }

  lemma FoundKeys(sources: seq<Source>, answers: Source -> Answer)
    ensures DistinctKeys(Found(sources, answers))
    ensures forall k :: k in Keys(Found(sources, answers)) <==> KeptKey(sources, answers, k)
  {
    DedupeKeys(FilteredOf(EnabledOf(sources), answers));
    forall k ensures k in Keys(Found(sources, answers)) <==> KeptKey(sources, answers, k) {
      FilteredKeysKept(sources, answers, k);
    }
  }

  /** `save_jobs` is refused: a new posting has an empty location, which has no stub. */
  predicate Refused(rows: Table, locations: set<string>, u: User, found: seq<Job>) {
    "" !in locations && exists j :: j in found && RowId(u, j.key) !in rows && j.location == Some("")
  }

  lemma RefusedIs(rows: Table, locations: set<string>, u: User, found: seq<Job>)
    requires DistinctKeys(found)
    ensures var unseen := NewJobs(rows, u, found);
            Storable(rows, locations + Stubs(unseen), u, unseen) <==> !Refused(rows, locations, u, found)
  {
    var unseen := NewJobs(rows, u, found);
    DistinctFiltered(found, (j: Job) => RowId(u, j.key) !in rows);
    RefusedLocation(rows, locations, u, unseen, Stubs(unseen));
  }

  /** What a run that did not fail has done, row by row and key by key. `stored` is the table
      before the URL check. */
  ghost predicate RunDid(summary: RunSummary, before: Table, stored: Table, after: Table, u: User,
                         sources: seq<Source>, answers: Source -> Answer, gone: Option<set<RowId>>, now: Time)
  {
    && Stores(before, stored, u, sources, answers, now) && Checks(stored, after, u, gone, now)
    && summary.urlRemoved == |Retired(stored, after)|
    && DistinctKeys(summary.foundJobs) && DistinctKeys(summary.newJobs)
    && (forall k :: k in Keys(summary.foundJobs) <==> KeptKey(sources, answers, k))
    && (forall k :: k in Keys(summary.newJobs) <==> KeptKey(sources, answers, k) && RowId(u, k) !in before)
    && (forall s :: s in summary.failed <==> s in sources && s.enabled && answers(s).None?)
  }

  /** The rows that stopped being active. */
  function Retired(before: Table, after: Table): set<RowId> {
    set id | id in before && id in after && before[id].removedAt.None? && after[id].removedAt.Some?
  }

  lemma ItDid(summary: RunSummary, before: Table, stored: Table, u: User, sources: seq<Source>,
              answers: Source -> Answer, gone: Option<set<RowId>>, now: Time)
    requires stored == RunTable(before, u, sources, answers, None, now)
    requires summary.foundJobs == Found(sources, answers)
    requires summary.newJobs == NewJobs(before, u, summary.foundJobs)
    requires summary.failed == Failed(EnabledOf(sources), answers)
    requires summary.urlRemoved == |Retired(stored, RunTable(before, u, sources, answers, gone, now))|
    ensures RunDid(summary, before, stored, RunTable(before, u, sources, answers, gone, now), u, sources, answers, gone,
                   now)
  {
    RunStores(before, u, sources, answers, now);
    RunChecks(before, u, sources, answers, gone, now);
    SummaryKeys(before, u, sources, answers);
  }

  /** A run fails, with nothing written, exactly when `save_jobs` is refused. */
  method RunOnce(store: JobStore.Store, u: User, sources: seq<Source>, answers: Source -> Answer,
                 gone: Option<set<RowId>>, now: Time) returns (summary: Option<RunSummary>)
    requires store.Valid()
    modifies store
    ensures store.Valid() && store.history == old(store.history)
    ensures summary.None? <==> Refused(old(store.rows), old(store.locations), u, Found(sources, answers))
    ensures summary.None? ==> store.rows == old(store.rows)
    ensures summary.Some? ==>
              && store.rows == RunTable(old(store.rows), u, sources, answers, gone, now)
              && summary.value.foundJobs == Found(sources, answers)
              && summary.value.newJobs == NewJobs(old(store.rows), u, summary.value.foundJobs)
              && summary.value.failed == Failed(EnabledOf(sources), answers)
    ensures summary.Some? ==>
              var stored := RunTable(old(store.rows), u, sources, answers, None, now);
              RunDid(summary.value, old(store.rows), stored, store.rows, u, sources, answers, gone, now)
  {
    var active := EnabledOf(sources);
    var allRaw, all, succeeded, failed := Scrape(active, answers);
    var jobs, raw := Dedupe(all), Dedupe(allRaw);
    DedupeKeys(all);
    RefusedIs(store.rows, store.locations, u, jobs);
    var ok, unseen := StoreFound(store, u, jobs, raw, SourceIds(sources), succeeded, now);
    if !ok {
      return None;
    }
    ghost var stored := store.rows;
    var removed := CheckOwnUrls(store, u, gone, now);
    summary := Some(RunSummary(unseen, jobs, failed, removed));
    ItDid(summary.value, old(store.rows), stored, u, sources, answers, gone, now);
  }

  lemma SummaryKeys(rows: Table, u: User, sources: seq<Source>, answers: Source -> Answer)
    ensures var found := Found(sources, answers);
            && DistinctKeys(found) && DistinctKeys(NewJobs(rows, u, found))
            && (forall k :: k in Keys(found) <==> KeptKey(sources, answers, k))
            && (forall k :: k in Keys(NewJobs(rows, u, found))
                            <==> KeptKey(sources, answers, k) && RowId(u, k) !in rows)
            && (forall s :: s in Failed(EnabledOf(sources), answers)
                            <==> s in sources && s.enabled && answers(s).None?)
  {
    FoundKeys(sources, answers);
    NewJobsKeys(rows, u, Found(sources, answers));
    NewJobsDistinct(rows, u, FilteredOf(EnabledOf(sources), answers));
    forall s ensures s in Failed(EnabledOf(sources), answers) <==> s in sources && s.enabled && answers(s).None? {
      FailedIff(EnabledOf(sources), answers, s);
    }
  }

  /** Comparing, saving, healing and reconciling, in this order. */
  method StoreFound(store: JobStore.Store, u: User, jobs: seq<Job>, raw: seq<Job>, configured: set<SourceId>,
                    succeeded: set<SourceId>, now: Time) returns (ok: bool, unseen: seq<Job>)
    requires store.Valid()
    modifies store
    ensures store.Valid() && store.history == old(store.history)
    ensures unseen == NewJobs(old(store.rows), u, jobs)
    ensures ok <==> Storable(old(store.rows), old(store.locations) + Stubs(unseen), u, unseen)
    ensures !ok ==> store.rows == old(store.rows)
    ensures ok ==> store.rows == Reconcile(Heal(Insert(old(store.rows), u, unseen, now), u, raw), u, configured,
                                           succeeded, Keys(raw), now)
  {
    unseen := store.GetNewJobs(u, jobs);
    ok := store.SaveJobs(u, unseen, now);
    if !ok {
      return false, unseen;
    }
    var _ := store.RefreshJobUrls(u, raw);
    store.ReconcileJobs(u, configured, succeeded, raw, now);
  }

  /** The run's own URL check; one that raises removes and counts nothing. */
  method CheckOwnUrls(store: JobStore.Store, u: User, gone: Option<set<RowId>>, now: Time) returns (removed: nat)
    requires store.Valid()
    modifies store`rows
    ensures store.Valid()
    ensures store.rows == if gone.None? then old(store.rows)
                          else SetRemoved(old(store.rows), CheckedIds(old(store.rows), Some(u), gone.value), now)
    ensures removed == |Retired(old(store.rows), store.rows)|
  {
    ghost var before := store.rows;
    if gone.None? {
      assert Retired(before, before) == {};
      return 0;
    }
    removed := store.CheckJobUrls(Some(u), gone.value, now);
    ChecksAre(before, store.rows, Some(u), gone.value, now);
    assert Retired(before, store.rows) == set id | id in before && before[id].Active() && !store.rows[id].Active();
  }

  // ---- _run_user ---------------------------------------------------------------------

  datatype Settings = Settings(
    emailDays: Option<string>, resendJobs: bool, emailTo: Option<string>,
    excludeStatuses: Option<string>, weeklyCheckin: bool)

  datatype Outcome =
    | DayOff
    | RunFailed
    | NoDigest
    | NotConfigured
    | SendFailed
    | Sent(jobs: seq<Job>)

  /** NULL days mean no restriction, the empty string means never. */
  predicate RunsToday(settings: Option<Settings>, today: string, force: bool) {
    force || settings.None? || settings.value.emailDays.None?
    || (var days := Strip(settings.value.emailDays.value); days != "" && today in Split(days))
  }

  function Excluded(settings: Option<Settings>): set<Status> {
    if settings.None? then {} else set s | s in Items(settings.value.excludeStatuses.GetOr(""))
  }

  function Recipients(settings: Settings): seq<string> {
    Filter(Trimmed(Split(settings.emailTo.GetOr(""))), NonEmpty)
  }

  function Trimmed(parts: seq<string>): seq<string> {
    if parts == [] then [] else [Strip(parts[0])] + Trimmed(parts[1..])
  }

  lemma KeysFiltered(jobs: seq<Job>, drop: set<Key>)
    requires DistinctKeys(jobs)
    ensures Keys(Filter(jobs, (j: Job) => j.key !in drop)) == Keys(jobs) - drop
    ensures DistinctKeys(Filter(jobs, (j: Job) => j.key !in drop))
  {
    var kept := Filter(jobs, (j: Job) => j.key !in drop);
    forall k | k in Keys(jobs) - drop ensures k in Keys(kept) {
      var j :| j in jobs && j.key == k;
      assert j in kept;
    }
    DistinctFiltered(jobs, (j: Job) => j.key !in drop);
  }

  lemma {:induction false} DistinctFiltered(jobs: seq<Job>, p: Job -> bool)
    requires DistinctKeys(jobs)
    ensures DistinctKeys(Filter(jobs, p))
  {
    if jobs != [] {
      DistinctFiltered(jobs[..|jobs| - 1], p);
      var front := Filter(jobs[..|jobs| - 1], p);
      forall i | 0 <= i < |front| ensures front[i].key != jobs[|jobs| - 1].key {
        assert front[i] in front;
      }
    }
  }

  /** `jobs_to_send`: this run's jobs, then every unmailed row not among them. */
  method WithRescued(base: seq<Job>, rescued: seq<Job>) returns (jobs: seq<Job>)
    requires DistinctKeys(base)
    ensures DistinctKeys(jobs) && Keys(jobs) == Keys(base) + Keys(rescued) && base <= jobs
  {
    jobs := base;
    var current := Keys(base);
    var i := 0;
    while i < |rescued|
      invariant 0 <= i <= |rescued|
      invariant DistinctKeys(jobs) && base <= jobs
      invariant current == Keys(jobs) == Keys(base) + Keys(rescued[..i])
    {
      assert rescued[..i + 1] == rescued[..i] + [rescued[i]];
      KeysSnoc(rescued[..i], rescued[i]);
      if rescued[i].key !in current {
        KeysSnoc(jobs, rescued[i]);
        assert forall m :: 0 <= m < |jobs| ==> jobs[m] in jobs;
        jobs := jobs + [rescued[i]];
        current := current + {rescued[i].key};
      }
      i := i + 1;
    }
    assert rescued[..i] == rescued;
  }

  /** The thread of the step system that corresponds to this run once it has stored. */
  function Composer(settings: Option<Settings>, sources: seq<Source>, base: set<Key>): Thread {
    RunOf(settings.Some? && settings.value.resendJobs, Excluded(settings), SourceIds(sources), Composing(base))
  }

  lemma NewJobsDistinct(rows: Table, u: User, scraped: seq<Job>)
    ensures DistinctKeys(Dedupe(scraped)) && DistinctKeys(NewJobs(rows, u, Dedupe(scraped)))
  {
    DedupeKeys(scraped);
    DistinctFiltered(Dedupe(scraped), (j: Job) => RowId(u, j.key) !in rows);
  }

  /** What goes into the digest: everything the run brought and everything still owed. */
  method JobsToSend(store: JobStore.Store, u: User, base: seq<Job>, excluded: set<Status>, ghost now: Time)
    returns (jobs: seq<Job>, ghost listed: set<Key>)
    requires store.Valid() && DistinctKeys(base)
    ensures DistinctKeys(jobs) && DuplicateListing(listed, store.rows, u)
    ensures Keys(jobs) == Keys(base) + UnmailedKeys(store.rows, u) - listed - ExcludedKeys(store.rows, u, excluded)
    ensures NothingOwed(JobTable.MarkEmailed(store.rows, u, Keys(jobs), now), u, excluded)
    ensures jobs == [] ==> NothingOwed(store.rows, u, excluded)
  {
    var rescued := store.GetUnemailedJobs(u);
    var all := WithRescued(base, rescued);
    var duplicates := store.ListDuplicateKeys(u, DUPLICATE_LISTING_LIMIT);
    KeysFiltered(all, duplicates);
    var screened := Filter(all, (j: Job) => j.key !in duplicates);
    var statuses := store.GetJobStatuses(u, Keys(screened));
    var dropped := set k | k in statuses && statuses[k].Some? && statuses[k].value in excluded;
    KeysFiltered(screened, dropped);
    DroppedAreExcluded(store.rows, u, Keys(screened), statuses, excluded, dropped);
    jobs := Filter(screened, (j: Job) => j.key !in dropped);
    listed := duplicates;
    OwedKeys(store.rows, u, excluded, duplicates, Keys(jobs), now);
  }

  predicate Deliverable(settings: Option<Settings>, smtp: bool) {
    settings.Some? && Recipients(settings.value) != [] && smtp
  }

  /** How a run ends once it knows what it would send: whether there is anything to say,
      to anybody, and whether SMTP takes it. */
  predicate Ends(outcome: Outcome, keys: set<Key>, failed: seq<Source>, settings: Option<Settings>, today: string,
                 smtp: bool, accepted: bool)
  {
    if keys == {} && failed == [] && !(today == "sun" && settings.Some? && settings.value.weeklyCheckin)
    then outcome.NoDigest?
    else if !Deliverable(settings, smtp) then outcome.NotConfigured?
    else if !accepted then outcome.SendFailed?
    else outcome.Sent? && DistinctKeys(outcome.jobs) && Keys(outcome.jobs) == keys
  }

  /** What a run's digest is composed from. */
  function BaseJobs(rows: Table, u: User, sources: seq<Source>, answers: Source -> Answer,
                    settings: Option<Settings>): seq<Job>
  {
    var found := Found(sources, answers);
    if settings.Some? && settings.value.resendJobs then found else NewJobs(rows, u, found)
  }

  /** What the digest of a run is to hold: with re-sending on, everything that a source kept,
      otherwise what was not stored before; in either case every row that is active and
      unmailed; but no listed duplicate and no excluded status. */
  ghost predicate ToSend(k: Key, before: Table, rows: Table, u: User, sources: seq<Source>, answers: Source -> Answer,
                         settings: Option<Settings>, listed: set<Key>)
  {
    var id := RowId(u, k);
    && ((KeptKey(sources, answers, k) && ((settings.Some? && settings.value.resendJobs) || id !in before))
        || (id in rows && rows[id].removedAt.None? && rows[id].emailedAt.None?))
    && k !in listed
    && !(id in rows && rows[id].status.Some? && rows[id].status.value in Excluded(settings))
  }

  ghost predicate Sends(keys: set<Key>, before: Table, rows: Table, u: User, sources: seq<Source>,
                        answers: Source -> Answer, settings: Option<Settings>, listed: set<Key>)
  {
    forall k :: k in keys <==> ToSend(k, before, rows, u, sources, answers, settings, listed)
  }

  lemma ToSendIff(before: Table, rows: Table, u: User, sources: seq<Source>, answers: Source -> Answer,
                  settings: Option<Settings>, listed: set<Key>)
    ensures var base := BaseJobs(before, u, sources, answers, settings);
            Sends(DigestKeys(rows, u, Composer(settings, sources, Keys(base)), listed), before, rows, u, sources,
                  answers, settings, listed)
  {
    SummaryKeys(before, u, sources, answers);
  }

  /** The thread that the digest is composed by is the one that the run's locked steps leave. */
  lemma ComposerIsLeft(s: State, t: Tid, sources: seq<Source>, answers: Source -> Answer, settings: Option<Settings>,
                       now: Time, check: Option<set<RowId>>)
    ensures var active := EnabledOf(sources);
            var b := Batch(Dedupe(RawOf(active, answers)), Dedupe(FilteredOf(active, answers)),
                           Succeeded(active, answers));
            var resend := settings.Some? && settings.value.resendJobs;
            var r := RunOf(resend, Excluded(settings), SourceIds(sources), Waiting);
            var after := AfterStorage(s, t, r, b, now, check);
            var base := BaseJobs(s.rows, t.owner, sources, answers, settings);
            t in after.threads && after.threads[t] == Composer(settings, sources, Keys(base))
  {
  }

  /** One user's scheduled run. It does nothing on a day off, fails exactly when storing is
      refused, and otherwise ends as the digest's keys, the failed sources, the settings
      and SMTP decide; the keys are those the step system would send. A digest that went
      out, or had nothing to say, leaves no active unmailed posting except flagged
      duplicates and excluded statuses. */
  method RunUser(store: JobStore.Store, u: User, sources: seq<Source>, settings: Option<Settings>, today: string,
                 force: bool, answers: Source -> Answer, gone: Option<set<RowId>>, smtp: bool, accepted: bool,
                 now: Time)
    returns (outcome: Outcome, ghost listed: set<Key>)
    requires store.Valid()
    modifies store
    ensures store.Valid() && store.history == old(store.history)
    ensures outcome.DayOff? <==> !RunsToday(settings, today, force)
    ensures outcome.RunFailed? <==>
              RunsToday(settings, today, force)
              && Refused(old(store.rows), old(store.locations), u, Found(sources, answers))
    ensures outcome.DayOff? || outcome.RunFailed? ==> store.rows == old(store.rows)
    ensures !outcome.DayOff? && !outcome.RunFailed? ==>
              var rows := RunTable(old(store.rows), u, sources, answers, gone, now);
              var base := BaseJobs(old(store.rows), u, sources, answers, settings);
              var keys := DigestKeys(rows, u, Composer(settings, sources, Keys(base)), listed);
              && DuplicateListing(listed, rows, u)
              && Sends(keys, old(store.rows), rows, u, sources, answers, settings, listed)
              && Ends(outcome, keys, Failed(EnabledOf(sources), answers), settings, today, smtp, accepted)
              && store.rows == if outcome.Sent? then JobTable.MarkEmailed(rows, u, keys, now) else rows
    ensures outcome.Sent? || outcome.NoDigest? ==> NothingOwed(store.rows, u, Excluded(settings))
  {
    listed := {};
    if !RunsToday(settings, today, force) {
      return DayOff, {};
    }
    var run := RunOnce(store, u, sources, answers, gone, now);
    if run.None? {
      return RunFailed, {};
    }
    outcome, listed := Notify(store, u, run.value, sources, settings, today, answers, smtp, accepted, now,
                              old(store.rows));
  }

  /** What follows the run: its own postings, new ones or all, then the digest. */
  method Notify(store: JobStore.Store, u: User, summary: RunSummary, ghost sources: seq<Source>,
                settings: Option<Settings>, today: string, ghost answers: Source -> Answer, smtp: bool,
                accepted: bool, now: Time, ghost before: Table)
    returns (outcome: Outcome, ghost listed: set<Key>)
    requires store.Valid()
    requires summary.foundJobs == Found(sources, answers)
    requires summary.newJobs == NewJobs(before, u, summary.foundJobs)
    modifies store`rows
    ensures store.Valid() && !outcome.DayOff? && !outcome.RunFailed?
    ensures var rows := old(store.rows);
            var base := BaseJobs(before, u, sources, answers, settings);
            var keys := DigestKeys(rows, u, Composer(settings, sources, Keys(base)), listed);
            && DuplicateListing(listed, rows, u)
            && Sends(keys, before, rows, u, sources, answers, settings, listed)
            && Ends(outcome, keys, summary.failed, settings, today, smtp, accepted)
            && store.rows == if outcome.Sent? then JobTable.MarkEmailed(rows, u, keys, now) else rows
    ensures outcome.Sent? || outcome.NoDigest? ==> NothingOwed(store.rows, u, Excluded(settings))
  {
    var resend := settings.Some? && settings.value.resendJobs;
    var base := if resend then summary.foundJobs else summary.newJobs;
    NewJobsDistinct(before, u, FilteredOf(EnabledOf(sources), answers));
    outcome, listed := Digest(store, u, base, summary.failed, settings, today, smtp, accepted, now);
    ToSendIff(before, old(store.rows), u, sources, answers, settings, listed);
  }

  /** The rest of the run, from composing to marking. */
  method Digest(store: JobStore.Store, u: User, base: seq<Job>, failed: seq<Source>, settings: Option<Settings>,
                today: string, smtp: bool, accepted: bool, now: Time)
    returns (outcome: Outcome, ghost listed: set<Key>)
    requires store.Valid() && DistinctKeys(base)
    modifies store`rows
    ensures store.Valid() && !outcome.DayOff? && !outcome.RunFailed?
    ensures var rows := old(store.rows);
            var keys := Keys(base) + UnmailedKeys(rows, u) - listed - ExcludedKeys(rows, u, Excluded(settings));
            && DuplicateListing(listed, rows, u)
            && Ends(outcome, keys, failed, settings, today, smtp, accepted)
            && store.rows == if outcome.Sent? then JobTable.MarkEmailed(rows, u, keys, now) else rows
    ensures outcome.Sent? || outcome.NoDigest? ==> NothingOwed(store.rows, u, Excluded(settings))
  {
    var jobs;
    jobs, listed := JobsToSend(store, u, base, Excluded(settings), now);
    assert Keys(jobs) == {} <==> jobs == [] by {
      assert jobs != [] ==> jobs[0].key in Keys(jobs);
    }
    var checkin := today == "sun" && settings.Some? && settings.value.weeklyCheckin;
    if jobs == [] && failed == [] && !checkin {
      return NoDigest, listed;
    }
    if settings.None? || Recipients(settings.value) == [] || !smtp {
      return NotConfigured, listed;
    }
    if !accepted {
      return SendFailed, listed;
    }
    ghost var before := store.rows;
    var keys := KeyList(jobs);
    store.MarkEmailed(u, keys, now);
    MarksAre(before, store.rows, u, keys, now);
    outcome := Sent(jobs);
  }

  function KeyList(jobs: seq<Job>): (keys: seq<Key>)
    ensures (set k | k in keys) == Keys(jobs)
  {
    if jobs == [] then []
    else
      var n := |jobs| - 1;
      assert jobs == jobs[..n] + [jobs[n]];
      KeysSnoc(jobs[..n], jobs[n]);
      KeyList(jobs[..n]) + [jobs[n].key]
  }

  lemma DroppedAreExcluded(rows: Table, u: User, keys: set<Key>, statuses: map<Key, Option<Status>>,
                           excluded: set<Status>, dropped: set<Key>)
    requires statuses.Keys == set k | k in keys && RowId(u, k) in rows
    requires forall k :: k in statuses ==> statuses[k] == rows[RowId(u, k)].status
    requires dropped == set k | k in statuses && statuses[k].Some? && statuses[k].value in excluded
    ensures keys - dropped == keys - ExcludedKeys(rows, u, excluded)
  {
  }
}
