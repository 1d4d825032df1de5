/** The `jobs` table as a value: what each statement of the store does to it,
    and what a whole storage phase of a run leaves behind. */
module JobTable {
  import opened Common
  import opened Jobs

  type User = string
  type Time = int
  type Status = string

  /** Primary key of `jobs`: the same posting may be stored once per user. */
  datatype RowId = RowId(user: User, key: Key)

  datatype Row = Row(
    job: Job, firstSeenAt: Time, removedAt: Option<Time>, emailedAt: Option<Time>,
    status: Option<Status>, isDuplicate: bool, duplicateOf: Option<Key>, notes: Option<string>)
  {
    predicate Active() { removedAt.None? }

    /** Eligible for the next digest. */
    predicate Unmailed() { removedAt.None? && emailedAt.None? }
  }

  type Table = map<RowId, Row>

  function FreshRow(j: Job, now: Time): Row {
    Row(j, now, None, None, None, false, None, None)
  }

  function Ids(u: User, keys: set<Key>): (ids: set<RowId>)
    ensures forall id :: id in ids <==> id.user == u && id.key in keys
  {
    set k | k in keys :: RowId(u, k)
  }

  /** Keys of the rows of `u` that satisfy `p`. */
  function KeysWhere(rows: Table, u: User, p: Row -> bool): (keys: set<Key>)
    ensures forall k :: k in keys <==> RowId(u, k) in rows && p(rows[RowId(u, k)])
  {
    set id | id in rows && id.user == u && p(rows[id]) :: id.key
  }

  /** `UPDATE jobs SET ... WHERE (user_id, key) IN ids`. */
  function Update(rows: Table, ids: set<RowId>, f: Row -> Row): (r: Table)
    ensures r.Keys == rows.Keys
    ensures forall id :: id in rows ==> r[id] == if id in ids then f(rows[id]) else rows[id]
  {
    map id | id in rows :: if id in rows && id in ids then f(rows[id]) else rows[id]
  }

  // ---- get_new_jobs, save_jobs, refresh_job_urls, clear_jobs ----------------

  function NewJobs(rows: Table, u: User, jobs: seq<Job>): seq<Job> {
    Filter(jobs, (j: Job) => RowId(u, j.key) !in rows)
  }

  /** `INSERT ... ON CONFLICT (user_id, key) DO NOTHING`, one job after another. */
  function Insert(rows: Table, u: User, jobs: seq<Job>, now: Time): (r: Table)
    ensures r.Keys == rows.Keys + Ids(u, Keys(jobs))
    ensures forall id :: id in rows ==> r[id] == rows[id]
    ensures forall id :: id in r && id !in rows ==>
              r[id].job in jobs && r[id].job.key == id.key && r[id] == FreshRow(r[id].job, now)
  {
    if jobs == [] then rows
    else
      var n := |jobs| - 1;
      assert Keys(jobs) == Keys(jobs[..n]) + {jobs[n].key} by {
        assert jobs == jobs[..n] + [jobs[n]];
        KeysSnoc(jobs[..n], jobs[n]);
      }
      InsertOne(Insert(rows, u, jobs[..n], now), u, jobs[n], now)
  }

  function InsertOne(rows: Table, u: User, j: Job, now: Time): Table {
    if RowId(u, j.key) in rows then rows else rows[RowId(u, j.key) := FreshRow(j, now)]
  }

  /** The URL a stored row ends up with: the last one scraped for its key. */
  function LatestUrl(jobs: seq<Job>, k: Key, stored: string): string {
    if jobs == [] then stored
    else if jobs[|jobs| - 1].key == k then jobs[|jobs| - 1].url
    else LatestUrl(jobs[..|jobs| - 1], k, stored)
  }

  function Heal(rows: Table, u: User, jobs: seq<Job>): (r: Table)
    ensures r.Keys == rows.Keys
    ensures forall id :: id in rows ==>
              r[id] == if id.user == u
                       then rows[id].(job := rows[id].job.(url := LatestUrl(jobs, id.key, rows[id].job.url)))
                       else rows[id]
  {
    map id | id in rows ::
      if id in rows && id.user == u
      then rows[id].(job := rows[id].job.(url := LatestUrl(jobs, id.key, rows[id].job.url)))
      else rows[id]
  }

  function Clear(rows: Table, u: User): (r: Table)
    ensures forall id :: id in r <==> id in rows && id.user != u
    ensures forall id :: id in r ==> r[id] == rows[id]
  {
    rows - (set id | id in rows && id.user == u)
  }

  // ---- reconcile_jobs --------------------------------------------------------

  /** An active row whose source was deleted, or whose source answered without it. */
  predicate Vanished(row: Row, key: Key, configured: set<SourceId>, succeeded: set<SourceId>, found: set<Key>) {
    row.Active() && row.job.sourceId.Some?
    && ((row.job.sourceId.value in succeeded && key !in found) || row.job.sourceId.value !in configured)
  }

  function RemoveKeys(rows: Table, u: User, configured: set<SourceId>, succeeded: set<SourceId>, found: set<Key>)
    : (keys: set<Key>)
    ensures forall k :: k in keys <==>
              RowId(u, k) in rows && Vanished(rows[RowId(u, k)], k, configured, succeeded, found)
  {
    set id | id in rows && id.user == u && Vanished(rows[id], id.key, configured, succeeded, found) :: id.key
  }

  function SetRemoved(rows: Table, ids: set<RowId>, now: Time): Table {
    Update(rows, ids, (r: Row) => r.(removedAt := Some(now)))
  }

  function Reactivate(rows: Table, ids: set<RowId>): Table {
    Update(rows, ids, (r: Row) => r.(removedAt := None, emailedAt := None))
  }

  /** Keys that the second half of `reconcile_jobs` brings back, once `removed` is applied. */
  function ReactivateKeys(rows: Table, u: User, removed: set<Key>, found: set<Key>): (keys: set<Key>)
    ensures forall k :: k in keys <==>
              k in found && RowId(u, k) in rows && (k in removed || !rows[RowId(u, k)].Active())
  {
    set id | id in rows && id.user == u && id.key in found && (id.key in removed || !rows[id].Active()) :: id.key
  }

  /** Both updates of `reconcile_jobs`, which commit together. */
  function Settle(rows: Table, u: User, remove: set<Key>, reactivate: set<Key>, now: Time): Table {
    Reactivate(SetRemoved(rows, Ids(u, remove), now), Ids(u, reactivate))
  }

  function Reconcile(rows: Table, u: User, configured: set<SourceId>, succeeded: set<SourceId>,
                     found: set<Key>, now: Time): Table
  {
    var remove := RemoveKeys(rows, u, configured, succeeded, found);
    Settle(rows, u, remove, ReactivateKeys(rows, u, remove, found), now)
  }

  predicate Unconfigured(row: Row, configured: set<SourceId>) {
    row.job.sourceId.Some? && row.job.sourceId.value !in configured
  }

  /** Which rows a reconcile leaves active, which lose their mailed mark, and
      that it touches nothing else. */
  lemma ReconcileClosedForm(rows: Table, u: User, configured: set<SourceId>, succeeded: set<SourceId>,
                            found: set<Key>, now: Time)
    ensures var r := Reconcile(rows, u, configured, succeeded, found, now);
            && r.Keys == rows.Keys
            && (forall id :: id in rows && id.user != u ==> r[id] == rows[id])
            && (forall id :: id in rows && id.user == u ==>
                  var row, row' := rows[id], r[id];
                  var src := row.job.sourceId;
                  && (row'.Active() <==>
                        id.key in found
                        || (row.Active() && (src.None? || (src.value in configured && src.value !in succeeded))))
                  && row'.emailedAt == (if id.key in found && (!row.Active() || Unconfigured(row, configured))
                                        then None else row.emailedAt)
                  && (!row'.Active() ==>
                        row'.removedAt == if row.Active() then Some(now) else row.removedAt)
                  && row' == row.(removedAt := row'.removedAt, emailedAt := row'.emailedAt))
  {
  }

  lemma ReconcileKeys(rows: Table, u: User, configured: set<SourceId>, succeeded: set<SourceId>,
                      found: set<Key>, now: Time)
    ensures var r := Reconcile(rows, u, configured, succeeded, found, now);
            r.Keys == rows.Keys && forall id :: id in rows && id.user != u ==> r[id] == rows[id]
  {
    ReconcileClosedForm(rows, u, configured, succeeded, found, now);
  }

  /** A row that a reconcile has nothing to do to. */
  predicate SettledAs(row: Row, key: Key, configured: set<SourceId>, succeeded: set<SourceId>, found: set<Key>) {
    && (row.Active() ==> key in found || !Vanished(row, key, configured, succeeded, found))
    && (!row.Active() ==> key !in found)
    && (key in found && Unconfigured(row, configured) ==> row.emailedAt.None?)
  }

  lemma LeavesSettled(rows: Table, u: User, configured: set<SourceId>, succeeded: set<SourceId>,
                      found: set<Key>, now: Time, id: RowId)
    requires id in rows && id.user == u
    ensures var r := Reconcile(rows, u, configured, succeeded, found, now);
            id in r && SettledAs(r[id], id.key, configured, succeeded, found)
  {
    ReconcileClosedForm(rows, u, configured, succeeded, found, now);
  }

  lemma SettledRow(rows: Table, u: User, configured: set<SourceId>, succeeded: set<SourceId>,
                   found: set<Key>, later: Time, id: RowId)
    requires id in rows && id.user == u && SettledAs(rows[id], id.key, configured, succeeded, found)
    ensures var r := Reconcile(rows, u, configured, succeeded, found, later);
            id in r && r[id] == rows[id]
  {
    ReconcileClosedForm(rows, u, configured, succeeded, found, later);
  }

  /** Reconciling again with the same run's results changes nothing, at any later time. */
  lemma ReconcileIdempotent(rows: Table, u: User, configured: set<SourceId>, succeeded: set<SourceId>,
                            found: set<Key>, now: Time, later: Time)
    ensures var r := Reconcile(rows, u, configured, succeeded, found, now);
            Reconcile(r, u, configured, succeeded, found, later) == r
  {
    var r := Reconcile(rows, u, configured, succeeded, found, now);
    var r2 := Reconcile(r, u, configured, succeeded, found, later);
    ReconcileKeys(rows, u, configured, succeeded, found, now);
    ReconcileKeys(r, u, configured, succeeded, found, later);
    forall id | id in r ensures r2[id] == r[id] {
      if id.user == u {
        LeavesSettled(rows, u, configured, succeeded, found, now, id);
        SettledRow(r, u, configured, succeeded, found, later, id);
      }
    }
  }

  /** The mailed mark of an active row that is found again survives exactly when the
      row's own stored source is still configured (or it has none): a row kept alive
      by another source is mailed again after every run. */
  lemma FoundRowStaysMailed(rows: Table, u: User, configured: set<SourceId>, succeeded: set<SourceId>,
                            found: set<Key>, now: Time, k: Key)
    requires RowId(u, k) in rows && rows[RowId(u, k)].Active() && rows[RowId(u, k)].emailedAt.Some?
    requires k in found
    ensures var r := Reconcile(rows, u, configured, succeeded, found, now);
            r[RowId(u, k)].Unmailed() <==> Unconfigured(rows[RowId(u, k)], configured)
  {
    ReconcileClosedForm(rows, u, configured, succeeded, found, now);
  }

  // ---- the storage phase of a run ---------------------------------------------

  /** get_new_jobs, save_jobs, refresh_job_urls and reconcile_jobs, in the order
      `run_once` calls them. `filtered` and `raw` are the scraped lists after and
      before the keyword filters. */
  function StoreScrape(rows: Table, u: User, filtered: seq<Job>, raw: seq<Job>, configured: set<SourceId>,
                 succeeded: set<SourceId>, now: Time): Table
  {
    var saved := Insert(rows, u, NewJobs(rows, u, Dedupe(filtered)), now);
    Reconcile(Heal(saved, u, Dedupe(raw)), u, configured, succeeded, Keys(Dedupe(raw)), now)
  }

  lemma {:induction false} LatestUrlIsLast(jobs: seq<Job>, k: Key, stored: string)
    ensures LatestUrl(jobs, k, stored) ==
            if LastIndexOfKey(jobs, k) >= 0 then jobs[LastIndexOfKey(jobs, k)].url else stored
  {
    if jobs != [] {
      LatestUrlIsLast(jobs[..|jobs| - 1], k, stored);
    }
  }

  /** De-duplicating first does not change which URL wins. */
  lemma LatestUrlOfDedupe(jobs: seq<Job>, k: Key, stored: string)
    ensures LatestUrl(Dedupe(jobs), k, stored) == LatestUrl(jobs, k, stored)
  {
    var d := Dedupe(jobs);
    LatestUrlIsLast(d, k, stored);
    LatestUrlIsLast(jobs, k, stored);
    DedupeKeys(jobs);
    DedupeLast(jobs);
    KeyHasIndex(d, k);
    KeyHasIndex(jobs, k);
    if LastIndexOfKey(d, k) >= 0 {
      assert d[LastIndexOfKey(d, k)] in d;
    }
  }

  lemma NewJobsKeys(rows: Table, u: User, jobs: seq<Job>)
    ensures forall k :: k in Keys(NewJobs(rows, u, jobs)) <==> k in Keys(jobs) && RowId(u, k) !in rows
  {
    var unseen := NewJobs(rows, u, jobs);
    forall k | k in Keys(jobs) && RowId(u, k) !in rows ensures k in Keys(unseen) {
      var j :| j in jobs && j.key == k;
      assert j in unseen;
    }
  }

  lemma SavedKeys(rows: Table, u: User, filtered: seq<Job>, now: Time)
    ensures Insert(rows, u, NewJobs(rows, u, Dedupe(filtered)), now).Keys == rows.Keys + Ids(u, Keys(filtered))
  {
    NewJobsKeys(rows, u, Dedupe(filtered));
    DedupeKeys(filtered);
  }

  lemma HealedUrl(raw: seq<Job>, k: Key, stored: string)
    ensures LatestUrl(Dedupe(raw), k, stored)
            == if k in Keys(raw) && LastIndexOfKey(raw, k) >= 0 then raw[LastIndexOfKey(raw, k)].url else stored
    ensures k in Keys(raw) <==> LastIndexOfKey(raw, k) >= 0
  {
    LatestUrlOfDedupe(raw, k, stored);
    LatestUrlIsLast(raw, k, stored);
    KeyHasIndex(raw, k);
  }

  /** What a run's storage phase leaves behind, for every possible row. */
  lemma StoragePhase(rows: Table, u: User, filtered: seq<Job>, raw: seq<Job>, configured: set<SourceId>,
                     succeeded: set<SourceId>, now: Time, id: RowId)
    requires forall j :: j in filtered ==> j in raw
    ensures var r := StoreScrape(rows, u, filtered, raw, configured, succeeded, now);
            && (id in r <==> id in rows || (id.user == u && id.key in Keys(filtered)))
            && (id in rows && id.user != u ==> r[id] == rows[id])
            && (id in r && id.user == u && id.key in Keys(raw) ==>
                  && LastIndexOfKey(raw, id.key) >= 0
                  && r[id].job.url == raw[LastIndexOfKey(raw, id.key)].url
                  && r[id].Active())
            && (id in r && id !in rows ==>
                  && r[id].Unmailed() && r[id].status.None? && !r[id].isDuplicate && r[id].firstSeenAt == now)
            && (id in rows && id.user == u && id.key !in Keys(raw) ==>
                  r[id].job == rows[id].job && r[id].emailedAt == rows[id].emailedAt)
  {
    var saved := Insert(rows, u, NewJobs(rows, u, Dedupe(filtered)), now);
    var healed := Heal(saved, u, Dedupe(raw));
    SavedKeys(rows, u, filtered, now);
    DedupeKeys(raw);
    ReconcileClosedForm(healed, u, configured, succeeded, Keys(raw), now);
    FilteredKeys(filtered, raw);
    if id in saved && id.user == u {
      HealedUrl(raw, id.key, saved[id].job.url);
    }
  }

  lemma FilteredKeys(filtered: seq<Job>, raw: seq<Job>)
    requires forall j :: j in filtered ==> j in raw
    ensures Keys(filtered) <= Keys(raw)
  {
  }

  /** For a row stored before the run, the keyword lists do not matter. */
  lemma StorageIgnoresKeywords(rows: Table, u: User, filtered: seq<Job>, filtered': seq<Job>, raw: seq<Job>,
                               configured: set<SourceId>, succeeded: set<SourceId>, now: Time)
    ensures forall id :: id in rows ==>
              && id in StoreScrape(rows, u, filtered, raw, configured, succeeded, now)
              && id in StoreScrape(rows, u, filtered', raw, configured, succeeded, now)
              && StoreScrape(rows, u, filtered, raw, configured, succeeded, now)[id]
                 == StoreScrape(rows, u, filtered', raw, configured, succeeded, now)[id]
  {
    var found := Keys(Dedupe(raw));
    var a := Heal(Insert(rows, u, NewJobs(rows, u, Dedupe(filtered)), now), u, Dedupe(raw));
    var b := Heal(Insert(rows, u, NewJobs(rows, u, Dedupe(filtered')), now), u, Dedupe(raw));
    ReconcileLocal(a, b, u, configured, succeeded, found, now);
  }

  /** Reconcile treats a row by its own contents only. */
  lemma ReconcileLocal(a: Table, b: Table, u: User, configured: set<SourceId>, succeeded: set<SourceId>,
                       found: set<Key>, now: Time)
    ensures forall id :: id in a && id in b && a[id] == b[id] ==>
              Reconcile(a, u, configured, succeeded, found, now)[id]
              == Reconcile(b, u, configured, succeeded, found, now)[id]
  {
    ReconcileClosedForm(a, u, configured, succeeded, found, now);
    ReconcileClosedForm(b, u, configured, succeeded, found, now);
  }

  // ---- mark_emailed and the user's edits --------------------------------------

  function MarkEmailed(rows: Table, u: User, keys: set<Key>, now: Time): Table {
    Update(rows, Ids(u, keys), (r: Row) => r.(emailedAt := Some(now)))
  }

  function SetStatus(rows: Table, u: User, keys: set<Key>, status: Option<Status>): Table {
    Update(rows, Ids(u, keys), (r: Row) => r.(status := status))
  }

  function SetDuplicate(rows: Table, u: User, key: Key, flag: bool, of: Option<Key>): Table {
    Update(rows, Ids(u, {key}), (r: Row) => r.(isDuplicate := flag, duplicateOf := if flag then of else None))
  }

  function UnmailedKeys(rows: Table, u: User): set<Key> {
    KeysWhere(rows, u, (r: Row) => r.Unmailed())
  }

  function DuplicateKeys(rows: Table, u: User): set<Key> {
    KeysWhere(rows, u, (r: Row) => r.isDuplicate)
  }

  function ExcludedKeys(rows: Table, u: User, excluded: set<Status>): set<Key> {
    KeysWhere(rows, u, (r: Row) => r.status.Some? && r.status.value in excluded)
  }
}
