/** The job functions of the database layer, updating their tables in place. */
module JobStore {
  import opened Common
  import opened Jobs
  import opened JobTable
  import opened StatusHistory
  import opened Effects

  /** Locations that `save_jobs` makes a stub for. */
  function Stubs(jobs: seq<Job>): set<string> {
    set j | j in jobs && j.location.Some? && j.location.value != "" :: j.location.value
  }

  /** The foreign key of `jobs.location` accepts every job that is inserted. */
  predicate Storable(rows: Table, known: set<string>, u: User, jobs: seq<Job>) {
    jobs == [] ||
    (var n := |jobs| - 1;
     && Storable(rows, known, u, jobs[..n])
     && (RowId(u, jobs[n].key) in rows || jobs[n].key in Keys(jobs[..n])
         || jobs[n].location.None? || jobs[n].location.value in known))
  }

  /** With the stubs in place, only an empty location can be refused. */
  lemma {:induction false} RefusedLocation(rows: Table, known: set<string>, u: User, jobs: seq<Job>, all: set<string>)
    requires DistinctKeys(jobs) && Stubs(jobs) <= all
    ensures Storable(rows, known + all, u, jobs) <==>
              forall j :: j in jobs && RowId(u, j.key) !in rows && j.location == Some("") ==> "" in known + all
  {
    if jobs != [] {
      var n := |jobs| - 1;
      var front, last := jobs[..n], jobs[n];
      assert jobs == front + [last];
      assert last.key !in Keys(front);
      RefusedLocation(rows, known, u, front, all);
    }
  }

  lemma InsertStep(rows: Table, u: User, jobs: seq<Job>, i: nat, now: Time)
    requires i < |jobs|
    ensures Insert(rows, u, jobs[..i + 1], now) == InsertOne(Insert(rows, u, jobs[..i], now), u, jobs[i], now)
  {
    assert jobs[..i + 1][..i] == jobs[..i];
  }

  lemma StorableStep(rows: Table, known: set<string>, u: User, jobs: seq<Job>, i: nat)
    requires i < |jobs|
    ensures Storable(rows, known, u, jobs[..i + 1]) <==>
              && Storable(rows, known, u, jobs[..i])
              && (RowId(u, jobs[i].key) in rows || jobs[i].key in Keys(jobs[..i])
                  || jobs[i].location.None? || jobs[i].location.value in known)
    ensures Storable(rows, known, u, jobs) ==> Storable(rows, known, u, jobs[..i + 1])
    decreases |jobs|
  {
    assert jobs[..i + 1][..i] == jobs[..i];
    if i + 1 == |jobs| {
      assert jobs[..i + 1] == jobs;
    } else if Storable(rows, known, u, jobs) {
      var front := jobs[..|jobs| - 1];
      StorableStep(rows, known, u, front, i);
      assert front[..i + 1] == jobs[..i + 1];
    }
  }

  /** Rows actually changed by healing URLs one job after another. */
  function HealCount(rows: Table, u: User, jobs: seq<Job>): nat {
    if jobs == [] then 0
    else
      var n := |jobs| - 1;
      var id := RowId(u, jobs[n].key);
      HealCount(rows, u, jobs[..n])
      + if id in rows && Heal(rows, u, jobs[..n])[id].job.url != jobs[n].url then 1 else 0
  }

  lemma HealStep(rows: Table, u: User, jobs: seq<Job>, i: nat)
    requires i < |jobs|
    ensures var id, table := RowId(u, jobs[i].key), Heal(rows, u, jobs[..i]);
            var changes := id in table && table[id].job.url != jobs[i].url;
            && Heal(rows, u, jobs[..i + 1])
               == (if changes then table[id := table[id].(job := table[id].job.(url := jobs[i].url))] else table)
            && HealCount(rows, u, jobs[..i + 1]) == HealCount(rows, u, jobs[..i]) + if changes then 1 else 0
  {
    assert jobs[..i + 1][..i] == jobs[..i];
  }

  function ChangedIds(rows: Table, rows': Table): set<RowId> {
    set id | id in rows && id in rows' && rows[id] != rows'[id]
  }

  /** For a list without repeated keys, the count is the number of rows that differ. */
  lemma {:induction false} HealCountIsChanged(rows: Table, u: User, jobs: seq<Job>)
    requires DistinctKeys(jobs)
    ensures HealCount(rows, u, jobs) == |ChangedIds(rows, Heal(rows, u, jobs))|
  {
    if jobs == [] {
      assert ChangedIds(rows, Heal(rows, u, jobs)) == {};
    } else {
      var n := |jobs| - 1;
      var id := RowId(u, jobs[n].key);
      HealCountIsChanged(rows, u, jobs[..n]);
      UnlistedUrl(jobs[..n], jobs[n].key);
      assert jobs[..n + 1] == jobs;
      HealStep(rows, u, jobs, n);
      var before := ChangedIds(rows, Heal(rows, u, jobs[..n]));
      assert id !in before;
      assert ChangedIds(rows, Heal(rows, u, jobs))
          == before + if id in rows && rows[id].job.url != jobs[n].url then {id} else {};
    }
  }

  lemma {:induction false} UnlistedUrl(jobs: seq<Job>, k: Key)
    requires forall i :: 0 <= i < |jobs| ==> jobs[i].key != k
    ensures forall stored :: LatestUrl(jobs, k, stored) == stored
  {
    if jobs != [] {
      UnlistedUrl(jobs[..|jobs| - 1], k);
    }
  }

  /** The two-select form of `remove_keys`. */
  lemma RemoveKeysAreVanished(table: Table, u: User, configured: set<SourceId>, succeeded: set<SourceId>,
                              found: set<Key>, activeRows: set<(Key, SourceId)>, deleted: set<SourceId>,
                              remove: set<Key>)
    requires activeRows == set id | id in table && id.user == u && table[id].Active() && table[id].job.sourceId.Some?
                             :: (id.key, table[id].job.sourceId.value)
    requires deleted == set r | r in activeRows && r.1 !in configured :: r.1
    requires remove == set r | r in activeRows && ((r.1 in succeeded && r.0 !in found) || r.1 in deleted) :: r.0
    ensures remove == RemoveKeys(table, u, configured, succeeded, found)
  {
    forall k ensures k in remove <==> k in RemoveKeys(table, u, configured, succeeded, found) {
      if k in RemoveKeys(table, u, configured, succeeded, found) {
        var r := (k, table[RowId(u, k)].job.sourceId.value);
        assert r in activeRows;
        assert r.0 in remove;
      }
    }
  }

  /** The second select, after the first update. */
  lemma RemovedAndFound(rows: Table, u: User, remove: set<Key>, found: set<Key>, now: Time, reactivate: set<Key>)
    requires var table := SetRemoved(rows, Ids(u, remove), now);
             reactivate == set id | id in table && id.user == u && !table[id].Active() && id.key in found :: id.key
    ensures reactivate == ReactivateKeys(rows, u, remove, found)
  {
    var table := SetRemoved(rows, Ids(u, remove), now);
    forall k ensures k in reactivate <==> k in ReactivateKeys(rows, u, remove, found) {
      if k in ReactivateKeys(rows, u, remove, found) {
        assert RowId(u, k) in table && !table[RowId(u, k)].Active() && RowId(u, k).key in reactivate;
      }
    }
  }

  /** Skipping an update without keys changes nothing. */
  lemma SettleEmpty(rows: Table, u: User, remove: set<Key>, reactivate: set<Key>, now: Time)
    ensures remove == {} ==> SetRemoved(rows, Ids(u, remove), now) == rows
    ensures reactivate == {} ==> Reactivate(SetRemoved(rows, Ids(u, remove), now), Ids(u, reactivate))
                                 == SetRemoved(rows, Ids(u, remove), now)
  {
  }

  /** Rows of the user the check is for, or of everybody. */
  predicate InScope(id: RowId, scope: Option<User>) {
    scope.None? || id.user == scope.value
  }

  function CheckedIds(rows: Table, scope: Option<User>, gone: set<RowId>): set<RowId> {
    set id | id in rows && rows[id].Active() && InScope(id, scope) && id in gone
  }

  // ---- the executemany loops ---------------------------------------------------

  method InsertAll(rows: Table, known: set<string>, u: User, jobs: seq<Job>, now: Time) returns (ok: bool, table: Table)
    ensures ok <==> Storable(rows, known, u, jobs)
    ensures ok ==> table == Insert(rows, u, jobs, now)
  {
    table := rows;
    var i := 0;
    while i < |jobs|
      invariant 0 <= i <= |jobs|
      invariant table == Insert(rows, u, jobs[..i], now)
      invariant Storable(rows, known, u, jobs[..i])
    {
      InsertStep(rows, u, jobs, i, now);
      StorableStep(rows, known, u, jobs, i);
      var j := jobs[i];
      if RowId(u, j.key) !in table {
        if j.location.Some? && j.location.value !in known {
          return false, table;
        }
        table := table[RowId(u, j.key) := FreshRow(j, now)];
      }
      i := i + 1;
    }
    assert jobs[..i] == jobs;
    ok := true;
  }

  method HealAll(rows: Table, u: User, jobs: seq<Job>) returns (table: Table, updated: nat)
    ensures table == Heal(rows, u, jobs) && updated == HealCount(rows, u, jobs)
  {
    table, updated := rows, 0;
    var i := 0;
    while i < |jobs|
      invariant 0 <= i <= |jobs|
      invariant table == Heal(rows, u, jobs[..i]) && updated == HealCount(rows, u, jobs[..i])
    {
      var id := RowId(u, jobs[i].key);
      HealStep(rows, u, jobs, i);
      if id in table && table[id].job.url != jobs[i].url {
        table := table[id := table[id].(job := table[id].job.(url := jobs[i].url))];
        updated := updated + 1;
      }
      i := i + 1;
    }
    assert jobs[..i] == jobs;
  }

  /** Rows as the database happens to return them. */
  method InSomeOrder(keys: set<Key>) returns (r: seq<Key>)
    ensures Distinct(r) && forall k :: k in r <==> k in keys
  {
    r := [];
    var todo := keys;
    while todo != {}
      invariant todo <= keys && Distinct(r)
      invariant forall k :: k in r <==> k in keys - todo
      decreases |todo|
    {
      var k :| k in todo;
      DistinctSnoc(r, k);
      r, todo := r + [k], todo - {k};
    }
  }

  lemma DistinctSnoc(r: seq<Key>, k: Key)
    requires Distinct(r) && k !in r
    ensures Distinct(r + [k])
  {
  }

  lemma AllPresent(rows: Table, u: User, keys: seq<Key>)
    requires forall k :: k in keys ==> RowId(u, k) in rows
    ensures Present(rows, u, keys) == keys
  {
    FilterAll(keys, (k: Key) => RowId(u, k) in rows);
  }

  /** `UPDATE jobs SET removed_at = ...`, row by row. */
  method RemoveAll(rows: Table, ids: set<RowId>, now: Time) returns (table: Table)
    requires ids <= rows.Keys
    ensures table == SetRemoved(rows, ids, now)
  {
    table := rows;
    var todo := ids;
    while todo != {}
      invariant todo <= ids && table.Keys == rows.Keys
      invariant forall id :: id in rows ==>
                  table[id] == if id in ids - todo then rows[id].(removedAt := Some(now)) else rows[id]
      decreases |todo|
    {
      var id :| id in todo;
      table := table[id := table[id].(removedAt := Some(now))];
      todo := todo - {id};
    }
  }

  method AppendAll(h: History, u: User, keys: seq<Key>, status: Option<Status>, now: Time) returns (r: History)
    ensures r == Append(h, u, keys, status, now)
  {
    r := h;
    var i := 0;
    while i < |keys|
      invariant 0 <= i <= |keys|
      invariant r == Append(h, u, keys[..i], status, now)
    {
      assert keys[..i + 1][..i] == keys[..i];
      r := History(r.nextId + 1, r.entries + [Entry(r.nextId, u, keys[i], status, now)]);
      i := i + 1;
    }
    assert keys[..i] == keys;
  }

  /** The statements of `reconcile_jobs`: two selects, each followed by an update. */
  method ReconcileStatements(rows: Table, u: User, configured: set<SourceId>, succeeded: set<SourceId>,
                             foundKeys: set<Key>, now: Time) returns (table: Table)
    ensures table == Reconcile(rows, u, configured, succeeded, foundKeys, now)
  {
    var activeRows := set id | id in rows && id.user == u && rows[id].Active() && rows[id].job.sourceId.Some?
      :: (id.key, rows[id].job.sourceId.value);
    var deletedSources := set r | r in activeRows && r.1 !in configured :: r.1;
    var removeKeys := set r | r in activeRows && ((r.1 in succeeded && r.0 !in foundKeys) || r.1 in deletedSources)
                      :: r.0;
    RemoveKeysAreVanished(rows, u, configured, succeeded, foundKeys, activeRows, deletedSources, removeKeys);
    table := rows;
    if removeKeys != {} {
      table := SetRemoved(rows, Ids(u, removeKeys), now);
    }
    SettleEmpty(rows, u, removeKeys, {}, now);
    var reactivateKeys := set id | id in table && id.user == u && !table[id].Active() && id.key in foundKeys :: id.key;
    RemovedAndFound(rows, u, removeKeys, foundKeys, now, reactivateKeys);
    SettleEmpty(rows, u, removeKeys, reactivateKeys, now);
    if reactivateKeys != {} {
      table := Reactivate(table, Ids(u, reactivateKeys));
    }
  }

  /** A row is filed under its own key. */
  predicate Filed(rows: Table) {
    forall id :: id in rows ==> rows[id].job.key == id.key
  }

  /** The two statements on stored keys are the transaction. */
  lemma BulkIs(rows: Table, h: History, u: User, keys: seq<Key>, status: Option<Status>, now: Time)
    requires forall k :: k in keys ==> RowId(u, k) in rows
    ensures Write(rows, StatusSet(u, keys, status, now)) == SetStatus(rows, u, (set k | k in keys), status)
    ensures Record(h, rows, StatusSet(u, keys, status, now)) == Append(h, u, keys, status, now)
  {
    AllPresent(rows, u, keys);
  }

  lemma WriteKeepsFiled(rows: Table, e: Effect)
    requires Filed(rows)
    ensures Filed(Write(rows, e))
  {
  }

  class Store {
    var rows: Table
    var history: History
    var locations: set<string>  // primary keys of geocoded_locations

    predicate Valid()
      reads this
    {
      Filed(rows)
    }

    constructor ()
      ensures Valid() && rows == map[] && history == EMPTY && locations == {}
    {
      rows, history, locations := map[], EMPTY, {};
    }

    method GetNewJobs(u: User, jobs: seq<Job>) returns (unseen: seq<Job>)
      ensures unseen == NewJobs(rows, u, jobs)
    {
      var table := rows;
      if jobs == [] {
        return [];
      }
      var known := set id | id in table && id.user == u && id.key in Keys(jobs) :: id.key;
      unseen := Filter(jobs, (j: Job) => j.key !in known);
      assert forall j :: j in jobs ==> j.key in Keys(jobs);
      assert forall j :: j in jobs && RowId(u, j.key) in table ==> RowId(u, j.key).key in known;
      FilterCongruent(jobs, (j: Job) => j.key !in known, (j: Job) => RowId(u, j.key) !in table);
    }

    /** Inserts the jobs that are not stored; a refused location writes nothing. */
    method SaveJobs(u: User, jobs: seq<Job>, now: Time) returns (ok: bool)
      requires Valid()
      modifies this
      ensures Valid() && history == old(history)
      ensures ok <==> Storable(old(rows), old(locations) + Stubs(jobs), u, jobs)
      ensures ok ==> rows == Insert(old(rows), u, jobs, now) && locations == old(locations) + Stubs(jobs)
      ensures !ok ==> rows == old(rows) && locations == old(locations)
    {
      var known := locations + Stubs(jobs);
      var table;
      ok, table := InsertAll(rows, known, u, jobs, now);
      WriteKeepsFiled(rows, Saved(u, jobs, now));
      if ok {
        rows, locations := table, known;
      }
    }

    /** Overwrites differing URLs of stored jobs. */
    method RefreshJobUrls(u: User, jobs: seq<Job>) returns (updated: nat)
      requires Valid()
      modifies `rows
      ensures Valid() && rows == Heal(old(rows), u, jobs)
      ensures updated == HealCount(old(rows), u, jobs)
    {
      WriteKeepsFiled(rows, Healed(u, jobs));
      rows, updated := HealAll(rows, u, jobs);
    }

    method ClearJobs(u: User)
      requires Valid()
      modifies `rows, `history
      ensures Valid() && rows == Clear(old(rows), u) && history == Forget(old(history), u)
    {
      var table := rows;
      rows := table - (set id | id in table && id.user == u);
      history := history.(entries := Filter(history.entries, StatusHistory.NotOf(u)));
    }

    method ReconcileJobs(u: User, configured: set<SourceId>, succeeded: set<SourceId>, found: seq<Job>, now: Time)
      requires Valid()
      modifies `rows
      ensures Valid() && rows == Reconcile(old(rows), u, configured, succeeded, Keys(found), now)
    {
      var table := ReconcileStatements(rows, u, configured, succeeded, Keys(found), now);
      ReconcileClosedForm(rows, u, configured, succeeded, Keys(found), now);
      rows := table;
    }

    /** Only the mailed mark of the user's listed rows changes. */
    method MarkEmailed(u: User, keys: seq<Key>, now: Time)
      requires Valid()
      modifies `rows
      ensures Valid() && rows.Keys == old(rows).Keys
      ensures forall id :: id in rows ==>
                if id.user == u && id.key in keys then rows[id] == old(rows)[id].(emailedAt := Some(now))
                else rows[id] == old(rows)[id]
    {
      if keys == [] {
        return;
      }
      var targets := Ids(u, set k | k in keys);
      rows := Update(rows, targets, (r: Row) => r.(emailedAt := Some(now)));
    }

    /** The rows of a query come back in any order. */
    method GetUnemailedJobs(u: User) returns (jobs: seq<Job>)
      requires Valid()
      ensures DistinctKeys(jobs) && Keys(jobs) == UnmailedKeys(rows, u)
      ensures forall j :: j in jobs ==> RowId(u, j.key) in rows && j == rows[RowId(u, j.key)].job
    {
      var todo := UnmailedKeys(rows, u);
      jobs := [];
      while todo != {}
        invariant todo <= UnmailedKeys(rows, u)
        invariant Keys(jobs) == UnmailedKeys(rows, u) - todo
        invariant DistinctKeys(jobs)
        invariant forall j :: j in jobs ==> RowId(u, j.key) in rows && j == rows[RowId(u, j.key)].job
        decreases todo
      {
        var k :| k in todo;
        var j := rows[RowId(u, k)].job;
        assert j.key == k && k !in Keys(jobs);
        KeysSnoc(jobs, j);
        jobs, todo := jobs + [j], todo - {k};
      }
    }

    method GetEmailedKeys(u: User, keys: set<Key>) returns (mailed: set<Key>)
      ensures forall k :: k in mailed <==> k in keys && RowId(u, k) in rows && rows[RowId(u, k)].emailedAt.Some?
    {
      var table := rows;
      mailed := set k | k in keys && RowId(u, k) in table && table[RowId(u, k)].emailedAt.Some?;
    }

    /** Missing keys are absent from the answer, not None. */
    method GetJobStatuses(u: User, keys: set<Key>) returns (statuses: map<Key, Option<Status>>)
      ensures statuses.Keys == set k | k in keys && RowId(u, k) in rows
      ensures forall k :: k in statuses ==> statuses[k] == rows[RowId(u, k)].status
    {
      var table := rows;
      statuses := map[];
      var todo := set k | k in keys && RowId(u, k) in table;
      while todo != {}
        invariant todo <= keys && forall k :: k in todo ==> RowId(u, k) in table
        invariant statuses.Keys == (set k | k in keys && RowId(u, k) in table) - todo
        invariant forall k :: k in statuses ==> RowId(u, k) in table && statuses[k] == table[RowId(u, k)].status
        decreases |todo|
      {
        var k :| k in todo;
        statuses := statuses[k := table[RowId(u, k)].status];
        todo := todo - {k};
      }
    }

    /** `list_jobs(limit, duplicates="only")`: as many flagged rows as the limit allows. */
    method ListDuplicateKeys(u: User, limit: nat) returns (listed: set<Key>)
      ensures listed <= DuplicateKeys(rows, u)
      ensures |listed| == if |DuplicateKeys(rows, u)| <= limit then |DuplicateKeys(rows, u)| else limit
      ensures forall k :: k in listed ==> RowId(u, k) in rows && rows[RowId(u, k)].isDuplicate
      ensures |listed| == limit
           || forall k :: RowId(u, k) in rows && rows[RowId(u, k)].isDuplicate ==> k in listed
    {
      var todo := DuplicateKeys(rows, u);
      listed := {};
      ghost var all := todo;
      while todo != {} && |listed| < limit
        invariant listed <= all && todo == all - listed && |listed| <= limit
        invariant |listed| + |todo| == |all|
        decreases todo
      {
        var k :| k in todo;
        listed, todo := listed + {k}, todo - {k};
      }
    }

    /** HEADs every active URL in scope; `gone` are the rows whose request was answered
        404 or 410 before the deadline. Exactly those become removed, and are counted. */
    method CheckJobUrls(scope: Option<User>, gone: set<RowId>, now: Time) returns (count: nat)
      requires Valid()
      modifies `rows
      ensures Valid() && rows.Keys == old(rows).Keys
      ensures forall id :: id in rows ==>
                if id in gone && InScope(id, scope) && old(rows)[id].Active()
                then rows[id] == old(rows)[id].(removedAt := Some(now))
                else rows[id] == old(rows)[id]
      ensures count == |set id | id in old(rows) && old(rows)[id].Active() && !rows[id].Active()|
    {
      var table := rows;
      var probed := set id | id in table && table[id].Active() && InScope(id, scope);
      var removed := probed * gone;
      rows := RemoveAll(table, removed, now);
      count := |removed|;
      assert removed == set id | id in table && table[id].Active() && !rows[id].Active();
    }

    /** False stands for the KeyError of a job that is not stored. */
    method MarkJobRemoved(u: User, key: Key, now: Time) returns (stored: bool)
      requires Valid()
      modifies `rows
      ensures Valid() && rows == Write(old(rows), Removed(u, key, now))
      ensures stored <==> RowId(u, key) in old(rows)
      ensures !stored ==> rows == old(rows)
    {
      var id := RowId(u, key);
      stored := id in rows;
      var table := rows;
      if stored && rows[id].Active() {
        rows := rows[id := rows[id].(removedAt := Some(now))];
      }
      assert rows == SetRemoved(table, ActiveIds(table, u, key), now);
    }

    method SetJobStatus(u: User, key: Key, status: Option<Status>, now: Time) returns (stored: bool)
      requires Valid()
      modifies `rows, `history
      ensures Valid()
      ensures stored <==> RowId(u, key) in old(rows)
      ensures rows == Write(old(rows), StatusSet(u, [key], status, now))
      ensures history == Record(old(history), old(rows), StatusSet(u, [key], status, now))
    {
      var id := RowId(u, key);
      stored := id in rows;
      PresentOne(rows, u, key);
      AppendOne(history, u, key, status, now);
      assert (set k | k in [key]) == {key};
      var table := rows;
      if stored {
        rows := rows[id := rows[id].(status := status)];
        history := History(history.nextId + 1, history.entries + [Entry(history.nextId, u, key, status, now)]);
      }
      assert rows == SetStatus(table, u, {key}, status);
    }

    /** Keys of other users, or unknown ones, are left out silently; `RETURNING key` lists
        the others once each, in any order. */
    method BulkSetStatus(u: User, keys: seq<Key>, status: Option<Status>, now: Time)
      returns (count: nat, ghost updated: seq<Key>)
      requires Valid()
      modifies `rows, `history
      ensures Valid() && count == |updated| && Distinct(updated)
      ensures forall k :: k in updated <==> k in keys && RowId(u, k) in old(rows)
      ensures rows == Write(old(rows), StatusSet(u, updated, status, now))
      ensures history == Record(old(history), old(rows), StatusSet(u, updated, status, now))
    {
      var table := rows;
      var returned := InSomeOrder(set k | k in keys && RowId(u, k) in table);
      BulkIs(table, history, u, returned, status, now);
      WriteKeepsFiled(table, StatusSet(u, returned, status, now));
      history := AppendAll(history, u, returned, status, now);
      rows := SetStatus(table, u, (set k | k in returned), status);
      count, updated := |returned|, returned;
    }

    /** Sets or clears the flag of one stored row; False stands for the KeyError. */
    method SetJobDuplicate(u: User, key: Key, flag: bool, of: Option<Key>) returns (stored: bool)
      requires Valid()
      modifies `rows
      ensures Valid() && rows.Keys == old(rows).Keys
      ensures stored <==> RowId(u, key) in old(rows)
      ensures forall id :: id in rows ==>
                if id == RowId(u, key)
                then rows[id] == old(rows)[id].(isDuplicate := flag, duplicateOf := if flag then of else None)
                else rows[id] == old(rows)[id]
    {
      var id := RowId(u, key);
      stored := id in rows;
      if stored {
        rows := rows[id := rows[id].(isDuplicate := flag, duplicateOf := if flag then of else None)];
      }
    }
  }

  // ---- the store's effects are those of the step system ------------------------------

  lemma MarksAre(before: Table, after: Table, u: User, keys: seq<Key>, now: Time)
    requires after.Keys == before.Keys
    requires forall id :: id in after ==>
               if id.user == u && id.key in keys then after[id] == before[id].(emailedAt := Some(now))
               else after[id] == before[id]
    ensures after == JobTable.MarkEmailed(before, u, (set k | k in keys), now)
  {
  }

  lemma ChecksAre(before: Table, after: Table, scope: Option<User>, gone: set<RowId>, now: Time)
    requires after.Keys == before.Keys
    requires forall id :: id in after ==>
               if id in gone && InScope(id, scope) && before[id].Active()
               then after[id] == before[id].(removedAt := Some(now))
               else after[id] == before[id]
    ensures after == SetRemoved(before, CheckedIds(before, scope, gone), now)
  {
  }

  /** What `SetJobDuplicate` promises row by row is the transaction of the step system. */
  lemma FlagIs(before: Table, after: Table, u: User, key: Key, flag: bool, of: Option<Key>)
    requires after.Keys == before.Keys
    requires forall id :: id in after ==>
               if id == RowId(u, key)
               then after[id] == before[id].(isDuplicate := flag, duplicateOf := if flag then of else None)
               else after[id] == before[id]
    ensures after == Write(before, DuplicateSet(u, key, flag, of))
  {
  }
}
