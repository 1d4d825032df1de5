/** Histories from the empty database in which a promise that the system does not make is
    broken: a source added too late, a posting freed too late, an overlapping run. */
module Histories {
  import opened Common
  import opened Jobs
  import opened JobTable
  import opened StatusHistory
  import opened Effects
  import opened Pipeline
  import opened NoSourcePass
  import opened MailOnce
  import opened Delivery
  import opened NothingLost

  /** A run of a user with the one source `src`. */
  function Runner(src: SourceId): (r: Thread)
    ensures r.RunOf?
  {
    RunOf(false, {}, {src}, Waiting)
  }

  /** The source answers with one posting. */
  function One(j: Job, src: SourceId): Batch {
    Batch([j], [j], {src})
  }

  /** The run's locked part, and what follows. */
  function Stores(t: Tid, src: SourceId, b: Batch, rest: seq<Action>): seq<Action> {
    Open(t, Runner(src), b, 0, Close(t, 0, None, rest))
  }

  function AfterStores(s: State, t: Tid, src: SourceId, b: Batch): State {
    AfterStorage(s, t, Runner(src), b, 0, None)
  }

  predicate Listed(s: State, u: User, j: Job) {
    var id := RowId(u, j.key);
    && id in s.rows && s.rows[id].Unmailed() && !s.rows[id].isDuplicate && s.rows[id].status.None?
    && s.rows[id].job.sourceId == j.sourceId
  }

  lemma InsertOneRow(u: User, j: Job)
    ensures NewJobs(map[], u, [j]) == [j]
    ensures Insert(map[], u, [j], 0) == map[RowId(u, j.key) := FreshRow(j, 0)]
  {
    assert [j][..0] == [];
  }

  lemma StoredRow(u: User, src: SourceId, j: Job)
    ensures var id, rows := RowId(u, j.key), StorageRows(map[], u, Runner(src), One(j, src), 0);
            && rows.Keys == {id} && rows[id].Unmailed() && !rows[id].isDuplicate && rows[id].status.None?
            && rows[id].job.sourceId == j.sourceId
  {
    var saved := Insert(map[], u, [j], 0);
    InsertOneRow(u, j);
    assert j in [j] && j.key in Keys([j]);
    ReconcileClosedForm(Heal(saved, u, [j]), u, {src}, {src}, Keys([j]), 0);
  }

  lemma OneCoherent(j: Job, src: SourceId)
    ensures Coherent(One(j, src)) && Coherent(Batch([], [], {src}))
    ensures Keys([j]) == {j.key}
  {
    assert j in [j];
  }

  lemma StoresFrame(t: Tid, src: SourceId, b: Batch)
    ensures var s := AfterStores(INIT, t, src, b);
            && Composed(s, t, Runner(src)) && s.sources == map[] && s.threads.Keys == {t}
            && s.rows == StorageRows(map[], t.owner, Runner(src), b, 0)
  {
    AfterStorageComposed(INIT, t, Runner(src), b, 0, None);
    AfterStorageRows(INIT, t, Runner(src), b, 0, None);
  }

  /** What the run leaves of the empty database. */
  lemma StoresOne(t: Tid, src: SourceId, j: Job, rest: seq<Action>)
    ensures var s := AfterStores(INIT, t, src, One(j, src));
            && Exec(Stores(t, src, One(j, src), rest)) == ExecFrom(s, rest)
            && Composed(s, t, Runner(src)) && s.sources == map[] && s.threads.Keys == {t}
            && Listed(s, t.owner, j) && s.rows.Keys == {RowId(t.owner, j.key)}
  {
    OneCoherent(j, src);
    StorageScript(INIT, t, Runner(src), One(j, src), 0, None, rest);
    StoresFrame(t, src, One(j, src));
    StoredRow(t.owner, src, j);
  }

  // ---- a source added after the re-check -----------------------------------------------

  /** The pass locks, re-checks and plans; then the user adds a source; then it commits. */
  function PassPart(p: Tid, id: SourceId, now: Time): seq<Action> {
    [Start(p, PassOf(PassWaiting))] + ([Step(p, Acquire)] + ([Step(p, Recheck)] + ([Step(p, PlanReconcile)]
    + ([AddSource(p.owner, id)] + ([Step(p, CommitReconcile(now))] + [])))))
  }

  function AtPass(s: State, lock: Option<Tid>, p: Tid, pass: PassPc): State {
    s.(lock := lock, threads := s.threads[p := PassOf(pass)])
  }

  lemma PassPlans(s: State, p: Tid, rest: seq<Action>)
    requires s.lock.None? && p !in s.threads && !HasSource(s.sources, p.owner)
    ensures ExecFrom(s, [Start(p, PassOf(PassWaiting))] + ([Step(p, Acquire)] + ([Step(p, Recheck)]
                        + ([Step(p, PlanReconcile)] + rest))))
            == ExecFrom(AtPass(s, Some(p), p, PassPlanned(RemoveKeys(s.rows, p.owner, {}, {}, {}))), rest)
  {
    var more := [Step(p, Recheck)] + ([Step(p, PlanReconcile)] + rest);
    ExecOne(s, Start(p, PassOf(PassWaiting)), [Step(p, Acquire)] + more);
    PassGo(s, None, p, PassWaiting, Acquire, Some(p), PassLocked, more);
    PassGo(s, Some(p), p, PassLocked, Recheck, Some(p), PassRechecked, [Step(p, PlanReconcile)] + rest);
    PassGo(s, Some(p), p, PassRechecked, PlanReconcile, Some(p), PassPlanned(RemoveKeys(s.rows, p.owner, {}, {}, {})),
           rest);
  }

  lemma PassGo(s: State, lock: Option<Tid>, p: Tid, pc: PassPc, op: Op, lock': Option<Tid>, pc': PassPc,
               rest: seq<Action>)
    requires PassMove(AtPass(s, lock, p, pc), p, pc, op) == Some(Move(Some(PassOf(pc')), lock', None))
    ensures ExecFrom(AtPass(s, lock, p, pc), [Step(p, op)] + rest) == ExecFrom(AtPass(s, lock', p, pc'), rest)
  {
    var before := AtPass(s, lock, p, pc);
    assert MoveOf(before, p, op) == Some(Move(Some(PassOf(pc')), lock', None));
    assert Next(before, Step(p, op)) == AtPass(s, lock', p, pc');
    ExecOne(before, Step(p, op), rest);
  }

  /** A user's posting is stored; a no-source pass locks, finds no source and plans; the
      user adds a source; the commit retires the posting all the same. */
  lemma SourceAddedTooLate(t: Tid, p: Tid, src: SourceId, j: Job, id: SourceId, now: Time)
    requires p.owner == t.owner && p != t && j.sourceId == Some(src)
    ensures var s := Exec(Stores(t, src, One(j, src), PassPart(p, id, now)));
            && HasSource(s.sources, t.owner)
            && RowId(t.owner, j.key) in s.rows && s.rows[RowId(t.owner, j.key)].removedAt == Some(now)
  {
    var s := AfterStores(INIT, t, src, One(j, src));
    var tail := [AddSource(p.owner, id)] + ([Step(p, CommitReconcile(now))] + []);
    StoresOne(t, src, j, PassPart(p, id, now));
    PassPlans(s, p, tail);
    var planned := AtPass(s, Some(p), p, PassPlanned(RemoveKeys(s.rows, p.owner, {}, {}, {})));
    ExecOne(planned, AddSource(p.owner, id), [Step(p, CommitReconcile(now))] + []);
    ExecOne(Next(planned, AddSource(p.owner, id)), Step(p, CommitReconcile(now)), []);
    NoSourcePass.SourceAddedTooLate(planned, p, id, j.key, now);
    ExecNothing(Next(Next(planned, AddSource(p.owner, id)), Step(p, CommitReconcile(now))));
  }

  // ---- a posting freed after the digest ------------------------------------------------

  predicate NoStart(acts: seq<Action>) {
    forall a :: a in acts ==> !a.Start?
  }

  lemma {:induction false} OneStartIsSolo(acts: seq<Action>, u: User)
    requires forall i :: 0 < i < |acts| ==> !acts[i].Start?
    ensures SoloRuns(acts, u)
  {
    if acts != [] {
      OneStartIsSolo(acts[..|acts| - 1], u);
    }
  }

  lemma NoStartIsSolo(a: Action, rest: seq<Action>, u: User)
    requires NoStart(rest)
    ensures SoloRuns([a] + rest, u)
  {
    forall i | 0 < i < |[a] + rest| ensures !([a] + rest)[i].Start? {
      assert ([a] + rest)[i] == rest[i - 1] && rest[i - 1] in rest;
    }
    OneStartIsSolo([a] + rest, u);
  }

  /** The user flags the posting before the run composes, and unflags it between the digest,
      which may go out for a failed source or as a check-in, and its mark. */
  function FlagPart(t: Tid, k: Key): seq<Action> {
    [UserEdit(DuplicateSet(t.owner, k, true, None))] + Compose(t, {k}, UnflagPart(t, k))
  }

  function UnflagPart(t: Tid, k: Key): seq<Action> {
    [Step(t, Send)] + ([UserEdit(DuplicateSet(t.owner, k, false, None))] + ([Step(t, Mark(0))] + []))
  }

  lemma FlagPartCalm(t: Tid, src: SourceId, j: Job)
    ensures SoloRuns(Stores(t, src, One(j, src), FlagPart(t, j.key)), t.owner)
  {
    var rest, r := FlagPart(t, j.key), Runner(src);
    assert r.RunOf?;
    assert NoStart(UnflagPart(t, j.key));
    assert NoStart(Compose(t, {j.key}, UnflagPart(t, j.key)));
    assert NoStart(rest);
    assert NoStart(LeavePart(t, 0, None, rest));
    assert NoStart(Close(t, 0, None, rest));
    assert NoStart(SavePart(t, 0, Close(t, 0, None, rest)));
    NoStartIsSolo(Start(t, r.(pc := Waiting)),
                  [Step(t, Acquire)] + ([Step(t, Scrape(One(j, src)))] + SavePart(t, 0, Close(t, 0, None, rest))),
                  t.owner);
  }

  /** The state in which the run composes, the one posting being flagged. */
  function Flagged(s: State, u: User, k: Key): State {
    Next(s, UserEdit(DuplicateSet(u, k, true, None)))
  }

  lemma FlaggedRow(s: State, t: Tid, src: SourceId, j: Job)
    requires Composed(s, t, Runner(src)) && Listed(s, t.owner, j) && s.rows.Keys == {RowId(t.owner, j.key)}
    ensures var f, id := Flagged(s, t.owner, j.key), RowId(t.owner, j.key);
            && Composed(f, t, Runner(src)) && f.threads == s.threads && id in f.rows
            && f.rows[id].Unmailed() && f.rows[id].isDuplicate && f.rows[id].status.None?
            && DuplicateKeys(f.rows, t.owner) == {j.key} && DuplicateListing({j.key}, f.rows, t.owner)
  {
    var f := Flagged(s, t.owner, j.key);
    assert f.rows == SetDuplicate(s.rows, t.owner, j.key, true, None);
    assert f.rows.Keys == s.rows.Keys;
    assert DuplicateKeys(f.rows, t.owner) == {j.key};
  }

  lemma SendsReady(s: State, t: Tid, r: Thread, keys: set<Key>, rest: seq<Action>)
    requires r.RunOf?
    ensures var sent := Commit(s, Mailed(t.owner, keys, PresentKeys(s.rows, t.owner, keys)));
            && ExecFrom(Put(s, None, t, r, Ready(keys)), [Step(t, Send)] + rest)
               == ExecFrom(Put(sent, None, t, r, Delivered(keys)), rest)
            && sent.rows == s.rows
  {
    DigestGo(s, None, t, r, Ready(keys), Send, Delivered(keys),
             Some(Mailed(t.owner, keys, PresentKeys(s.rows, t.owner, keys))), rest);
  }

  /** With runs that do not overlap, the posting that was flagged when the run dropped the
      duplicates and unflagged before its mark stays unmailed, though it is owed. */
  lemma FreedTooLate(t: Tid, src: SourceId, j: Job)
    ensures var acts := Stores(t, src, One(j, src), FlagPart(t, j.key));
            SoloRuns(acts, t.owner) && t !in Exec(acts).threads && Owed(Exec(acts).rows, t.owner, {}, j.key)
  {
    var s, r := AfterStores(INIT, t, src, One(j, src)), Runner(src);
    var f := Flagged(s, t.owner, j.key);
    StoresOne(t, src, j, FlagPart(t, j.key));
    ExecOne(s, UserEdit(DuplicateSet(t.owner, j.key, true, None)), Compose(t, {j.key}, UnflagPart(t, j.key)));
    FlaggedRow(s, t, src, j);
    ComposeFrom(f, t, r, {j.key}, UnflagPart(t, j.key));
    FlagPartCalm(t, src, j);
    FreedAfterSend(f, t, r, DigestKeys(f.rows, t.owner, f.threads[t], {j.key}), j.key);
  }

  lemma FreedAfterSend(f: State, t: Tid, r: Thread, keys: set<Key>, k: Key)
    requires r.RunOf? && r.excluded == {} && k !in keys && RowId(t.owner, k) in f.rows
    requires var x := f.rows[RowId(t.owner, k)]; x.isDuplicate && x.Unmailed() && x.status.None?
    ensures var done := ExecFrom(Put(f, None, t, r, Ready(keys)), UnflagPart(t, k));
            t !in done.threads && Owed(done.rows, t.owner, {}, k)
  {
    var free := UserEdit(DuplicateSet(t.owner, k, false, None));
    var sent := Commit(f, Mailed(t.owner, keys, PresentKeys(f.rows, t.owner, keys)));
    var delivered := Put(sent, None, t, r, Delivered(keys));
    SendsReady(f, t, r, keys, [free] + ([Step(t, Mark(0))] + []));
    ExecOne(delivered, free, [Step(t, Mark(0))] + []);
    ExecOne(Next(delivered, free), Step(t, Mark(0)), []);
    NothingLost.FreedTooLate(delivered, t, k, 0);
    ExecNothing(Next(Next(delivered, free), Step(t, Mark(0))));
  }

  // ---- an overlapping run --------------------------------------------------------------

  /** The first run finds nothing and sends; before its mark another run of the same user
      stores a posting. */
  function OverlapPart(t: Tid, other: Tid, src: SourceId, j: Job): seq<Action> {
    Compose(t, {}, [Step(t, Send)] + StartOther(t, other, src, j))
  }

  function StartOther(t: Tid, other: Tid, src: SourceId, j: Job): seq<Action> {
    Open(other, Runner(src), One(j, src), 0, [Step(t, Mark(0))] + [])
  }

  lemma StoresNothing(t: Tid, src: SourceId, rest: seq<Action>)
    ensures var s := AfterStores(INIT, t, src, Batch([], [], {src}));
            && Exec(Stores(t, src, Batch([], [], {src}), rest)) == ExecFrom(s, rest)
            && Composed(s, t, Runner(src)) && s.threads.Keys == {t} && s.rows == map[]
  {
    var b := Batch([], [], {src});
    StorageScript(INIT, t, Runner(src), b, 0, None, rest);
    StoresFrame(t, src, b);
    ReconcileClosedForm(Heal(Insert(map[], t.owner, [], 0), t.owner, []), t.owner, {src}, {src}, Keys([]), 0);
  }

  lemma NothingFlagged(u: User)
    ensures DuplicateListing({}, map[], u) && UnmailedKeys(map[], u) == {} && ExcludedKeys(map[], u, {}) == {}
  {
    assert DuplicateKeys(map[], u) == {};
  }

  /** `other` up to having compared. */
  lemma OtherCompares(s: State, t: Tid, other: Tid, src: SourceId, j: Job, rest: seq<Action>)
    requires s.lock.None? && other !in s.threads && s.rows == map[]
    ensures ExecFrom(s, Open(other, Runner(src), One(j, src), 0, rest))
            == ExecFrom(Put(s, Some(other), other, Runner(src), Compared(One(j, src), [j])),
                        [Step(other, SaveNew(0))] + rest)
  {
    var r, b := Runner(src), One(j, src);
    OneCoherent(j, src);
    InsertOneRow(other.owner, j);
    OpenGo(s, other, r, b, 0, rest);
    StorageGo(s, Some(other), other, r, Scraped(b), GetNew, Some(other), Compared(b, [j]), None,
              [Step(other, SaveNew(0))] + rest);
  }

  /** The posting is stored and unmailed when the first run marks its digest and ends. */
  lemma OverlapTooLate(t: Tid, other: Tid, src: SourceId, j: Job)
    requires other.owner == t.owner && other != t
    ensures var s := Exec(Stores(t, src, Batch([], [], {src}), OverlapPart(t, other, src, j)));
            t !in s.threads && Owed(s.rows, t.owner, {}, j.key)
  {
    var s, r := AfterStores(INIT, t, src, Batch([], [], {src})), Runner(src);
    StoresNothing(t, src, OverlapPart(t, other, src, j));
    NothingFlagged(t.owner);
    ComposeFrom(s, t, r, {}, [Step(t, Send)] + StartOther(t, other, src, j));
    OverlapsAfterSend(s, t, other, src, j, DigestKeys(s.rows, t.owner, s.threads[t], {}));
  }

  lemma OverlapsAfterSend(s: State, t: Tid, other: Tid, src: SourceId, j: Job, keys: set<Key>)
    requires other.owner == t.owner && other != t && s.threads.Keys == {t} && s.rows == map[] && j.key !in keys
    ensures var ready := Put(s, None, t, Runner(src), Ready(keys));
            var done := ExecFrom(ready, [Step(t, Send)] + StartOther(t, other, src, j));
            t !in done.threads && Owed(done.rows, t.owner, {}, j.key)
  {
    var r := Runner(src);
    var sent := Put(Commit(s, Mailed(t.owner, keys, PresentKeys(s.rows, t.owner, keys))), None, t, r, Delivered(keys));
    SendsReady(s, t, r, keys, StartOther(t, other, src, j));
    OtherCompares(sent, t, other, src, j, [Step(t, Mark(0))] + []);
    var compared := Put(sent, Some(other), other, r, Compared(One(j, src), [j]));
    ExecOne(compared, Step(other, SaveNew(0)), [Step(t, Mark(0))] + []);
    ExecOne(Next(compared, Step(other, SaveNew(0))), Step(t, Mark(0)), []);
    OneCoherent(j, src);
    NothingLost.OverlapTooLate(compared, t, other, j.key, 0);
    ExecNothing(Next(Next(compared, Step(other, SaveNew(0))), Step(t, Mark(0))));
  }
}
