/** The run-and-notify pipeline as a step system. Any number of runs, no-source
    passes and URL checks proceed concurrently, one database transaction (or one
    read) at a time, interleaved with the users' own edits and with crashes.
    Only `run_once`, the no-source pass and the URL check take the run lock. */
module Pipeline {
  import opened Common
  import opened Jobs
  import opened JobTable
  import opened StatusHistory
  import opened Effects

  /** A thread works for one user; the number tells that user's threads apart. */
  datatype Tid = Tid(owner: User, n: nat)

  /** What the adapters of one run returned: de-duplicated before and after the
      keyword filters, and the sources that answered. */
  datatype Batch = Batch(raw: seq<Job>, filtered: seq<Job>, succeeded: set<SourceId>)

  predicate Coherent(b: Batch) {
    DistinctKeys(b.raw) && DistinctKeys(b.filtered) && Keys(b.filtered) <= Keys(b.raw)
  }

  /** Where a run of `_run_user` stands, with the local variables still needed. */
  datatype Pc =
    | Waiting
    | Locked
    | Scraped(batch: Batch)
    | Compared(batch: Batch, unseen: seq<Job>)                      // get_new_jobs done
    | Stored(batch: Batch, unseen: seq<Job>)                        // save_jobs done
    | Refreshed(batch: Batch, unseen: seq<Job>)                     // refresh_job_urls done
    | Planned(batch: Batch, unseen: seq<Job>, remove: set<Key>)     // first select of reconcile_jobs done
    | Reconciled(batch: Batch, unseen: seq<Job>)
    | Probing(batch: Batch, unseen: seq<Job>, probed: set<Key>)     // check_job_urls has read its rows
    | Probed(batch: Batch, unseen: seq<Job>)
    | Composing(keys: set<Key>)                                     // lock released, jobs_to_send
    | Rescued(keys: set<Key>)                                       // get_unemailed_jobs added
    | Screened(keys: set<Key>)                                      // flagged duplicates dropped
    | Ready(keys: set<Key>)                                         // excluded statuses dropped
    | Delivered(keys: set<Key>)                                     // send_email returned

  datatype PassPc = PassWaiting | PassLocked | PassRechecked | PassPlanned(remove: set<Key>) | PassDone

  datatype CheckPc = CheckWaiting | CheckLocked | CheckReading(ids: set<RowId>) | CheckDone

  datatype Thread =
    | RunOf(resend: bool, excluded: set<Status>, configured: set<SourceId>, pc: Pc)
    | PassOf(pass: PassPc)
    | CheckOf(everyone: bool, check: CheckPc)

  /** One step of a thread, with the answers it gets from outside. */
  datatype Op =
    | Acquire
    | Scrape(batch: Batch)
    | GetNew
    | SaveNew(now: Time)
    | RefreshUrls
    | PlanReconcile
    | CommitReconcile(now: Time)
    | ReadUrls
    | CommitUrls(gone: set<RowId>, now: Time)
    | SkipUrls
    | Release
    | Rescue
    | DropDuplicates(listed: set<Key>)
    | DropExcluded
    | Send
    | Skip
    | Mark(now: Time)
    | Recheck

  datatype Action =
    | Start(t: Tid, thread: Thread)
    | Step(t: Tid, op: Op)
    | Crash(t: Tid)
    | UserEdit(edit: Effect)
    | AddSource(owner: User, id: SourceId)
    | DeleteSource(owner: User, id: SourceId)

  datatype State = State(
    rows: Table, hist: History, sources: map<SourceId, User>,
    lock: Option<Tid>, threads: map<Tid, Thread>, log: seq<Effect>)

  const INIT := State(map[], EMPTY, map[], None, map[], [])

  /** Outcome of a step: the thread afterwards (None when it ends), the lock, the commit. */
  datatype Move = Move(next: Option<Thread>, lock: Option<Tid>, effect: Option<Effect>)

  // ---- a run -----------------------------------------------------------------

  const DUPLICATE_LISTING_LIMIT := 10_000

  /** What `list_jobs(limit=10_000, duplicates="only")` may return. */
  predicate DuplicateListing(listed: set<Key>, rows: Table, u: User) {
    var all := DuplicateKeys(rows, u);
    listed <= all && |listed| == if |all| <= DUPLICATE_LISTING_LIMIT then |all| else DUPLICATE_LISTING_LIMIT
  }

  function PresentKeys(rows: Table, u: User, keys: set<Key>): (r: set<Key>)
    ensures forall k :: k in r <==> k in keys && RowId(u, k) in rows
  {
    set k | k in keys && RowId(u, k) in rows
  }

  function Advance(r: Thread, pc: Pc, lock: Option<Tid>, effect: Option<Effect>): Option<Move>
    requires r.RunOf?
  {
    Some(Move(Some(r.(pc := pc)), lock, effect))
  }

  /** Steps of `run_once`, between taking and releasing the lock. */
  function StorageMove(rows: Table, lock: Option<Tid>, t: Tid, r: Thread, op: Op): Option<Move>
    requires r.RunOf?
  {
    var u := t.owner;
    match (r.pc, op)
    case (Waiting, Acquire) => if lock.None? then Advance(r, Locked, Some(t), None) else None
    case (Locked, Scrape(b)) => if Coherent(b) then Advance(r, Scraped(b), lock, None) else None
    case (Scraped(b), GetNew) => Advance(r, Compared(b, NewJobs(rows, u, b.filtered)), lock, None)
    case (Compared(b, unseen), SaveNew(now)) =>
      Advance(r, Stored(b, unseen), lock, Some(Saved(u, unseen, now)))
    case (Stored(b, unseen), RefreshUrls) =>
      Advance(r, Refreshed(b, unseen), lock, Some(Healed(u, b.raw)))
    case (Refreshed(b, unseen), PlanReconcile) =>
      Advance(r, Planned(b, unseen, RemoveKeys(rows, u, r.configured, b.succeeded, Keys(b.raw))), lock, None)
    case (Planned(b, unseen, remove), CommitReconcile(now)) =>
      Advance(r, Reconciled(b, unseen), lock,
              Some(Settled(u, remove, ReactivateKeys(rows, u, remove, Keys(b.raw)), now)))
    case (Reconciled(b, unseen), ReadUrls) =>
      Advance(r, Probing(b, unseen, KeysWhere(rows, u, (x: Row) => x.Active())), lock, None)
    case (Reconciled(b, unseen), SkipUrls) => Advance(r, Probed(b, unseen), lock, None)
    case (Probing(b, unseen, probed), CommitUrls(gone, now)) =>
      if gone <= Ids(u, probed) then Advance(r, Probed(b, unseen), lock, Some(Checked(gone, now))) else None
    case (Probed(b, unseen), Release) =>
      Advance(r, Composing(if r.resend then Keys(b.filtered) else Keys(unseen)), None, None)
    case _ => None
  }

  /** Steps of the rest of `_run_user`, which hold no lock. */
  function DigestMove(rows: Table, lock: Option<Tid>, t: Tid, r: Thread, op: Op): Option<Move>
    requires r.RunOf?
  {
    var u := t.owner;
    match (r.pc, op)
    case (Composing(keys), Rescue) => Advance(r, Rescued(keys + UnmailedKeys(rows, u)), lock, None)
    case (Rescued(keys), DropDuplicates(listed)) =>
      if DuplicateListing(listed, rows, u) then Advance(r, Screened(keys - listed), lock, None) else None
    case (Screened(keys), DropExcluded) =>
      Advance(r, Ready(keys - ExcludedKeys(rows, u, r.excluded)), lock, None)
    case (Ready(keys), Send) =>
      Advance(r, Delivered(keys), lock, Some(Mailed(u, keys, PresentKeys(rows, u, keys))))
    case (Ready(keys), Skip) => Some(Move(None, lock, None))
    case (Delivered(keys), Mark(now)) => Some(Move(None, lock, Some(Marked(u, keys, now))))
    case _ => None
  }

  // ---- the no-source pass over one candidate, and the manual URL check ---------

  predicate HasSource(sources: map<SourceId, User>, u: User) {
    exists id :: id in sources && sources[id] == u
  }

  function PassMove(s: State, t: Tid, p: PassPc, op: Op): Option<Move> {
    var u := t.owner;
    match (p, op)
    case (PassWaiting, Acquire) =>
      if s.lock.None? then Some(Move(Some(PassOf(PassLocked)), Some(t), None)) else None
    case (PassLocked, Recheck) =>
      Some(Move(Some(PassOf(if HasSource(s.sources, u) then PassDone else PassRechecked)), s.lock, None))
    case (PassRechecked, PlanReconcile) =>
      Some(Move(Some(PassOf(PassPlanned(RemoveKeys(s.rows, u, {}, {}, {})))), s.lock, None))
    case (PassPlanned(remove), CommitReconcile(now)) =>
      Some(Move(Some(PassOf(PassDone)), s.lock, Some(Settled(u, remove, ReactivateKeys(s.rows, u, remove, {}), now))))
    case (PassDone, Release) => Some(Move(None, None, None))
    case _ => None
  }

  function CheckMove(s: State, t: Tid, everyone: bool, c: CheckPc, op: Op): Option<Move> {
    match (c, op)
    case (CheckWaiting, Acquire) =>
      if s.lock.None? then Some(Move(Some(CheckOf(everyone, CheckLocked)), Some(t), None)) else None
    case (CheckLocked, ReadUrls) =>
      var ids := set id | id in s.rows && s.rows[id].Active() && (everyone || id.user == t.owner);
      Some(Move(Some(CheckOf(everyone, CheckReading(ids))), s.lock, None))
    case (CheckReading(ids), CommitUrls(gone, now)) =>
      if gone <= ids then Some(Move(Some(CheckOf(everyone, CheckDone)), s.lock, Some(Checked(gone, now)))) else None
    case (CheckDone, Release) => Some(Move(None, None, None))
    case _ => None
  }

  // ---- the system ---------------------------------------------------------------

  function MoveOf(s: State, t: Tid, op: Op): Option<Move> {
    if t !in s.threads then None
    else match s.threads[t]
      case RunOf(_, _, _, pc) =>
        if Unlocked(pc) then DigestMove(s.rows, s.lock, t, s.threads[t], op)
        else StorageMove(s.rows, s.lock, t, s.threads[t], op)
      case PassOf(p) => PassMove(s, t, p, op)
      case CheckOf(everyone, c) => CheckMove(s, t, everyone, c, op)
  }

  predicate Initial(th: Thread) {
    match th
    case RunOf(_, _, _, pc) => pc == Waiting
    case PassOf(p) => p == PassWaiting
    case CheckOf(_, c) => c == CheckWaiting
  }

  predicate IsEdit(e: Effect) {
    e.Cleared? || e.Removed? || (e.StatusSet? && Distinct(e.targets)) || e.DuplicateSet? || e.NotesSet?
  }

  predicate Enabled(s: State, a: Action) {
    match a
    case Start(t, th) => t !in s.threads && Initial(th)
    case Step(t, op) => MoveOf(s, t, op).Some?
    case Crash(t) => t in s.threads
    case UserEdit(e) => IsEdit(e)
    case AddSource(_, id) => id !in s.sources
    case DeleteSource(u, id) => id in s.sources && s.sources[id] == u
  }

  function Commit(s: State, e: Effect): State {
    s.(rows := Write(s.rows, e), hist := Record(s.hist, s.rows, e), log := s.log + [e])
  }

  function Fire(s: State, t: Tid, m: Move): State {
    var s1 := if m.effect.Some? then Commit(s, m.effect.value) else s;
    s1.(lock := m.lock, threads := if m.next.Some? then s.threads[t := m.next.value] else s.threads - {t})
  }

  /** One action; an action that is not possible leaves the state as it is. */
  function Next(s: State, a: Action): State {
    if !Enabled(s, a) then s
    else match a
      case Start(t, th) => s.(threads := s.threads[t := th])
      case Step(t, op) => Fire(s, t, MoveOf(s, t, op).value)
      case Crash(t) => s.(threads := s.threads - {t}, lock := if s.lock == Some(t) then None else s.lock)
      case UserEdit(e) => Commit(s, e)
      case AddSource(u, id) => s.(sources := s.sources[id := u])
      case DeleteSource(u, id) => s.(sources := s.sources - {id})
  }

  function ExecFrom(s: State, acts: seq<Action>): State {
    if acts == [] then s else Next(ExecFrom(s, acts[..|acts| - 1]), acts[|acts| - 1])
  }

  function Exec(acts: seq<Action>): State {
    ExecFrom(INIT, acts)
  }

  /** The transaction an action commits, if any. */
  function EffectOf(s: State, a: Action): Option<Effect> {
    if !Enabled(s, a) then None
    else match a
      case Step(t, op) => MoveOf(s, t, op).value.effect
      case UserEdit(e) => Some(e)
      case _ => None
  }

  lemma NextCommits(s: State, a: Action)
    ensures var s' := Next(s, a);
            match EffectOf(s, a)
            case None => s'.rows == s.rows && s'.hist == s.hist && s'.log == s.log
            case Some(e) => s'.rows == Write(s.rows, e) && s'.hist == Record(s.hist, s.rows, e) && s'.log == s.log + [e]
  {
  }

  /** The tables of a reachable state are the replay of its log. */
  lemma {:induction false} TablesAreReplay(acts: seq<Action>)
    ensures var s := Exec(acts); Replay(s.log) == (s.rows, s.hist)
  {
    if acts != [] {
      var n := |acts| - 1;
      var s := Exec(acts[..n]);
      TablesAreReplay(acts[..n]);
      NextCommits(s, acts[n]);
      if EffectOf(s, acts[n]).Some? {
        var e := EffectOf(s, acts[n]).value;
        assert (s.log + [e])[..|s.log|] == s.log;
      }
    }
  }

  // ---- mutual exclusion -----------------------------------------------------------

  predicate Holds(th: Thread) {
    match th
    case RunOf(_, _, _, pc) =>
      pc.Locked? || pc.Scraped? || pc.Compared? || pc.Stored? || pc.Refreshed? || pc.Planned? || pc.Reconciled?
      || pc.Probing? || pc.Probed?
    case PassOf(p) => !p.PassWaiting?
    case CheckOf(_, c) => !c.CheckWaiting?
  }

  predicate LockInv(s: State) {
    && (s.lock.Some? ==> s.lock.value in s.threads && Holds(s.threads[s.lock.value]))
    && (forall t :: t in s.threads && Holds(s.threads[t]) ==> s.lock == Some(t))
  }

  /** How one step treats the lock: it takes a free one, keeps it, or gives back its own. */
  predicate LockKept(lock: Option<Tid>, t: Tid, th: Thread, m: Move) {
    if m.next.Some? && Holds(m.next.value)
    then m.lock == Some(t) && (if Holds(th) then lock == Some(t) else lock.None?)
    else m.lock == if Holds(th) then None else lock
  }

  lemma StorageLock(rows: Table, lock: Option<Tid>, t: Tid, r: Thread, op: Op)
    requires r.RunOf? && StorageMove(rows, lock, t, r, op).Some?
    requires Holds(r) ==> lock == Some(t)
    ensures LockKept(lock, t, r, StorageMove(rows, lock, t, r, op).value)
  {
  }

  lemma DigestLock(rows: Table, lock: Option<Tid>, t: Tid, r: Thread, op: Op)
    requires r.RunOf? && DigestMove(rows, lock, t, r, op).Some?
    ensures !Holds(r) && LockKept(lock, t, r, DigestMove(rows, lock, t, r, op).value)
  {
  }

  lemma PassLock(s: State, t: Tid, p: PassPc, op: Op)
    requires PassMove(s, t, p, op).Some?
    requires Holds(PassOf(p)) ==> s.lock == Some(t)
    ensures LockKept(s.lock, t, PassOf(p), PassMove(s, t, p, op).value)
  {
  }

  lemma CheckLock(s: State, t: Tid, everyone: bool, c: CheckPc, op: Op)
    requires CheckMove(s, t, everyone, c, op).Some?
    requires Holds(CheckOf(everyone, c)) ==> s.lock == Some(t)
    ensures LockKept(s.lock, t, CheckOf(everyone, c), CheckMove(s, t, everyone, c, op).value)
  {
  }

  predicate Unlocked(pc: Pc) {
    pc.Composing? || pc.Rescued? || pc.Screened? || pc.Ready? || pc.Delivered?
  }

  lemma MoveLock(s: State, t: Tid, op: Op)
    requires LockInv(s) && MoveOf(s, t, op).Some?
    ensures LockKept(s.lock, t, s.threads[t], MoveOf(s, t, op).value)
  {
    match s.threads[t] {
      case RunOf(_, _, _, pc) =>
        if Unlocked(pc) {
          DigestLock(s.rows, s.lock, t, s.threads[t], op);
        } else {
          StorageLock(s.rows, s.lock, t, s.threads[t], op);
        }
      case PassOf(p) => PassLock(s, t, p, op);
      case CheckOf(everyone, c) => CheckLock(s, t, everyone, c, op);
    }
  }

  lemma LockStep(s: State, a: Action)
    requires LockInv(s)
    ensures LockInv(Next(s, a))
  {
    if Enabled(s, a) {
      match a {
        case Step(t, op) =>
          MoveLock(s, t, op);
        case _ =>
      }
    }
  }

  /** At most one thread is inside the locked part, and it is the lock's owner. */
  lemma {:induction false} MutualExclusion(acts: seq<Action>)
    ensures LockInv(Exec(acts))
  {
    if acts != [] {
      MutualExclusion(acts[..|acts| - 1]);
      LockStep(Exec(acts[..|acts| - 1]), acts[|acts| - 1]);
    }
  }

  /** What may happen at any time, whatever the threads are doing: any thread may crash,
      which loses the thread and its lock and nothing else; any edit may commit; and any
      user may add an unused source or delete one of their own. */
  lemma AtAnyTime(s: State, t: Tid, e: Effect, u: User, id: SourceId)
    ensures t in s.threads ==>
              Next(s, Crash(t)) == s.(threads := s.threads - {t}, lock := if s.lock == Some(t) then None else s.lock)
    ensures e.Cleared? || e.Removed? || (e.StatusSet? && Distinct(e.targets)) || e.DuplicateSet? || e.NotesSet? ==>
              Next(s, UserEdit(e))
              == s.(rows := Write(s.rows, e), hist := Record(s.hist, s.rows, e), log := s.log + [e])
    ensures id !in s.sources ==> Next(s, AddSource(u, id)) == s.(sources := s.sources[id := u])
    ensures id in s.sources && s.sources[id] == u ==> Next(s, DeleteSource(u, id)) == s.(sources := s.sources - {id})
  {
  }

  /** A URL check reads the active rows of its own user, and those of all users only when it
      is the check for everyone. */
  lemma CheckReads(s: State, t: Tid, everyone: bool, id: RowId)
    requires t in s.threads && s.threads[t] == CheckOf(everyone, CheckLocked)
    ensures var s' := Next(s, Step(t, ReadUrls));
            && t in s'.threads && s'.threads[t].CheckOf? && s'.threads[t].check.CheckReading?
            && (id in s'.threads[t].check.ids
                <==> id in s.rows && s.rows[id].removedAt.None? && (everyone || id.user == t.owner))
  {
    assert CheckMove(s, t, everyone, CheckLocked, ReadUrls).Some?;
  }

  // ---- which step commits what -----------------------------------------------------

  /** The transactions a thread may commit, and where it stands before and after. */
  predicate Provenance(th: Thread, u: User, e: Effect, next: Option<Thread>) {
    match e
    case Saved(v, jobs, _) =>
      v == u && th.RunOf? && th.pc.Compared? && th.pc.unseen == jobs
        && next == Some(th.(pc := Stored(th.pc.batch, jobs)))
    case Healed(v, _) => v == u && th.RunOf? && th.pc.Stored?
    case Settled(v, _, back, _) =>
      v == u && ((th.RunOf? && th.pc.Planned?) || (th.PassOf? && th.pass.PassPlanned? && back == {}))
    case Checked(gone, _) =>
      || (th.RunOf? && th.pc.Probing? && gone <= Ids(u, th.pc.probed))
      || (th.CheckOf? && th.check.CheckReading? && gone <= th.check.ids)
    case Mailed(v, keys, present) =>
      v == u && th.RunOf? && th.pc == Ready(keys) && next == Some(th.(pc := Delivered(keys)))
    case Marked(v, keys, _) => v == u && th.RunOf? && th.pc == Delivered(keys) && next.None?
    case _ => false
  }

  lemma StorageEffect(rows: Table, lock: Option<Tid>, t: Tid, r: Thread, op: Op)
    requires r.RunOf? && StorageMove(rows, lock, t, r, op).Some?
    ensures var m := StorageMove(rows, lock, t, r, op).value;
            m.effect.Some? ==> Provenance(r, t.owner, m.effect.value, m.next)
  {
  }

  lemma MoveEffect(s: State, t: Tid, op: Op)
    requires MoveOf(s, t, op).Some?
    ensures var m := MoveOf(s, t, op).value;
            && (m.effect.Some? ==> Provenance(s.threads[t], t.owner, m.effect.value, m.next))
            && (m.effect.Some? && m.effect.value.Mailed? ==>
                  m.effect.value.present == PresentKeys(s.rows, t.owner, m.effect.value.keys))
  {
    match s.threads[t] {
      case RunOf(_, _, _, pc) =>
        if Unlocked(pc) {
          assert DigestMove(s.rows, s.lock, t, s.threads[t], op).Some?;
        } else {
          StorageEffect(s.rows, s.lock, t, s.threads[t], op);
        }
      case PassOf(p) => assert PassMove(s, t, p, op).Some?;
      case CheckOf(everyone, c) => assert CheckMove(s, t, everyone, c, op).Some?;
    }
  }

  predicate StaysRun(m: Move, r: Thread) {
    m.next.Some? ==> m.next.value.RunOf? && r.RunOf? && m.next.value.resend == r.resend
  }

  lemma StorageKind(rows: Table, lock: Option<Tid>, t: Tid, r: Thread, op: Op)
    requires r.RunOf? && StorageMove(rows, lock, t, r, op).Some?
    ensures StaysRun(StorageMove(rows, lock, t, r, op).value, r)
  {
  }

  lemma DigestKind(rows: Table, lock: Option<Tid>, t: Tid, r: Thread, op: Op)
    requires r.RunOf? && DigestMove(rows, lock, t, r, op).Some?
    ensures StaysRun(DigestMove(rows, lock, t, r, op).value, r)
  {
  }

  lemma SameKind(s: State, t: Tid, op: Op)
    requires MoveOf(s, t, op).Some?
    ensures var m := MoveOf(s, t, op).value;
            m.next.Some? ==>
              && (m.next.value.RunOf? <==> s.threads[t].RunOf?)
              && (m.next.value.RunOf? ==> m.next.value.resend == s.threads[t].resend)
  {
    match s.threads[t] {
      case RunOf(_, _, _, pc) =>
        if Unlocked(pc) {
          DigestKind(s.rows, s.lock, t, s.threads[t], op);
        } else {
          StorageKind(s.rows, s.lock, t, s.threads[t], op);
        }
      case PassOf(p) =>
        assert PassMove(s, t, p, op).Some?;
      case CheckOf(everyone, c) =>
        assert CheckMove(s, t, everyone, c, op).Some?;
    }
  }

  lemma WriteKeys(rows: Table, e: Effect)
    ensures e.Saved? ==> Write(rows, e).Keys == rows.Keys + Ids(e.user, Keys(e.jobs))
    ensures e.Cleared? ==> forall id :: id in Write(rows, e) <==> id in rows && id.user != e.user
    ensures !e.Saved? && !e.Cleared? ==> Write(rows, e).Keys == rows.Keys
  {
  }
}
