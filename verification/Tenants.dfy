/** Users do not interfere: what happens to one user's postings, history and threads
    is the same in a history from which everybody else's actions are erased. */
module Tenants {
  import opened Common
  import opened Jobs
  import opened JobTable
  import opened StatusHistory
  import opened Effects
  import opened Pipeline

  function Actor(a: Action): User {
    match a
    case Start(t, _) => t.owner
    case Step(t, _) => t.owner
    case Crash(t) => t.owner
    case UserEdit(e) => if e.Checked? then "" else e.user
    case AddSource(u, _) => u
    case DeleteSource(u, _) => u
  }

  function Erase(acts: seq<Action>, u: User): seq<Action> {
    if acts == [] then []
    else
      var a := acts[|acts| - 1];
      Erase(acts[..|acts| - 1], u) + if Actor(a) == u then [a] else []
  }

  predicate Allowed(s: State, a: Action) {
    Enabled(s, a) && !(a.Start? && a.thread.CheckOf? && a.thread.everyone)
  }

  /** Every action happens, and nobody runs the all-users URL check. */
  predicate Happens(acts: seq<Action>) {
    acts == [] || (Happens(acts[..|acts| - 1]) && Allowed(Exec(acts[..|acts| - 1]), acts[|acts| - 1]))
  }

  // ---- one user's view ------------------------------------------------------------

  function RowsOf(rows: Table, u: User): (r: Table)
    ensures forall id :: id in r <==> id in rows && id.user == u
    ensures forall id :: id in r ==> r[id] == rows[id]
  {
    rows - (set id | id in rows && id.user != u)
  }

  /** Status changes in order, without their run-time numbers. */
  function HistoryOf(entries: seq<Entry>, u: User): seq<(Key, Option<Status>, Time)> {
    if entries == [] then []
    else
      var e := entries[|entries| - 1];
      HistoryOf(entries[..|entries| - 1], u) + if e.user == u then [(e.key, e.status, e.at)] else []
  }

  function SourcesOf(sources: map<SourceId, User>, u: User): (r: map<SourceId, User>)
    ensures forall id :: id in r <==> id in sources && sources[id] == u
    ensures forall id :: id in r ==> r[id] == u
  {
    sources - (set id | id in sources && sources[id] != u)
  }

  function ThreadsOf(threads: map<Tid, Thread>, u: User): (r: map<Tid, Thread>)
    ensures forall t :: t in r <==> t in threads && t.owner == u
    ensures forall t :: t in r ==> r[t] == threads[t]
  {
    threads - (set t | t in threads && t.owner != u)
  }

  function LockOf(lock: Option<Tid>, u: User): Option<Tid> {
    if lock.Some? && lock.value.owner == u then lock else None
  }

  /** `v` is what `u` can see of `s`, and nothing else. */
  ghost predicate ViewOf(s: State, v: State, u: User) {
    && v.rows == RowsOf(s.rows, u)
    && HistoryOf(v.hist.entries, u) == HistoryOf(s.hist.entries, u)
    && v.sources == SourcesOf(s.sources, u)
    && v.threads == ThreadsOf(s.threads, u)
    && v.lock == LockOf(s.lock, u)
  }

  // ---- transactions -----------------------------------------------------------------

  /** A transaction that writes rows of `u` only. */
  predicate WritesFor(e: Effect, u: User) {
    if e.Checked? then forall id :: id in e.gone ==> id.user == u else e.user == u
  }

  lemma {:induction false} InsertLocal(rows: Table, u: User, jobs: seq<Job>, now: Time)
    ensures RowsOf(Insert(rows, u, jobs, now), u) == Insert(RowsOf(rows, u), u, jobs, now)
  {
    if jobs != [] {
      var n := |jobs| - 1;
      InsertLocal(rows, u, jobs[..n], now);
      InsertOneLocal(Insert(rows, u, jobs[..n], now), u, jobs[n], now);
    }
  }

  lemma InsertOneLocal(rows: Table, u: User, j: Job, now: Time)
    ensures RowsOf(InsertOne(rows, u, j, now), u) == InsertOne(RowsOf(rows, u), u, j, now)
  {
  }

  lemma OwnWrite(rows: Table, e: Effect, u: User)
    requires WritesFor(e, u)
    ensures RowsOf(Write(rows, e), u) == Write(RowsOf(rows, u), e)
  {
    if e.Saved? {
      InsertLocal(rows, u, e.jobs, e.now);
    }
  }

  lemma OthersWrite(rows: Table, e: Effect, u: User, v: User)
    requires WritesFor(e, v) && v != u
    ensures RowsOf(Write(rows, e), u) == RowsOf(rows, u)
  {
  }

  lemma {:induction false} AppendView(h: History, v: User, keys: seq<Key>, status: Option<Status>, now: Time, u: User)
    ensures HistoryOf(Append(h, v, keys, status, now).entries, u)
            == HistoryOf(h.entries, u)
               + (if v == u then seq(|keys|, i requires 0 <= i < |keys| => (keys[i], status, now)) else [])
  {
    if keys != [] {
      var n := |keys| - 1;
      var front := Append(h, v, keys[..n], status, now);
      var e := Entry(front.nextId, v, keys[n], status, now);
      AppendView(h, v, keys[..n], status, now, u);
      assert (front.entries + [e])[..|front.entries|] == front.entries;
    }
  }

  lemma {:induction false} ForgetView(entries: seq<Entry>, v: User, u: User)
    ensures HistoryOf(Filter(entries, (e: Entry) => e.user != v), u) == if v == u then [] else HistoryOf(entries, u)
  {
    if entries != [] {
      var n := |entries| - 1;
      var p := (e: Entry) => e.user != v;
      ForgetView(entries[..n], v, u);
      var front := Filter(entries[..n], p);
      if p(entries[n]) {
        assert (front + [entries[n]])[..|front|] == front;
      } else {
        assert Filter(entries, p) == front;
      }
    }
  }

  lemma OwnStatusRecord(s: History, v: History, rows: Table, targets: seq<Key>, status: Option<Status>, now: Time,
                        u: User)
    requires HistoryOf(v.entries, u) == HistoryOf(s.entries, u)
    ensures HistoryOf(Append(v, u, Present(RowsOf(rows, u), u, targets), status, now).entries, u)
         == HistoryOf(Append(s, u, Present(rows, u, targets), status, now).entries, u)
  {
    FilterCongruent(targets, (k: Key) => RowId(u, k) in rows, (k: Key) => RowId(u, k) in RowsOf(rows, u));
    AppendView(s, u, Present(rows, u, targets), status, now, u);
    AppendView(v, u, Present(rows, u, targets), status, now, u);
  }

  lemma OwnRecord(s: History, v: History, rows: Table, e: Effect, u: User)
    requires WritesFor(e, u) && HistoryOf(v.entries, u) == HistoryOf(s.entries, u)
    ensures HistoryOf(Record(v, RowsOf(rows, u), e).entries, u) == HistoryOf(Record(s, rows, e).entries, u)
  {
    if e.StatusSet? {
      OwnStatusRecord(s, v, rows, e.targets, e.status, e.now, u);
    } else if e.Cleared? {
      OwnForget(s, v, u);
    } else {
      assert Record(v, RowsOf(rows, u), e) == v && Record(s, rows, e) == s;
    }
  }

  lemma OwnForget(s: History, v: History, u: User)
    ensures HistoryOf(Forget(v, u).entries, u) == HistoryOf(Forget(s, u).entries, u)
  {
    ForgetView(s.entries, u, u);
    ForgetView(v.entries, u, u);
  }

  lemma OthersRecord(h: History, rows: Table, e: Effect, u: User, v: User)
    requires WritesFor(e, v) && v != u
    ensures HistoryOf(Record(h, rows, e).entries, u) == HistoryOf(h.entries, u)
  {
    match e {
      case StatusSet(_, targets, status, now) => AppendView(h, v, Present(rows, v, targets), status, now, u);
      case Cleared(_) => ForgetView(h.entries, v, u);
      case _ =>
    }
  }

  // ---- steps --------------------------------------------------------------------------

  /** The same step from the view: same thread afterwards, same commit, same use of the lock. */
  predicate SameMove(m: Option<Move>, lock: Option<Tid>, m': Option<Move>, lock': Option<Tid>) {
    m.Some? ==>
      && m'.Some? && m'.value.next == m.value.next && m'.value.effect == m.value.effect
      && m'.value.lock == (if m.value.lock == lock then lock' else m.value.lock)
  }

  lemma StorageLocal(rows: Table, lock: Option<Tid>, lock': Option<Tid>, t: Tid, r: Thread, op: Op)
    requires r.RunOf? && (lock.None? ==> lock'.None?)
    ensures SameMove(StorageMove(rows, lock, t, r, op), lock, StorageMove(RowsOf(rows, t.owner), lock', t, r, op),
                     lock')
  {
    if r.pc.Scraped? || r.pc.Refreshed? || r.pc.Planned? || r.pc.Reconciled? {
      ReadingLocal(rows, lock, lock', t, r, op);
    } else {
      BlindLocal(rows, lock, lock', t, r, op);
    }
  }

  /** Steps that do not look at the table. */
  lemma BlindLocal(rows: Table, lock: Option<Tid>, lock': Option<Tid>, t: Tid, r: Thread, op: Op)
    requires r.RunOf? && (lock.None? ==> lock'.None?)
    requires !(r.pc.Scraped? || r.pc.Refreshed? || r.pc.Planned? || r.pc.Reconciled?)
    ensures SameMove(StorageMove(rows, lock, t, r, op), lock, StorageMove(RowsOf(rows, t.owner), lock', t, r, op),
                     lock')
  {
  }

  /** Steps that do, and find the same in the view. */
  lemma ReadingLocal(rows: Table, lock: Option<Tid>, lock': Option<Tid>, t: Tid, r: Thread, op: Op)
    requires r.RunOf? && (r.pc.Scraped? || r.pc.Refreshed? || r.pc.Planned? || r.pc.Reconciled?)
    ensures SameMove(StorageMove(rows, lock, t, r, op), lock, StorageMove(RowsOf(rows, t.owner), lock', t, r, op),
                     lock')
  {
    var u := t.owner;
    var view := RowsOf(rows, u);
    match r.pc {
      case Scraped(b) =>
        FilterCongruent(b.filtered, (j: Job) => RowId(u, j.key) !in rows, (j: Job) => RowId(u, j.key) !in view);
      case Refreshed(b, _) =>
        assert RemoveKeys(rows, u, r.configured, b.succeeded, Keys(b.raw))
            == RemoveKeys(view, u, r.configured, b.succeeded, Keys(b.raw));
      case Planned(b, _, remove) =>
        assert ReactivateKeys(rows, u, remove, Keys(b.raw)) == ReactivateKeys(view, u, remove, Keys(b.raw));
      case Reconciled(b, unseen) =>
        assert KeysWhere(rows, u, (x: Row) => x.Active()) == KeysWhere(view, u, (x: Row) => x.Active());
    }
  }

  lemma DigestLocal(rows: Table, lock: Option<Tid>, lock': Option<Tid>, t: Tid, r: Thread, op: Op)
    requires r.RunOf?
    ensures SameMove(DigestMove(rows, lock, t, r, op), lock, DigestMove(RowsOf(rows, t.owner), lock', t, r, op), lock')
  {
    var u := t.owner;
    var view := RowsOf(rows, u);
    assert UnmailedKeys(rows, u) == UnmailedKeys(view, u);
    assert DuplicateKeys(rows, u) == DuplicateKeys(view, u);
    assert ExcludedKeys(rows, u, r.excluded) == ExcludedKeys(view, u, r.excluded);
    if r.pc.Ready? {
      assert PresentKeys(rows, u, r.pc.keys) == PresentKeys(view, u, r.pc.keys);
    }
  }

  lemma PassLocal(s: State, v: State, t: Tid, p: PassPc, op: Op)
    requires ViewOf(s, v, t.owner)
    ensures SameMove(PassMove(s, t, p, op), s.lock, PassMove(v, t, p, op), v.lock)
  {
    var u := t.owner;
    assert HasSource(s.sources, u) <==> HasSource(v.sources, u) by {
      if HasSource(s.sources, u) {
        var id :| id in s.sources && s.sources[id] == u;
        assert id in v.sources;
      }
    }
    assert RemoveKeys(s.rows, u, {}, {}, {}) == RemoveKeys(v.rows, u, {}, {}, {});
    if p.PassPlanned? {
      assert ReactivateKeys(s.rows, u, p.remove, {}) == ReactivateKeys(v.rows, u, p.remove, {});
    }
  }

  lemma CheckLocal(s: State, v: State, t: Tid, c: CheckPc, op: Op)
    requires ViewOf(s, v, t.owner)
    ensures SameMove(CheckMove(s, t, false, c, op), s.lock, CheckMove(v, t, false, c, op), v.lock)
  {
    var all := set id | id in s.rows && s.rows[id].Active() && (false || id.user == t.owner);
    var own := set id | id in v.rows && v.rows[id].Active() && (false || id.user == t.owner);
    assert all == own;
  }

  /** Nobody runs the all-users check, and each check reads its own user's rows. */
  predicate NoSweep(s: State) {
    forall t :: t in s.threads && s.threads[t].CheckOf? ==>
      && !s.threads[t].everyone
      && (s.threads[t].check.CheckReading? ==> forall id :: id in s.threads[t].check.ids ==> id.user == t.owner)
  }

  lemma CheckStays(s: State, t: Tid, op: Op)
    requires NoSweep(s) && MoveOf(s, t, op).Some?
    ensures var next := MoveOf(s, t, op).value.next;
            next.Some? && next.value.CheckOf? ==>
              && !next.value.everyone
              && (next.value.check.CheckReading? ==> forall id :: id in next.value.check.ids ==> id.user == t.owner)
  {
    SameKind(s, t, op);
    match s.threads[t] {
      case RunOf(_, _, _, _) =>
      case PassOf(p) => assert PassMove(s, t, p, op).Some?;
      case CheckOf(everyone, c) => assert CheckMove(s, t, everyone, c, op).Some?;
    }
  }

  lemma NoSweepStep(s: State, a: Action)
    requires NoSweep(s) && !(a.Start? && a.thread.CheckOf? && a.thread.everyone)
    ensures NoSweep(Next(s, a))
  {
    if a.Step? && Enabled(s, a) {
      CheckStays(s, a.t, a.op);
    }
  }

  lemma MoveLocal(s: State, v: State, t: Tid, op: Op)
    requires ViewOf(s, v, t.owner) && NoSweep(s) && t in s.threads
    ensures SameMove(MoveOf(s, t, op), s.lock, MoveOf(v, t, op), v.lock)
  {
    match s.threads[t] {
      case RunOf(_, _, _, pc) =>
        if Unlocked(pc) {
          DigestLocal(s.rows, s.lock, v.lock, t, s.threads[t], op);
        } else {
          StorageLocal(s.rows, s.lock, v.lock, t, s.threads[t], op);
        }
      case PassOf(p) => PassLocal(s, v, t, p, op);
      case CheckOf(_, c) => CheckLocal(s, v, t, c, op);
    }
  }

  lemma MoveWritesFor(s: State, t: Tid, op: Op)
    requires NoSweep(s) && MoveOf(s, t, op).Some? && MoveOf(s, t, op).value.effect.Some?
    ensures WritesFor(MoveOf(s, t, op).value.effect.value, t.owner)
  {
    MoveEffect(s, t, op);
  }

  lemma OwnCommit(s: State, v: State, e: Effect, u: User)
    requires ViewOf(s, v, u) && WritesFor(e, u)
    ensures Write(v.rows, e) == RowsOf(Write(s.rows, e), u)
    ensures HistoryOf(Record(v.hist, v.rows, e).entries, u) == HistoryOf(Record(s.hist, s.rows, e).entries, u)
  {
    OwnWrite(s.rows, e, u);
    OwnRecord(s.hist, v.hist, s.rows, e, u);
  }

  lemma OwnStep(s: State, v: State, t: Tid, op: Op)
    requires ViewOf(s, v, t.owner) && LockInv(s) && NoSweep(s) && MoveOf(s, t, op).Some?
    ensures MoveOf(v, t, op).Some? && ViewOf(Next(s, Step(t, op)), Next(v, Step(t, op)), t.owner)
  {
    MoveLocal(s, v, t, op);
    OwnLock(s, v, t, op);
    var m, m' := MoveOf(s, t, op).value, MoveOf(v, t, op).value;
    if m.effect.Some? {
      MoveWritesFor(s, t, op);
      OwnCommit(s, v, m.effect.value, t.owner);
    }
    FireView(s, v, t, m, m');
  }

  lemma OwnLock(s: State, v: State, t: Tid, op: Op)
    requires ViewOf(s, v, t.owner) && LockInv(s) && MoveOf(s, t, op).Some?
    requires SameMove(MoveOf(s, t, op), s.lock, MoveOf(v, t, op), v.lock)
    ensures MoveOf(v, t, op).value.lock == LockOf(MoveOf(s, t, op).value.lock, t.owner)
  {
    MoveLock(s, t, op);
    KeptLockView(s.lock, t, s.threads[t], MoveOf(s, t, op).value);
  }

  lemma KeptLockView(lock: Option<Tid>, t: Tid, th: Thread, m: Move)
    requires LockKept(lock, t, th, m)
    ensures LockOf(m.lock, t.owner) == if m.lock == lock then LockOf(lock, t.owner) else m.lock
  {
  }

  lemma FireView(s: State, v: State, t: Tid, m: Move, m': Move)
    requires ViewOf(s, v, t.owner)
    requires m'.next == m.next && m'.effect == m.effect && m'.lock == LockOf(m.lock, t.owner)
    requires m.effect.Some? ==>
               && Write(v.rows, m.effect.value) == RowsOf(Write(s.rows, m.effect.value), t.owner)
               && HistoryOf(Record(v.hist, v.rows, m.effect.value).entries, t.owner)
                  == HistoryOf(Record(s.hist, s.rows, m.effect.value).entries, t.owner)
    ensures ViewOf(Fire(s, t, m), Fire(v, t, m'), t.owner)
  {
    assert Fire(v, t, m').threads == ThreadsOf(Fire(s, t, m).threads, t.owner);
  }

  lemma OthersLock(s: State, t: Tid, op: Op, u: User)
    requires LockInv(s) && MoveOf(s, t, op).Some? && t.owner != u
    ensures LockOf(MoveOf(s, t, op).value.lock, u) == LockOf(s.lock, u)
  {
    MoveLock(s, t, op);
  }

  lemma OthersFire(s: State, v: State, t: Tid, m: Move, u: User)
    requires ViewOf(s, v, u) && t.owner != u && LockOf(m.lock, u) == LockOf(s.lock, u)
    requires m.effect.Some? ==> WritesFor(m.effect.value, t.owner)
    ensures ViewOf(Fire(s, t, m), v, u)
  {
    if m.effect.Some? {
      OthersWrite(s.rows, m.effect.value, u, t.owner);
      OthersRecord(s.hist, s.rows, m.effect.value, u, t.owner);
    }
    assert ThreadsOf(Fire(s, t, m).threads, u) == ThreadsOf(s.threads, u);
  }

  lemma OthersStep(s: State, v: State, t: Tid, op: Op, u: User)
    requires ViewOf(s, v, u) && LockInv(s) && NoSweep(s) && MoveOf(s, t, op).Some? && t.owner != u
    ensures ViewOf(Next(s, Step(t, op)), v, u)
  {
    OthersLock(s, t, op, u);
    if MoveOf(s, t, op).value.effect.Some? {
      MoveWritesFor(s, t, op);
    }
    OthersFire(s, v, t, MoveOf(s, t, op).value, u);
  }

  lemma OwnAction(s: State, v: State, a: Action, u: User)
    requires ViewOf(s, v, u) && LockInv(s) && NoSweep(s) && Enabled(s, a) && Actor(a) == u
    ensures Enabled(v, a) && ViewOf(Next(s, a), Next(v, a), u)
  {
    match a {
      case Step(t, op) => OwnStep(s, v, t, op);
      case UserEdit(e) => OwnCommit(s, v, e, u);
      case _ => OwnQuietAction(s, v, a, u);
    }
  }

  lemma OwnQuietAction(s: State, v: State, a: Action, u: User)
    requires ViewOf(s, v, u) && Enabled(s, a) && Actor(a) == u && !a.Step? && !a.UserEdit?
    ensures Enabled(v, a) && ViewOf(Next(s, a), Next(v, a), u)
  {
    if a.AddSource? || a.DeleteSource? {
      OwnSourceAction(s, v, a, u);
    } else {
      OwnThreadAction(s, v, a, u);
    }
  }

  lemma OwnSourceAction(s: State, v: State, a: Action, u: User)
    requires ViewOf(s, v, u) && Enabled(s, a) && Actor(a) == u && (a.AddSource? || a.DeleteSource?)
    ensures Enabled(v, a) && ViewOf(Next(s, a), Next(v, a), u)
  {
    assert Next(v, a).sources == SourcesOf(Next(s, a).sources, u);
  }

  lemma OwnThreadAction(s: State, v: State, a: Action, u: User)
    requires ViewOf(s, v, u) && Enabled(s, a) && Actor(a) == u && (a.Start? || a.Crash?)
    ensures Enabled(v, a) && ViewOf(Next(s, a), Next(v, a), u)
  {
    if a.Start? {
      OwnThread(s.threads, a.t, a.thread, u);
    } else {
      OwnThreadGone(s.threads, a.t, u);
    }
  }

  lemma OwnThread(threads: map<Tid, Thread>, t: Tid, th: Thread, u: User)
    requires t.owner == u
    ensures ThreadsOf(threads[t := th], u) == ThreadsOf(threads, u)[t := th]
  {
  }

  lemma OwnThreadGone(threads: map<Tid, Thread>, t: Tid, u: User)
    ensures ThreadsOf(threads - {t}, u) == ThreadsOf(threads, u) - {t}
  {
  }

  lemma OthersEdit(s: State, v: State, e: Effect, u: User)
    requires ViewOf(s, v, u) && IsEdit(e) && e.user != u
    ensures ViewOf(Commit(s, e), v, u)
  {
    OthersWrite(s.rows, e, u, e.user);
    OthersRecord(s.hist, s.rows, e, u, e.user);
  }

  lemma OthersQuietAction(s: State, v: State, a: Action, u: User)
    requires ViewOf(s, v, u) && LockInv(s) && Enabled(s, a) && Actor(a) != u && !a.Step? && !a.UserEdit?
    ensures ViewOf(Next(s, a), v, u)
  {
    if a.AddSource? || a.DeleteSource? {
      OthersSourceAction(s, v, a, u);
    } else {
      OthersThreadAction(s, v, a, u);
    }
  }

  lemma OthersSourceAction(s: State, v: State, a: Action, u: User)
    requires ViewOf(s, v, u) && Enabled(s, a) && Actor(a) != u && (a.AddSource? || a.DeleteSource?)
    ensures ViewOf(Next(s, a), v, u)
  {
    assert SourcesOf(Next(s, a).sources, u) == v.sources;
  }

  lemma OthersThreadAction(s: State, v: State, a: Action, u: User)
    requires ViewOf(s, v, u) && LockInv(s) && Enabled(s, a) && Actor(a) != u && (a.Start? || a.Crash?)
    ensures ViewOf(Next(s, a), v, u)
  {
    assert ThreadsOf(Next(s, a).threads, u) == v.threads;
  }

  lemma OthersAction(s: State, v: State, a: Action, u: User)
    requires ViewOf(s, v, u) && LockInv(s) && NoSweep(s) && Enabled(s, a) && Actor(a) != u
    ensures ViewOf(Next(s, a), v, u)
  {
    match a {
      case Step(t, op) => OthersStep(s, v, t, op, u);
      case UserEdit(e) => OthersEdit(s, v, e, u);
      case _ => OthersQuietAction(s, v, a, u);
    }
  }

  /** What one more action adds to a history and to its erasure. */
  lemma OneMoreAction(front: seq<Action>, a: Action, u: User)
    requires Happens(front + [a]) && Happens(Erase(front, u))
    requires ViewOf(Exec(front), Exec(Erase(front, u)), u) && NoSweep(Exec(front))
    ensures Happens(Erase(front + [a], u))
    ensures ViewOf(Exec(front + [a]), Exec(Erase(front + [a], u)), u) && NoSweep(Exec(front + [a]))
  {
    var s, v := Exec(front), Exec(Erase(front, u));
    HappensSnoc(front, a);
    MutualExclusion(front);
    NoSweepStep(s, a);
    if Actor(a) == u {
      OwnAction(s, v, a, u);
      HappensSnoc(Erase(front, u), a);
    } else {
      OthersAction(s, v, a, u);
    }
    EraseSnoc(front, a, u);
  }

  lemma EraseSnoc(front: seq<Action>, a: Action, u: User)
    ensures Erase(front + [a], u) == if Actor(a) == u then Erase(front, u) + [a] else Erase(front, u)
  {
    assert (front + [a])[..|front|] == front;
  }

  lemma HappensSnoc(front: seq<Action>, a: Action)
    ensures Exec(front + [a]) == Next(Exec(front), a)
    ensures Happens(front + [a]) <==> Happens(front) && Allowed(Exec(front), a)
  {
    assert (front + [a])[..|front|] == front;
  }

  /** For every history, however everybody's actions interleave: erasing the actions of
      all other users leaves a history that can happen, and it ends with the same rows,
      status history, sources and threads of this user. */
  lemma {:induction false} NonInterference(acts: seq<Action>, u: User)
    requires Happens(acts)
    ensures Happens(Erase(acts, u)) && ViewOf(Exec(acts), Exec(Erase(acts, u)), u) && NoSweep(Exec(acts))
  {
    if acts != [] {
      var front, a := acts[..|acts| - 1], acts[|acts| - 1];
      assert acts == front + [a];
      HappensSnoc(front, a);
      NonInterference(front, u);
      OneMoreAction(front, a, u);
    }
  }
}
