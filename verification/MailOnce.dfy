/** Digests: a mailed mark is earned, and nothing is mailed twice without a reason.
    Both need that the runs of the user in question do not overlap. */
module MailOnce {
  import opened Common
  import opened Jobs
  import opened JobTable
  import opened Effects
  import opened Pipeline
  import opened NewJobsOnce

  /** No run is started for `u` while `u` has one under way. */
  predicate Solo(s: State, a: Action, u: User) {
    a.Start? && a.thread.RunOf? && a.t.owner == u ==>
      forall t :: t in s.threads && s.threads[t].RunOf? ==> t.owner != u
  }

  predicate SoloRuns(acts: seq<Action>, u: User) {
    acts == [] || (SoloRuns(acts[..|acts| - 1], u) && Solo(Exec(acts[..|acts| - 1]), acts[|acts| - 1], u))
  }

  predicate RunFor(s: State, t: Tid, u: User) {
    t in s.threads && t.owner == u && s.threads[t].RunOf?
  }

  ghost predicate OneRun(s: State, u: User) {
    forall t, t' :: RunFor(s, t, u) && RunFor(s, t', u) ==> t == t'
  }

  lemma OneRunStep(s: State, a: Action, u: User)
    requires OneRun(s, u) && Solo(s, a, u)
    ensures OneRun(Next(s, a), u)
  {
    var s' := Next(s, a);
    if Enabled(s, a) && a.Step? {
      SameKind(s, a.t, a.op);
    }
    assert forall t :: RunFor(s', t, u) ==> RunFor(s, t, u) || (a.Start? && a.t == t && a.thread.RunOf?);
  }

  // ---- a mailed mark is earned -------------------------------------------------

  /** Brings a stored row back into the next digest. */
  predicate Reactivates(e: Effect, u: User, k: Key) {
    e.Settled? && e.user == u && k in e.reactivate
  }

  /** A digest that included `k` went out after the row was created or last reactivated. */
  predicate MailedSince(log: seq<Effect>, u: User, k: Key) {
    log != [] &&
    var e := log[|log| - 1];
    if (e.Saved? && e.user == u && k in Keys(e.jobs)) || Reactivates(e, u, k) then false
    else if e.Mailed? && e.user == u && k in e.keys then true
    else MailedSince(log[..|log| - 1], u, k)
  }

  predicate Marking(s: State, t: Tid, u: User, k: Key) {
    RunFor(s, t, u) && s.threads[t].pc.Delivered? && k in s.threads[t].pc.keys
  }

  ghost predicate EarnedInv(s: State, u: User, k: Key) {
    && (RowId(u, k) in s.rows && s.rows[RowId(u, k)].emailedAt.Some? ==> MailedSince(s.log, u, k))
    && (forall t :: Marking(s, t, u, k) && RowId(u, k) in s.rows ==> MailedSince(s.log, u, k))
  }

  /** A transaction sets the mailed mark of a row only by `mark_emailed`. */
  lemma WriteEmailed(rows: Table, e: Effect, id: RowId)
    requires id in Write(rows, e)
    ensures id in rows ==>
              var (was, now) := (rows[id].emailedAt, Write(rows, e)[id].emailedAt);
              if e.Marked? && e.user == id.user && id.key in e.keys then now == Some(e.now)
              else if Reactivates(e, id.user, id.key) then now == None
              else now == was
    ensures id !in rows ==>
              e.Saved? && e.user == id.user && id.key in Keys(e.jobs) && Write(rows, e)[id].emailedAt.None?
  {
    if e.Saved? {
      assert id in Insert(rows, e.user, e.jobs, e.now);
    }
  }

  lemma MailedSinceStep(log: seq<Effect>, e: Effect, u: User, k: Key)
    ensures MailedSince(log + [e], u, k) ==
            if (e.Saved? && e.user == u && k in Keys(e.jobs)) || Reactivates(e, u, k) then false
            else if e.Mailed? && e.user == u && k in e.keys then true
            else MailedSince(log, u, k)
  {
    assert (log + [e])[..|log|] == log;
  }

  lemma StorageDeliversNothing(rows: Table, lock: Option<Tid>, t: Tid, r: Thread, op: Op)
    requires r.RunOf? && StorageMove(rows, lock, t, r, op).Some?
    ensures var m := StorageMove(rows, lock, t, r, op).value;
            m.next.Some? && m.next.value.RunOf? ==> !m.next.value.pc.Delivered?
  {
  }

  lemma DigestDelivers(rows: Table, lock: Option<Tid>, t: Tid, r: Thread, op: Op)
    requires r.RunOf? && DigestMove(rows, lock, t, r, op).Some?
    ensures var m := DigestMove(rows, lock, t, r, op).value;
            m.next.Some? && m.next.value.RunOf? && m.next.value.pc.Delivered? ==>
              m.effect.Some? && m.effect.value.Mailed? && m.effect.value.user == t.owner
              && m.effect.value.keys == m.next.value.pc.keys
  {
  }

  /** Where a run starts marking, it has just mailed. */
  lemma DeliveredBySend(s: State, t: Tid, op: Op)
    requires MoveOf(s, t, op).Some? && MoveOf(s, t, op).value.next.Some?
    requires MoveOf(s, t, op).value.next.value.RunOf? && MoveOf(s, t, op).value.next.value.pc.Delivered?
    ensures var m := MoveOf(s, t, op).value;
            m.effect.Some? && m.effect.value.Mailed? && m.effect.value.user == t.owner
            && m.effect.value.keys == m.next.value.pc.keys
  {
    SameKind(s, t, op);
    if Unlocked(s.threads[t].pc) {
      DigestDelivers(s.rows, s.lock, t, s.threads[t], op);
    } else {
      StorageDeliversNothing(s.rows, s.lock, t, s.threads[t], op);
    }
  }

  lemma MarkedByMarking(s: State, t: Tid, op: Op, u: User, k: Key)
    requires MoveOf(s, t, op).Some? && MoveOf(s, t, op).value.effect.Some?
    requires var e := MoveOf(s, t, op).value.effect.value; e.Marked? && e.user == u && k in e.keys
    ensures Marking(s, t, u, k)
  {
    MoveEffect(s, t, op);
  }

  lemma MarkStep(s: State, a: Action, u: User, k: Key)
    requires LockInv(s) && UnseenAbsent(s) && EarnedInv(s, u, k)
    requires RowId(u, k) in Next(s, a).rows && Next(s, a).rows[RowId(u, k)].emailedAt.Some?
    ensures MailedSince(Next(s, a).log, u, k)
  {
    var id := RowId(u, k);
    NextCommits(s, a);
    if EffectOf(s, a).Some? {
      var e := EffectOf(s, a).value;
      MailedSinceStep(s.log, e, u, k);
      WriteEmailed(s.rows, e, id);
      if a.Step? && e.Marked? && e.user == u && k in e.keys {
        MarkedByMarking(s, a.t, a.op, u, k);
      }
      if e.Saved? && e.user == u && k in Keys(e.jobs) {
        SavedWasAbsent(s, a, u, k);
      }
    }
  }

  lemma EarnedStep(s: State, a: Action, u: User, k: Key)
    requires LockInv(s) && UnseenAbsent(s) && OneRun(s, u) && EarnedInv(s, u, k) && Solo(s, a, u)
    ensures EarnedInv(Next(s, a), u, k)
  {
    var s', id := Next(s, a), RowId(u, k);
    if id in s'.rows {
      if s'.rows[id].emailedAt.Some? {
        MarkStep(s, a, u, k);
      }
      forall t | Marking(s', t, u, k) ensures MailedSince(s'.log, u, k) {
        MarkingStep(s, a, t, u, k);
      }
    }
  }

  /** While one run of `u` is under way, no other step stores or renews a posting of `u`. */
  lemma OthersDoNotRenew(s: State, t: Tid, t': Tid, op: Op, u: User, k: Key)
    requires OneRun(s, u) && RunFor(s, t, u) && t' != t
    requires MoveOf(s, t', op).Some? && MoveOf(s, t', op).value.effect.Some?
    ensures var e := MoveOf(s, t', op).value.effect.value;
            !(e.Saved? && e.user == u) && !Reactivates(e, u, k)
  {
    MoveEffect(s, t', op);
    assert !RunFor(s, t', u);
  }

  lemma MarkingStep(s: State, a: Action, t: Tid, u: User, k: Key)
    requires LockInv(s) && UnseenAbsent(s) && OneRun(s, u) && EarnedInv(s, u, k)
    requires Marking(Next(s, a), t, u, k) && RowId(u, k) in Next(s, a).rows
    ensures MailedSince(Next(s, a).log, u, k)
  {
    NextCommits(s, a);
    if a.Step? && a.t == t && Enabled(s, a) {
      DeliveredBySend(s, t, a.op);
      MailedSinceStep(s.log, EffectOf(s, a).value, u, k);
    } else {
      assert Marking(s, t, u, k);
      if EffectOf(s, a).Some? {
        var e := EffectOf(s, a).value;
        MailedSinceStep(s.log, e, u, k);
        if a.Step? {
          OthersDoNotRenew(s, t, a.t, a.op, u, k);
        }
        WriteKeys(s.rows, e);
      }
    }
  }

  lemma {:induction false} EarnedInvariants(acts: seq<Action>, u: User, k: Key)
    requires SoloRuns(acts, u)
    ensures var s := Exec(acts); LockInv(s) && UnseenAbsent(s) && OneRun(s, u) && EarnedInv(s, u, k)
  {
    if acts != [] {
      var front, a := acts[..|acts| - 1], acts[|acts| - 1];
      EarnedInvariants(front, u, k);
      LockStep(Exec(front), a);
      UnseenStep(Exec(front), a);
      OneRunStep(Exec(front), a, u);
      EarnedStep(Exec(front), a, u, k);
    }
  }

  /** In every reachable state, with a crash allowed at any step: a row that carries
      a mailed mark was in a digest sent since its creation or last reactivation, so
      no posting leaves the unmailed set without having been mailed. */
  lemma MailedMarkIsEarned(acts: seq<Action>, id: RowId)
    requires SoloRuns(acts, id.user)
    requires id in Exec(acts).rows && Exec(acts).rows[id].emailedAt.Some?
    ensures MailedSince(Exec(acts).log, id.user, id.key)
  {
    EarnedInvariants(acts, id.user, id.key);
  }

  // ---- nothing is mailed twice without a reason --------------------------------

  /** What may bring a posting back into a digest. */
  predicate Renews(e: Effect, u: User, k: Key) {
    (e.Cleared? && e.user == u) || Reactivates(e, u, k)
  }

  /** `k` was in a digest while its row was stored, and nothing renewed it since. */
  predicate Spent(log: seq<Effect>, u: User, k: Key) {
    log != [] &&
    var e := log[|log| - 1];
    if Renews(e, u, k) then false
    else if e.Mailed? && e.user == u && k in e.present then true
    else Spent(log[..|log| - 1], u, k)
  }

  lemma SpentStep(log: seq<Effect>, e: Effect, u: User, k: Key)
    ensures Spent(log + [e], u, k) ==
            if Renews(e, u, k) then false
            else if e.Mailed? && e.user == u && k in e.present then true
            else Spent(log, u, k)
  {
    assert (log + [e])[..|log|] == log;
  }

  /** Postings a stored-and-composing run is about to mail. */
  function Pending(pc: Pc): set<Key> {
    match pc
    case Stored(_, unseen) => Keys(unseen)
    case Refreshed(_, unseen) => Keys(unseen)
    case Planned(_, unseen, _) => Keys(unseen)
    case Reconciled(_, unseen) => Keys(unseen)
    case Probing(_, unseen, _) => Keys(unseen)
    case Probed(_, unseen) => Keys(unseen)
    case Composing(keys) => keys
    case Rescued(keys) => keys
    case Screened(keys) => keys
    case Ready(keys) => keys
    case _ => {}
  }

  predicate Holding(s: State, t: Tid, u: User, k: Key) {
    RunFor(s, t, u) && k in Pending(s.threads[t].pc)
  }

  ghost predicate SpentInv(s: State, u: User, k: Key) {
    Spent(s.log, u, k) ==>
      && RowId(u, k) in s.rows
      && (forall t :: !Holding(s, t, u, k))
      && (s.rows[RowId(u, k)].emailedAt.Some? || exists t :: Marking(s, t, u, k))
  }

  /** Runs of `u` do not re-send (`resend_jobs` is off). */
  ghost predicate ResendOff(s: State, u: User) {
    forall t :: RunFor(s, t, u) ==> !s.threads[t].resend
  }

  /** The assumptions about one action: no overlapping runs of `u`, `resend_jobs` off for
      `u`, and no crash of one of `u`'s runs between sending and marking. */
  predicate Orderly(s: State, a: Action, u: User) {
    && Solo(s, a, u)
    && (a.Start? && a.thread.RunOf? && a.t.owner == u ==> !a.thread.resend)
    && (a.Crash? && RunFor(s, a.t, u) ==> !s.threads[a.t].pc.Delivered?)
  }

  predicate OrderlyRuns(acts: seq<Action>, u: User) {
    acts == [] || (OrderlyRuns(acts[..|acts| - 1], u) && Orderly(Exec(acts[..|acts| - 1]), acts[|acts| - 1], u))
  }

  lemma ResendOffStep(s: State, a: Action, u: User)
    requires ResendOff(s, u) && Orderly(s, a, u)
    ensures ResendOff(Next(s, a), u)
  {
    var s' := Next(s, a);
    if Enabled(s, a) && a.Step? {
      SameKind(s, a.t, a.op);
    }
    assert forall t :: RunFor(s', t, u) ==> RunFor(s, t, u) || (a.Start? && a.t == t && a.thread.RunOf?);
  }

  /** With re-sending off, a run comes to hold a posting only by storing it as new,
      or by finding it unmailed. */
  predicate HoldsBecause(rows: Table, u: User, th: Thread, next: Thread, k: Key)
    requires th.RunOf? && next.RunOf?
  {
    k in Pending(next.pc) ==>
      || k in Pending(th.pc)
      || (th.pc.Compared? && k in Keys(th.pc.unseen))
      || (RowId(u, k) in rows && rows[RowId(u, k)].Unmailed() && th.pc.Composing?)
  }

  lemma StorageHolds(rows: Table, lock: Option<Tid>, t: Tid, r: Thread, op: Op, k: Key)
    requires r.RunOf? && !r.resend && StorageMove(rows, lock, t, r, op).Some?
    ensures var m := StorageMove(rows, lock, t, r, op).value;
            m.next.Some? ==> m.next.value.RunOf? && HoldsBecause(rows, t.owner, r, m.next.value, k)
  {
  }

  lemma DigestHolds(rows: Table, lock: Option<Tid>, t: Tid, r: Thread, op: Op, k: Key)
    requires r.RunOf? && DigestMove(rows, lock, t, r, op).Some?
    ensures var m := DigestMove(rows, lock, t, r, op).value;
            m.next.Some? ==> m.next.value.RunOf? && HoldsBecause(rows, t.owner, r, m.next.value, k)
  {
  }

  lemma MoveHolds(s: State, t: Tid, op: Op, k: Key)
    requires MoveOf(s, t, op).Some? && s.threads[t].RunOf? && !s.threads[t].resend
    ensures var m := MoveOf(s, t, op).value;
            m.next.Some? ==> m.next.value.RunOf? && HoldsBecause(s.rows, t.owner, s.threads[t], m.next.value, k)
  {
    if Unlocked(s.threads[t].pc) {
      DigestHolds(s.rows, s.lock, t, s.threads[t], op, k);
    } else {
      StorageHolds(s.rows, s.lock, t, s.threads[t], op, k);
    }
  }

  ghost predicate MailInv(s: State, u: User, k: Key) {
    LockInv(s) && UnseenAbsent(s) && OneRun(s, u) && ResendOff(s, u) && SpentInv(s, u, k)
  }

  /** A spent posting keeps its row until it is renewed. */
  lemma SpentStored(s: State, a: Action, u: User, k: Key)
    requires MailInv(s, u, k) && Spent(Next(s, a).log, u, k)
    ensures RowId(u, k) in Next(s, a).rows
  {
    NextCommits(s, a);
    if EffectOf(s, a).Some? {
      var e := EffectOf(s, a).value;
      SpentStep(s.log, e, u, k);
      WriteKeys(s.rows, e);
      if a.Step? {
        MoveEffect(s, a.t, a.op);
      }
    }
  }

  /** No run is about to mail a spent posting. */
  lemma SpentNotHeld(s: State, a: Action, u: User, k: Key, t: Tid)
    requires MailInv(s, u, k) && Spent(Next(s, a).log, u, k)
    ensures !Holding(Next(s, a), t, u, k)
  {
    NextCommits(s, a);
    if Holding(Next(s, a), t, u, k) {
      if EffectOf(s, a).Some? {
        SpentStep(s.log, EffectOf(s, a).value, u, k);
      }
      if a.Step? && Enabled(s, a) && a.t == t {
        HeldAfterStep(s, t, a.op, u, k);
      } else {
        HeldByOther(s, a, t, u, k);
      }
    }
  }

  lemma HeldByOther(s: State, a: Action, t: Tid, u: User, k: Key)
    requires OneRun(s, u) && Holding(Next(s, a), t, u, k)
    requires !(a.Step? && Enabled(s, a) && a.t == t)
    ensures Holding(s, t, u, k)
    ensures EffectOf(s, a).Some? ==> !(EffectOf(s, a).value.Mailed? && EffectOf(s, a).value.user == u)
  {
    assert RunFor(s, t, u);
    if a.Step? && Enabled(s, a) {
      MoveEffect(s, a.t, a.op);
      assert !RunFor(s, a.t, u);
    }
  }

  /** What rules out that a posting is spent: a run holds it, it is not stored, or it is
      unmailed while its owner's run is elsewhere than at marking. */
  lemma NotSpent(s: State, t: Tid, u: User, k: Key)
    requires OneRun(s, u) && SpentInv(s, u, k) && RunFor(s, t, u)
    requires Holding(s, t, u, k) || RowId(u, k) !in s.rows
             || (s.rows[RowId(u, k)].emailedAt.None? && !s.threads[t].pc.Delivered?)
    ensures !Spent(s.log, u, k)
  {
    if !s.threads[t].pc.Delivered? {
      assert forall t' :: !Marking(s, t', u, k);
    }
  }

  lemma HeldAfterStep(s: State, t: Tid, op: Op, u: User, k: Key)
    requires MailInv(s, u, k) && MoveOf(s, t, op).Some?
    requires Holding(Next(s, Step(t, op)), t, u, k)
    ensures !Spent(s.log, u, k)
    ensures MoveOf(s, t, op).value.effect.Some? ==> !MoveOf(s, t, op).value.effect.value.Mailed?
  {
    SameKind(s, t, op);
    assert RunFor(s, t, u);
    MoveHolds(s, t, op, k);
    MoveEffect(s, t, op);
    NotSpent(s, t, u, k);
  }

  /** A step that spends a posting leaves its run about to mark it. */
  lemma SpendingMarks(s: State, t: Tid, op: Op, u: User, k: Key)
    requires MoveOf(s, t, op).Some? && MoveOf(s, t, op).value.effect.Some?
    requires var e := MoveOf(s, t, op).value.effect.value; e.Mailed? && e.user == u && k in e.present
    ensures Marking(Next(s, Step(t, op)), t, u, k)
  {
    MoveEffect(s, t, op);
  }

  /** A run that is about to mark a posting goes on to, and until then stays so. */
  lemma MarkingStays(s: State, a: Action, t: Tid, u: User, k: Key)
    requires Marking(s, t, u, k) && Orderly(s, a, u)
    ensures Marking(Next(s, a), t, u, k)
            || (EffectOf(s, a).Some? && EffectOf(s, a).value.Marked? && EffectOf(s, a).value.user == u
                && k in EffectOf(s, a).value.keys)
  {
    if a.Step? && a.t == t && Enabled(s, a) {
      MarkingEnds(s, t, a.op, u, k);
    }
  }

  /** A spent posting is marked, or its run is about to mark it. */
  lemma SpentMarked(s: State, a: Action, u: User, k: Key)
    requires MailInv(s, u, k) && Orderly(s, a, u)
    requires Spent(Next(s, a).log, u, k) && RowId(u, k) in Next(s, a).rows
    ensures Next(s, a).rows[RowId(u, k)].emailedAt.Some? || exists t :: Marking(Next(s, a), t, u, k)
  {
    var s', id := Next(s, a), RowId(u, k);
    NextCommits(s, a);
    if EffectOf(s, a).Some? {
      var e := EffectOf(s, a).value;
      SpentStep(s.log, e, u, k);
      WriteEmailed(s.rows, e, id);
      if a.Step? && e.Mailed? && e.user == u && k in e.present {
        SpendingMarks(s, a.t, a.op, u, k);
      }
    }
    if s'.rows[id].emailedAt.None? && Spent(s.log, u, k) {
      var t :| Marking(s, t, u, k);
      MarkingStays(s, a, t, u, k);
    }
  }

  lemma MarkingEnds(s: State, t: Tid, op: Op, u: User, k: Key)
    requires Marking(s, t, u, k) && MoveOf(s, t, op).Some?
    ensures var m := MoveOf(s, t, op).value;
            m.effect.Some? && m.effect.value.Marked? && m.effect.value.user == u && k in m.effect.value.keys
  {
    assert DigestMove(s.rows, s.lock, t, s.threads[t], op).Some?;
  }

  lemma MailStep(s: State, a: Action, u: User, k: Key)
    requires MailInv(s, u, k) && Orderly(s, a, u)
    ensures MailInv(Next(s, a), u, k)
  {
    LockStep(s, a);
    UnseenStep(s, a);
    OneRunStep(s, a, u);
    ResendOffStep(s, a, u);
    if Spent(Next(s, a).log, u, k) {
      SpentStored(s, a, u, k);
      forall t ensures !Holding(Next(s, a), t, u, k) {
        SpentNotHeld(s, a, u, k, t);
      }
      SpentMarked(s, a, u, k);
    }
  }

  lemma {:induction false} MailInvariants(acts: seq<Action>, u: User, k: Key)
    requires OrderlyRuns(acts, u)
    ensures MailInv(Exec(acts), u, k)
  {
    if acts != [] {
      var front, a := acts[..|acts| - 1], acts[|acts| - 1];
      MailInvariants(front, u, k);
      MailStep(Exec(front), a, u, k);
    }
  }

  lemma {:induction false} NotSpentMeans(log: seq<Effect>, u: User, k: Key, i: nat)
    requires !Spent(log, u, k)
    requires i < |log| && log[i].Mailed? && log[i].user == u && k in log[i].present
    ensures exists m :: i < m < |log| && Renews(log[m], u, k)
  {
    var n := |log| - 1;
    if !Renews(log[n], u, k) {
      NotSpentMeans(log[..n], u, k, i);
      var m :| i < m < n && Renews(log[..n][m], u, k);
      assert Renews(log[m], u, k);
    }
  }

  /** Over every history of non-overlapping runs with re-sending off and no crash
      between sending and marking: once `k` was mailed while its row was stored, it
      is in a later digest only after a clear, or a reactivation of that row,
      strictly between the two. */
  lemma {:induction false} MailedOncePerRenewal(acts: seq<Action>, u: User, k: Key, i: nat, j: nat)
    requires OrderlyRuns(acts, u)
    requires var log := Exec(acts).log;
             && i < j < |log|
             && log[i].Mailed? && log[i].user == u && k in log[i].present
             && log[j].Mailed? && log[j].user == u && k in log[j].keys
    ensures exists m :: i < m < j && Renews(Exec(acts).log[m], u, k)
  {
    assert acts != [];
    var front, a := acts[..|acts| - 1], acts[|acts| - 1];
    var s, log := Exec(front), Exec(acts).log;
    NextCommits(s, a);
    if j < |s.log| {
      MailedOncePerRenewal(front, u, k, i, j);
      var m :| i < m < j && Renews(s.log[m], u, k);
      assert Renews(log[m], u, k);
    } else {
      MailInvariants(front, u, k);
      MailedWasHeld(s, a, u, k);
      NotSpentMeans(s.log, u, k, i);
      var m :| i < m < |s.log| && Renews(s.log[m], u, k);
      assert Renews(log[m], u, k);
    }
  }

  lemma MailedWasHeld(s: State, a: Action, u: User, k: Key)
    requires MailInv(s, u, k)
    requires EffectOf(s, a).Some? && EffectOf(s, a).value.Mailed?
    requires EffectOf(s, a).value.user == u && k in EffectOf(s, a).value.keys
    ensures !Spent(s.log, u, k)
  {
    if a.Step? {
      MoveEffect(s, a.t, a.op);
      assert Holding(s, a.t, u, k);
    }
  }

  // ---- counted ---------------------------------------------------------------------

  /** Digests that included `k` while its row was stored. */
  function Mailings(log: seq<Effect>, u: User, k: Key): nat {
    if log == [] then 0
    else
      var e := log[|log| - 1];
      Mailings(log[..|log| - 1], u, k) + (if e.Mailed? && e.user == u && k in e.present then 1 else 0)
  }

  /** Clears by the user, and reactivations of the row. */
  function Renewals(log: seq<Effect>, u: User, k: Key): nat {
    if log == [] then 0
    else Renewals(log[..|log| - 1], u, k) + (if Renews(log[|log| - 1], u, k) then 1 else 0)
  }

  lemma CountStep(log: seq<Effect>, e: Effect, u: User, k: Key)
    ensures Mailings(log + [e], u, k)
         == Mailings(log, u, k) + if e.Mailed? && e.user == u && k in e.present then 1 else 0
    ensures Renewals(log + [e], u, k) == Renewals(log, u, k) + if Renews(e, u, k) then 1 else 0
  {
    assert (log + [e])[..|log|] == log;
  }

  lemma MailedNotSpent(s: State, a: Action, u: User, k: Key)
    requires MailInv(s, u, k) && EffectOf(s, a).Some?
    requires var e := EffectOf(s, a).value; e.Mailed? && e.user == u && k in e.present
    ensures !Spent(s.log, u, k)
  {
    if a.Step? {
      MoveEffect(s, a.t, a.op);
    }
    MailedWasHeld(s, a, u, k);
  }

  lemma {:induction false} MailingsWhileSpent(acts: seq<Action>, u: User, k: Key)
    requires OrderlyRuns(acts, u)
    ensures var log := Exec(acts).log;
            Mailings(log, u, k) <= Renewals(log, u, k) + if Spent(log, u, k) then 1 else 0
  {
    if acts != [] {
      var front, a := acts[..|acts| - 1], acts[|acts| - 1];
      var s := Exec(front);
      MailingsWhileSpent(front, u, k);
      NextCommits(s, a);
      if EffectOf(s, a).Some? {
        var e := EffectOf(s, a).value;
        CountStep(s.log, e, u, k);
        SpentStep(s.log, e, u, k);
        if e.Mailed? && e.user == u && k in e.present {
          MailInvariants(front, u, k);
          MailedNotSpent(s, a, u, k);
        }
      }
    }
  }

  /** Under the same assumptions: a posting is mailed, while stored, at most once more
      than it is renewed. */
  lemma MailedAtMostOnce(acts: seq<Action>, u: User, k: Key)
    requires OrderlyRuns(acts, u)
    ensures Mailings(Exec(acts).log, u, k) <= 1 + Renewals(Exec(acts).log, u, k)
  {
    MailingsWhileSpent(acts, u, k);
  }
}
