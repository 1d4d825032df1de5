/** No posting is lost: whatever else happens meanwhile, a run that gets as far as
    marking its digest leaves nothing of its user unmailed that should have been mailed. */
module NothingLost {
  import opened Common
  import opened Jobs
  import opened JobTable
  import opened Effects
  import opened Pipeline
  import opened NewJobsOnce
  import opened MailOnce
  import opened Delivery

  /** An active unmailed row that no flag and no status keeps out of a digest. */
  predicate Owed(rows: Table, u: User, excluded: set<Status>, k: Key) {
    var id := RowId(u, k);
    && id in rows && rows[id].Unmailed() && !rows[id].isDuplicate
    && (rows[id].status.Some? ==> rows[id].status.value !in excluded)
  }

  /** The run has read the unmailed rows and has not marked its digest yet. */
  predicate PastRescue(s: State, t: Tid) {
    t in s.threads && s.threads[t].RunOf?
    && (s.threads[t].pc.Rescued? || s.threads[t].pc.Screened? || s.threads[t].pc.Ready? || s.threads[t].pc.Delivered?)
  }

  /** An edit by which the user may bring posting `k` back into the digest: taking its
      duplicate flag away, or giving it a status that is not excluded. */
  predicate Frees(e: Effect, u: User, excluded: set<Status>, k: Key) {
    || (e.DuplicateSet? && e.user == u && e.key == k && !e.flag)
    || (e.StatusSet? && e.user == u && k in e.targets && (e.status.Some? ==> e.status.value !in excluded))
  }

  /** No such edit since the run under way read the unmailed rows. */
  predicate QuietSince(acts: seq<Action>, t: Tid, k: Key) {
    PastRescue(Exec(acts), t) && acts != [] ==>
      var front, a := acts[..|acts| - 1], acts[|acts| - 1];
      && QuietSince(front, t, k)
      && !(PastRescue(Exec(front), t) && a.UserEdit? && Frees(a.edit, t.owner, Exec(front).threads[t].excluded, k))
  }

  /** What is owed is in the run's hands. */
  predicate Covered(s: State, t: Tid, k: Key) {
    PastRescue(s, t) && Owed(s.rows, t.owner, s.threads[t].excluded, k) ==> k in s.threads[t].pc.keys
  }

  // ---- transactions ------------------------------------------------------------------

  /** A transaction makes a row owed only by storing it, reactivating it or freeing it. */
  lemma OwedBefore(rows: Table, e: Effect, u: User, excluded: set<Status>, k: Key)
    requires Owed(Write(rows, e), u, excluded, k)
    ensures || Owed(rows, u, excluded, k) || Frees(e, u, excluded, k)
            || (e.Saved? && e.user == u) || Reactivates(e, u, k)
  {
    var id := RowId(u, k);
    if e.Saved? && e.user != u {
      assert id in rows;
    }
  }

  lemma MarkedAreNotOwed(rows: Table, u: User, keys: set<Key>, now: Time, excluded: set<Status>, k: Key)
    ensures Owed(MarkEmailed(rows, u, keys, now), u, excluded, k) <==> Owed(rows, u, excluded, k) && k !in keys
  {
  }

  // ---- the run's own steps -----------------------------------------------------------

  /** Steps up to the digest: what is owed is taken in, and stays. */
  lemma DigestCovers(rows: Table, lock: Option<Tid>, t: Tid, r: Thread, op: Op, k: Key)
    requires r.RunOf? && Unlocked(r.pc) && DigestMove(rows, lock, t, r, op).Some?
    requires !r.pc.Composing? && Owed(rows, t.owner, r.excluded, k) ==> k in r.pc.keys
    ensures var m := DigestMove(rows, lock, t, r, op).value;
            m.next.Some? ==>
              && m.next.value.RunOf? && m.next.value.excluded == r.excluded && !m.next.value.pc.Composing?
              && Unlocked(m.next.value.pc)
              && (Owed(rows, t.owner, r.excluded, k) ==> k in m.next.value.pc.keys)
              && (m.effect.Some? ==> m.effect.value.Mailed?)
  {
  }

  lemma StorageEndsAtComposing(rows: Table, lock: Option<Tid>, t: Tid, r: Thread, op: Op)
    requires r.RunOf? && !Unlocked(r.pc) && StorageMove(rows, lock, t, r, op).Some?
    ensures var m := StorageMove(rows, lock, t, r, op).value;
            m.next.Some? && m.next.value.RunOf? ==> !Unlocked(m.next.value.pc) || m.next.value.pc.Composing?
  {
  }

  lemma OwnStepCovers(s: State, t: Tid, op: Op, k: Key)
    requires Covered(s, t, k) && MoveOf(s, t, op).Some?
    ensures Covered(Next(s, Step(t, op)), t, k)
  {
    SameKind(s, t, op);
    if s.threads[t].RunOf? {
      var r := s.threads[t];
      if Unlocked(r.pc) {
        DigestCovers(s.rows, s.lock, t, r, op, k);
      } else {
        StorageEndsAtComposing(s.rows, s.lock, t, r, op);
      }
    }
  }

  // ---- everything else ---------------------------------------------------------------

  lemma OthersKeepCovered(s: State, a: Action, t: Tid, k: Key)
    requires OneRun(s, t.owner) && Covered(s, t, k) && PastRescue(Next(s, a), t)
    requires !(a.Step? && a.t == t && Enabled(s, a))
    requires !(PastRescue(s, t) && a.UserEdit? && Frees(a.edit, t.owner, s.threads[t].excluded, k))
    ensures Covered(Next(s, a), t, k)
  {
    assert PastRescue(s, t) && Next(s, a).threads[t] == s.threads[t];
    NextCommits(s, a);
    if EffectOf(s, a).Some? && Owed(Next(s, a).rows, t.owner, s.threads[t].excluded, k) {
      var e := EffectOf(s, a).value;
      OwedBefore(s.rows, e, t.owner, s.threads[t].excluded, k);
      if a.Step? {
        OthersDoNotRenew(s, t, a.t, a.op, t.owner, k);
        MoveEffect(s, a.t, a.op);
      }
    }
  }

  lemma {:induction false} AlwaysCovered(acts: seq<Action>, t: Tid, k: Key)
    requires SoloRuns(acts, t.owner) && QuietSince(acts, t, k)
    ensures Covered(Exec(acts), t, k)
  {
    if acts != [] && PastRescue(Exec(acts), t) {
      var front, a := acts[..|acts| - 1], acts[|acts| - 1];
      AlwaysCovered(front, t, k);
      EarnedInvariants(front, t.owner, k);
      if a.Step? && a.t == t && Enabled(Exec(front), a) {
        OwnStepCovers(Exec(front), t, a.op, k);
      } else {
        OthersKeepCovered(Exec(front), a, t, k);
      }
    }
  }

  lemma MarkRows(s: State, t: Tid, now: Time)
    requires RunFor(s, t, t.owner) && s.threads[t].pc.Delivered?
    ensures var done := Next(s, Step(t, Mark(now)));
            t !in done.threads && done.rows == MarkEmailed(s.rows, t.owner, s.threads[t].pc.keys, now)
  {
  }

  /** What a mark leaves owed: exactly what was owed before and was not in the digest. */
  lemma MarkLeaves(s: State, t: Tid, k: Key, now: Time)
    requires RunFor(s, t, t.owner) && s.threads[t].pc.Delivered?
    ensures var done, excluded := Next(s, Step(t, Mark(now))), s.threads[t].excluded;
            && t !in done.threads
            && (Owed(done.rows, t.owner, excluded, k)
                <==> Owed(s.rows, t.owner, excluded, k) && k !in s.threads[t].pc.keys)
  {
    MarkRows(s, t, now);
    MarkedAreNotOwed(s.rows, t.owner, s.threads[t].pc.keys, now, s.threads[t].excluded, k);
  }

  /** In every history in which the runs of the user do not overlap, with crashes, clears,
      edits, other users' runs, URL checks and no-source passes anywhere: when a run marks
      the digest that it sent, or finds nothing to send, a posting of its user that is
      active and unmailed is a flagged duplicate or has an excluded status, unless the user
      freed that posting after the run had read the unmailed rows. */
  lemma DigestLeavesNothingOwed(acts: seq<Action>, t: Tid, k: Key, now: Time)
    requires SoloRuns(acts, t.owner) && QuietSince(acts, t, k)
    requires t in Exec(acts).threads && Exec(acts).threads[t].RunOf?
    ensures var s := Exec(acts);
            var r := s.threads[t];
            && (r.pc.Delivered? ==> var done := Next(s, Step(t, Mark(now)));
                                    t !in done.threads && !Owed(done.rows, t.owner, r.excluded, k))
            && (r.pc.Ready? && r.pc.keys == {} ==> !Owed(s.rows, t.owner, r.excluded, k))
  {
    AlwaysCovered(acts, t, k);
    if Exec(acts).threads[t].pc.Delivered? {
      MarkLeaves(Exec(acts), t, k, now);
    }
  }

  lemma NothingOwedMeans(rows: Table, u: User, excluded: set<Status>)
    ensures NothingOwed(rows, u, excluded) <==> forall k :: !Owed(rows, u, excluded, k)
  {
    if forall k :: !Owed(rows, u, excluded, k) {
      forall id | id in rows && id.user == u && rows[id].Unmailed()
        ensures rows[id].isDuplicate || (rows[id].status.Some? && rows[id].status.value in excluded)
      {
        assert !Owed(rows, u, excluded, id.key);
      }
    }
  }

  /** When the user freed nothing meanwhile, no posting at all is left. */
  lemma QuietDigestLeavesNothing(acts: seq<Action>, t: Tid, now: Time)
    requires SoloRuns(acts, t.owner) && forall k :: QuietSince(acts, t, k)
    requires t in Exec(acts).threads && Exec(acts).threads[t].RunOf? && Exec(acts).threads[t].pc.Delivered?
    ensures NothingOwed(Next(Exec(acts), Step(t, Mark(now))).rows, t.owner, Exec(acts).threads[t].excluded)
  {
    var rows, excluded := Next(Exec(acts), Step(t, Mark(now))).rows, Exec(acts).threads[t].excluded;
    forall k ensures !Owed(rows, t.owner, excluded, k) {
      DigestLeavesNothingOwed(acts, t, k, now);
    }
    NothingOwedMeans(rows, t.owner, excluded);
  }

  lemma UnflagRows(rows: Table, u: User, excluded: set<Status>, k: Key)
    requires RowId(u, k) in rows && rows[RowId(u, k)].Unmailed() && rows[RowId(u, k)].status.None?
    ensures Owed(SetDuplicate(rows, u, k, false, None), u, excluded, k)
  {
  }

  /** An edit that frees a posting after that is too late for this digest. */
  lemma FreedTooLate(s: State, t: Tid, k: Key, now: Time)
    requires RunFor(s, t, t.owner) && s.threads[t].pc.Delivered? && k !in s.threads[t].pc.keys
    requires RowId(t.owner, k) in s.rows && s.rows[RowId(t.owner, k)].isDuplicate
    requires s.rows[RowId(t.owner, k)].Unmailed() && s.rows[RowId(t.owner, k)].status.None?
    ensures var done := Next(Next(s, UserEdit(DuplicateSet(t.owner, k, false, None))), Step(t, Mark(now)));
            t !in done.threads && Owed(done.rows, t.owner, s.threads[t].excluded, k)
  {
    UnflagRows(s.rows, t.owner, s.threads[t].excluded, k);
    MarkRows(Next(s, UserEdit(DuplicateSet(t.owner, k, false, None))), t, now);
    StaysOwed(SetDuplicate(s.rows, t.owner, k, false, None), t.owner, s.threads[t].pc.keys, now, s.threads[t].excluded,
              k);
  }

  lemma StaysOwed(rows: Table, u: User, keys: set<Key>, now: Time, excluded: set<Status>, k: Key)
    requires Owed(rows, u, excluded, k) && k !in keys
    ensures Owed(MarkEmailed(rows, u, keys, now), u, excluded, k)
  {
  }

  lemma SaveMove(rows: Table, lock: Option<Tid>, t: Tid, r: Thread, now: Time)
    requires r.RunOf? && r.pc.Compared?
    ensures StorageMove(rows, lock, t, r, SaveNew(now))
         == Advance(r, Stored(r.pc.batch, r.pc.unseen), lock, Some(Saved(t.owner, r.pc.unseen, now)))
  {
  }

  lemma FireSaves(s: State, t: Tid, next: Thread, lock: Option<Tid>, jobs: seq<Job>, now: Time, other: Tid)
    requires other in s.threads && other != t
    ensures var saved := Fire(s, t, Move(Some(next), lock, Some(Saved(t.owner, jobs, now))));
            && saved.rows == Insert(s.rows, t.owner, jobs, now)
            && other in saved.threads && saved.threads[other] == s.threads[other]
  {
  }

  lemma SaveRows(s: State, t: Tid, now: Time, other: Tid)
    requires RunFor(s, t, t.owner) && s.threads[t].pc.Compared? && other in s.threads && other != t
    ensures var saved := Next(s, Step(t, SaveNew(now)));
            && saved.rows == Insert(s.rows, t.owner, s.threads[t].pc.unseen, now)
            && other in saved.threads && saved.threads[other] == s.threads[other]
  {
    var r := s.threads[t];
    SaveMove(s.rows, s.lock, t, r, now);
    assert Next(s, Step(t, SaveNew(now))) == Fire(s, t, MoveOf(s, t, SaveNew(now)).value);
    FireSaves(s, t, r.(pc := Stored(r.pc.batch, r.pc.unseen)), s.lock, r.pc.unseen, now, other);
  }

  lemma StoredIsOwed(rows: Table, u: User, jobs: seq<Job>, now: Time, excluded: set<Status>, k: Key)
    requires k in Keys(jobs) && RowId(u, k) !in rows
    ensures Owed(Insert(rows, u, jobs, now), u, excluded, k)
  {
  }

  /** Nor does the claim hold of overlapping runs: what another run of the same user stores
      before the mark is for that run's digest. */
  lemma OverlapTooLate(s: State, t: Tid, other: Tid, k: Key, now: Time)
    requires RunFor(s, t, t.owner) && s.threads[t].pc.Delivered? && k !in s.threads[t].pc.keys
    requires RunFor(s, other, t.owner) && s.threads[other].pc.Compared?
    requires k in Keys(s.threads[other].pc.unseen) && RowId(t.owner, k) !in s.rows
    ensures var done := Next(Next(s, Step(other, SaveNew(now))), Step(t, Mark(now)));
            t !in done.threads && Owed(done.rows, t.owner, s.threads[t].excluded, k)
  {
    var saved := Next(s, Step(other, SaveNew(now)));
    SaveRows(s, other, now, t);
    MarkRows(saved, t, now);
    StoredIsOwed(s.rows, t.owner, s.threads[other].pc.unseen, now, s.threads[t].excluded, k);
    StaysOwed(saved.rows, t.owner, s.threads[t].pc.keys, now, s.threads[t].excluded, k);
  }

  // ---- new postings ------------------------------------------------------------------

  /** An edit by which the user keeps a posting out of the digest. */
  predicate Withholds(e: Effect, u: User, excluded: set<Status>, k: Key) {
    || (e.DuplicateSet? && e.user == u && e.key == k && e.flag)
    || (e.StatusSet? && e.user == u && k in e.targets && e.status.Some? && e.status.value in excluded)
  }

  predicate StoresNew(s: State, a: Action, t: Tid, k: Key) {
    && a.Step? && a.t == t && a.op.SaveNew? && RunFor(s, t, t.owner)
    && s.threads[t].pc.Compared? && k in Keys(s.threads[t].pc.unseen)
  }

  /** The run under way has stored `k` as new, and the user did not withhold it since. */
  predicate HoldsNew(acts: seq<Action>, t: Tid, k: Key) {
    acts != [] && RunFor(Exec(acts), t, t.owner) &&
    var front, a := acts[..|acts| - 1], acts[|acts| - 1];
    || StoresNew(Exec(front), a, t, k)
    || (HoldsNew(front, t, k) && !(a.UserEdit? && Withholds(a.edit, t.owner, Exec(front).threads[t].excluded, k)))
  }

  /** What the digest holds or will hold. */
  predicate InHand(pc: Pc, k: Key) {
    match pc
    case Stored(b, unseen) => k in Keys(unseen) && k in Keys(b.filtered)
    case Refreshed(b, unseen) => k in Keys(unseen) && k in Keys(b.filtered)
    case Planned(b, unseen, _) => k in Keys(unseen) && k in Keys(b.filtered)
    case Reconciled(b, unseen) => k in Keys(unseen) && k in Keys(b.filtered)
    case Probing(b, unseen, _) => k in Keys(unseen) && k in Keys(b.filtered)
    case Probed(b, unseen) => k in Keys(unseen) && k in Keys(b.filtered)
    case Composing(keys) => k in keys
    case Rescued(keys) => k in keys
    case Screened(keys) => k in keys
    case Ready(keys) => k in keys
    case Delivered(keys) => k in keys
    case _ => false
  }

  predicate Unflagged(rows: Table, u: User, excluded: set<Status>, k: Key) {
    var id := RowId(u, k);
    id in rows ==> !rows[id].isDuplicate && (rows[id].status.Some? ==> rows[id].status.value !in excluded)
  }

  predicate Held(s: State, t: Tid, k: Key) {
    RunFor(s, t, t.owner) && InHand(s.threads[t].pc, k) && Unflagged(s.rows, t.owner, s.threads[t].excluded, k)
  }

  /** What a run is about to store is among what it filtered. */
  predicate UnseenFiltered(s: State, t: Tid) {
    t in s.threads && s.threads[t].RunOf? && s.threads[t].pc.Compared? ==>
      Keys(s.threads[t].pc.unseen) <= Keys(s.threads[t].pc.batch.filtered)
  }

  lemma StaysUnflagged(rows: Table, e: Effect, u: User, excluded: set<Status>, k: Key)
    requires Unflagged(rows, u, excluded, k) && !Withholds(e, u, excluded, k)
    ensures Unflagged(Write(rows, e), u, excluded, k)
  {
    if e.Saved? && RowId(u, k) in Write(rows, e) && RowId(u, k) !in rows {
      assert Write(rows, e)[RowId(u, k)].status.None?;
    }
  }

  lemma StorageComparesFiltered(rows: Table, lock: Option<Tid>, t: Tid, r: Thread, op: Op)
    requires r.RunOf? && StorageMove(rows, lock, t, r, op).Some?
    ensures var m := StorageMove(rows, lock, t, r, op).value;
            m.next.Some? && m.next.value.RunOf? && m.next.value.pc.Compared? ==>
              m.next.value.pc.unseen == NewJobs(rows, t.owner, m.next.value.pc.batch.filtered)
  {
  }

  lemma UnseenFilteredStep(s: State, a: Action, t: Tid)
    requires UnseenFiltered(s, t)
    ensures UnseenFiltered(Next(s, a), t)
  {
    if a.Step? && a.t == t && Enabled(s, a) {
      SameKind(s, t, a.op);
      if s.threads[t].RunOf? {
        if Unlocked(s.threads[t].pc) {
          DigestComparesNothing(s.rows, s.lock, t, s.threads[t], a.op);
        } else {
          StorageComparesFiltered(s.rows, s.lock, t, s.threads[t], a.op);
          if t in Next(s, a).threads && Next(s, a).threads[t].pc.Compared? {
            NewJobsKeys(s.rows, t.owner, Next(s, a).threads[t].pc.batch.filtered);
          }
        }
      }
    }
  }

  lemma SaveNewMoves(s: State, t: Tid, now: Time)
    requires RunFor(s, t, t.owner) && s.threads[t].pc.Compared?
    ensures var s', r := Next(s, Step(t, SaveNew(now))), s.threads[t];
            && s'.rows == Write(s.rows, Saved(t.owner, r.pc.unseen, now)) && RunFor(s', t, t.owner)
            && s'.threads[t] == r.(pc := Stored(r.pc.batch, r.pc.unseen))
  {
    assert StorageMove(s.rows, s.lock, t, s.threads[t], SaveNew(now)).Some?;
  }

  /** Storing takes a posting in hand. */
  lemma StoringHolds(s: State, a: Action, t: Tid, k: Key)
    requires LockInv(s) && UnseenAbsent(s) && UnseenFiltered(s, t) && StoresNew(s, a, t, k)
    ensures Held(Next(s, a), t, k)
  {
    assert Holds(s.threads[t]);
    SaveNewMoves(s, t, a.op.now);
    StaysUnflagged(s.rows, Saved(t.owner, s.threads[t].pc.unseen, a.op.now), t.owner, s.threads[t].excluded, k);
  }

  lemma StorageHolds(rows: Table, lock: Option<Tid>, t: Tid, r: Thread, op: Op, k: Key)
    requires r.RunOf? && StorageMove(rows, lock, t, r, op).Some? && InHand(r.pc, k)
    ensures var m := StorageMove(rows, lock, t, r, op).value;
            m.next.Some? ==> m.next.value.RunOf? && m.next.value.excluded == r.excluded && InHand(m.next.value.pc, k)
  {
  }

  lemma DigestHolds(rows: Table, lock: Option<Tid>, t: Tid, r: Thread, op: Op, k: Key)
    requires r.RunOf? && DigestMove(rows, lock, t, r, op).Some? && InHand(r.pc, k)
    requires Unflagged(rows, t.owner, r.excluded, k)
    ensures var m := DigestMove(rows, lock, t, r, op).value;
            m.next.Some? ==> m.next.value.RunOf? && m.next.value.excluded == r.excluded && InHand(m.next.value.pc, k)
  {
  }

  lemma OwnStepHolds(s: State, t: Tid, op: Op, k: Key)
    requires Held(s, t, k) && MoveOf(s, t, op).Some? && t in Next(s, Step(t, op)).threads
    ensures RunFor(Next(s, Step(t, op)), t, t.owner) && InHand(Next(s, Step(t, op)).threads[t].pc, k)
    ensures Next(s, Step(t, op)).threads[t].excluded == s.threads[t].excluded
  {
    if Unlocked(s.threads[t].pc) {
      DigestHolds(s.rows, s.lock, t, s.threads[t], op, k);
    } else {
      StorageHolds(s.rows, s.lock, t, s.threads[t], op, k);
    }
  }

  lemma HeldStep(s: State, a: Action, t: Tid, k: Key)
    requires Held(s, t, k) && RunFor(Next(s, a), t, t.owner)
    requires !(a.UserEdit? && Withholds(a.edit, t.owner, s.threads[t].excluded, k))
    ensures Held(Next(s, a), t, k)
  {
    NextCommits(s, a);
    if EffectOf(s, a).Some? {
      if a.Step? {
        MoveEffect(s, a.t, a.op);
      }
      StaysUnflagged(s.rows, EffectOf(s, a).value, t.owner, s.threads[t].excluded, k);
    }
    if a.Step? && a.t == t && Enabled(s, a) {
      OwnStepHolds(s, t, a.op, k);
    }
  }

  lemma {:induction false} AlwaysFiltered(acts: seq<Action>, t: Tid)
    ensures UnseenFiltered(Exec(acts), t)
  {
    if acts != [] {
      AlwaysFiltered(acts[..|acts| - 1], t);
      UnseenFilteredStep(Exec(acts[..|acts| - 1]), acts[|acts| - 1], t);
    }
  }

  lemma {:induction false} AlwaysHeld(acts: seq<Action>, t: Tid, k: Key)
    requires HoldsNew(acts, t, k)
    ensures Held(Exec(acts), t, k)
  {
    var front, a := acts[..|acts| - 1], acts[|acts| - 1];
    if StoresNew(Exec(front), a, t, k) {
      NewInvariants(front, t.owner, k);
      AlwaysFiltered(front, t);
      StoringHolds(Exec(front), a, t, k);
    } else {
      AlwaysHeld(front, t, k);
      HeldStep(Exec(front), a, t, k);
    }
  }

  /** In every history whatever, overlapping runs included: what a run stored as new is in
      the digest that it is about to send, or has sent, even if its URL was found gone or
      the user cleared the cache meanwhile, unless the user flagged it as a duplicate or
      gave it an excluded status. */
  lemma NewPostingReachesDigest(acts: seq<Action>, t: Tid, k: Key)
    requires HoldsNew(acts, t, k)
    ensures RunFor(Exec(acts), t, t.owner)
    ensures var pc := Exec(acts).threads[t].pc; pc.Ready? || pc.Delivered? ==> k in pc.keys
  {
    AlwaysHeld(acts, t, k);
  }
}
