/** A posting is reported new at most once, however many runs overlap. */
module NewJobsOnce {
  import opened Common
  import opened Jobs
  import opened JobTable
  import opened Effects
  import opened Pipeline

  /** Runs that stored and listed `k` as new for `u`. */
  function Listings(log: seq<Effect>, u: User, k: Key): nat {
    if log == [] then 0
    else
      var e := log[|log| - 1];
      Listings(log[..|log| - 1], u, k) + if e.Saved? && e.user == u && k in Keys(e.jobs) then 1 else 0
  }

  function Clears(log: seq<Effect>, u: User): nat {
    if log == [] then 0
    else
      var e := log[|log| - 1];
      Clears(log[..|log| - 1], u) + if e.Cleared? && e.user == u then 1 else 0
  }

  lemma ListingsSnoc(log: seq<Effect>, e: Effect, u: User, k: Key)
    ensures Listings(log + [e], u, k)
         == Listings(log, u, k) + if e.Saved? && e.user == u && k in Keys(e.jobs) then 1 else 0
    ensures Clears(log + [e], u) == Clears(log, u) + if e.Cleared? && e.user == u then 1 else 0
  {
    assert (log + [e])[..|log|] == log;
  }

  /** What a run inside the lock has compared is still not stored. */
  predicate UnseenAbsent(s: State) {
    s.lock.Some? && s.lock.value in s.threads && s.threads[s.lock.value].RunOf?
    && s.threads[s.lock.value].pc.Compared? ==>
      forall k :: k in Keys(s.threads[s.lock.value].pc.unseen) ==> RowId(s.lock.value.owner, k) !in s.rows
  }

  predicate CountInv(s: State, u: User, k: Key) {
    Listings(s.log, u, k) + (if RowId(u, k) in s.rows then 0 else 1) <= 1 + Clears(s.log, u)
  }

  lemma UnseenStep(s: State, a: Action)
    requires LockInv(s) && UnseenAbsent(s)
    ensures UnseenAbsent(Next(s, a))
  {
    var s' := Next(s, a);
    LockStep(s, a);
    NextCommits(s, a);
    if EffectOf(s, a).Some? {
      WriteKeys(s.rows, EffectOf(s, a).value);
    }
    if Enabled(s, a) && a.Step? {
      var t := a.t;
      MoveLock(s, t, a.op);
      MoveEffect(s, t, a.op);
      if s'.lock == Some(t) && t in s'.threads && s'.threads[t].RunOf? && s'.threads[t].pc.Compared? {
        ComparedByGetNew(s, t, a.op);
      }
    }
  }

  lemma StorageCompares(rows: Table, lock: Option<Tid>, t: Tid, r: Thread, op: Op)
    requires r.RunOf? && StorageMove(rows, lock, t, r, op).Some?
    ensures var m := StorageMove(rows, lock, t, r, op).value;
            m.next.Some? && m.next.value.RunOf? && m.next.value.pc.Compared? ==>
              m.effect.None? && r.pc.Scraped? && m.next.value.pc.unseen == NewJobs(rows, t.owner, r.pc.batch.filtered)
  {
  }

  lemma DigestComparesNothing(rows: Table, lock: Option<Tid>, t: Tid, r: Thread, op: Op)
    requires r.RunOf? && DigestMove(rows, lock, t, r, op).Some?
    ensures var m := DigestMove(rows, lock, t, r, op).value;
            m.next.Some? && m.next.value.RunOf? ==> !m.next.value.pc.Compared?
  {
  }

  lemma ComparedByGetNew(s: State, t: Tid, op: Op)
    requires MoveOf(s, t, op).Some? && MoveOf(s, t, op).value.next.Some?
    requires MoveOf(s, t, op).value.next.value.RunOf? && MoveOf(s, t, op).value.next.value.pc.Compared?
    ensures MoveOf(s, t, op).value.effect.None?
    ensures forall k :: k in Keys(MoveOf(s, t, op).value.next.value.pc.unseen) ==> RowId(t.owner, k) !in s.rows
  {
    match s.threads[t] {
      case RunOf(_, _, _, pc) =>
        if Unlocked(pc) {
          DigestComparesNothing(s.rows, s.lock, t, s.threads[t], op);
        } else {
          StorageCompares(s.rows, s.lock, t, s.threads[t], op);
          NewJobsKeys(s.rows, t.owner, pc.batch.filtered);
        }
      case PassOf(p) =>
      case CheckOf(everyone, c) =>
    }
  }

  /** A transaction stores a posting by listing it, and takes it away only by a clear. */
  lemma StoredByListing(rows: Table, e: Effect, u: User, k: Key)
    ensures e.Saved? && e.user == u && k in Keys(e.jobs) ==> RowId(u, k) in Write(rows, e)
    ensures RowId(u, k) in rows && RowId(u, k) !in Write(rows, e) ==> e == Cleared(u)
  {
    WriteKeys(rows, e);
  }

  lemma CountStep(s: State, a: Action, u: User, k: Key)
    requires LockInv(s) && UnseenAbsent(s) && CountInv(s, u, k)
    ensures CountInv(Next(s, a), u, k)
  {
    NextCommits(s, a);
    if EffectOf(s, a).Some? {
      var e := EffectOf(s, a).value;
      StoredByListing(s.rows, e, u, k);
      ListingsSnoc(s.log, e, u, k);
      if e.Saved? && e.user == u && k in Keys(e.jobs) {
        SavedWasAbsent(s, a, u, k);
      }
    }
  }

  lemma {:induction false} NewInvariants(acts: seq<Action>, u: User, k: Key)
    ensures var s := Exec(acts); LockInv(s) && UnseenAbsent(s) && CountInv(s, u, k)
  {
    if acts != [] {
      var front, a := acts[..|acts| - 1], acts[|acts| - 1];
      NewInvariants(front, u, k);
      LockStep(Exec(front), a);
      UnseenStep(Exec(front), a);
      CountStep(Exec(front), a, u, k);
    }
  }

  /** For any number of concurrent runs, interleaved with clears, edits and crashes,
      the runs that list a posting as new are at most one more than the clears. */
  lemma NewAtMostOnce(acts: seq<Action>, u: User, k: Key)
    ensures Listings(Exec(acts).log, u, k) <= 1 + Clears(Exec(acts).log, u)
  {
    NewInvariants(acts, u, k);
  }

  /** A listing stores the posting, and it stays stored until the next clear: two
      listings of the same posting have a clear strictly between them. */
  lemma {:induction false} ListingsSeparatedByClear(acts: seq<Action>, u: User, k: Key, i: nat, j: nat)
    requires i < j < |Exec(acts).log|
    requires var log := Exec(acts).log;
             && log[i].Saved? && log[i].user == u && k in Keys(log[i].jobs)
             && log[j].Saved? && log[j].user == u && k in Keys(log[j].jobs)
    ensures exists m :: i < m < j && Exec(acts).log[m] == Cleared(u)
  {
    assert acts != [];
    var front, a := acts[..|acts| - 1], acts[|acts| - 1];
    var s, log := Exec(front), Exec(acts).log;
    NextCommits(s, a);
    if j < |s.log| {
      ListingsSeparatedByClear(front, u, k, i, j);
      var m :| i < m < j && s.log[m] == Cleared(u);
      assert log[m] == Cleared(u);
    } else {
      NewInvariants(front, u, k);
      SavedWasAbsent(s, a, u, k);
      StoredUntilCleared(front, u, k, i);
      var m :| i < m < |s.log| && s.log[m] == Cleared(u);
      assert log[m] == Cleared(u);
    }
  }

  lemma SavedWasAbsent(s: State, a: Action, u: User, k: Key)
    requires LockInv(s) && UnseenAbsent(s)
    requires EffectOf(s, a).Some? && EffectOf(s, a).value.Saved?
    requires EffectOf(s, a).value.user == u && k in Keys(EffectOf(s, a).value.jobs)
    ensures RowId(u, k) !in s.rows
  {
    if a.Step? {
      MoveEffect(s, a.t, a.op);
    }
  }

  lemma {:induction false} StoredUntilCleared(acts: seq<Action>, u: User, k: Key, i: nat)
    requires i < |Exec(acts).log|
    requires Exec(acts).log[i].Saved? && Exec(acts).log[i].user == u && k in Keys(Exec(acts).log[i].jobs)
    ensures RowId(u, k) in Exec(acts).rows || exists m :: i < m < |Exec(acts).log| && Exec(acts).log[m] == Cleared(u)
  {
    assert acts != [];
    var front, a := acts[..|acts| - 1], acts[|acts| - 1];
    var s, log := Exec(front), Exec(acts).log;
    NextCommits(s, a);
    if EffectOf(s, a).Some? {
      WriteKeys(s.rows, EffectOf(s, a).value);
    }
    if i < |s.log| {
      StoredUntilCleared(front, u, k, i);
      if m :| i < m < |s.log| && s.log[m] == Cleared(u) {
        assert log[m] == Cleared(u);
      } else if EffectOf(s, a) == Some(Cleared(u)) {
        assert log[|s.log|] == Cleared(u);
      }
    }
  }
}
