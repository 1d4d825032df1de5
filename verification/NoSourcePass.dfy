/** The pass that retires the postings of users without sources. Its snapshot of
    "users without sources" may be arbitrarily stale: here any user at all may be a
    candidate, at any time. */
module NoSourcePass {
  import opened Common
  import opened Jobs
  import opened JobTable
  import opened StatusHistory
  import opened Effects
  import opened Pipeline

  predicate PassAt(s: State, t: Tid) {
    t in s.threads && s.threads[t].PassOf?
  }

  /** Action `a` of the history took the lock for pass `t`; nothing was stored since. */
  predicate TookLock(acts: seq<Action>, t: Tid, a: nat) {
    && a < |acts| && acts[a] == Step(t, Acquire)
    && Enabled(Exec(acts[..a]), acts[a])
    && Exec(acts).rows.Keys <= Exec(acts[..a]).rows.Keys
  }

  /** Action `c` of the history re-checked, and found its user without any source. */
  predicate FoundNoSource(acts: seq<Action>, t: Tid, c: nat) {
    && c < |acts| && acts[c] == Step(t, Recheck)
    && Enabled(Exec(acts[..c]), acts[c])
    && !HasSource(Exec(acts[..c]).sources, t.owner)
  }

  ghost predicate PassInv(acts: seq<Action>, t: Tid) {
    PassAt(Exec(acts), t) ==>
      var p := Exec(acts).threads[t].pass;
      && (p.PassLocked? ==> exists a :: TookLock(acts, t, a))
      && (p.PassRechecked? || p.PassPlanned? ==>
            exists a, c :: a < c && TookLock(acts, t, a) && FoundNoSource(acts, t, c))
  }

  lemma NobodyElseStores(s: State, a: Action, t: Tid)
    requires LockInv(s) && PassAt(s, t) && !s.threads[t].pass.PassWaiting?
    ensures Next(s, a).rows.Keys <= s.rows.Keys
  {
    NextCommits(s, a);
    if EffectOf(s, a).Some? {
      WriteKeys(s.rows, EffectOf(s, a).value);
      if a.Step? {
        MoveEffect(s, a.t, a.op);
      }
    }
  }

  /** How a pass advances: it locks, re-checks, plans. */
  lemma PassAdvances(s: State, t: Tid, a: Action)
    requires PassAt(Next(s, a), t)
    ensures var p' := Next(s, a).threads[t].pass;
            if a.Step? && a.t == t && Enabled(s, a) then
              && PassAt(s, t)
              && (p'.PassLocked? ==> a.op == Acquire)
              && (p'.PassRechecked?
                  ==> a.op == Recheck && s.threads[t].pass.PassLocked? && !HasSource(s.sources, t.owner))
              && (p'.PassPlanned? ==> s.threads[t].pass.PassRechecked?)
            else p'.PassWaiting? || (PassAt(s, t) && s.threads[t] == Next(s, a).threads[t])
  {
    if a.Step? && a.t == t && Enabled(s, a) {
      match s.threads[t] {
        case RunOf(_, _, _, _) =>
        case PassOf(p) => assert PassMove(s, t, p, a.op).Some?;
        case CheckOf(_, _) =>
      }
    }
  }

  lemma Earlier(acts: seq<Action>, a: Action, t: Tid, i: nat)
    requires i < |acts|
    ensures (acts + [a])[..i] == acts[..i] && (acts + [a])[i] == acts[i]
    ensures FoundNoSource(acts, t, i) ==> FoundNoSource(acts + [a], t, i)
    ensures TookLock(acts, t, i) && Exec(acts + [a]).rows.Keys <= Exec(acts).rows.Keys ==> TookLock(acts + [a], t, i)
  {
  }

  lemma ExecSnoc(acts: seq<Action>, a: Action)
    ensures Exec(acts + [a]) == Next(Exec(acts), a)
    ensures (acts + [a])[..|acts|] == acts
  {
    assert (acts + [a])[..|acts|] == acts;
  }

  lemma PassLocks(acts: seq<Action>, a: Action, t: Tid)
    requires LockInv(Exec(acts)) && PassInv(acts, t)
    requires PassAt(Exec(acts + [a]), t) && Exec(acts + [a]).threads[t].pass.PassLocked?
    ensures exists i :: TookLock(acts + [a], t, i)
  {
    var s := Exec(acts);
    ExecSnoc(acts, a);
    PassAdvances(s, t, a);
    if a.Step? && a.t == t && Enabled(s, a) {
      NextCommits(s, a);
      MoveEffect(s, t, a.op);
      assert TookLock(acts + [a], t, |acts|);
    } else {
      NobodyElseStores(s, a, t);
      var i :| TookLock(acts, t, i);
      Earlier(acts, a, t, i);
      assert TookLock(acts + [a], t, i);
    }
  }

  lemma PassKeepsPromise(acts: seq<Action>, a: Action, t: Tid)
    requires LockInv(Exec(acts)) && PassInv(acts, t)
    requires PassAt(Exec(acts + [a]), t)
    requires Exec(acts + [a]).threads[t].pass.PassRechecked? || Exec(acts + [a]).threads[t].pass.PassPlanned?
    ensures exists i, c :: i < c && TookLock(acts + [a], t, i) && FoundNoSource(acts + [a], t, c)
  {
    var s := Exec(acts);
    ExecSnoc(acts, a);
    PassAdvances(s, t, a);
    NobodyElseStores(s, a, t);
    if s.threads[t].pass.PassLocked? {
      var i :| TookLock(acts, t, i);
      Earlier(acts, a, t, i);
      assert TookLock(acts + [a], t, i) && FoundNoSource(acts + [a], t, |acts|);
    } else {
      var i, c :| i < c && TookLock(acts, t, i) && FoundNoSource(acts, t, c);
      Earlier(acts, a, t, i);
      Earlier(acts, a, t, c);
      assert TookLock(acts + [a], t, i) && FoundNoSource(acts + [a], t, c);
    }
  }

  lemma {:induction false} PassInvariant(acts: seq<Action>, t: Tid)
    ensures PassInv(acts, t)
  {
    if acts != [] {
      var n := |acts| - 1;
      var front, a := acts[..n], acts[n];
      assert acts == front + [a];
      PassInvariant(front, t);
      MutualExclusion(front);
      if PassAt(Exec(acts), t) {
        var p := Exec(acts).threads[t].pass;
        if p.PassLocked? {
          PassLocks(front, a, t);
        } else if p.PassRechecked? || p.PassPlanned? {
          PassKeepsPromise(front, a, t);
        }
      }
    }
  }

  /** With sources added and deleted, runs, clears and crashes interleaved at will: when a
      no-source pass is about to commit, every stored row, so every row it can retire,
      was already stored when the pass took the lock, and its user had no source at the
      re-check made in between. */
  lemma RetiresOnlyOldRows(acts: seq<Action>, t: Tid)
    requires PassAt(Exec(acts), t) && Exec(acts).threads[t].pass.PassPlanned?
    ensures exists a: nat, c: nat :: a < c && TookLock(acts, t, a) && FoundNoSource(acts, t, c)
  {
    PassInvariant(acts, t);
    var a, c :| a < c && TookLock(acts, t, a) && FoundNoSource(acts, t, c);
  }

  /** The commit of a pass retires the rows it planned to, as far as they are still
      stored, and reactivates nothing, whatever happened to them since the plan. */
  lemma RetiresOnlyPlannedRows(s: State, t: Tid, remove: set<Key>, now: Time, id: RowId)
    requires PassAt(s, t) && s.threads[t].pass == PassPlanned(remove) && id in s.rows
    ensures var s' := Next(s, Step(t, CommitReconcile(now)));
            && id in s'.rows
            && s'.rows[id] == if id.user == t.owner && id.key in remove
                              then s.rows[id].(removedAt := Some(now)) else s.rows[id]
  {
    assert PassMove(s, t, s.threads[t].pass, CommitReconcile(now)).Some?;
  }

  /** The plan names the active rows of the pass's own user that have a source. */
  lemma PlansOnlySourcedRows(s: State, t: Tid, k: Key)
    requires PassAt(s, t) && s.threads[t].pass == PassRechecked
    ensures var s' := Next(s, Step(t, PlanReconcile));
            && PassAt(s', t) && s'.threads[t].pass.PassPlanned?
            && (k in s'.threads[t].pass.remove
                <==> var id := RowId(t.owner, k); id in s.rows && s.rows[id].Active() && s.rows[id].job.sourceId.Some?)
  {
    assert PassMove(s, t, s.threads[t].pass, PlanReconcile).Some?;
  }

  // ---- a source added after the re-check ---------------------------------------------

  /** Action `m` of the history added a source of `u` that is still there. */
  predicate AddedAndKept(acts: seq<Action>, u: User, m: nat) {
    && m < |acts| && acts[m].AddSource? && acts[m].owner == u && Enabled(Exec(acts[..m]), acts[m])
    && acts[m].id in Exec(acts).sources && Exec(acts).sources[acts[m].id] == u
  }

  /** Only the user adds sources of the user. */
  lemma SourceStep(s: State, a: Action, u: User, id: SourceId)
    requires id in Next(s, a).sources && Next(s, a).sources[id] == u
    ensures || (id in s.sources && s.sources[id] == u)
            || (a == AddSource(u, id) && Enabled(s, a))
  {
  }

  /** A source that was not there at some point was added since. */
  lemma {:induction false} AddedSince(acts: seq<Action>, c: nat, u: User, id: SourceId) returns (m: nat)
    requires c <= |acts| && id in Exec(acts).sources && Exec(acts).sources[id] == u
    requires !(id in Exec(acts[..c]).sources && Exec(acts[..c]).sources[id] == u)
    ensures c <= m < |acts| && acts[m] == AddSource(u, id) && Enabled(Exec(acts[..m]), acts[m])
    decreases |acts|
  {
    assert acts[..|acts|] == acts;
    var n := |acts| - 1;
    SourceStep(Exec(acts[..n]), acts[n], u, id);
    if acts[n] == AddSource(u, id) && Enabled(Exec(acts[..n]), acts[n]) {
      m := n;
    } else {
      assert acts[..n][..c] == acts[..c];
      m := AddedSince(acts[..n], c, u, id);
      assert acts[..n][..m] == acts[..m];
    }
  }

  /** Whatever happens after a re-check that found no source: the user has a source if and
      only if one was added after the re-check and is still there. */
  lemma SourceSinceRecheck(acts: seq<Action>, t: Tid, c: nat)
    requires FoundNoSource(acts, t, c)
    ensures HasSource(Exec(acts).sources, t.owner) <==> exists m :: c < m && AddedAndKept(acts, t.owner, m)
  {
    if HasSource(Exec(acts).sources, t.owner) {
      var id :| id in Exec(acts).sources && Exec(acts).sources[id] == t.owner;
      var m := AddedSince(acts, c, t.owner, id);
      assert m != c;
      assert AddedAndKept(acts, t.owner, m);
    }
  }

  /** So, in every history: a pass that is about to commit retires the rows of a user who
      has a source exactly when that user added one after the re-check, which no source
      preceded, and kept it. */
  lemma RetiresDespiteSource(acts: seq<Action>, t: Tid)
    requires PassAt(Exec(acts), t) && Exec(acts).threads[t].pass.PassPlanned?
    ensures exists a: nat, c: nat ::
              && a < c && TookLock(acts, t, a) && FoundNoSource(acts, t, c)
              && (HasSource(Exec(acts).sources, t.owner) <==> exists m :: c < m && AddedAndKept(acts, t.owner, m))
  {
    RetiresOnlyOldRows(acts, t);
    var a: nat, c: nat :| a < c && TookLock(acts, t, a) && FoundNoSource(acts, t, c);
    SourceSinceRecheck(acts, t, c);
  }

  /** One step of that: the source is added once the pass has planned, the commit retires
      every active row that has a source all the same. */
  lemma SourceAddedTooLate(s: State, t: Tid, id: SourceId, k: Key, now: Time)
    requires PassAt(s, t) && s.threads[t].pass == PassPlanned(RemoveKeys(s.rows, t.owner, {}, {}, {}))
    requires id !in s.sources
    requires RowId(t.owner, k) in s.rows && s.rows[RowId(t.owner, k)].Active()
    requires s.rows[RowId(t.owner, k)].job.sourceId.Some?
    ensures var added := Next(s, AddSource(t.owner, id));
            var done := Next(added, Step(t, CommitReconcile(now)));
            && HasSource(done.sources, t.owner)
            && RowId(t.owner, k) in done.rows && done.rows[RowId(t.owner, k)].removedAt == Some(now)
  {
    var added := Next(s, AddSource(t.owner, id));
    RetiresOnlyPlannedRows(added, t, added.threads[t].pass.remove, now, RowId(t.owner, k));
    assert added.sources[id] == t.owner;
    assert PassMove(added, t, added.threads[t].pass, CommitReconcile(now)).Some?;
  }
}
