/** What one undisturbed run does, step by step: its storage phase, its digest, and that
    a posting which is not stored is mailed. */
module Delivery {
  import opened Common
  import opened Jobs
  import opened JobTable
  import opened Effects
  import opened Pipeline
  import opened MailOnce

  lemma {:induction false} ExecConcat(s: State, first: seq<Action>, second: seq<Action>)
    ensures ExecFrom(s, first + second) == ExecFrom(ExecFrom(s, first), second)
  {
    if second == [] {
      assert first + second == first;
    } else {
      var n := |second| - 1;
      assert (first + second)[..|first + second| - 1] == first + second[..n];
      ExecConcat(s, first, second[..n]);
    }
  }

  lemma ExecOne(s: State, a: Action, rest: seq<Action>)
    ensures ExecFrom(s, [a] + rest) == ExecFrom(Next(s, a), rest)
  {
    ExecConcat(s, [a], rest);
    assert [a][..0] == [];
    assert ExecFrom(s, [a]) == Next(ExecFrom(s, []), a);
  }

  function Put(s: State, lock: Option<Tid>, t: Tid, r: Thread, pc: Pc): State
    requires r.RunOf?
  {
    s.(lock := lock, threads := s.threads[t := r.(pc := pc)])
  }

  function CommitAny(s: State, e: Option<Effect>): State {
    if e.Some? then Commit(s, e.value) else s
  }

  lemma StorageGo(s: State, lock: Option<Tid>, t: Tid, r: Thread, pc: Pc, op: Op,
                  lock': Option<Tid>, pc': Pc, e: Option<Effect>, rest: seq<Action>)
    requires r.RunOf? && !Unlocked(pc)
    requires StorageMove(s.rows, lock, t, r.(pc := pc), op) == Advance(r, pc', lock', e)
    ensures ExecFrom(Put(s, lock, t, r, pc), [Step(t, op)] + rest)
            == ExecFrom(Put(CommitAny(s, e), lock', t, r, pc'), rest)
  {
    var before, after := Put(s, lock, t, r, pc), Put(CommitAny(s, e), lock', t, r, pc');
    assert MoveOf(before, t, op) == Advance(r, pc', lock', e);
    assert Next(before, Step(t, op)) == after;
    ExecOne(before, Step(t, op), rest);
  }

  lemma DigestGo(s: State, lock: Option<Tid>, t: Tid, r: Thread, pc: Pc, op: Op,
                 pc': Pc, e: Option<Effect>, rest: seq<Action>)
    requires r.RunOf? && Unlocked(pc)
    requires DigestMove(s.rows, lock, t, r.(pc := pc), op) == Advance(r, pc', lock, e)
    ensures ExecFrom(Put(s, lock, t, r, pc), [Step(t, op)] + rest)
            == ExecFrom(Put(CommitAny(s, e), lock, t, r, pc'), rest)
  {
    var before, after := Put(s, lock, t, r, pc), Put(CommitAny(s, e), lock, t, r, pc');
    assert MoveOf(before, t, op) == Advance(r, pc', lock, e);
    assert Next(before, Step(t, op)) == after;
    ExecOne(before, Step(t, op), rest);
  }

  /** From composing to ready: the rest of a run with nobody else touching its rows. */
  function Compose(t: Tid, listed: set<Key>, rest: seq<Action>): seq<Action> {
    [Step(t, Rescue)] + ([Step(t, DropDuplicates(listed))] + ([Step(t, DropExcluded)] + rest))
  }

  function Deliver(t: Tid, now: Time, rest: seq<Action>): seq<Action> {
    [Step(t, Send)] + ([Step(t, Mark(now))] + rest)
  }

  /** jobs_to_send of a run at `Composing` with the table as it stands. */
  function DigestKeys(rows: Table, u: User, r: Thread, listed: set<Key>): set<Key>
    requires r.RunOf? && r.pc.Composing?
  {
    r.pc.keys + UnmailedKeys(rows, u) - listed - ExcludedKeys(rows, u, r.excluded)
  }

  lemma ComposeGo(s: State, lock: Option<Tid>, t: Tid, r: Thread, listed: set<Key>, rest: seq<Action>)
    requires r.RunOf? && r.pc.Composing? && DuplicateListing(listed, s.rows, t.owner)
    ensures ExecFrom(Put(s, lock, t, r, r.pc), Compose(t, listed, rest))
            == ExecFrom(Put(s, lock, t, r, Ready(DigestKeys(s.rows, t.owner, r, listed))), rest)
  {
    var k1 := r.pc.keys + UnmailedKeys(s.rows, t.owner);
    var k3 := DigestKeys(s.rows, t.owner, r, listed);
    DigestGo(s, lock, t, r, r.pc, Rescue, Rescued(k1), None,
             [Step(t, DropDuplicates(listed))] + ([Step(t, DropExcluded)] + rest));
    DigestGo(s, lock, t, r, Rescued(k1), DropDuplicates(listed), Screened(k1 - listed), None,
             [Step(t, DropExcluded)] + rest);
    DigestGo(s, lock, t, r, Screened(k1 - listed), DropExcluded, Ready(k3), None, rest);
  }

  function AfterDelivery(s: State, u: User, keys: set<Key>, now: Time): State {
    Commit(Commit(s, Mailed(u, keys, PresentKeys(s.rows, u, keys))), Marked(u, keys, now))
  }

  lemma DeliverGo(s: State, lock: Option<Tid>, t: Tid, r: Thread, keys: set<Key>, now: Time, rest: seq<Action>)
    requires r.RunOf?
    ensures ExecFrom(Put(s, lock, t, r, Ready(keys)), Deliver(t, now, rest))
            == ExecFrom(AfterDelivery(s, t.owner, keys, now).(lock := lock, threads := s.threads - {t}), rest)
  {
    var e := Mailed(t.owner, keys, PresentKeys(s.rows, t.owner, keys));
    DigestGo(s, lock, t, r, Ready(keys), Send, Delivered(keys), Some(e), [Step(t, Mark(now))] + rest);
    MarkGo(Commit(s, e), lock, t, r, keys, now, rest);
  }

  lemma MarkGo(s: State, lock: Option<Tid>, t: Tid, r: Thread, keys: set<Key>, now: Time, rest: seq<Action>)
    requires r.RunOf?
    ensures ExecFrom(Put(s, lock, t, r, Delivered(keys)), [Step(t, Mark(now))] + rest)
            == ExecFrom(Commit(s, Marked(t.owner, keys, now)).(lock := lock, threads := s.threads - {t}), rest)
  {
    var before := Put(s, lock, t, r, Delivered(keys));
    assert before.threads - {t} == s.threads - {t};
    assert Next(before, Step(t, Mark(now)))
        == Commit(s, Marked(t.owner, keys, now)).(lock := lock, threads := s.threads - {t});
    ExecOne(before, Step(t, Mark(now)), rest);
  }

  /** Left behind by a digest: only flagged duplicates and excluded statuses. */
  ghost predicate NothingOwed(rows: Table, u: User, excluded: set<Status>) {
    forall id :: id in rows && id.user == u && rows[id].Unmailed() ==>
      rows[id].isDuplicate || (rows[id].status.Some? && rows[id].status.value in excluded)
  }

  /** The same for the bare script of composing, sending and marking, from any state at
      all, with the digest's keys and the table spelt out. `NothingLost` has the general
      claim. */
  lemma DigestScript(s: State, t: Tid, listed: set<Key>, now: Time)
    requires t in s.threads && s.threads[t].RunOf? && s.threads[t].pc.Composing?
    requires DuplicateListing(listed, s.rows, t.owner)
    ensures var r, u := s.threads[t], t.owner;
            var ready, done := ExecFrom(s, Compose(t, listed, [])),
              ExecFrom(s, Compose(t, listed, Deliver(t, now, [])));
            && t in ready.threads && ready.threads[t] == r.(pc := Ready(DigestKeys(s.rows, u, r, listed)))
            && (DigestKeys(s.rows, u, r, listed) == {} ==> NothingOwed(ready.rows, u, r.excluded))
            && NothingOwed(done.rows, u, r.excluded)
            && done.rows == MarkEmailed(s.rows, u, DigestKeys(s.rows, u, r, listed), now)
            && t !in done.threads
  {
    var r := s.threads[t];
    var keys := DigestKeys(s.rows, t.owner, r, listed);
    assert s == Put(s, s.lock, t, r, r.pc);
    ComposeGo(s, s.lock, t, r, listed, []);
    ComposeGo(s, s.lock, t, r, listed, Deliver(t, now, []));
    DeliverGo(s, s.lock, t, r, keys, now, []);
    OwedKeys(s.rows, t.owner, r.excluded, listed, keys, now);
  }

  lemma OwedKeys(rows: Table, u: User, excluded: set<Status>, listed: set<Key>, keys: set<Key>, now: Time)
    requires DuplicateListing(listed, rows, u)
    requires UnmailedKeys(rows, u) - listed - ExcludedKeys(rows, u, excluded) <= keys
    ensures NothingOwed(MarkEmailed(rows, u, keys, now), u, excluded)
    ensures keys == {} ==> NothingOwed(rows, u, excluded)
  {
    assert forall id :: id in rows && id.user == u && rows[id].Unmailed() ==> id.key in UnmailedKeys(rows, u);
  }

  lemma ListedOut(rows: Table, u: User, r: Thread)
    requires r.RunOf? && r.pc.Composing?
    ensures (forall listed :: DuplicateListing(listed, rows, u) ==>
               DigestKeys(rows, u, r, listed) * DuplicateKeys(rows, u) == {})
            <==> |DuplicateKeys(rows, u)| <= 10_000
                 || (r.pc.keys + UnmailedKeys(rows, u) - ExcludedKeys(rows, u, r.excluded)) * DuplicateKeys(rows, u)
                    == {}
  {
    var all := DuplicateKeys(rows, u);
    var candidates := r.pc.keys + UnmailedKeys(rows, u) - ExcludedKeys(rows, u, r.excluded);
    if |all| <= DUPLICATE_LISTING_LIMIT {
      forall listed | DuplicateListing(listed, rows, u) ensures DigestKeys(rows, u, r, listed) * all == {} {
        SubsetOfSameSize(listed, all);
      }
    } else if candidates * all != {} {
      var k :| k in candidates * all;
      var listed := SubsetWithout(all, k, DUPLICATE_LISTING_LIMIT);
      assert DuplicateListing(listed, rows, u) && k in DigestKeys(rows, u, r, listed) * all;
    } else {
      forall listed ensures DigestKeys(rows, u, r, listed) * all == {} {
        assert DigestKeys(rows, u, r, listed) <= candidates;
      }
    }
  }

  predicate Flagged(rows: Table, u: User, k: Key) {
    RowId(u, k) in rows && rows[RowId(u, k)].isDuplicate
  }

  /** Up for the digest, but for being flagged: the run's own, or active and unmailed, and
      in either case of no excluded status. */
  predicate Candidate(rows: Table, u: User, r: Thread, k: Key)
    requires r.RunOf? && r.pc.Composing?
  {
    var id := RowId(u, k);
    && (k in r.pc.keys || (id in rows && rows[id].removedAt.None? && rows[id].emailedAt.None?))
    && !(id in rows && rows[id].status.Some? && rows[id].status.value in r.excluded)
  }

  /** What the listing may return: flagged keys, all of them or 10,000. */
  lemma ListingMeans(listed: set<Key>, rows: Table, u: User)
    ensures DuplicateListing(listed, rows, u)
       <==> && (forall k :: k in listed ==> Flagged(rows, u, k)) && |listed| <= 10_000
            && (|listed| == 10_000 || forall k :: Flagged(rows, u, k) ==> k in listed)
  {
    var all := DuplicateKeys(rows, u);
    assert forall k :: k in all <==> Flagged(rows, u, k);
    if listed <= all {
      SubsetAtMost(listed, all);
      if |listed| == |all| {
        SubsetOfSameSize(listed, all);
      }
    }
    if forall k :: Flagged(rows, u, k) ==> k in listed {
      assert all <= listed;
      assert listed <= all ==> listed == all;
    }
  }

  lemma SubsetAtMost(part: set<Key>, all: set<Key>)
    requires part <= all
    ensures |part| <= |all|
  {
    assert all == part + (all - part);
  }

  /** A digest keeps flagged duplicates out, whichever of them the listing returns,
      exactly when there are no more of them than its limit, or none would be in the
      digest in the first place. */
  lemma DuplicatesStayOut(rows: Table, u: User, r: Thread, flagged: set<Key>)
    requires r.RunOf? && r.pc.Composing?
    requires forall k :: k in flagged <==> Flagged(rows, u, k)
    ensures (forall listed, k :: DuplicateListing(listed, rows, u) && k in DigestKeys(rows, u, r, listed) ==>
               !Flagged(rows, u, k))
            <==> |flagged| <= 10_000 || forall k :: Flagged(rows, u, k) ==> !Candidate(rows, u, r, k)
  {
    var all := DuplicateKeys(rows, u);
    var candidates := r.pc.keys + UnmailedKeys(rows, u) - ExcludedKeys(rows, u, r.excluded);
    assert flagged == all;
    assert candidates * all == {} <==> forall k :: Flagged(rows, u, k) ==> !Candidate(rows, u, r, k) by {
      assert forall k :: k in candidates * all <==> Flagged(rows, u, k) && Candidate(rows, u, r, k);
    }
    forall listed ensures DigestKeys(rows, u, r, listed) * all == {}
                     <==> forall k :: k in DigestKeys(rows, u, r, listed) ==> !Flagged(rows, u, k)
    {
      assert forall k :: k in DigestKeys(rows, u, r, listed) * all
                    <==> k in DigestKeys(rows, u, r, listed) && Flagged(rows, u, k);
    }
    ListedOut(rows, u, r);
  }

  /** A subset of the given size that leaves out `k`. */
  lemma SubsetWithout(all: set<Key>, k: Key, size: nat) returns (part: set<Key>)
    requires k in all && size < |all|
    ensures part <= all && |part| == size && k !in part
    decreases |all|
  {
    if size + 1 == |all| {
      part := all - {k};
    } else {
      assert |all - {k}| > 0;
      var l :| l in all - {k};
      part := SubsetWithout(all - {l}, k, size);
    }
  }

  lemma SubsetOfSameSize(a: set<Key>, b: set<Key>)
    requires a <= b && |a| == |b|
    ensures a == b
  {
    assert |b - a| == |b| - |a|;
    if k :| k in b && k !in a {
      assert k in b - a;
    }
  }

  // ---- a whole run --------------------------------------------------------------

  /** A run's locked part: it scrapes `b`, saves what is new, ... */
  function Open(t: Tid, r: Thread, b: Batch, now: Time, rest: seq<Action>): seq<Action>
    requires r.RunOf?
  {
    [Start(t, r.(pc := Waiting))] + ([Step(t, Acquire)] + ([Step(t, Scrape(b))] + SavePart(t, now, rest)))
  }

  function SavePart(t: Tid, now: Time, rest: seq<Action>): seq<Action> {
    [Step(t, GetNew)] + ([Step(t, SaveNew(now))] + rest)
  }

  /** ... heals URLs, reconciles, checks URLs and gives the lock back. `check` is None when
      the URL check raised, and otherwise the rows that it found gone. */
  function Close(t: Tid, now: Time, check: Option<set<RowId>>, rest: seq<Action>): seq<Action> {
    [Step(t, RefreshUrls)]
    + ([Step(t, PlanReconcile)] + ([Step(t, CommitReconcile(now))] + LeavePart(t, now, check, rest)))
  }

  function LeavePart(t: Tid, now: Time, check: Option<set<RowId>>, rest: seq<Action>): seq<Action> {
    match check
    case None => [Step(t, SkipUrls)] + ([Step(t, Release)] + rest)
    case Some(gone) => [Step(t, ReadUrls)] + ([Step(t, CommitUrls(gone, now))] + ([Step(t, Release)] + rest))
  }

  /** The rows found gone were read as active ones of the run's user. */
  predicate Answered(rows: Table, u: User, check: Option<set<RowId>>) {
    check.Some? ==> forall id :: id in check.value ==> id.user == u && id in rows && rows[id].Active()
  }

  function CheckedBy(s: State, check: Option<set<RowId>>, now: Time): State {
    if check.None? then s else Commit(s, Checked(check.value, now))
  }

  lemma OpenGo(s: State, t: Tid, r: Thread, b: Batch, now: Time, rest: seq<Action>)
    requires s.lock.None? && t !in s.threads && r.RunOf? && Coherent(b)
    ensures ExecFrom(s, Open(t, r, b, now, rest))
            == ExecFrom(Put(s, Some(t), t, r, Scraped(b)), SavePart(t, now, rest))
  {
    var more := SavePart(t, now, rest);
    ExecOne(s, Start(t, r.(pc := Waiting)), [Step(t, Acquire)] + ([Step(t, Scrape(b))] + more));
    StorageGo(s, None, t, r, Waiting, Acquire, Some(t), Locked, None, [Step(t, Scrape(b))] + more);
    StorageGo(s, Some(t), t, r, Locked, Scrape(b), Some(t), Scraped(b), None, more);
  }

  lemma SaveGo(s: State, t: Tid, r: Thread, b: Batch, now: Time, rest: seq<Action>)
    requires r.RunOf?
    ensures var unseen := NewJobs(s.rows, t.owner, b.filtered);
            ExecFrom(Put(s, Some(t), t, r, Scraped(b)), SavePart(t, now, rest))
            == ExecFrom(Put(Commit(s, Saved(t.owner, unseen, now)), Some(t), t, r, Stored(b, unseen)), rest)
  {
    var unseen := NewJobs(s.rows, t.owner, b.filtered);
    StorageGo(s, Some(t), t, r, Scraped(b), GetNew, Some(t), Compared(b, unseen), None, [Step(t, SaveNew(now))] + rest);
    StorageGo(s, Some(t), t, r, Compared(b, unseen), SaveNew(now), Some(t), Stored(b, unseen),
              Some(Saved(t.owner, unseen, now)), rest);
  }

  /** The commit of a reconcile planned and committed without interference. */
  function SettledBy(rows: Table, u: User, r: Thread, b: Batch, now: Time): Effect
    requires r.RunOf?
  {
    var remove := RemoveKeys(rows, u, r.configured, b.succeeded, Keys(b.raw));
    Settled(u, remove, ReactivateKeys(rows, u, remove, Keys(b.raw)), now)
  }

  lemma ReconcileGo(s: State, t: Tid, r: Thread, b: Batch, unseen: seq<Job>, now: Time, rest: seq<Action>)
    requires r.RunOf?
    ensures ExecFrom(Put(s, Some(t), t, r, Refreshed(b, unseen)),
                     [Step(t, PlanReconcile)] + ([Step(t, CommitReconcile(now))] + rest))
            == ExecFrom(Put(Commit(s, SettledBy(s.rows, t.owner, r, b, now)), Some(t), t, r, Reconciled(b, unseen)),
                        rest)
  {
    var remove := RemoveKeys(s.rows, t.owner, r.configured, b.succeeded, Keys(b.raw));
    StorageGo(s, Some(t), t, r, Refreshed(b, unseen), PlanReconcile, Some(t), Planned(b, unseen, remove),
              None, [Step(t, CommitReconcile(now))] + rest);
    StorageGo(s, Some(t), t, r, Planned(b, unseen, remove), CommitReconcile(now), Some(t), Reconciled(b, unseen),
              Some(SettledBy(s.rows, t.owner, r, b, now)), rest);
  }

  lemma CloseGo(s: State, t: Tid, r: Thread, b: Batch, unseen: seq<Job>, now: Time, check: Option<set<RowId>>,
                rest: seq<Action>)
    requires r.RunOf?
    ensures var healed := Commit(s, Healed(t.owner, b.raw));
            ExecFrom(Put(s, Some(t), t, r, Stored(b, unseen)), Close(t, now, check, rest))
            == ExecFrom(Put(Commit(healed, SettledBy(healed.rows, t.owner, r, b, now)), Some(t), t, r,
                            Reconciled(b, unseen)),
                        LeavePart(t, now, check, rest))
  {
    var healed, more := Commit(s, Healed(t.owner, b.raw)), LeavePart(t, now, check, rest);
    StorageGo(s, Some(t), t, r, Stored(b, unseen), RefreshUrls, Some(t), Refreshed(b, unseen),
              Some(Healed(t.owner, b.raw)), [Step(t, PlanReconcile)] + ([Step(t, CommitReconcile(now))] + more));
    ReconcileGo(healed, t, r, b, unseen, now, more);
  }

  lemma CheckGo(s: State, t: Tid, r: Thread, b: Batch, unseen: seq<Job>, now: Time, gone: set<RowId>,
                rest: seq<Action>)
    requires r.RunOf? && Answered(s.rows, t.owner, Some(gone))
    ensures ExecFrom(Put(s, Some(t), t, r, Reconciled(b, unseen)),
                     [Step(t, ReadUrls)] + ([Step(t, CommitUrls(gone, now))] + rest))
            == ExecFrom(Put(Commit(s, Checked(gone, now)), Some(t), t, r, Probed(b, unseen)), rest)
  {
    var probed := KeysWhere(s.rows, t.owner, (x: Row) => x.Active());
    assert gone <= Ids(t.owner, probed);
    StorageGo(s, Some(t), t, r, Reconciled(b, unseen), ReadUrls, Some(t), Probing(b, unseen, probed), None,
              [Step(t, CommitUrls(gone, now))] + rest);
    StorageGo(s, Some(t), t, r, Probing(b, unseen, probed), CommitUrls(gone, now), Some(t), Probed(b, unseen),
              Some(Checked(gone, now)), rest);
  }

  lemma LeaveGo(s: State, t: Tid, r: Thread, b: Batch, unseen: seq<Job>, now: Time, check: Option<set<RowId>>,
                rest: seq<Action>)
    requires r.RunOf? && Answered(s.rows, t.owner, check)
    ensures ExecFrom(Put(s, Some(t), t, r, Reconciled(b, unseen)), LeavePart(t, now, check, rest))
            == ExecFrom(Put(CheckedBy(s, check, now), None, t, r,
                            Composing(if r.resend then Keys(b.filtered) else Keys(unseen))), rest)
  {
    if check.None? {
      StorageGo(s, Some(t), t, r, Reconciled(b, unseen), SkipUrls, Some(t), Probed(b, unseen), None,
                [Step(t, Release)] + rest);
    } else {
      CheckGo(s, t, r, b, unseen, now, check.value, [Step(t, Release)] + rest);
    }
    StorageGo(CheckedBy(s, check, now), Some(t), t, r, Probed(b, unseen), Release, None,
              Composing(if r.resend then Keys(b.filtered) else Keys(unseen)), None, rest);
  }

  /** State after the reconcile of a run that nobody disturbs. */
  function AfterReconcile(s: State, u: User, r: Thread, b: Batch, now: Time): State
    requires r.RunOf?
  {
    var healed := Commit(Commit(s, Saved(u, NewJobs(s.rows, u, b.filtered), now)), Healed(u, b.raw));
    Commit(healed, SettledBy(healed.rows, u, r, b, now))
  }

  /** State after the whole locked part. */
  function AfterStorage(s: State, t: Tid, r: Thread, b: Batch, now: Time, check: Option<set<RowId>>): State
    requires r.RunOf?
  {
    Put(CheckedBy(AfterReconcile(s, t.owner, r, b, now), check, now), None, t, r,
        Composing(if r.resend then Keys(b.filtered) else Keys(NewJobs(s.rows, t.owner, b.filtered))))
  }

  lemma StorageScript(s: State, t: Tid, r: Thread, b: Batch, now: Time, check: Option<set<RowId>>, rest: seq<Action>)
    requires s.lock.None? && t !in s.threads && r.RunOf? && Coherent(b)
    requires Answered(StorageRows(s.rows, t.owner, r, b, now), t.owner, check)
    ensures ExecFrom(s, Open(t, r, b, now, Close(t, now, check, rest)))
            == ExecFrom(AfterStorage(s, t, r, b, now, check), rest)
  {
    var unseen := NewJobs(s.rows, t.owner, b.filtered);
    var saved := Commit(s, Saved(t.owner, unseen, now));
    var more := Close(t, now, check, rest);
    OpenGo(s, t, r, b, now, more);
    SaveGo(s, t, r, b, now, more);
    CloseGo(saved, t, r, b, unseen, now, check, rest);
    AfterReconcileRows(s, t.owner, r, b, now);
    LeaveGo(AfterReconcile(s, t.owner, r, b, now), t, r, b, unseen, now, check, rest);
  }

  /** The table after `run_once`, with the URL check's removals. */
  function CheckedRows(rows: Table, check: Option<set<RowId>>, now: Time): Table {
    if check.None? then rows else SetRemoved(rows, check.value, now)
  }

  lemma StorageRowsOfScrape(rows: Table, u: User, r: Thread, filtered: seq<Job>, raw: seq<Job>,
                            succeeded: set<SourceId>, now: Time)
    requires r.RunOf?
    ensures StorageRows(rows, u, r, Batch(Dedupe(raw), Dedupe(filtered), succeeded), now)
         == StoreScrape(rows, u, filtered, raw, r.configured, succeeded, now)
  {
  }

  /** The locked steps of an undisturbed run compute the storage phase of the tables and
      the URL check, so everything proved of `StoreScrape` holds of the protocol. */
  lemma StorageIsStore(s: State, t: Tid, r: Thread, filtered: seq<Job>, raw: seq<Job>, succeeded: set<SourceId>,
                       now: Time, check: Option<set<RowId>>)
    requires s.lock.None? && t !in s.threads && r.RunOf?
    requires forall j :: j in filtered ==> j in raw
    requires Answered(StoreScrape(s.rows, t.owner, filtered, raw, r.configured, succeeded, now), t.owner, check)
    ensures var b := Batch(Dedupe(raw), Dedupe(filtered), succeeded);
            var s' := ExecFrom(s, Open(t, r, b, now, Close(t, now, check, [])));
            && s'.rows == CheckedRows(StoreScrape(s.rows, t.owner, filtered, raw, r.configured, succeeded, now), check,
                                      now)
            && s'.lock.None?
  {
    var b := Batch(Dedupe(raw), Dedupe(filtered), succeeded);
    CoherentScrape(filtered, raw, succeeded);
    StorageRowsOfScrape(s.rows, t.owner, r, filtered, raw, succeeded, now);
    StoragePart(s, t, r, b, now, check);
  }

  lemma CoherentScrape(filtered: seq<Job>, raw: seq<Job>, succeeded: set<SourceId>)
    requires forall j :: j in filtered ==> j in raw
    ensures Coherent(Batch(Dedupe(raw), Dedupe(filtered), succeeded))
  {
    DedupeKeys(raw);
    DedupeKeys(filtered);
    FilteredKeys(filtered, raw);
  }

  lemma StoragePart(s: State, t: Tid, r: Thread, b: Batch, now: Time, check: Option<set<RowId>>)
    requires s.lock.None? && t !in s.threads && r.RunOf? && Coherent(b)
    requires Answered(StorageRows(s.rows, t.owner, r, b, now), t.owner, check)
    ensures var s' := ExecFrom(s, Open(t, r, b, now, Close(t, now, check, [])));
            s'.rows == CheckedRows(StorageRows(s.rows, t.owner, r, b, now), check, now) && s'.lock.None?
  {
    StorageScript(s, t, r, b, now, check, []);
    AfterStorageRows(s, t, r, b, now, check);
    AfterStorageComposed(s, t, r, b, now, check);
    ExecNothing(AfterStorage(s, t, r, b, now, check));
  }

  lemma ExecNothing(s: State)
    ensures ExecFrom(s, []) == s
  {
  }

  /** A whole run up to sending, nobody else acting. */
  function ToReady(t: Tid, r: Thread, b: Batch, now: Time, check: Option<set<RowId>>, listed: set<Key>,
                   rest: seq<Action>): seq<Action>
    requires r.RunOf?
  {
    Open(t, r, b, now, Close(t, now, check, Compose(t, listed, rest)))
  }

  /** What the outside answers such a run. None of the new postings has an empty location,
      on which storing would fail and end the run. */
  ghost predicate Answers(s: State, t: Tid, r: Thread, b: Batch, now: Time, check: Option<set<RowId>>, listed: set<Key>)
    requires r.RunOf?
  {
    && Coherent(b) && Answered(StorageRows(s.rows, t.owner, r, b, now), t.owner, check)
    && (forall j :: j in b.filtered && RowId(t.owner, j.key) !in s.rows ==> j.location != Some(""))
    && DuplicateListing(listed, AfterStorage(s, t, r, b, now, check).rows, t.owner)
  }

  function ReadyKeys(s: State, t: Tid, r: Thread, b: Batch, now: Time, check: Option<set<RowId>>,
                     listed: set<Key>): set<Key>
    requires r.RunOf?
  {
    var after := AfterStorage(s, t, r, b, now, check);
    DigestKeys(after.rows, t.owner, after.threads[t], listed)
  }

  /** Composing in a state in which a run has just given the lock back. */
  lemma ComposeFrom(after: State, t: Tid, r: Thread, listed: set<Key>, rest: seq<Action>)
    requires r.RunOf? && Composed(after, t, r) && DuplicateListing(listed, after.rows, t.owner)
    ensures ExecFrom(after, Compose(t, listed, rest))
            == ExecFrom(Put(after, None, t, r, Ready(DigestKeys(after.rows, t.owner, after.threads[t], listed))), rest)
  {
    var r' := after.threads[t];
    ComposeGo(after, None, t, r', listed, rest);
    assert Put(after, None, t, r', r'.pc) == after;
    var keys := DigestKeys(after.rows, t.owner, r', listed);
    assert Put(after, None, t, r', Ready(keys)) == Put(after, None, t, r, Ready(keys));
  }

  predicate Composed(s: State, t: Tid, r: Thread)
    requires r.RunOf?
  {
    s.lock.None? && t in s.threads && s.threads[t].RunOf? && s.threads[t].pc.Composing?
    && s.threads[t] == r.(pc := s.threads[t].pc)
  }

  lemma AfterStorageComposed(s: State, t: Tid, r: Thread, b: Batch, now: Time, check: Option<set<RowId>>)
    requires r.RunOf?
    ensures Composed(AfterStorage(s, t, r, b, now, check), t, r)
  {
  }

  lemma ToReadyGo(s: State, t: Tid, r: Thread, b: Batch, now: Time, check: Option<set<RowId>>, listed: set<Key>,
                  rest: seq<Action>)
    requires s.lock.None? && t !in s.threads && r.RunOf? && Answers(s, t, r, b, now, check, listed)
    ensures ExecFrom(s, ToReady(t, r, b, now, check, listed, rest))
            == ExecFrom(Put(AfterStorage(s, t, r, b, now, check), None, t, r,
                            Ready(ReadyKeys(s, t, r, b, now, check, listed))), rest)
  {
    StorageScript(s, t, r, b, now, check, Compose(t, listed, rest));
    AfterStorageComposed(s, t, r, b, now, check);
    ComposeFrom(AfterStorage(s, t, r, b, now, check), t, r, listed, rest);
  }

  // ---- a posting that is not stored ------------------------------------------------

  function StorageRows(rows: Table, u: User, r: Thread, b: Batch, now: Time): Table
    requires r.RunOf?
  {
    Reconcile(Heal(Insert(rows, u, NewJobs(rows, u, b.filtered), now), u, b.raw), u, r.configured, b.succeeded,
              Keys(b.raw), now)
  }

  lemma AfterReconcileRows(s: State, u: User, r: Thread, b: Batch, now: Time)
    requires r.RunOf?
    ensures AfterReconcile(s, u, r, b, now).rows == StorageRows(s.rows, u, r, b, now)
  {
  }

  lemma CheckedByFrame(s: State, check: Option<set<RowId>>, now: Time)
    ensures CheckedBy(s, check, now).rows == CheckedRows(s.rows, check, now)
    ensures CheckedBy(s, check, now).log == s.log + (if check.None? then [] else [Checked(check.value, now)])
  {
  }

  lemma AfterStorageFrame(s: State, t: Tid, r: Thread, b: Batch, now: Time, check: Option<set<RowId>>)
    requires r.RunOf?
    ensures var before, after := CheckedBy(AfterReconcile(s, t.owner, r, b, now), check, now),
            AfterStorage(s, t, r, b, now, check);
            after.rows == before.rows && after.log == before.log
  {
  }

  lemma AfterStorageRows(s: State, t: Tid, r: Thread, b: Batch, now: Time, check: Option<set<RowId>>)
    requires r.RunOf?
    ensures AfterStorage(s, t, r, b, now, check).rows
            == CheckedRows(StorageRows(s.rows, t.owner, r, b, now), check, now)
  {
    AfterReconcileRows(s, t.owner, r, b, now);
    CheckedByFrame(AfterReconcile(s, t.owner, r, b, now), check, now);
    AfterStorageFrame(s, t, r, b, now, check);
  }

  /** The commits of the locked part. */
  function StorageLog(rows: Table, u: User, r: Thread, b: Batch, now: Time, check: Option<set<RowId>>): seq<Effect>
    requires r.RunOf?
  {
    var unseen := NewJobs(rows, u, b.filtered);
    [Saved(u, unseen, now)] + [Healed(u, b.raw)]
      + [SettledBy(Heal(Insert(rows, u, unseen, now), u, b.raw), u, r, b, now)]
    + (if check.None? then [] else [Checked(check.value, now)])
  }

  lemma AfterReconcileLog(s: State, u: User, r: Thread, b: Batch, now: Time)
    requires r.RunOf?
    ensures var unseen := NewJobs(s.rows, u, b.filtered);
            AfterReconcile(s, u, r, b, now).log
            == s.log + [Saved(u, unseen, now)] + [Healed(u, b.raw)]
               + [SettledBy(Heal(Insert(s.rows, u, unseen, now), u, b.raw), u, r, b, now)]
  {
  }

  lemma Regroup(log: seq<Effect>, a: Effect, b: Effect, c: Effect, d: seq<Effect>)
    ensures log + [a] + [b] + [c] + d == log + ([a] + [b] + [c] + d)
  {
  }

  lemma AfterStorageLog(s: State, t: Tid, r: Thread, b: Batch, now: Time, check: Option<set<RowId>>)
    requires r.RunOf?
    ensures AfterStorage(s, t, r, b, now, check).log == s.log + StorageLog(s.rows, t.owner, r, b, now, check)
  {
    var unseen := NewJobs(s.rows, t.owner, b.filtered);
    AfterReconcileLog(s, t.owner, r, b, now);
    CheckedByFrame(AfterReconcile(s, t.owner, r, b, now), check, now);
    AfterStorageFrame(s, t, r, b, now, check);
    Regroup(s.log, Saved(t.owner, unseen, now), Healed(t.owner, b.raw),
            SettledBy(Heal(Insert(s.rows, t.owner, unseen, now), t.owner, b.raw), t.owner, r, b, now),
            if check.None? then [] else [Checked(check.value, now)]);
  }

  /** What storing, healing and reconciling leave of a posting that was not stored. */
  lemma NewRowStored(rows: Table, u: User, r: Thread, b: Batch, k: Key, now: Time)
    requires r.RunOf? && Coherent(b) && k in Keys(b.filtered) && RowId(u, k) !in rows
    ensures var id, after := RowId(u, k), StorageRows(rows, u, r, b, now);
            && id in after && after[id].Unmailed() && !after[id].isDuplicate && after[id].status.None?
  {
    var id := RowId(u, k);
    NewJobsKeys(rows, u, b.filtered);
    var saved := Insert(rows, u, NewJobs(rows, u, b.filtered), now);
    assert id in saved && saved[id] == FreshRow(saved[id].job, now);
    ReconcileClosedForm(Heal(saved, u, b.raw), u, r.configured, b.succeeded, Keys(b.raw), now);
  }

  lemma CheckedKeeps(rows: Table, check: Option<set<RowId>>, now: Time, id: RowId)
    requires id in rows
    ensures var after := CheckedRows(rows, check, now);
            id in after && after[id].isDuplicate == rows[id].isDuplicate && after[id].status == rows[id].status
  {
  }

  lemma AfterStorageKeys(s: State, t: Tid, r: Thread, b: Batch, now: Time, check: Option<set<RowId>>)
    requires r.RunOf? && Composed(AfterStorage(s, t, r, b, now, check), t, r)
    ensures AfterStorage(s, t, r, b, now, check).threads[t].pc.keys
         == if r.resend then Keys(b.filtered) else Keys(NewJobs(s.rows, t.owner, b.filtered))
  {
  }

  /** Even when its URL is found gone at once, it is in the digest. */
  lemma NewRowReady(s: State, t: Tid, r: Thread, b: Batch, k: Key, now: Time, check: Option<set<RowId>>,
                    listed: set<Key>)
    requires r.RunOf? && Answers(s, t, r, b, now, check, listed)
    requires k in Keys(b.filtered) && RowId(t.owner, k) !in s.rows
    ensures RowId(t.owner, k) in AfterStorage(s, t, r, b, now, check).rows
    ensures k in ReadyKeys(s, t, r, b, now, check, listed)
  {
    NewJobsKeys(s.rows, t.owner, b.filtered);
    AfterStorageComposed(s, t, r, b, now, check);
    AfterStorageKeys(s, t, r, b, now, check);
    NewRowUnflagged(s, t, r, b, k, now, check);
    FreshIsReady(AfterStorage(s, t, r, b, now, check), t, r, listed, k);
  }

  lemma NewRowUnflagged(s: State, t: Tid, r: Thread, b: Batch, k: Key, now: Time, check: Option<set<RowId>>)
    requires r.RunOf? && Coherent(b) && k in Keys(b.filtered) && RowId(t.owner, k) !in s.rows
    ensures var id, rows := RowId(t.owner, k), AfterStorage(s, t, r, b, now, check).rows;
            id in rows && !rows[id].isDuplicate && rows[id].status.None?
  {
    NewRowStored(s.rows, t.owner, r, b, k, now);
    AfterStorageRows(s, t, r, b, now, check);
    CheckedKeeps(StorageRows(s.rows, t.owner, r, b, now), check, now, RowId(t.owner, k));
  }

  /** A held posting with an unflagged row without status stays in the digest. */
  lemma FreshIsReady(after: State, t: Tid, r: Thread, listed: set<Key>, k: Key)
    requires r.RunOf? && Composed(after, t, r) && DuplicateListing(listed, after.rows, t.owner)
    requires k in after.threads[t].pc.keys
    requires var id := RowId(t.owner, k); id in after.rows && !after.rows[id].isDuplicate && after.rows[id].status.None?
    ensures k in DigestKeys(after.rows, t.owner, after.threads[t], listed)
  {
  }

  lemma SendGo(s: State, t: Tid, r: Thread, keys: set<Key>)
    requires r.RunOf?
    ensures ExecFrom(Put(s, None, t, r, Ready(keys)), [Step(t, Send)]).log
            == s.log + [Mailed(t.owner, keys, PresentKeys(s.rows, t.owner, keys))]
  {
    var e := Mailed(t.owner, keys, PresentKeys(s.rows, t.owner, keys));
    DigestGo(s, None, t, r, Ready(keys), Send, Delivered(keys), Some(e), []);
    assert [Step(t, Send)] + [] == [Step(t, Send)];
    ExecNothing(Put(Commit(s, e), None, t, r, Delivered(keys)));
  }

  lemma RenewedIffUnconfigured(rows: Table, u: User, r: Thread, b: Batch, k: Key, now: Time)
    requires r.RunOf? && Coherent(b) && k in Keys(b.filtered) && RowId(u, k) !in rows
    ensures var saved := Insert(rows, u, NewJobs(rows, u, b.filtered), now);
            && RowId(u, k) in saved
            && (Renews(SettledBy(Heal(saved, u, b.raw), u, r, b, now), u, k)
                <==> Unconfigured(saved[RowId(u, k)], r.configured))
  {
    NewJobsKeys(rows, u, b.filtered);
  }

  ghost predicate RenewedIn(log: seq<Effect>, u: User, k: Key) {
    exists e :: e in log && Renews(e, u, k)
  }

  lemma OnlyTheThirdRenews(a: Effect, b: Effect, c: Effect, d: seq<Effect>, u: User, k: Key)
    requires !Renews(a, u, k) && !Renews(b, u, k) && forall e :: e in d ==> !Renews(e, u, k)
    ensures RenewedIn([a] + [b] + [c] + d, u, k) <==> Renews(c, u, k)
  {
    assert c in [a] + [b] + [c] + d;
  }

  /** Of the locked part's commits only the reconcile can renew a posting. */
  lemma OnlyReconcileRenews(rows: Table, u: User, r: Thread, b: Batch, k: Key, now: Time, check: Option<set<RowId>>)
    requires r.RunOf?
    ensures var healed := Heal(Insert(rows, u, NewJobs(rows, u, b.filtered), now), u, b.raw);
            RenewedIn(StorageLog(rows, u, r, b, now, check), u, k) <==> Renews(SettledBy(healed, u, r, b, now), u, k)
  {
    var unseen := NewJobs(rows, u, b.filtered);
    var e := SettledBy(Heal(Insert(rows, u, unseen, now), u, b.raw), u, r, b, now);
    OnlyTheThirdRenews(Saved(u, unseen, now), Healed(u, b.raw), e,
                       if check.None? then [] else [Checked(check.value, now)], u, k);
  }

  /** The other half of `MailOnce.MailedOncePerRenewal`: in every state where a posting
      is not stored, as after a clear that beat its digest, the next undisturbed run that
      finds it mails it again, whatever the URL check finds, while its row is stored;
      and its own commits before that renew the posting exactly when the source that found
      it is not configured. */
  lemma AbsentIsMailedAgain(s: State, t: Tid, r: Thread, b: Batch, k: Key, now: Time, check: Option<set<RowId>>,
                            listed: set<Key>)
    requires s.lock.None? && t !in s.threads && r.RunOf? && Answers(s, t, r, b, now, check, listed)
    requires k in Keys(b.filtered) && RowId(t.owner, k) !in s.rows
    ensures var u, keys := t.owner, ReadyKeys(s, t, r, b, now, check, listed);
            var rows := AfterStorage(s, t, r, b, now, check).rows;
            var storage, saved := StorageLog(s.rows, u, r, b, now, check),
              Insert(s.rows, u, NewJobs(s.rows, u, b.filtered), now);
            && ExecFrom(s, ToReady(t, r, b, now, check, listed, [Step(t, Send)])).log
               == s.log + storage + [Mailed(u, keys, PresentKeys(rows, u, keys))]
            && k in keys && k in PresentKeys(rows, u, keys)
            && RowId(u, k) in saved
            && (RenewedIn(storage, u, k) <==> Unconfigured(saved[RowId(u, k)], r.configured))
  {
    ToReadyGo(s, t, r, b, now, check, listed, [Step(t, Send)]);
    SendGo(AfterStorage(s, t, r, b, now, check), t, r, ReadyKeys(s, t, r, b, now, check, listed));
    AfterStorageLog(s, t, r, b, now, check);
    NewRowReady(s, t, r, b, k, now, check, listed);
    OnlyReconcileRenews(s.rows, t.owner, r, b, k, now, check);
    RenewedIffUnconfigured(s.rows, t.owner, r, b, k, now);
  }
}
