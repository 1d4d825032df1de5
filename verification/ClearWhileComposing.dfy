/** Why `MailedOncePerRenewal` asks that the row is stored when its digest goes out:
    a clear that lands while the digest is being composed is not between the two
    digests that repeat the posting. */
module ClearWhileComposing {
  import opened Common
  import opened Jobs
  import opened JobTable
  import opened StatusHistory
  import opened Effects
  import opened Pipeline
  import opened MailOnce
  import opened Delivery

  const RUN := RunOf(false, {}, {}, Waiting)

  /** A posting that is stored without ado, from a source that was deleted since. */
  predicate Plain(j: Job) {
    j.sourceId.None? && j.location != Some("")
  }

  function One(j: Job): Batch {
    Batch([j], [j], {})
  }

  /** The user clears the job cache after the first run stored `j` and before it sends;
      the next run finds `j` again. */
  function FirstRun(t: Tid, j: Job): seq<Action> {
    ToReady(t, RUN, One(j), 0, None, {}, [UserEdit(Cleared(t.owner))] + Deliver(t, 0, []))
  }

  function SecondRun(t: Tid, j: Job): seq<Action> {
    ToReady(t, RUN, One(j), 0, None, {}, [Step(t, Send)] + [])
  }

  predicate Empty(s: State) {
    s.rows == map[] && s.lock.None? && s.threads == map[]
  }

  /** The three commits of a run that stores only `j`. */
  function RunLog(u: User, j: Job): seq<Effect> {
    [Saved(u, [j], 0), Healed(u, [j]), Settled(u, {}, {}, 0)]
  }

  function Stored(u: User, j: Job): Table {
    map[RowId(u, j.key) := FreshRow(j, 0)]
  }

  lemma StoringOne(u: User, j: Job)
    requires j.sourceId.None?
    ensures NewJobs(map[], u, [j]) == [j] && Keys([j]) == {j.key}
    ensures Insert(map[], u, [j], 0) == Stored(u, j)
    ensures Heal(Stored(u, j), u, [j]) == Stored(u, j)
    ensures SettledBy(Stored(u, j), u, RUN, One(j), 0) == Settled(u, {}, {}, 0)
    ensures Settle(Stored(u, j), u, {}, {}, 0) == Stored(u, j)
  {
    assert [j][..0] == [];
    assert NewJobs(map[], u, [j]) == [j];
    assert j in [j] && Keys([j]) == {j.key};
    assert RemoveKeys(Stored(u, j), u, {}, {}, {j.key}) == {};
    assert ReactivateKeys(Stored(u, j), u, {}, {j.key}) == {};
  }

  lemma DigestOfOne(u: User, j: Job)
    ensures DuplicateListing({}, Stored(u, j), u)
    ensures DigestKeys(Stored(u, j), u, RUN.(pc := Composing({j.key})), {}) == {j.key}
    ensures PresentKeys(Stored(u, j), u, {j.key}) == {j.key}
    ensures Clear(Stored(u, j), u) == map[] && PresentKeys(map[], u, {j.key}) == {}
  {
    var rows := Stored(u, j);
    assert DuplicateKeys(rows, u) == {};
    assert UnmailedKeys(rows, u) == {j.key};
    assert ExcludedKeys(rows, u, {}) == {};
  }

  function AfterOne(s: State, t: Tid, j: Job): State {
    State(Stored(t.owner, j), s.hist, s.sources, None, map[t := RUN.(pc := Composing({j.key}))],
          s.log + RunLog(t.owner, j))
  }

  lemma AfterStorageOfOne(s: State, t: Tid, j: Job)
    requires Empty(s) && j.sourceId.None?
    ensures AfterStorage(s, t, RUN, One(j), 0, None) == AfterOne(s, t, j)
  {
    StoringOne(t.owner, j);
    assert s.log + [Saved(t.owner, [j], 0)] + [Healed(t.owner, [j])] + [Settled(t.owner, {}, {}, 0)]
        == s.log + RunLog(t.owner, j);
  }

  lemma ReadyGo(s: State, t: Tid, j: Job, rest: seq<Action>)
    requires Empty(s) && Plain(j)
    ensures ExecFrom(s, ToReady(t, RUN, One(j), 0, None, {}, rest))
            == ExecFrom(Put(AfterOne(s, t, j), None, t, RUN, Ready({j.key})), rest)
  {
    AfterStorageOfOne(s, t, j);
    DigestOfOne(t.owner, j);
    ToReadyGo(s, t, RUN, One(j), 0, None, {}, rest);
  }

  function Wiped(s: State, t: Tid, j: Job): State {
    AfterOne(s, t, j).(rows := map[], hist := Forget(s.hist, t.owner),
                       log := s.log + RunLog(t.owner, j) + [Cleared(t.owner)])
  }

  lemma ClearGo(s: State, t: Tid, j: Job, rest: seq<Action>)
    ensures ExecFrom(Put(AfterOne(s, t, j), None, t, RUN, Ready({j.key})), [UserEdit(Cleared(t.owner))] + rest)
            == ExecFrom(Put(Wiped(s, t, j), None, t, RUN, Ready({j.key})), rest)
  {
    var ready := Put(AfterOne(s, t, j), None, t, RUN, Ready({j.key}));
    DigestOfOne(t.owner, j);
    assert Next(ready, UserEdit(Cleared(t.owner))) == Put(Wiped(s, t, j), None, t, RUN, Ready({j.key}));
    ExecOne(ready, UserEdit(Cleared(t.owner)), rest);
  }

  /** Delivering after the clear finds no row to mark. */
  lemma DeliverWiped(s: State, t: Tid, j: Job)
    requires Empty(s)
    ensures var after := Wiped(s, t, j);
            var s' := AfterDelivery(after, t.owner, {j.key}, 0).(lock := None, threads := after.threads - {t});
            && Empty(s') && ExecFrom(s', []) == s'
            && s'.log == s.log + RunLog(t.owner, j) + [Cleared(t.owner)] + [Mailed(t.owner, {j.key}, {})]
                         + [Marked(t.owner, {j.key}, 0)]
  {
    DigestOfOne(t.owner, j);
    MarkNothing(t.owner, {j.key});
    assert Wiped(s, t, j).threads - {t} == map[];
  }

  lemma MarkNothing(u: User, keys: set<Key>)
    ensures MarkEmailed(map[], u, keys, 0) == map[]
  {
  }

  lemma FirstRunGo(s: State, t: Tid, j: Job)
    requires Empty(s) && Plain(j)
    ensures var s' := ExecFrom(s, FirstRun(t, j));
            && Empty(s')
            && s'.log == s.log + RunLog(t.owner, j) + [Cleared(t.owner)] + [Mailed(t.owner, {j.key}, {})]
                         + [Marked(t.owner, {j.key}, 0)]
  {
    ReadyGo(s, t, j, [UserEdit(Cleared(t.owner))] + Deliver(t, 0, []));
    ClearGo(s, t, j, Deliver(t, 0, []));
    DeliverGo(Wiped(s, t, j), None, t, RUN, {j.key}, 0, []);
    DeliverWiped(s, t, j);
  }

  lemma SecondRunGo(s: State, t: Tid, j: Job)
    requires Empty(s) && Plain(j)
    ensures ExecFrom(s, SecondRun(t, j)).log == s.log + RunLog(t.owner, j) + [Mailed(t.owner, {j.key}, {j.key})]
  {
    var after, e := AfterOne(s, t, j), Mailed(t.owner, {j.key}, {j.key});
    ReadyGo(s, t, j, [Step(t, Send)] + []);
    DigestOfOne(t.owner, j);
    DigestGo(after, None, t, RUN, Ready({j.key}), Send, Delivered({j.key}), Some(e), []);
    var s' := Put(Commit(after, e), None, t, RUN, Delivered({j.key}));
    assert ExecFrom(s', []) == s';
  }

  /** Steps other than starting or crashing a run need no assumption. */
  predicate Calm(acts: seq<Action>) {
    forall a :: a in acts ==> !a.Start? && !a.Crash?
  }

  lemma {:induction false} OrderlyThenCalm(acts: seq<Action>, more: seq<Action>, u: User)
    requires OrderlyRuns(acts, u) && Calm(more)
    ensures OrderlyRuns(acts + more, u)
  {
    if more == [] {
      assert acts + more == acts;
    } else {
      var n := |more| - 1;
      assert (acts + more)[..|acts + more| - 1] == acts + more[..n];
      OrderlyThenCalm(acts, more[..n], u);
      assert more[n] in more;
    }
  }

  lemma OrderlySnoc(acts: seq<Action>, a: Action, u: User)
    requires OrderlyRuns(acts, u) && Orderly(Exec(acts), a, u)
    ensures OrderlyRuns(acts + [a], u)
  {
    assert (acts + [a])[..|acts|] == acts;
  }

  lemma StartOrderly(s: State, t: Tid)
    requires s.threads == map[]
    ensures Orderly(s, Start(t, RUN), t.owner)
  {
  }

  lemma Reassociate(acts: seq<Action>, a: Action, more: seq<Action>)
    ensures acts + ([a] + more) == acts + [a] + more
  {
  }

  lemma OrderlyThenRun(acts: seq<Action>, t: Tid, more: seq<Action>)
    requires OrderlyRuns(acts, t.owner) && Exec(acts).threads == map[] && Calm(more)
    ensures OrderlyRuns(acts + ([Start(t, RUN)] + more), t.owner)
  {
    Reassociate(acts, Start(t, RUN), more);
    StartOrderly(Exec(acts), t);
    OrderlySnoc(acts, Start(t, RUN), t.owner);
    OrderlyThenCalm(acts + [Start(t, RUN)], more, t.owner);
  }

  /** Everything a run does after it was started. */
  function Rest(t: Tid, b: Batch, rest: seq<Action>): seq<Action> {
    [Step(t, Acquire)] + ([Step(t, Scrape(b))] + SavePart(t, 0, Close(t, 0, None, Compose(t, {}, rest))))
  }

  lemma RestCalm(t: Tid, b: Batch, rest: seq<Action>)
    requires Calm(rest)
    ensures Calm(Rest(t, b, rest))
    ensures ToReady(t, RUN, b, 0, None, {}, rest) == [Start(t, RUN)] + Rest(t, b, rest)
  {
    assert Calm(Compose(t, {}, rest));
    assert Calm(LeavePart(t, 0, None, Compose(t, {}, rest)));
    assert Calm(Close(t, 0, None, Compose(t, {}, rest)));
    assert Calm(SavePart(t, 0, Close(t, 0, None, Compose(t, {}, rest))));
  }

  lemma RunOrderly(acts: seq<Action>, t: Tid, j: Job, rest: seq<Action>)
    requires OrderlyRuns(acts, t.owner) && Exec(acts).threads == map[] && Calm(rest)
    ensures OrderlyRuns(acts + ToReady(t, RUN, One(j), 0, None, {}, rest), t.owner)
  {
    RestCalm(t, One(j), rest);
    OrderlyThenRun(acts, t, Rest(t, One(j), rest));
  }

  lemma FirstOrderly(t: Tid, j: Job)
    requires Plain(j)
    ensures OrderlyRuns(FirstRun(t, j), t.owner) && Exec(FirstRun(t, j)).threads == map[]
  {
    FirstRunGo(INIT, t, j);
    RunOrderly([], t, j, [UserEdit(Cleared(t.owner))] + Deliver(t, 0, []));
    assert [] + FirstRun(t, j) == FirstRun(t, j);
  }

  lemma SecondOrderly(acts: seq<Action>, t: Tid, j: Job)
    requires OrderlyRuns(acts, t.owner) && Exec(acts).threads == map[]
    ensures OrderlyRuns(acts + SecondRun(t, j), t.owner)
  {
    RunOrderly(acts, t, j, [Step(t, Send)] + []);
  }

  lemma NoneRenews(u: User, j: Job)
    ensures forall e :: e in [Marked(u, {j.key}, 0)] + RunLog(u, j) ==> !Renews(e, u, j.key)
  {
  }

  lemma BothLogs(t: Tid, j: Job)
    requires Plain(j)
    ensures Exec(FirstRun(t, j) + SecondRun(t, j)).log
            == [] + RunLog(t.owner, j) + [Cleared(t.owner)] + [Mailed(t.owner, {j.key}, {})]
               + [Marked(t.owner, {j.key}, 0)] + RunLog(t.owner, j) + [Mailed(t.owner, {j.key}, {j.key})]
  {
    FirstRunGo(INIT, t, j);
    ExecConcat(INIT, FirstRun(t, j), SecondRun(t, j));
    SecondRunGo(Exec(FirstRun(t, j)), t, j);
  }

  /** Runs of one user that do not overlap, re-sending off, no crash: the same posting
      goes out in two digests with neither a clear nor a reactivation in between. */
  lemma ClearBeforeSendMailsTwice(t: Tid, j: Job)
    requires Plain(j)
    ensures var acts := FirstRun(t, j) + SecondRun(t, j);
            && OrderlyRuns(acts, t.owner)
            && Exec(acts).log == RunLog(t.owner, j) + [Cleared(t.owner)] + [Mailed(t.owner, {j.key}, {})]
                                 + [Marked(t.owner, {j.key}, 0)] + RunLog(t.owner, j)
                                   + [Mailed(t.owner, {j.key}, {j.key})]
            && forall e :: e in [Marked(t.owner, {j.key}, 0)] + RunLog(t.owner, j) ==> !Renews(e, t.owner, j.key)
  {
    FirstOrderly(t, j);
    SecondOrderly(FirstRun(t, j), t, j);
    BothLogs(t, j);
    NoneRenews(t.owner, j);
    assert [] + RunLog(t.owner, j) == RunLog(t.owner, j);
  }
}
