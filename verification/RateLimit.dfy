/** The sliding-window rate limiter: pruned per-key queues against the full log of
    accepted calls. */
module RateLimit {
  import opened Common

  type Key = string

  datatype Limit = Limit(maxAttempts: int, window: real)

  predicate Sorted(log: seq<real>) {
    forall i, j :: 0 <= i < j < |log| ==> log[i] <= log[j]
  }

  predicate NoneAfter(log: seq<real>, clock: real) {
    forall i :: 0 <= i < |log| ==> log[i] <= clock
  }

  /** How many calls of the log fall in the closed interval. */
  function Within(log: seq<real>, lo: real, hi: real): nat {
    if log == [] then 0
    else
      var n := |log| - 1;
      Within(log[..n], lo, hi) + (if lo <= log[n] <= hi then 1 else 0)
  }

  lemma WithinSnoc(log: seq<real>, t: real, lo: real, hi: real)
    ensures Within(log + [t], lo, hi) == Within(log, lo, hi) + (if lo <= t <= hi then 1 else 0)
  {
    assert (log + [t])[..|log|] == log;
  }

  lemma {:induction false} WithinTail(log: seq<real>, lo: real, hi: real)
    requires log != []
    ensures Within(log, lo, hi) == (if lo <= log[0] <= hi then 1 else 0) + Within(log[1..], lo, hi)
  {
    var n := |log| - 1;
    if n > 0 {
      WithinTail(log[..n], lo, hi);
      assert log[..n][1..] == log[1..][..n - 1];
    }
  }

  lemma {:induction false} AllWithin(log: seq<real>, lo: real, hi: real)
    requires forall i :: 0 <= i < |log| ==> lo <= log[i] <= hi
    ensures Within(log, lo, hi) == |log|
  {
    if log != [] {
      AllWithin(log[..|log| - 1], lo, hi);
    }
  }

  /** What remains after popping entries older than `cutoff` from the front. */
  function Prune(q: seq<real>, cutoff: real): seq<real> {
    if q != [] && q[0] < cutoff then Prune(q[1..], cutoff) else q
  }

  /** `while dq and dq[0] < cutoff: dq.popleft()`. */
  method PopOld(q: seq<real>, cutoff: real) returns (r: seq<real>)
    ensures r == Prune(q, cutoff)
  {
    r := q;
    while r != [] && r[0] < cutoff
      invariant Prune(r, cutoff) == Prune(q, cutoff)
      decreases |r|
    {
      r := r[1..];
    }
  }

  // ---- one key ---------------------------------------------------------------------------

  /** What happened to a key: its accepted calls in lock order, the latest clock reading of
      any of its calls, and whether a call with an earlier reading than that was accepted. */
  datatype Past = Past(log: seq<real>, latest: Option<real>, late: bool)

  const NOTHING := Past([], None, false)

  predicate Behind(p: Past, now: real) {
    p.latest.Some? && now < p.latest.value
  }

  /** The latest reading once a call came with `now`. */
  function Latest(p: Past, now: real): real {
    if Behind(p, now) then p.latest.value else now
  }

  function After(p: Past, now: real, allowed: bool): Past {
    Past(if allowed then p.log + [now] else p.log, Some(Latest(p, now)), p.late || (allowed && Behind(p, now)))
  }

  /** The queue and the log agree on every window that starts at `lo` or later. */
  ghost predicate Agree(q: seq<real>, log: seq<real>, from: real) {
    forall lo, hi :: from <= lo ==> Within(q, lo, hi) == Within(log, lo, hi)
  }

  /** In time order, and none older than `lo`. */
  predicate InWindow(q: seq<real>, lo: real) {
    Sorted(q) && forall i :: 0 <= i < |q| ==> lo <= q[i]
  }

  /** From the latest window on, the queue holds what the log holds; and as long as no call
      behind the latest reading was accepted, it holds nothing else and is in time order. */
  ghost predicate FollowsAt(q: seq<real>, log: seq<real>, late: bool, window: real, latest: real) {
    && NoneAfter(q, latest) && NoneAfter(log, latest) && Agree(q, log, latest - window)
    && (!late ==> InWindow(q, latest - window))
  }

  ghost predicate Follows(q: seq<real>, p: Past, window: real) {
    match p.latest
    case None => q == [] && p.log == []
    case Some(latest) => FollowsAt(q, p.log, p.late, window, latest)
  }

  lemma {:induction false} PruneFrame(q: seq<real>, cutoff: real, lo: real, hi: real)
    requires cutoff <= lo
    ensures Within(Prune(q, cutoff), lo, hi) == Within(q, lo, hi)
  {
    if q != [] && q[0] < cutoff {
      PruneFrame(q[1..], cutoff, lo, hi);
      WithinTail(q, lo, hi);
    }
  }

  lemma {:induction false} PruneKeeps(q: seq<real>, cutoff: real, hi: real)
    ensures NoneAfter(q, hi) ==> NoneAfter(Prune(q, cutoff), hi)
    ensures Sorted(q) ==> InWindow(Prune(q, cutoff), cutoff)
  {
    if q != [] && q[0] < cutoff {
      PruneKeeps(q[1..], cutoff, hi);
    }
  }

  lemma PruneAgrees(q: seq<real>, log: seq<real>, from: real, cutoff: real, from': real)
    requires Agree(q, log, from) && from <= from' && cutoff <= from'
    ensures Agree(Prune(q, cutoff), log, from')
  {
    forall lo, hi | from' <= lo ensures Within(Prune(q, cutoff), lo, hi) == Within(log, lo, hi) {
      PruneFrame(q, cutoff, lo, hi);
    }
  }

  lemma SnocAgrees(q: seq<real>, log: seq<real>, from: real, now: real)
    requires Agree(q, log, from)
    ensures Agree(q + [now], log + [now], from)
  {
    forall lo, hi | from <= lo ensures Within(q + [now], lo, hi) == Within(log + [now], lo, hi) {
      WithinSnoc(q, now, lo, hi);
      WithinSnoc(log, now, lo, hi);
    }
  }

  /** How many calls of the log are older than `lo`. */
  function Older(log: seq<real>, lo: real): nat {
    if log == [] then 0 else Older(log[..|log| - 1], lo) + if log[|log| - 1] < lo then 1 else 0
  }

  lemma {:induction false} WithinOrOlder(log: seq<real>, lo: real, hi: real)
    requires NoneAfter(log, hi)
    ensures Within(log, lo, hi) + Older(log, lo) == |log|
  {
    if log != [] {
      WithinOrOlder(log[..|log| - 1], lo, hi);
    }
  }

  /** Popping for any reading goes on following, from the latest window on. */
  lemma PopFollows(q: seq<real>, p: Past, window: real, now: real)
    requires Follows(q, p, window)
    ensures FollowsAt(Prune(q, now - window), p.log, p.late, window, Latest(p, now))
  {
    if p.latest.None? {
    } else {
      var latest := p.latest.value;
      PruneAgrees(q, p.log, latest - window, now - window, Latest(p, now) - window);
      PruneKeeps(q, now - window, Latest(p, now));
      if Behind(p, now) && !p.late {
        InWindowStays(q, latest - window, now - window);
      }
    }
  }

  lemma InWindowStays(q: seq<real>, lo: real, cutoff: real)
    requires InWindow(q, lo) && cutoff <= lo
    ensures Prune(q, cutoff) == q
  {
  }

  /** Appending an accepted call goes on following. */
  lemma AppendFollows(r: seq<real>, p: Past, window: real, now: real)
    requires FollowsAt(r, p.log, p.late, window, Latest(p, now)) && window >= 0.0
    ensures Follows(r + [now], After(p, now, true), window)
  {
    SnocAgrees(r, p.log, Latest(p, now) - window, now);
  }

  /** What is left after popping, against the log: the accepted calls in the window that
      ends at the latest reading, and those older ones that are stuck behind a later one;
      there are none of these as long as no late call was accepted. */
  lemma LeftInQueue(r: seq<real>, p: Past, window: real, now: real)
    requires FollowsAt(r, p.log, p.late, window, Latest(p, now))
    ensures |r| == Held(p, window, now) + Older(r, Latest(p, now) - window)
    ensures !p.late ==> Older(r, Latest(p, now) - window) == 0
  {
    var lo, hi := Latest(p, now) - window, Latest(p, now);
    assert Within(r, lo, hi) == Within(p.log, lo, hi);
    WithinOrOlder(r, lo, hi);
    if !p.late {
      AllWithin(r, lo, hi);
    }
  }

  /** The accepted calls in the window that ends at the latest reading, this call's included. */
  function Held(p: Past, window: real, now: real): nat {
    Within(p.log, Latest(p, now) - window, Latest(p, now))
  }

  /** The queue after a call, and its answer. */
  function Called(q: seq<real>, limit: Limit, now: real): (seq<real>, bool) {
    var r := Prune(q, now - limit.window);
    if |r| < limit.maxAttempts then (r + [now], true) else (r, false)
  }

  lemma CalledFollows(q: seq<real>, p: Past, limit: Limit, now: real)
    requires Follows(q, p, limit.window) && limit.window >= 0.0
    ensures Follows(Called(q, limit, now).0, After(p, now, Called(q, limit, now).1), limit.window)
  {
    PopFollows(q, p, limit.window, now);
    if Called(q, limit, now).1 {
      AppendFollows(Prune(q, now - limit.window), p, limit.window, now);
    }
  }

  /** A call is allowed exactly when what the latest window holds and the stuck calls are
      fewer than `maxAttempts`. */
  lemma CalledCounts(q: seq<real>, p: Past, limit: Limit, now: real)
    requires Follows(q, p, limit.window)
    ensures var stuck := Older(Prune(q, now - limit.window), Latest(p, now) - limit.window);
            && (Called(q, limit, now).1 <==> Held(p, limit.window, now) + stuck < limit.maxAttempts)
            && (!p.late ==> stuck == 0)
  {
    PopFollows(q, p, limit.window, now);
    LeftInQueue(Prune(q, now - limit.window), p, limit.window, now);
  }

  /** A call with any reading at all is allowed only if fewer than `maxAttempts` accepted
      calls lie in the window that ends at the latest reading; and as long as no late call
      was accepted, exactly then. */
  lemma CalledByLatest(q: seq<real>, p: Past, limit: Limit, now: real)
    requires Follows(q, p, limit.window)
    ensures Called(q, limit, now).1 ==> Held(p, limit.window, now) < limit.maxAttempts
    ensures !p.late ==> (Called(q, limit, now).1 <==> Held(p, limit.window, now) < limit.maxAttempts)
  {
    CalledCounts(q, p, limit, now);
  }

  /** `check` for one key. */
  method Decide(q: seq<real>, limit: Limit, now: real) returns (r: seq<real>, allowed: bool)
    ensures (r, allowed) == Called(q, limit, now)
  {
    r := PopOld(q, now - limit.window);
    if |r| >= limit.maxAttempts {
      return r, false;
    }
    return r + [now], true;
  }

  // ---- all keys --------------------------------------------------------------------------

  /** What is known of a key: the limit it is used with, and its past. */
  datatype Account = Account(limit: Limit, past: Past)

  ghost predicate Kept(buckets: map<Key, seq<real>>, accounts: map<Key, Account>) {
    && buckets.Keys == accounts.Keys
    && forall k :: k in accounts ==> Follows(buckets[k], accounts[k].past, accounts[k].limit.window)
  }

  lemma KeptWith(buckets: map<Key, seq<real>>, accounts: map<Key, Account>, key: Key, q: seq<real>, a: Account)
    requires Kept(buckets, accounts) && Follows(q, a.past, a.limit.window)
    ensures Kept(buckets[key := q], accounts[key := a])
  {
  }

  function PastOf(accounts: map<Key, Account>, key: Key): Past {
    if key in accounts then accounts[key].past else NOTHING
  }

  /** The limiter. Ghost state: each key's limit and past. */
  class Limiter {
    var buckets: map<Key, seq<real>>
    ghost var accounts: map<Key, Account>

    ghost predicate Valid()
      reads this
    {
      Kept(buckets, accounts)
    }

    constructor ()
      ensures Valid() && accounts == map[]
    {
      buckets, accounts := map[], map[];
    }

    /** One call, taking its turn at the lock, with whatever it read from the clock before
        that. Limits are fixed per key. It is allowed only if the full log of the key holds
        fewer than `maxAttempts` accepted calls in the window that ends at the key's latest
        reading, and exactly then as long as the key has accepted no call that was behind
        its latest reading; so with readings in lock order, in the window that ends now. */
    method Check(key: Key, maxAttempts: int, window: real, now: real) returns (allowed: bool)
      requires Valid() && window >= 0.0
      requires key in accounts ==> accounts[key].limit == Limit(maxAttempts, window)
      modifies this
      ensures Valid()
      ensures var p := PastOf(old(accounts), key);
              && (allowed ==> Held(p, window, now) < maxAttempts)
              && (!p.late ==> (allowed <==> Held(p, window, now) < maxAttempts))
              && accounts == old(accounts)[key := Account(Limit(maxAttempts, window), After(p, now, allowed))]
    {
      var limit := Limit(maxAttempts, window);
      var q := if key in buckets then buckets[key] else [];
      ghost var p := PastOf(accounts, key);
      CalledFollows(q, p, limit, now);
      CalledByLatest(q, p, limit, now);
      q, allowed := Decide(q, limit, now);
      KeptWith(buckets, accounts, key, q, Account(limit, After(p, now, allowed)));
      buckets := buckets[key := q];
      accounts := accounts[key := Account(limit, After(p, now, allowed))];
    }
  }

  // ---- what the decisions add up to -------------------------------------------------

  /** The queue and the past of one key after any calls, in lock order, with any readings. */
  function Run(calls: seq<real>, limit: Limit): (seq<real>, Past) {
    if calls == [] then ([], NOTHING)
    else
      var (q, p) := Run(calls[..|calls| - 1], limit);
      var now := calls[|calls| - 1];
      var (r, allowed) := Called(q, limit, now);
      (r, After(p, now, allowed))
  }

  /** The accepted calls among `calls`. */
  function Accepted(calls: seq<real>, limit: Limit): seq<real> {
    Run(calls, limit).1.log
  }

  predicate Allows(calls: seq<real>, limit: Limit, now: real) {
    Called(Run(calls, limit).0, limit, now).1
  }

  lemma RunSnoc(calls: seq<real>, limit: Limit, now: real)
    ensures Run(calls + [now], limit)
         == (Called(Run(calls, limit).0, limit, now).0, After(Run(calls, limit).1, now, Allows(calls, limit, now)))
  {
    assert (calls + [now])[..|calls|] == calls;
  }

  lemma {:induction false} RunFollows(calls: seq<real>, limit: Limit)
    requires limit.window >= 0.0
    ensures Follows(Run(calls, limit).0, Run(calls, limit).1, limit.window)
  {
    if calls != [] {
      var front := Run(calls[..|calls| - 1], limit);
      RunFollows(calls[..|calls| - 1], limit);
      CalledFollows(front.0, front.1, limit, calls[|calls| - 1]);
    }
  }

  /** The call at `j` was accepted although the one at `i`, before it, read a later time. */
  predicate LateAt(calls: seq<real>, limit: Limit, i: nat, j: nat) {
    i < j < |calls| && calls[j] < calls[i] && Allows(calls[..j], limit, calls[j])
  }

  /** The latest of all readings, if there are any. */
  predicate LatestOf(calls: seq<real>, latest: Option<real>) {
    match latest
    case None => calls == []
    case Some(t) => t in calls && forall i :: 0 <= i < |calls| ==> calls[i] <= t
  }

  lemma BehindMeans(calls: seq<real>, p: Past, now: real)
    requires LatestOf(calls, p.latest)
    ensures Behind(p, now) <==> exists i :: 0 <= i < |calls| && now < calls[i]
    ensures LatestOf(calls + [now], Some(Latest(p, now)))
  {
    if Behind(p, now) {
      var i :| 0 <= i < |calls| && calls[i] == p.latest.value;
      assert now < calls[i];
    }
  }

  lemma LateSnoc(calls: seq<real>, limit: Limit, now: real)
    ensures var n := |calls|;
            (exists i, j :: LateAt(calls + [now], limit, i, j))
            <==> (exists i, j :: LateAt(calls, limit, i, j))
                 || (Allows(calls, limit, now) && exists i :: 0 <= i < n && now < calls[i])
  {
    var all, n := calls + [now], |calls|;
    forall i: nat, j: nat | j < n ensures LateAt(all, limit, i, j) <==> LateAt(calls, limit, i, j) {
      assert all[..j] == calls[..j];
    }
    assert all[..n] == calls;
    forall i: nat | i < n ensures LateAt(all, limit, i, n) <==> Allows(calls, limit, now) && now < calls[i] {
    }
  }

  /** What the past of a run is: the latest of all readings, and whether a call behind an
      earlier one was accepted. */
  lemma {:induction false} PastMeans(calls: seq<real>, limit: Limit)
    ensures var p := Run(calls, limit).1;
            LatestOf(calls, p.latest) && (p.late <==> exists i, j :: LateAt(calls, limit, i, j))
  {
    if calls != [] {
      var n := |calls| - 1;
      var front, now := calls[..n], calls[n];
      PastMeans(front, limit);
      assert calls == front + [now];
      RunSnoc(front, limit, now);
      BehindMeans(front, Run(front, limit).1, now);
      LateSnoc(front, limit, now);
    }
  }

  /** The log of a run is its accepted calls, one by one. */
  lemma AcceptedSnoc(calls: seq<real>, limit: Limit, now: real)
    ensures Accepted([], limit) == []
    ensures Accepted(calls + [now], limit)
         == Accepted(calls, limit) + if Allows(calls, limit, now) then [now] else []
  {
    RunSnoc(calls, limit, now);
  }

  /** An interval that starts later, over calls that all came by `hi`, holds no more. */
  lemma {:induction false} Narrower(log: seq<real>, lo: real, hi: real, lo': real, hi': real)
    requires lo <= lo' && NoneAfter(log, hi)
    ensures Within(log, lo', hi') <= Within(log, lo, hi)
  {
    if log != [] {
      Narrower(log[..|log| - 1], lo, hi, lo', hi');
    }
  }

  lemma MovedWindow(p: Past, window: real, now: real)
    requires p.latest.Some? && NoneAfter(p.log, p.latest.value)
    ensures Held(p, window, now) <= Within(p.log, p.latest.value - window, p.latest.value)
  {
    Narrower(p.log, p.latest.value - window, p.latest.value, Latest(p, now) - window, Latest(p, now));
  }

  /** The window that ends at the latest reading holds at most `maxAttempts`. */
  predicate Bounded(p: Past, limit: Limit) {
    p.latest.Some? ==> Within(p.log, p.latest.value - limit.window, p.latest.value) <= Most(limit)
  }

  function Most(limit: Limit): nat {
    if limit.maxAttempts > 0 then limit.maxAttempts else 0
  }

  lemma HeldBounded(q: seq<real>, p: Past, limit: Limit, now: real)
    requires Follows(q, p, limit.window) && Bounded(p, limit)
    ensures Held(p, limit.window, now) <= Most(limit)
  {
    if p.latest.Some? {
      MovedWindow(p, limit.window, now);
    }
  }

  lemma BoundedStep(q: seq<real>, p: Past, limit: Limit, now: real)
    requires Follows(q, p, limit.window) && Bounded(p, limit)
    ensures Bounded(After(p, now, Called(q, limit, now).1), limit)
  {
    HeldBounded(q, p, limit, now);
    CalledByLatest(q, p, limit, now);
    WithinSnoc(p.log, now, Latest(p, now) - limit.window, Latest(p, now));
  }

  /** After any calls with any readings, the window that ends at the latest reading holds
      at most `maxAttempts` accepted calls. */
  lemma {:induction false} LatestWindowBounded(calls: seq<real>, limit: Limit)
    requires limit.window >= 0.0
    ensures Bounded(Run(calls, limit).1, limit)
  {
    if calls != [] {
      var n := |calls| - 1;
      LatestWindowBounded(calls[..n], limit);
      RunFollows(calls[..n], limit);
      BoundedStep(Run(calls[..n], limit).0, Run(calls[..n], limit).1, limit, calls[n]);
    }
  }

  lemma UpToPrefix(calls: seq<real>, n: nat)
    requires Sorted(calls) && n < |calls|
    ensures Sorted(calls[..n]) && NoneAfter(calls[..n], calls[n])
  {
  }

  /** Readings in lock order: the latest is the last, and no accepted call was late. */
  lemma {:induction false} InOrderNotLate(calls: seq<real>, limit: Limit)
    requires Sorted(calls) && limit.window >= 0.0
    ensures var p := Run(calls, limit).1;
            !p.late && p.latest == if calls == [] then None else Some(calls[|calls| - 1])
  {
    if calls != [] {
      UpToPrefix(calls, |calls| - 1);
      InOrderNotLate(calls[..|calls| - 1], limit);
    }
  }

  lemma InOrderNotBehind(calls: seq<real>, limit: Limit, now: real)
    requires Sorted(calls + [now]) && limit.window >= 0.0
    ensures !Run(calls, limit).1.late && !Behind(Run(calls, limit).1, now)
  {
    UpToPrefix(calls + [now], |calls|);
    assert (calls + [now])[..|calls|] == calls;
    InOrderNotLate(calls, limit);
    if calls != [] {
      assert (calls + [now])[|calls| - 1] == calls[|calls| - 1];
    }
  }

  /** With readings in lock order each call is decided by the full log and the window that
      ends now. */
  lemma InOrderDecision(calls: seq<real>, limit: Limit, now: real)
    requires Sorted(calls + [now]) && limit.window >= 0.0
    ensures Allows(calls, limit, now) <==> Within(Accepted(calls, limit), now - limit.window, now) < limit.maxAttempts
  {
    InOrderNotBehind(calls, limit, now);
    DecidedByLatest(calls, limit, now);
  }

  lemma RunNoneAfter(calls: seq<real>, limit: Limit, now: real)
    requires limit.window >= 0.0 && !Behind(Run(calls, limit).1, now)
    ensures NoneAfter(Accepted(calls, limit), now)
  {
    RunFollows(calls, limit);
  }

  /** With readings in lock order every time interval of window length holds at most
      `maxAttempts` accepted calls. */
  lemma {:induction false} EveryWindowBounded(calls: seq<real>, limit: Limit, lo: real)
    requires Sorted(calls) && limit.window >= 0.0
    ensures Within(Accepted(calls, limit), lo, lo + limit.window) <= Most(limit)
  {
    if calls != [] {
      var n := |calls| - 1;
      var log, now := Accepted(calls[..n], limit), calls[n];
      assert calls == calls[..n] + [now];
      UpToPrefix(calls, n);
      EveryWindowBounded(calls[..n], limit, lo);
      InOrderDecision(calls[..n], limit, now);
      InOrderNotBehind(calls[..n], limit, now);
      RunNoneAfter(calls[..n], limit, now);
      RunSnoc(calls[..n], limit, now);
      WithinSnoc(log, now, lo, lo + limit.window);
      if lo <= now <= lo + limit.window {
        Narrower(log, now - limit.window, now, lo, lo + limit.window);
      }
    }
  }

  // ---- readings out of lock order ------------------------------------------------------

  /** The clock is read before the lock is taken, so readings may come in any order. After
      any calls at all, a call is allowed only if fewer than `maxAttempts` accepted calls
      lie in the window that ends at the latest reading, this call's included; as long as
      no call behind the latest reading was accepted, exactly then. */
  lemma DecidedByLatest(calls: seq<real>, limit: Limit, now: real)
    requires limit.window >= 0.0
    ensures var p := Run(calls, limit).1;
            && (Allows(calls, limit, now) ==> Held(p, limit.window, now) < limit.maxAttempts)
            && (!p.late ==> (Allows(calls, limit, now) <==> Held(p, limit.window, now) < limit.maxAttempts))
  {
    RunFollows(calls, limit);
    CalledByLatest(Run(calls, limit).0, Run(calls, limit).1, limit, now);
  }

  /** Older calls that are stuck in the queue behind a later one. */
  function Stuck(calls: seq<real>, limit: Limit, now: real): nat {
    var (q, p) := Run(calls, limit);
    Older(Prune(q, now - limit.window), Latest(p, now) - limit.window)
  }

  /** In every case the stuck calls count too; there are none as long as no call behind the
      latest reading was accepted. */
  lemma StuckCallsCount(calls: seq<real>, limit: Limit, now: real)
    requires limit.window >= 0.0
    ensures var p := Run(calls, limit).1;
            && (Allows(calls, limit, now)
                <==> Held(p, limit.window, now) + Stuck(calls, limit, now) < limit.maxAttempts)
            && (!p.late ==> Stuck(calls, limit, now) == 0)
  {
    RunFollows(calls, limit);
    CalledCounts(Run(calls, limit).0, Run(calls, limit).1, limit, now);
  }

  /** After any calls with any readings, a call is decided as the full log and the window
      that ends with its own reading would decide it if and only if that window and what
      the latest window holds, with the stuck calls, are on the same side of the limit. So
      it always is when it is not late itself and no late call was accepted before. */
  lemma DecidedAsTheLogWould(calls: seq<real>, limit: Limit, now: real)
    requires limit.window >= 0.0
    ensures var p := Run(calls, limit).1;
            var own := Within(p.log, now - limit.window, now) < limit.maxAttempts;
            && ((Allows(calls, limit, now) <==> own)
                <==> (Held(p, limit.window, now) + Stuck(calls, limit, now) < limit.maxAttempts <==> own))
            && (!p.late && !Behind(p, now) ==> (Allows(calls, limit, now) <==> own))
  {
    StuckCallsCount(calls, limit, now);
  }

  lemma PruneTwo(x: real, y: real, cutoff: real)
    ensures Prune([x, y], cutoff) == if x >= cutoff then [x, y] else if y >= cutoff then [y] else []
    ensures Prune([x], cutoff) == if x >= cutoff then [x] else []
  {
    assert [x, y][1..] == [y] && [y][1..] == [] && [x][1..] == [];
    assert Prune([y], cutoff) == if y >= cutoff then [y] else [];
  }

  lemma OneCall(x: real, window: real)
    ensures Run([x], Limit(2, window)) == ([x], Past([x], Some(x), false))
  {
    RunSnoc([], Limit(2, window), x);
    assert [] + [x] == [x];
  }

  lemma TwoCalls(x: real, y: real, window: real)
    requires window >= 0.0
    ensures Run([x, y], Limit(2, window))
         == (if x >= y - window then [x, y] else [y], Past([x, y], Some(if x > y then x else y), y < x))
  {
    OneCall(x, window);
    RunSnoc([x], Limit(2, window), y);
    PruneTwo(x, x, y - window);
    assert [x] + [y] == [x, y] && [] + [y] == [y];
  }

  /** Once a late call was accepted a call that is not late may be turned away although
      its window has room: with two attempts per 5 seconds and readings 10, 7, 15 in lock
      order, the call at 15 finds 10 and 7 in the queue, 7 behind 10 and so not popped,
      and [10, 15] holds one accepted call. */
  lemma LateCallStays()
    ensures var p := Run([10.0, 7.0], Limit(2, 5.0)).1;
            && p.late && !Behind(p, 15.0) && !Allows([10.0, 7.0], Limit(2, 5.0), 15.0)
            && Within(p.log, 15.0 - 5.0, 15.0) == 1
  {
    TwoCalls(10.0, 7.0, 5.0);
    PruneTwo(10.0, 7.0, 15.0 - 5.0);
    WithinSnoc([], 10.0, 10.0, 15.0);
    WithinSnoc([10.0], 7.0, 10.0, 15.0);
    assert [] + [10.0] == [10.0] && [10.0] + [7.0] == [10.0, 7.0];
  }

  /** A late call may be let in although its own window is full: with readings 4, 4, 10, 7
      all four calls are accepted, the queue having forgotten both calls at 4, and [2, 7]
      holds three. */
  lemma OutOfOrderClock()
    ensures var limit := Limit(2, 5.0);
            && Accepted([4.0, 4.0, 10.0, 7.0], limit) == [4.0, 4.0, 10.0, 7.0]
            && Within(Accepted([4.0, 4.0, 10.0, 7.0], limit), 2.0, 7.0) == 3
  {
    ThreeCalls();
    RunSnoc([4.0, 4.0, 10.0], Limit(2, 5.0), 7.0);
    PruneTwo(10.0, 10.0, 7.0 - 5.0);
    assert [4.0, 4.0, 10.0] + [7.0] == [4.0, 4.0, 10.0, 7.0];
    ThreeWithin();
  }

  lemma ThreeCalls()
    ensures Run([4.0, 4.0, 10.0], Limit(2, 5.0)) == ([10.0], Past([4.0, 4.0, 10.0], Some(10.0), false))
  {
    TwoCalls(4.0, 4.0, 5.0);
    RunSnoc([4.0, 4.0], Limit(2, 5.0), 10.0);
    PruneTwo(4.0, 4.0, 10.0 - 5.0);
    assert [4.0, 4.0] + [10.0] == [4.0, 4.0, 10.0] && [] + [10.0] == [10.0];
  }

  lemma ThreeWithin()
    ensures Within([4.0, 4.0, 10.0, 7.0], 2.0, 7.0) == 3
  {
    assert [4.0, 4.0] + [10.0] == [4.0, 4.0, 10.0] && [4.0, 4.0, 10.0] + [7.0] == [4.0, 4.0, 10.0, 7.0];
    WithinSnoc([4.0, 4.0, 10.0], 7.0, 2.0, 7.0);
    WithinSnoc([4.0, 4.0], 10.0, 2.0, 7.0);
    AllWithin([4.0, 4.0], 2.0, 7.0);
  }
}
