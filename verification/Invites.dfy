/** Registration by invite: any number of `register` requests, one database
    statement at a time, with crashes and the inviter's own actions in between. */
module Invites {
  import opened Common

  type Token = string
  type Pid = nat
  type Instant = int

  datatype Invite = Invite(email: string, expiresAt: Instant, used: bool)

  /** `via` remembers the invite an account was created through. */
  datatype Account = Account(username: string, email: string, via: Option<Token>)

  /** Where a request stands, with its token, the chosen name and the invited address. */
  datatype Stage = Validated | Checked | Claimed | Lost

  datatype Request = Request(token: Token, username: string, email: string, stage: Stage)

  datatype State = State(invites: map<Token, Invite>, accounts: set<Account>, requests: map<Pid, Request>)

  const INIT := State(map[], {}, map[])

  datatype Action =
    | CreateInvite(token: Token, email: string, expiresAt: Instant)
    | Expire(token: Token, now: Instant)                            // revoke_invite, resend_invite
    | AddUser(username: string, email: string)                      // accounts that need no invite
    | Begin(p: Pid, token: Token, username: string, now: Instant)   // get_invite, _validate_invite
    | CheckUnique(p: Pid)                                           // the two uniqueness selects
    | Claim(p: Pid)                                                 // claim_invite
    | Create(p: Pid)                                                // create_user
    | Release(p: Pid)                                               // release_invite
    | Crash(p: Pid)

  predicate Taken(accounts: set<Account>, username: string, email: string) {
    exists a :: a in accounts && (a.username == username || a.email == email)
  }

  /** `_validate_invite`. */
  predicate Acceptable(invites: map<Token, Invite>, token: Token, now: Instant) {
    token in invites && !invites[token].used && invites[token].expiresAt >= now
  }

  function Answer(s: State, p: Pid): State {
    s.(requests := s.requests - {p})
  }

  function Move(s: State, p: Pid, stage: Stage): State
    requires p in s.requests
  {
    s.(requests := s.requests[p := s.requests[p].(stage := stage)])
  }

  predicate At(s: State, p: Pid, stage: Stage) {
    p in s.requests && s.requests[p].stage == stage
  }

  function SetUsed(s: State, token: Token, used: bool): State {
    if token in s.invites then s.(invites := s.invites[token := s.invites[token].(used := used)]) else s
  }

  /** `UPDATE ... SET used_at = NOW() WHERE token = ? AND used_at IS NULL`: one winner. */
  function ClaimStep(s: State, p: Pid): State
    requires p in s.requests
  {
    var token := s.requests[p].token;
    if token in s.invites && !s.invites[token].used then Move(SetUsed(s, token, true), p, Claimed) else Answer(s, p)
  }

  /** The UNIQUE constraints decide, not the earlier selects. */
  function CreateStep(s: State, p: Pid): State
    requires p in s.requests
  {
    var r := s.requests[p];
    if Taken(s.accounts, r.username, r.email) then Move(s, p, Lost)
    else Answer(s.(accounts := s.accounts + {Account(r.username, r.email, Some(r.token))}), p)
  }

  function Next(s: State, a: Action): State {
    match a
    case CreateInvite(token, email, expiresAt) =>
      if token in s.invites then s else s.(invites := s.invites[token := Invite(email, expiresAt, false)])
    case Expire(token, now) =>
      if token in s.invites then s.(invites := s.invites[token := s.invites[token].(expiresAt := now)]) else s
    case AddUser(username, email) =>
      if Taken(s.accounts, username, email) then s else s.(accounts := s.accounts + {Account(username, email, None)})
    case Begin(p, token, username, now) =>
      if p !in s.requests && Acceptable(s.invites, token, now)
      then s.(requests := s.requests[p := Request(token, username, s.invites[token].email, Validated)]) else s
    case CheckUnique(p) =>
      if !At(s, p, Validated) then s
      else if Taken(s.accounts, s.requests[p].username, s.requests[p].email) then Answer(s, p) else Move(s, p, Checked)
    case Claim(p) => if At(s, p, Checked) then ClaimStep(s, p) else s
    case Create(p) => if At(s, p, Claimed) then CreateStep(s, p) else s
    case Release(p) => if At(s, p, Lost) then Answer(SetUsed(s, s.requests[p].token, false), p) else s
    case Crash(p) => Answer(s, p)
  }

  function ExecFrom(s: State, acts: seq<Action>): State {
    if acts == [] then s else Next(ExecFrom(s, acts[..|acts| - 1]), acts[|acts| - 1])
  }

  function Exec(acts: seq<Action>): State {
    ExecFrom(INIT, acts)
  }

  predicate InFlight(s: State, p: Pid, token: Token) {
    p in s.requests && s.requests[p].token == token
  }

  /** Neither the name nor the invited address of the request is taken. */
  predicate Free(s: State, p: Pid)
    requires p in s.requests
  {
    !Taken(s.accounts, s.requests[p].username, s.requests[p].email)
  }

  // ---- one account per invite ----------------------------------------------------

  /** Requests that have claimed the invite and have not created, released or crashed. */
  function Holders(s: State, token: Token): set<Pid> {
    set p | p in s.requests && s.requests[p].token == token
      && (s.requests[p].stage == Claimed || s.requests[p].stage == Lost)
  }

  function Admitted(s: State, token: Token): set<Account> {
    set a | a in s.accounts && a.via == Some(token)
  }

  predicate IsUsed(s: State, token: Token) {
    token in s.invites && s.invites[token].used
  }

  predicate OneAtMost(s: State, token: Token) {
    |Holders(s, token)| + |Admitted(s, token)| <= if IsUsed(s, token) then 1 else 0
  }

  lemma Fewer<T>(a: set<T>, b: set<T>)
    requires a <= b
    ensures |a| <= |b|
  {
    assert b == a + (b - a);
  }

  lemma MemberCounts<T>(a: set<T>, x: T)
    requires x in a
    ensures |a| >= 1 && |a - {x}| == |a| - 1
  {
  }

  lemma OneMore<T>(a: set<T>, x: T)
    ensures |a + {x}| <= |a| + 1
  {
  }

  /** The winner of an unclaimed invite becomes its one holder. */
  lemma ClaimWins(s: State, p: Pid, token: Token)
    requires InFlight(s, p, token) && At(s, p, Checked) && token in s.invites && !IsUsed(s, token)
    ensures Holders(ClaimStep(s, p), token) == Holders(s, token) + {p}
    ensures Admitted(ClaimStep(s, p), token) == Admitted(s, token)
    ensures IsUsed(ClaimStep(s, p), token)
  {
  }

  lemma ClaimElsewhere(s: State, p: Pid, token: Token)
    requires At(s, p, Checked) && (s.requests[p].token != token || token !in s.invites || IsUsed(s, token))
    ensures Holders(ClaimStep(s, p), token) == Holders(s, token)
    ensures Admitted(ClaimStep(s, p), token) == Admitted(s, token)
    ensures IsUsed(ClaimStep(s, p), token) == IsUsed(s, token)
  {
    var s' := ClaimStep(s, p);
    forall q ensures q in Holders(s', token) <==> q in Holders(s, token) {
      assert q != p ==> (q in s'.requests <==> q in s.requests);
    }
  }

  lemma ClaimKeeps(s: State, p: Pid, token: Token)
    requires OneAtMost(s, token) && At(s, p, Checked)
    ensures OneAtMost(ClaimStep(s, p), token)
  {
    if s.requests[p].token == token && token in s.invites && !IsUsed(s, token) {
      ClaimWins(s, p, token);
      OneMore(Holders(s, token), p);
    } else {
      ClaimElsewhere(s, p, token);
    }
  }

  /** A request of another invite, or one that finds its name taken. */
  lemma CreateElsewhere(s: State, p: Pid, token: Token)
    requires At(s, p, Claimed)
    requires s.requests[p].token != token || !Free(s, p)
    ensures Holders(CreateStep(s, p), token) == Holders(s, token)
    ensures Admitted(CreateStep(s, p), token) == Admitted(s, token)
    ensures CreateStep(s, p).invites == s.invites
  {
    var s' := CreateStep(s, p);
    forall q ensures q in Holders(s', token) <==> q in Holders(s, token) {
      assert q != p ==> (q in s'.requests <==> q in s.requests);
    }
  }

  lemma CreateHere(s: State, p: Pid, token: Token)
    requires InFlight(s, p, token) && At(s, p, Claimed) && Free(s, p)
    ensures p in Holders(s, token)
    ensures Holders(CreateStep(s, p), token) == Holders(s, token) - {p}
    ensures Admitted(CreateStep(s, p), token)
         == Admitted(s, token) + {Account(s.requests[p].username, s.requests[p].email, Some(token))}
    ensures CreateStep(s, p).invites == s.invites
  {
  }

  lemma CreateKeeps(s: State, p: Pid, token: Token)
    requires OneAtMost(s, token) && At(s, p, Claimed)
    ensures OneAtMost(CreateStep(s, p), token)
  {
    if s.requests[p].token != token || !Free(s, p) {
      CreateElsewhere(s, p, token);
    } else {
      CreateHere(s, p, token);
      MemberCounts(Holders(s, token), p);
      OneMore(Admitted(s, token), Account(s.requests[p].username, s.requests[p].email, Some(token)));
    }
  }

  lemma ReleaseHere(s: State, p: Pid, token: Token)
    requires InFlight(s, p, token) && At(s, p, Lost)
    ensures p in Holders(s, token)
    ensures Holders(Next(s, Release(p)), token) == Holders(s, token) - {p}
    ensures Admitted(Next(s, Release(p)), token) == Admitted(s, token)
    ensures !IsUsed(Next(s, Release(p)), token)
  {
  }

  lemma ReleaseElsewhere(s: State, p: Pid, token: Token)
    requires At(s, p, Lost) && s.requests[p].token != token
    ensures Holders(Next(s, Release(p)), token) == Holders(s, token)
    ensures Admitted(Next(s, Release(p)), token) == Admitted(s, token)
    ensures IsUsed(Next(s, Release(p)), token) == IsUsed(s, token)
  {
    var s' := Next(s, Release(p));
    forall q ensures q in Holders(s', token) <==> q in Holders(s, token) {
      assert q != p ==> (q in s'.requests <==> q in s.requests);
    }
  }

  lemma ReleaseKeeps(s: State, p: Pid, token: Token)
    requires OneAtMost(s, token) && At(s, p, Lost)
    ensures OneAtMost(Next(s, Release(p)), token)
  {
    if s.requests[p].token == token {
      ReleaseHere(s, p, token);
      MemberCounts(Holders(s, token), p);
    } else {
      ReleaseElsewhere(s, p, token);
    }
  }

  /** The remaining actions neither claim nor admit. */
  lemma OthersKeep(s: State, a: Action, token: Token)
    requires OneAtMost(s, token) && !a.Claim? && !a.Create? && !a.Release?
    ensures OneAtMost(Next(s, a), token)
  {
    var s' := Next(s, a);
    assert Holders(s', token) <= Holders(s, token);
    Fewer(Holders(s', token), Holders(s, token));
    assert Admitted(s', token) == Admitted(s, token);
  }

  lemma {:induction false} OneAtMostAlways(acts: seq<Action>, token: Token)
    ensures OneAtMost(Exec(acts), token)
  {
    if acts == [] {
      assert Holders(INIT, token) == {} && Admitted(INIT, token) == {};
    } else {
      var front, a := acts[..|acts| - 1], acts[|acts| - 1];
      var s := Exec(front);
      OneAtMostAlways(front, token);
      match a {
        case Claim(p) => if At(s, p, Checked) { ClaimKeeps(s, p, token); }
        case Create(p) => if At(s, p, Claimed) { CreateKeeps(s, p, token); }
        case Release(p) => if At(s, p, Lost) { ReleaseKeeps(s, p, token); }
        case _ => OthersKeep(s, a, token);
      }
    }
  }

  /** In every interleaving of any number of requests: an invite has at most one claim
      holder or account, never both; and while it is unused it has neither. */
  lemma InviteAdmitsOne(acts: seq<Action>, token: Token)
    ensures var s := Exec(acts);
            && |Holders(s, token)| + |Admitted(s, token)| <= 1
            && (!IsUsed(s, token) ==> Holders(s, token) == {} && Admitted(s, token) == {})
  {
    OneAtMostAlways(acts, token);
  }

  // ---- who gets in -----------------------------------------------------------------

  predicate Sound(s: State) {
    && (forall p :: p in s.requests ==>
          s.requests[p].token in s.invites && s.requests[p].email == s.invites[s.requests[p].token].email)
    && (forall a :: a in s.accounts && a.via.Some? ==>
          a.via.value in s.invites && a.email == s.invites[a.via.value].email)
    && (forall a, b :: a in s.accounts && b in s.accounts && (a.username == b.username || a.email == b.email) ==>
          a == b)
  }

  lemma SoundStep(s: State, a: Action)
    requires Sound(s)
    ensures Sound(Next(s, a))
    ensures forall k :: k in s.invites ==> k in Next(s, a).invites && Next(s, a).invites[k].email == s.invites[k].email
    ensures s.accounts <= Next(s, a).accounts
  {
  }

  /** Every account created through an invite has the invited address, and names and
      addresses stay unique. */
  lemma {:induction false} AccountsMatchInvites(acts: seq<Action>)
    ensures Sound(Exec(acts))
  {
    if acts != [] {
      AccountsMatchInvites(acts[..|acts| - 1]);
      SoundStep(Exec(acts[..|acts| - 1]), acts[|acts| - 1]);
    }
  }

  /** A request gets past the first check exactly with a known invite that is unused and
      not expired at that time, and goes on with the invited address. */
  lemma BeginsIff(s: State, p: Pid, token: Token, username: string, now: Instant)
    requires p !in s.requests
    ensures var s' := Next(s, Begin(p, token, username, now));
            && s'.invites == s.invites && s'.accounts == s.accounts
            && (p in s'.requests
                <==> token in s.invites && !s.invites[token].used && now <= s.invites[token].expiresAt)
            && (p in s'.requests ==>
                  s'.requests[p] == Request(token, username, s.invites[token].email, Validated))
  {
  }

  /** An invite that admitted an account is spent for good. */
  lemma {:induction false} SpentForGood(acts: seq<Action>, more: seq<Action>, token: Token)
    requires Admitted(Exec(acts), token) != {}
    ensures IsUsed(Exec(acts + more), token) && Admitted(Exec(acts + more), token) == Admitted(Exec(acts), token)
    decreases |more|
  {
    OneAtMostAlways(acts, token);
    if more == [] {
      assert acts + more == acts;
    } else {
      var n := |more| - 1;
      var front := acts + more[..n];
      assert (acts + more)[..|acts + more| - 1] == front;
      SpentForGood(acts, more[..n], token);
      OneAtMostAlways(acts + more, token);
      OneAtMostAlways(front, token);
      AccountsMatchInvites(front);
      SoundStep(Exec(front), more[n]);
      assert Admitted(Exec(front), token) <= Admitted(Exec(acts + more), token);
      Fewer(Admitted(Exec(front), token), Admitted(Exec(acts + more), token));
      SameSize(Admitted(Exec(front), token), Admitted(Exec(acts + more), token));
    }
  }

  lemma SameSize<T>(a: set<T>, b: set<T>)
    requires a <= b && |b| <= 1 && a != {}
    ensures a == b
  {
    var x :| x in a;
    MemberCounts(b, x);
    assert b - {x} == {};
  }

  // ---- revoking an invite ------------------------------------------------------------

  /** The expiry still admits this request for the invite. */
  predicate InTime(s: State, a: Action, token: Token) {
    a.Begin? && a.token == token && token in s.invites && s.invites[token].expiresAt >= a.now
  }

  /** The revocation stands: no request for the invite begins before its expiry. */
  predicate StaysRevoked(s: State, more: seq<Action>, token: Token) {
    more != [] ==>
      var n := |more| - 1;
      StaysRevoked(s, more[..n], token) && !InTime(ExecFrom(s, more[..n]), more[n], token)
  }

  /** Nobody used the invite up: it is unclaimed, or its claim may still be given back. */
  predicate Claimable(s: State, token: Token) {
    !IsUsed(s, token) || exists q :: q in s.requests && q in Holders(s, token)
  }

  /** A request that is past the expiry check and may still be admitted. */
  predicate CanEnter(s: State, p: Pid, token: Token) {
    && InFlight(s, p, token) && Free(s, p)
    && (At(s, p, Claimed) || ((At(s, p, Validated) || At(s, p, Checked)) && Claimable(s, token)))
  }

  predicate Closed(s: State, token: Token) {
    token in s.invites && forall p :: p in s.requests ==> !CanEnter(s, p, token)
  }

  lemma SameAdmitted(s: State, s': State, token: Token)
    requires forall x :: x in s'.accounts && x.via == Some(token) <==> x in s.accounts && x.via == Some(token)
    ensures Admitted(s', token) == Admitted(s, token)
  {
  }

  lemma ClosedClaim(s: State, p: Pid, token: Token)
    requires Closed(s, token) && At(s, p, Checked)
    ensures Closed(ClaimStep(s, p), token) && ClaimStep(s, p).accounts == s.accounts
  {
    var s' := ClaimStep(s, p);
    assert !CanEnter(s, p, token);
    forall q | q in s'.requests ensures !CanEnter(s', q, token) {
      assert !CanEnter(s, q, token);
      if !(s.requests[p].token == token && !IsUsed(s, token)) {
        assert Holders(s', token) <= Holders(s, token);
      }
    }
  }

  lemma ClosedCreate(s: State, p: Pid, token: Token)
    requires Closed(s, token) && At(s, p, Claimed)
    ensures Closed(CreateStep(s, p), token) && Admitted(CreateStep(s, p), token) == Admitted(s, token)
  {
    var s' := CreateStep(s, p);
    assert !CanEnter(s, p, token);
    SameAdmitted(s, s', token);
    assert Holders(s', token) <= Holders(s, token);
    forall q | q in s'.requests ensures !CanEnter(s', q, token) {
      assert !CanEnter(s, q, token);
    }
  }

  lemma ClosedRelease(s: State, p: Pid, token: Token)
    requires Closed(s, token) && At(s, p, Lost)
    ensures Closed(Next(s, Release(p)), token)
  {
    var s' := Next(s, Release(p));
    assert Holders(s', token) <= Holders(s, token);
    assert s.requests[p].token == token ==> p in Holders(s, token);
    forall q | q in s'.requests ensures !CanEnter(s', q, token) {
      assert !CanEnter(s, q, token);
    }
  }

  lemma ClosedOther(s: State, a: Action, token: Token)
    requires Closed(s, token) && !InTime(s, a, token) && !a.Claim? && !a.Create? && !a.Release?
    ensures Closed(Next(s, a), token) && Admitted(Next(s, a), token) == Admitted(s, token)
  {
    var s' := Next(s, a);
    SameAdmitted(s, s', token);
    assert Holders(s', token) <= Holders(s, token);
    forall q | q in s'.requests ensures !CanEnter(s', q, token) {
      assert q in s.requests ==> !CanEnter(s, q, token);
    }
  }

  lemma ClosedStep(s: State, a: Action, token: Token)
    requires Closed(s, token) && !InTime(s, a, token)
    ensures Closed(Next(s, a), token) && Admitted(Next(s, a), token) == Admitted(s, token)
  {
    match a {
      case Claim(p) => if At(s, p, Checked) { ClosedClaim(s, p, token); }
      case Create(p) => if At(s, p, Claimed) { ClosedCreate(s, p, token); }
      case Release(p) => if At(s, p, Lost) { ClosedRelease(s, p, token); }
      case _ => ClosedOther(s, a, token);
    }
  }

  lemma {:induction false} StaysClosed(s: State, more: seq<Action>, token: Token)
    requires Closed(s, token) && StaysRevoked(s, more, token)
    ensures Closed(ExecFrom(s, more), token) && Admitted(ExecFrom(s, more), token) == Admitted(s, token)
  {
    if more != [] {
      var n := |more| - 1;
      StaysClosed(s, more[..n], token);
      ClosedStep(ExecFrom(s, more[..n]), more[n], token);
    }
  }

  lemma ExecTwo(s: State, a: Action, b: Action)
    ensures ExecFrom(s, [a]) == Next(s, a) && ExecFrom(s, [a, b]) == Next(Next(s, a), b)
  {
    assert [a, b][..1] == [a] && [a][..0] == [];
  }

  lemma {:induction false} ExecConcat(s: State, a: seq<Action>, b: seq<Action>)
    ensures ExecFrom(s, a + b) == ExecFrom(ExecFrom(s, a), b)
  {
    if b == [] {
      assert a + b == a;
    } else {
      ExecConcat(s, a, b[..|b| - 1]);
      assert (a + b)[..|a + b| - 1] == a + b[..|b| - 1];
    }
  }

  lemma {:induction false} NoBegins(s: State, more: seq<Action>, token: Token)
    requires forall a :: a in more ==> !a.Begin?
    ensures StaysRevoked(s, more, token)
  {
    if more != [] {
      NoBegins(s, more[..|more| - 1], token);
    }
  }

  lemma CreatedEnters(s: State, p: Pid, token: Token)
    requires InFlight(s, p, token) && Free(s, p) && At(s, p, Claimed)
    ensures Admitted(Next(s, Create(p)), token) != Admitted(s, token)
  {
    var r := s.requests[p];
    var x := Account(r.username, r.email, Some(token));
    assert x in Admitted(Next(s, Create(p)), token) && x !in Admitted(s, token);
  }

  lemma ClaimedNext(s: State, p: Pid, token: Token)
    requires InFlight(s, p, token) && Free(s, p) && (At(s, p, Validated) || At(s, p, Checked))
    requires token in s.invites && !IsUsed(s, token)
    ensures var s' := Next(Next(s, CheckUnique(p)), Claim(p));
            InFlight(s', p, token) && Free(s', p) && At(s', p, Claimed) && s'.accounts == s.accounts
  {
  }

  /** An unclaimed invite: the request checks, claims and creates. */
  lemma EntersUnclaimed(s: State, p: Pid, token: Token) returns (more: seq<Action>)
    requires InFlight(s, p, token) && Free(s, p) && (At(s, p, Validated) || At(s, p, Checked))
    requires token in s.invites && !IsUsed(s, token)
    ensures StaysRevoked(s, more, token) && Admitted(ExecFrom(s, more), token) != Admitted(s, token)
    ensures forall a :: a in more ==> !a.Begin?
  {
    more := [CheckUnique(p), Claim(p)] + [Create(p)];
    ExecTwo(s, CheckUnique(p), Claim(p));
    ExecConcat(s, [CheckUnique(p), Claim(p)], [Create(p)]);
    ClaimedNext(s, p, token);
    var s' := Next(Next(s, CheckUnique(p)), Claim(p));
    ExecTwo(s', Create(p), Create(p));
    CreatedEnters(s', p, token);
    NoBegins(s, more, token);
  }

  /** A claim that is given back: the holder finds its name taken and releases. */
  lemma GivenBack(s: State, p: Pid, q: Pid, token: Token)
    requires token in s.invites && InFlight(s, p, token) && Free(s, p) && (At(s, p, Validated) || At(s, p, Checked))
    requires q in Holders(s, token) && (At(s, q, Lost) || !Free(s, q))
    ensures var s' := Next(Next(s, Create(q)), Release(q));
            && InFlight(s', p, token) && Free(s', p) && (At(s', p, Validated) || At(s', p, Checked))
            && token in s'.invites && !IsUsed(s', token) && s'.accounts == s.accounts
  {
  }

  lemma SomebodyEnters(s: State, p: Pid, token: Token) returns (more: seq<Action>)
    requires token in s.invites && CanEnter(s, p, token)
    ensures StaysRevoked(s, more, token) && Admitted(ExecFrom(s, more), token) != Admitted(s, token)
  {
    if At(s, p, Claimed) {
      more := ClaimantEnters(s, p, token);
    } else if !IsUsed(s, token) {
      more := EntersUnclaimed(s, p, token);
    } else {
      var q :| q in s.requests && q in Holders(s, token);
      if At(s, q, Claimed) && Free(s, q) {
        more := ClaimantEnters(s, q, token);
      } else {
        more := EntersAfter(s, p, q, token);
      }
    }
  }

  lemma ClaimantEnters(s: State, p: Pid, token: Token) returns (more: seq<Action>)
    requires InFlight(s, p, token) && Free(s, p) && At(s, p, Claimed)
    ensures StaysRevoked(s, more, token) && Admitted(ExecFrom(s, more), token) != Admitted(s, token)
  {
    more := [Create(p)];
    ExecTwo(s, Create(p), Create(p));
    CreatedEnters(s, p, token);
    NoBegins(s, more, token);
  }

  lemma EntersAfter(s: State, p: Pid, q: Pid, token: Token) returns (more: seq<Action>)
    requires token in s.invites && InFlight(s, p, token) && Free(s, p) && (At(s, p, Validated) || At(s, p, Checked))
    requires q in Holders(s, token) && (At(s, q, Lost) || !Free(s, q))
    ensures StaysRevoked(s, more, token) && Admitted(ExecFrom(s, more), token) != Admitted(s, token)
  {
    var first := [Create(q), Release(q)];
    var s' := Next(Next(s, Create(q)), Release(q));
    GivenBack(s, p, q, token);
    ExecTwo(s, Create(q), Release(q));
    var rest := EntersUnclaimed(s', p, token);
    more := first + rest;
    ExecConcat(s, first, rest);
    NoBegins(s, more, token);
  }

  /** When a revocation holds. The expiry is checked when a request begins and not again:
      after an invite is revoked, and as long as it is not extended past the clock of a new
      request, somebody may still be admitted by it if and only if, at the revocation, a
      request that is past the check has its name and the invited address free, and either
      holds the claim or the invite is unclaimed or its claim may still be given back. */
  lemma RevocationHoldsIff(s: State, token: Token, now: Instant)
    requires token in s.invites
    ensures var revoked := Next(s, Expire(token, now));
            (exists more :: StaysRevoked(revoked, more, token)
                            && Admitted(ExecFrom(revoked, more), token) != Admitted(s, token))
            <==> exists p :: p in s.requests && CanEnter(s, p, token)
  {
    var revoked := Next(s, Expire(token, now));
    RevokedAlike(s, token, now);
    if p :| p in s.requests && CanEnter(s, p, token) {
      var more := SomebodyEnters(revoked, p, token);
    } else {
      forall more | StaysRevoked(revoked, more, token)
        ensures Admitted(ExecFrom(revoked, more), token) == Admitted(s, token)
      {
        StaysClosed(revoked, more, token);
      }
    }
  }

  /** Revoking changes nothing but the expiry. */
  lemma RevokedAlike(s: State, token: Token, now: Instant)
    requires token in s.invites
    ensures var revoked := Next(s, Expire(token, now));
            && token in revoked.invites && Admitted(revoked, token) == Admitted(s, token)
            && forall p :: p in s.requests ==> (CanEnter(revoked, p, token) <==> CanEnter(s, p, token))
  {
    var revoked := Next(s, Expire(token, now));
    assert Holders(revoked, token) == Holders(s, token);
  }

  /** A history from the empty database in which an invite admits an account after it was
      revoked. */
  lemma RevokedAfterTheCheck(token: Token, email: string, username: string)
    ensures var acts := [CreateInvite(token, email, 100), Begin(0, token, username, 50), Expire(token, 60),
                         CheckUnique(0), Claim(0), Create(0)];
            && Exec(acts).accounts == {Account(username, email, Some(token))}
            && Exec(acts).invites == map[token := Invite(email, 60, true)]
  {
    var begun := [] + [CreateInvite(token, email, 100)] + [Begin(0, token, username, 50)] + [Expire(token, 60)];
    BegunThenRevoked(token, email, username);
    ExecSnoc([], CreateInvite(token, email, 100));
    ExecSnoc([] + [CreateInvite(token, email, 100)], Begin(0, token, username, 50));
    ExecSnoc([] + [CreateInvite(token, email, 100)] + [Begin(0, token, username, 50)], Expire(token, 60));
    ExecSnoc(begun, CheckUnique(0));
    ExecSnoc(begun + [CheckUnique(0)], Claim(0));
    ExecSnoc(begun + [CheckUnique(0)] + [Claim(0)], Create(0));
    EntersLate(token, email, username);
    assert begun + [CheckUnique(0)] + [Claim(0)] + [Create(0)]
        == [CreateInvite(token, email, 100), Begin(0, token, username, 50), Expire(token, 60),
            CheckUnique(0), Claim(0), Create(0)];
  }

  lemma BegunThenRevoked(token: Token, email: string, username: string)
    ensures Next(Next(Next(INIT, CreateInvite(token, email, 100)), Begin(0, token, username, 50)), Expire(token, 60))
         == State(map[token := Invite(email, 60, false)], {}, map[0 := Request(token, username, email, Validated)])
  {
    var invite, r := Invite(email, 100, false), Request(token, username, email, Validated);
    assert Next(INIT, CreateInvite(token, email, 100)) == State(map[token := invite], {}, map[]);
    assert Next(State(map[token := invite], {}, map[]), Begin(0, token, username, 50))
        == State(map[token := invite], {}, map[0 := r]);
  }

  lemma EntersLate(token: Token, email: string, username: string)
    ensures var r := Request(token, username, email, Validated);
            var s := State(map[token := Invite(email, 60, false)], {}, map[0 := r]);
            var s' := Next(Next(Next(s, CheckUnique(0)), Claim(0)), Create(0));
            && s'.accounts == {Account(username, email, Some(token))}
            && s'.invites == map[token := Invite(email, 60, true)]
  {
    var r := Request(token, username, email, Validated);
    var s := State(map[token := Invite(email, 60, false)], {}, map[0 := r]);
    var s1 := State(map[token := Invite(email, 60, false)], {}, map[0 := r.(stage := Checked)]);
    assert Next(s, CheckUnique(0)) == s1;
    assert Next(s1, Claim(0)) == State(map[token := Invite(email, 60, true)], {}, map[0 := r.(stage := Claimed)]);
  }

  lemma ExecSnoc(acts: seq<Action>, a: Action)
    ensures Exec(acts + [a]) == Next(Exec(acts), a)
    ensures [] + [a] == [a]
  {
    assert (acts + [a])[..|acts|] == acts;
  }
}
