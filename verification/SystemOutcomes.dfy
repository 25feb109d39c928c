/** What every action does to a tool call in a reachable system: who gets in, who is let through,
    what is posted, and which grants an upstream's refusal ends for good. */
module SystemOutcomes {
  import opened OAuthTypes
  import opened Machine
  import opened Invariant
  import opened UserSession
  import opened SessionInvariant
  import opened SessionTheorems
  import opened TokenTheorems
  import opened GrantLife
  import opened SessionOutcomes
  import G = GrantTheorems
  import E = Evolution
  import P = ProviderModel

  // --- The provider's state is one it can reach ---

  ghost predicate Later(m: State, m': State) {
    exists ops :: Run(m, ops) == m'
  }

  lemma LaterSelf(m: State)
    ensures Later(m, m)
  {
    assert Run(m, []) == m;
  }

  lemma LaterStep(m: State, op: Op)
    ensures Later(m, Step(m, op))
  {
    hide Step;
    assert [op][1..] == [];
    assert Run(m, [op]) == Step(m, op);
  }

  lemma LaterTransitive(m: State, m1: State, m2: State)
    requires Later(m, m1) && Later(m1, m2)
    ensures Later(m, m2)
  {
    var ops :| Run(m, ops) == m1;
    var more :| Run(m1, more) == m2;
    hide Run;
    RunAppend(m, ops, more);
    assert Run(m, ops + more) == m2;
  }

  lemma LaterIsReachable(m: State, m': State)
    requires G.Reachable(m) && Later(m, m')
    ensures G.Reachable(m')
  {
    var ops :| Run(m, ops) == m';
    RunIsReachable(m, ops);
  }

  lemma LaterIsDead(m: State, m': State, g: GrantId)
    requires G.Reachable(m) && Later(m, m') && g in m.h.grants && !Alive(m, g)
    ensures !Alive(m', g)
  {
    var ops :| Run(m, ops) == m';
    G.ReachableInv(m);
    LaterIsReachable(m, m');
    G.ReachableInv(m');
    AliveIsActive(m, g);
    AliveIsActive(m', g);
    hide Inv, Alive, G.Reachable;
    G.StaysDead(m, ops, g);
  }

  lemma StretchesAreLater(m: State, t: Token, g: GrantId, session: RelaySession, refreshed: bool,
          refreshReply: RefreshReply, meReply: MeReply)
    ensures Later(m, Verify(m, t, g).0) && Later(m, FinishRefresh(m, g, session, refreshReply).0)
    ensures Later(m, FinishVerify(m, t, g, session, refreshed, meReply).0)
  {
    VerifyIsLater(m, t, g);
    LaterSelf(m);
    LaterStep(m, RevokeGrant(g));
    if refreshReply.Rotated? {
      LaterStep(m, SaveSession(g, session.(access := refreshReply.access, refresh := refreshReply.refresh)));
    }
    StartRefreshIsLater(m, t, g, session);
    LaterStep(m, LoadAccess(t));
    hide Later, Step, Verify, StartRefresh, P.SaveSession, P.LoadAccess;
  }

  lemma StartRefreshIsLater(m: State, t: Token, g: GrantId, session: RelaySession)
    ensures Later(m, StartRefresh(m, t, g, session).0)
  {
    hide Later, Step, P.LoadAccess, P.BeginRefresh;
    var m1 := Step(m, LoadAccess(t));
    LaterStep(m, LoadAccess(t));
    LaterStep(m1, BeginRefresh(g));
    LaterTransitive(m, m1, Step(m1, BeginRefresh(g)));
  }

  lemma VerifyIsLater(m: State, t: Token, g: GrantId)
    ensures Later(m, Verify(m, t, g).0)
  {
    hide Later, Step, P.LoadAccess, P.LoadSession, StartRefresh;
    var m1 := Step(m, LoadAccess(t));
    var m2 := Step(m1, LoadSession(g));
    LaterStep(m, LoadAccess(t));
    LaterStep(m1, LoadSession(g));
    LaterTransitive(m, m1, m2);
    var loaded := P.LoadSession(m1.s, g, m1.now).1;
    if loaded.Some? {
      StartRefreshIsLater(m2, t, g, loaded.value);
      LaterTransitive(m, m2, StartRefresh(m2, t, g, loaded.value).0);
    }
  }

  lemma SettledState(sys: System, id: CallId, purpose: Purpose, result: (State, Outcome))
    requires id in sys.calls
    ensures Settle(sys, id, purpose, result).m == result.0
  {
  }

  lemma ActionIsLater(sys: System, a: Action)
    requires Offered(sys, a)
    ensures Later(sys.m, Take(sys, a).m)
  {
    LaterSelf(sys.m);
    match a
    case Serve(op) => LaterStep(sys.m, op);
    case Start(_, t, _, _, _) => LaterStep(sys.m, LoadAccess(t));
    case Acquire(id, _, _) => AcquiringIsLater(sys, a);
    case RefreshAnswered(id, reply) =>
      var call := sys.calls[id];
      StretchesAreLater(sys.m, call.token, call.grantId, call.phase.session, true, reply, Forbidden);
      SettledState(sys, id, call.phase.purpose, FinishRefresh(sys.m, call.grantId, call.phase.session, reply));
      hide Later, FinishRefresh, Settle;
    case MeAnswered(id, reply) =>
      var call := sys.calls[id];
      StretchesAreLater(sys.m, call.token, call.grantId, call.phase.session, call.phase.refreshed, Malformed, reply);
      SettledState(sys, id, call.phase.purpose,
        FinishVerify(sys.m, call.token, call.grantId, call.phase.session, call.phase.refreshed, reply));
      hide Later, FinishVerify, Settle;
    case Crash(grantTtl) => LaterStep(sys.m, Restart(grantTtl));
    case _ =>
    hide Later, Step, Settle, P.LoadAccess;
  }

  lemma AcquiringIsLater(sys: System, a: Action)
    requires Offered(sys, a) && a.Acquire?
    ensures Later(sys.m, Take(sys, a).m)
  {
    var call := sys.calls[a.id];
    if call.phase.WaitContext? {
      LaterStep(sys.m, LoadSession(call.grantId));
      hide Later, Step, P.LoadSession;
    } else {
      VerifyIsLater(sys.m, call.token, call.grantId);
      SettledState(sys.(holder := sys.holder[call.lock := a.id]), a.id, call.phase.purpose,
        Verify(sys.m, call.token, call.grantId));
      hide Later, Verify, Settle;
    }
  }

  lemma {:induction false} PlayIsLater(sys: System, actions: seq<Action>)
    ensures Later(sys.m, Play(sys, actions).m)
    decreases |actions|
  {
    hide Later, Take;
    LaterSelf(sys.m);
    if actions != [] {
      var sys1 := Advance(sys, actions[0]);
      if Offered(sys, actions[0]) { ActionIsLater(sys, actions[0]); }
      PlayIsLater(sys1, actions[1..]);
      LaterTransitive(sys.m, sys1.m, Play(sys, actions).m);
    }
  }

  lemma StateIsReachable(sys: System)
    requires Reachable(sys)
    ensures G.Reachable(sys.m)
  {
    var resource, grantTtl, now, actions :| grantTtl > 0 && sys == Play(Boot(resource, grantTtl, now), actions);
    PlayIsLater(Boot(resource, grantTtl, now), actions);
    assert Run(Init(resource, grantTtl, now), []) == Init(resource, grantTtl, now);
    hide Play, Later, Run;
    LaterIsReachable(Init(resource, grantTtl, now), sys.m);
  }

  // --- How a call goes on ---

  /** The exchange is over without success: nothing is sent and the lock is free. A call that was
      entering its tool ends; the tool's code of any other is told. */
  predicate GaveUp(sys: System, sys': System, id: CallId)
    requires id in sys.calls && (sys.calls[id].phase.WaitVerify? || HoldsLock(sys.calls[id]))
  {
    sys'.log == sys.log && sys.calls[id].lock !in sys'.holder &&
    if sys.calls[id].phase.purpose.Enter? then sys'.calls == P.Without(sys.calls, id)
    else sys'.calls == sys.calls[id := sys.calls[id].(phase := InTool)]
  }

  /** The call keeps the lock, in a new phase, and one upstream call starts. */
  predicate GoesOn(sys: System, sys': System, id: CallId, phase: Phase, e: Event)
    requires id in sys.calls
  {
    sys'.log == sys.log + [e] && Holds(sys', sys.calls[id].lock, id) &&
    sys'.calls == sys.calls[id := sys.calls[id].(phase := phase)]
  }

  predicate PostsCredential(sys: System, sys': System, id: CallId, session: RelaySession)
    requires id in sys.calls && (sys.calls[id].phase.WaitVerify? || HoldsLock(sys.calls[id]))
  {
    var g := sys.calls[id].grantId;
    GoesOn(sys, sys', id, Posting(sys.calls[id].phase.purpose, session), Posted(g, session.refresh.id)) &&
    g in sys.m.s.grants && g in sys'.m.s.grants &&
    sys'.m.s.grants[g] == sys.m.s.grants[g].(refreshPending := true)
  }

  predicate Asks(sys: System, sys': System, id: CallId, session: RelaySession, refreshed: bool)
    requires id in sys.calls && (sys.calls[id].phase.WaitVerify? || HoldsLock(sys.calls[id]))
  {
    GoesOn(sys, sys', id, Asking(sys.calls[id].phase.purpose, session, refreshed), Asked(sys.calls[id].grantId))
  }

  /** The call has its lock and settles on what a stretch came to. */
  lemma Settles(sys: System, id: CallId, result: (State, Outcome))
    requires id in sys.calls && (sys.calls[id].phase.WaitVerify? || HoldsLock(sys.calls[id]))
    requires Holds(sys, sys.calls[id].lock, id)
    ensures
      var call, sys' := sys.calls[id], Settle(sys, id, sys.calls[id].phase.purpose, result);
      sys'.m == result.0 &&
      match result.1
      case Fail => GaveUp(sys, sys', id)
      case Post(session) =>
        GoesOn(sys, sys', id, Posting(call.phase.purpose, session), Posted(call.grantId, session.refresh.id))
      case Ask(session, refreshed) => Asks(sys, sys', id, session, refreshed)
      case Verified =>
        call.lock !in sys'.holder &&
        if call.phase.purpose.Enter? || call.tool.Hello?
        then sys'.log == sys.log && sys'.calls == sys.calls[id := call.(phase := InTool)]
        else sys'.log == sys.log + [Requested(call.grantId, call.token, call.tool.scope)] &&
             sys'.calls == sys.calls[id := call.(phase := Requesting)]
  {
  }

  /** A call that gets the lock of a grant whose token is live and which no refresh is pending for
      asks for the identity when the stored access credential has more than 60 seconds left, and
      otherwise posts the stored refresh credential; any other call gives up. */
  lemma VerificationStarts(sys: System, id: CallId, keep: bool, newLock: LockId)
    requires Reachable(sys) && Offered(sys, Acquire(id, keep, newLock)) && sys.calls[id].phase.WaitVerify?
    ensures
      var (sys', call) := (Take(sys, Acquire(id, keep, newLock)), sys.calls[id]);
      var g := call.grantId;
      if !Admits(sys.m, call.token, g) || RefreshPending(sys.m, g) then
        GaveUp(sys, sys', id) && (Admits(sys.m, call.token, g) ==> !Alive(sys'.m, g))
      else if Lasts(sys.m.s.grants[g].session.access, sys.m.now + 60) then
        Asks(sys, sys', id, sys.m.s.grants[g].session, false) && g in sys'.m.s.grants &&
        sys'.m.s.grants[g] == sys.m.s.grants[g]
      else PostsCredential(sys, sys', id, sys.m.s.grants[g].session)
  {
    StateIsReachable(sys);
    var call := sys.calls[id];
    VerifyIs(sys.m, call.token, call.grantId);
    var held := sys.(holder := sys.holder[call.lock := id]);
    Settles(held, id, Verify(sys.m, call.token, call.grantId));
    hide Reachable, G.Reachable, Verify, Settle, Admits, Alive, Lasts;
  }

  lemma HolderHolds(sys: System, id: CallId)
    requires Reachable(sys) && id in sys.calls && HoldsLock(sys.calls[id])
    ensures Holds(sys, sys.calls[id].lock, id) && PhaseOk(sys.m, sys.calls[id]) && TokenOk(sys.m.h, sys.calls[id])
  {
    ReachableInv(sys);
    CallTokenOk(sys, id);
    hide Inv, Posts, Calls, Reachable;
  }

  /** How each answer to a posted credential ends. Only a rotated pair with time left is stored,
      and only then is the identity asked for, with the new pair. A rejection, and a refresh
      credential that cannot be used, end the grant. */
  lemma RefreshAnswers(sys: System, id: CallId, reply: RefreshReply)
    requires Reachable(sys) && Offered(sys, RefreshAnswered(id, reply))
    ensures
      var (sys', call) := (Take(sys, RefreshAnswered(id, reply)), sys.calls[id]);
      var (g, session) := (call.grantId, call.phase.session);
      match reply
      case NetworkError => GaveUp(sys, sys', id) && sys'.m == sys.m
      case Malformed => GaveUp(sys, sys', id) && sys'.m == sys.m
      case Rejected => GaveUp(sys, sys', id) && !Alive(sys'.m, g)
      case Rotated(access, refresh) =>
        var rotated := session.(access := access, refresh := refresh);
        if !Lasts(access, sys.m.now) then GaveUp(sys, sys', id) && sys'.m == sys.m
        else if !Usable(refresh, sys.m.now) then GaveUp(sys, sys', id) && !Alive(sys'.m, g)
        else if !Alive(sys.m, g) then GaveUp(sys, sys', id) && sys'.m.s == sys.m.s
        else Asks(sys, sys', id, rotated, true) && g in sys'.m.s.grants &&
             sys'.m.s.grants[g].session == rotated && !sys'.m.s.grants[g].refreshPending
  {
    StateIsReachable(sys);
    HolderHolds(sys, id);
    var call := sys.calls[id];
    FinishRefreshIs(sys.m, call.grantId, call.phase.session, reply);
    Settles(sys, id, FinishRefresh(sys.m, call.grantId, call.phase.session, reply));
    StoredIdentity(sys, id);
    hide Reachable, G.Reachable, FinishRefresh, Settle, Lasts, Usable, TokenOk, GaveUp;
  }

  /** The session a call carries is that of its grant's user and workspace. */
  lemma StoredIdentity(sys: System, id: CallId)
    requires Reachable(sys) && id in sys.calls && HoldsLock(sys.calls[id])
    ensures
      var g := sys.calls[id].grantId;
      g in sys.m.s.grants ==>
        sys.m.s.grants[g].session == sys.calls[id].phase.session &&
        SameIdentity(sys.m.s.grants[g], sys.calls[id].phase.session)
  {
    StateIsReachable(sys);
    HolderHolds(sys, id);
    G.ReachableInv(sys.m);
    var g := sys.calls[id].grantId;
    if g in sys.m.s.grants { assert GrantOk(sys.m.h, sys.m.s.resource, g, sys.m.s.grants[g]); }
    hide Inv, Reachable, G.Reachable;
  }

  /** How each answer about the identity ends. The call goes on exactly when the identity is the
      session's own and its token is still live; one first refusal is met with a refresh; another
      identity, or a refusal after a refresh, ends the grant. */
  lemma IdentityAnswers(sys: System, id: CallId, reply: MeReply)
    requires Reachable(sys) && Offered(sys, MeAnswered(id, reply))
    ensures
      var (sys', call) := (Take(sys, MeAnswered(id, reply)), sys.calls[id]);
      var (g, session) := (call.grantId, call.phase.session);
      match reply
      case Unauthorized =>
        if call.phase.refreshed then GaveUp(sys, sys', id) && !Alive(sys'.m, g)
        else if Admits(sys.m, call.token, g) then PostsCredential(sys, sys', id, session)
        else GaveUp(sys, sys', id)
      case Forbidden => GaveUp(sys, sys', id) && sys'.m == sys.m
      case Unavailable => GaveUp(sys, sys', id) && sys'.m == sys.m
      case Identity(userId, workspaceId) =>
        if userId != session.userId || workspaceId != session.workspaceId || userId == "" || workspaceId == ""
        then GaveUp(sys, sys', id) && !Alive(sys'.m, g)
        else if !Admits(sys.m, call.token, g) then GaveUp(sys, sys', id)
        else call.lock !in sys'.holder &&
             if call.phase.purpose.Enter? || call.tool.Hello?
             then sys'.log == sys.log && sys'.calls == sys.calls[id := call.(phase := InTool)]
             else sys'.log == sys.log + [Requested(g, call.token, call.tool.scope)] &&
                  sys'.calls == sys.calls[id := call.(phase := Requesting)]
  {
    StateIsReachable(sys);
    HolderHolds(sys, id);
    var call := sys.calls[id];
    FinishVerifyIs(sys.m, call.token, call.grantId, call.phase.session, call.phase.refreshed, reply);
    Settles(sys, id, FinishVerify(sys.m, call.token, call.grantId, call.phase.session, call.phase.refreshed, reply));
    hide Reachable, G.Reachable, FinishVerify, Settle, AccessTokenOf, TokenOk, GaveUp;
  }

  // --- Refusals are final ---

  /** The upstream rejects the posted credential, refuses even the refreshed one, or knows the
      session as somebody else's. */
  predicate Refuses(sys: System, a: Action)
    requires Offered(sys, a)
  {
    (a.RefreshAnswered? && a.refreshReply.Rejected?) ||
    (a.MeAnswered? && a.meReply.Unauthorized? && sys.calls[a.id].phase.refreshed) ||
    (a.MeAnswered? && a.meReply.Identity? &&
     (a.meReply.userId != sys.calls[a.id].phase.session.userId ||
      a.meReply.workspaceId != sys.calls[a.id].phase.session.workspaceId))
  }

  /** A refusal ends the call's grant at once and for ever, over every continuation. */
  lemma RefusalIsFinal(sys: System, a: Action, more: seq<Action>)
    requires Reachable(sys) && Offered(sys, a) && Refuses(sys, a)
    ensures !Alive(Play(Take(sys, a), more).m, sys.calls[a.id].grantId)
  {
    var (sys', g) := (Take(sys, a), sys.calls[a.id].grantId);
    if a.RefreshAnswered? { RefreshAnswers(sys, a.id, a.refreshReply); } else { IdentityAnswers(sys, a.id, a.meReply); }
    HolderHolds(sys, a.id);
    StateIsReachable(sys);
    ActionIsLater(sys, a);
    LaterIsReachable(sys.m, sys'.m);
    GrantStaysRecorded(sys, a, g);
    PlayIsLater(sys', more);
    hide Reachable, G.Reachable, Later, Take, Play, Alive, GaveUp, PhaseOk, Refuses;
    LaterIsDead(sys'.m, Play(sys', more).m, g);
  }

  lemma GrantStaysRecorded(sys: System, a: Action, g: GrantId)
    requires Reachable(sys) && Offered(sys, a) && g in sys.m.h.grants
    ensures g in Take(sys, a).m.h.grants
  {
    StateIsReachable(sys);
    G.ReachableInv(sys.m);
    ActionIsLater(sys, a);
    hide Take, Inv, Reachable, G.Reachable;
    var ops :| Run(sys.m, ops) == Take(sys, a).m;
    E.RunGrows(sys.m, ops);
  }

  // --- Getting in ---

  /** Calls keep their identity: token, tool, grant and user. */
  ghost predicate SameCalls(calls: map<CallId, Call>, calls': map<CallId, Call>) {
    forall id {:trigger calls'[id]} :: id in calls' ==>
      id in calls && calls'[id] == calls[id].(lock := calls'[id].lock, phase := calls'[id].phase)
  }

  lemma SettleSameCalls(sys: System, id: CallId, purpose: Purpose, result: (State, Outcome))
    requires id in sys.calls
    ensures SameCalls(sys.calls, Settle(sys, id, purpose, result).calls)
  {
    hide SameCalls, Release, P.Without;
    var released := Release(sys.(m := result.0), id);
    ReleaseSameCalls(sys.(m := result.0), id);
    WithoutSameCalls(sys.calls, id);
    forall phase ensures SameCalls(sys.calls, sys.calls[id := sys.calls[id].(phase := phase)]) {
      PhaseSameCalls(sys.calls, id, phase);
    }
  }

  lemma ReleaseSameCalls(sys: System, id: CallId)
    requires id in sys.calls
    ensures Release(sys, id).calls == sys.calls
  {
  }

  lemma WithoutSameCalls(calls: map<CallId, Call>, id: CallId)
    ensures SameCalls(calls, P.Without(calls, id))
  {
  }

  lemma PhaseSameCalls(calls: map<CallId, Call>, id: CallId, phase: Phase)
    requires id in calls
    ensures SameCalls(calls, calls[id := calls[id].(phase := phase)])
  {
  }

  lemma ActionSameCalls(sys: System, a: Action)
    requires Offered(sys, a) && !a.Start?
    ensures SameCalls(sys.calls, Take(sys, a).calls)
  {
    match a
    case Acquire(id, keep, newLock) => AcquireSameCalls(sys, a);
    case RefreshAnswered(id, reply) =>
      var call := sys.calls[id];
      SettleSameCalls(sys, id, call.phase.purpose, FinishRefresh(sys.m, call.grantId, call.phase.session, reply));
      hide Settle, FinishRefresh, SameCalls;
    case MeAnswered(id, reply) =>
      var call := sys.calls[id];
      SettleSameCalls(sys, id, call.phase.purpose,
        FinishVerify(sys.m, call.token, call.grantId, call.phase.session, call.phase.refreshed, reply));
      hide Settle, FinishVerify, SameCalls;
    case _ => hide Step, Settle, StartCall;
  }

  lemma AcquireSameCalls(sys: System, a: Action)
    requires Offered(sys, a) && a.Acquire?
    ensures SameCalls(sys.calls, Take(sys, a).calls)
  {
    var call := sys.calls[a.id];
    if call.phase.WaitContext? {
      hide Step, P.LoadSession, Settle;
    } else {
      SettleSameCalls(sys.(holder := sys.holder[call.lock := a.id]), a.id, call.phase.purpose,
        Verify(sys.m, call.token, call.grantId));
      hide Settle, Verify, SameCalls;
    }
  }

  /** A call knows the user of its grant. */
  ghost predicate Subjects(m: State, calls: map<CallId, Call>) {
    forall id {:trigger calls[id]} :: id in calls ==>
      calls[id].grantId in m.h.grants && calls[id].subject == m.h.grants[calls[id].grantId].subject
  }

  lemma SubjectsStay(sys: System, sys': System)
    requires Subjects(sys.m, sys.calls) && SameCalls(sys.calls, sys'.calls) && E.Grows(sys.m.h, sys'.m.h)
    ensures Subjects(sys'.m, sys'.calls)
  {
    assert Subjects(sys.m, sys'.calls);
    hide SameCalls, Subjects, E.Grows;
    SubjectsGrow(sys.m, sys'.m, sys'.calls);
  }

  lemma LaterGrows(m: State, m': State)
    requires Inv(m) && Later(m, m')
    ensures E.Grows(m.h, m'.h)
  {
    var ops :| Run(m, ops) == m';
    E.RunGrows(m, ops);
  }

  /** The lock object of the other calls of the grant, if there is one. */
  predicate SharesLock(calls: map<CallId, Call>, g: GrantId, l: LockId) {
    forall other {:trigger calls[other]} ::
      other in calls && HasLockRef(calls[other]) && calls[other].grantId == g ==> calls[other].lock == l
  }

  ghost predicate LocksKnown(sys: System) {
    forall id {:trigger sys.calls[id]} :: id in sys.calls && HasLockRef(sys.calls[id]) ==>
      sys.calls[id].grantId in sys.lockOf && sys.lockOf[sys.calls[id].grantId] == sys.calls[id].lock
  }

  lemma InvLocksKnown(sys: System)
    requires SysInv(sys)
    ensures LocksKnown(sys)
  {
    hide Inv, Calls, Posts;
  }

  lemma WantsLock(sys: System, id: CallId, phase: Phase, keep: bool, newLock: LockId)
    requires LocksKnown(sys) && id in sys.calls && !HasLockRef(sys.calls[id])
    ensures
      var sys' := WantLock(sys, id, phase, keep, newLock);
      id in sys'.calls && var l := sys'.calls[id].lock;
      sys'.m == sys.m && sys'.log == sys.log && sys'.holder == sys.holder &&
      sys'.calls == sys.calls[id := sys.calls[id].(lock := l, phase := phase)] &&
      SharesLock(sys.calls, sys.calls[id].grantId, l)
  {
    forall other | other in sys.calls && HasLockRef(sys.calls[other])
      ensures Referenced(sys.calls, sys.calls[other].lock) { }
  }

  lemma AddedLocksKnown(sys: System, m': State, id: CallId, call: Call)
    requires LocksKnown(sys) && id !in sys.calls && call.phase.InTool?
    ensures LocksKnown(sys.(m := m', calls := sys.calls[id := call]))
    ensures forall g, l :: SharesLock(sys.calls[id := call], g, l) ==> SharesLock(sys.calls, g, l)
  {
    forall g, l | SharesLock(sys.calls[id := call], g, l) ensures SharesLock(sys.calls, g, l) {
      forall other | other in sys.calls && HasLockRef(sys.calls[other]) && sys.calls[other].grantId == g
        ensures sys.calls[other].lock == l
      {
        assert sys.calls[id := call][other] == sys.calls[other];
      }
    }
  }

  /** A call is admitted exactly with a live access token that has the tool's scope, if it needs one;
      it waits for its grant's lock, the one any other call of the grant refers to. */
  lemma CallStarts(sys: System, id: CallId, t: Token, tool: Tool, keep: bool, newLock: LockId)
    requires Reachable(sys) && Offered(sys, Start(id, t, tool, keep, newLock))
    ensures
      var sys' := Take(sys, Start(id, t, tool, keep, newLock));
      sys'.log == sys.log && sys'.holder == sys.holder &&
      if t in sys.m.h.tokens && Admits(sys.m, t, sys.m.h.tokens[t].grant) &&
         (tool.Scoped? ==> tool.scope in sys.m.h.tokens[t].scopes)
      then
        var g := sys.m.h.tokens[t].grant;
        g in sys.m.s.grants && id in sys'.calls && sys'.calls == sys.calls[id := sys'.calls[id]] &&
        sys'.calls[id] == Call(t, tool, g, sys.m.s.grants[g].subject, sys'.calls[id].lock, WaitContext) &&
        SharesLock(sys.calls, g, sys'.calls[id].lock)
      else sys'.calls == sys.calls
  {
    StateIsReachable(sys);
    ReachableInv(sys);
    InvLocksKnown(sys);
    LoadedTokenIs(sys.m, t);
    StartIs(sys, id, t, tool, keep, newLock);
    hide G.Reachable, Reachable, SysInv, P.LoadAccess, StartCall, AccessTokenOf, LocksKnown, SharesLock;
  }

  lemma StartIs(sys: System, id: CallId, t: Token, tool: Tool, keep: bool, newLock: LockId)
    requires LocksKnown(sys) && id !in sys.calls
    ensures
      var sys' := StartCall(sys, id, t, tool, keep, newLock);
      var info := P.LoadAccess(sys.m.s, t, sys.m.now).1;
      sys'.log == sys.log && sys'.holder == sys.holder && sys'.m == Step(sys.m, LoadAccess(t)) &&
      if info.Some? && (tool.Scoped? ==> tool.scope in info.value.scopes)
      then
        id in sys'.calls && var l := sys'.calls[id].lock;
        sys'.calls == sys.calls[id := Call(t, tool, info.value.grantId, info.value.subject, l, WaitContext)] &&
        SharesLock(sys.calls, info.value.grantId, l)
      else sys'.calls == sys.calls
  {
    hide P.LoadAccess, Step, WantLock, LocksKnown, SharesLock;
    var info, m1 := P.LoadAccess(sys.m.s, t, sys.m.now).1, Step(sys.m, LoadAccess(t));
    if info.Some? && (tool.Scoped? ==> tool.scope in info.value.scopes) {
      var call := Call(t, tool, info.value.grantId, info.value.subject, newLock, InTool);
      AddedLocksKnown(sys, m1, id, call);
      WantsLock(sys.(m := m1, calls := sys.calls[id := call]), id, WaitContext, keep, newLock);
    }
  }

  lemma {:induction false} PlayKeepsSubjects(sys: System, actions: seq<Action>)
    requires SysInv(sys) && G.Reachable(sys.m) && Subjects(sys.m, sys.calls)
    ensures Subjects(Play(sys, actions).m, Play(sys, actions).calls)
    decreases |actions|
  {
    hide SysInv, G.Reachable, Subjects, Take, Offered;
    if actions != [] {
      if Offered(sys, actions[0]) { ActionKeepsSubjects(sys, actions[0]); }
      AdvanceKeeps(sys, actions[0]);
      PlayKeepsSubjects(Advance(sys, actions[0]), actions[1..]);
    }
  }

  lemma ActionKeepsSubjects(sys: System, a: Action)
    requires SysInv(sys) && G.Reachable(sys.m) && Subjects(sys.m, sys.calls) && Offered(sys, a)
    ensures Subjects(Take(sys, a).m, Take(sys, a).calls) && G.Reachable(Take(sys, a).m)
  {
    ActionIsLater(sys, a);
    LaterIsReachable(sys.m, Take(sys, a).m);
    G.ReachableInv(sys.m);
    LaterGrows(sys.m, Take(sys, a).m);
    hide SysInv, G.Reachable, Inv, Take, Later, E.Grows, Subjects, SameCalls;
    if a.Start? {
      StartedSubjects(sys, a);
    } else {
      ActionSameCalls(sys, a);
      SubjectsStay(sys, Take(sys, a));
    }
  }

  lemma SubjectsGrow(m: State, m': State, calls: map<CallId, Call>)
    requires Subjects(m, calls) && E.Grows(m.h, m'.h)
    ensures Subjects(m', calls)
  {
    forall id | id in calls
      ensures calls[id].grantId in m'.h.grants && calls[id].subject == m'.h.grants[calls[id].grantId].subject
    {
      assert calls[id].grantId in m.h.grants;
    }
  }

  lemma LoadedUser(m: State, t: Token)
    requires G.Reachable(m)
    ensures
      var info := P.LoadAccess(m.s, t, m.now).1;
      info.Some? ==> info.value.grantId in m.h.grants && info.value.subject == m.h.grants[info.value.grantId].subject
  {
    LoadedTokenIs(m, t);
    G.ReachableInv(m);
    var info := P.LoadAccess(m.s, t, m.now).1;
    if info.Some? { assert GrantOk(m.h, m.s.resource, info.value.grantId, m.s.grants[info.value.grantId]); }
    hide Inv, G.Reachable, P.LoadAccess;
  }

  lemma SubjectJoins(m: State, calls: map<CallId, Call>, id: CallId, call: Call)
    requires Subjects(m, calls) && call.grantId in m.h.grants && call.subject == m.h.grants[call.grantId].subject
    ensures Subjects(m, calls[id := call])
  {
  }

  lemma TakesStart(sys: System, a: Action)
    requires Offered(sys, a) && a.Start?
    ensures a.id !in sys.calls && Take(sys, a) == StartCall(sys, a.id, a.token, a.tool, a.keep, a.newLock)
  {
  }

  lemma StartedSubjects(sys: System, a: Action)
    requires SysInv(sys) && G.Reachable(sys.m) && Subjects(sys.m, sys.calls) && Offered(sys, a) && a.Start?
    requires E.Grows(sys.m.h, Take(sys, a).m.h)
    ensures Subjects(Take(sys, a).m, Take(sys, a).calls)
  {
    InvLocksKnown(sys);
    LoadedUser(sys.m, a.token);
    TakesStart(sys, a);
    StartIs(sys, a.id, a.token, a.tool, a.keep, a.newLock);
    hide *;
    var (sys', info) := (Take(sys, a), P.LoadAccess(sys.m.s, a.token, sys.m.now).1);
    if a.id in sys'.calls { SubjectJoins(sys.m, sys.calls, a.id, sys'.calls[a.id]); }
    SubjectsGrow(sys.m, sys'.m, sys'.calls);
  }

  lemma ReachableSubjects(sys: System)
    requires Reachable(sys)
    ensures Subjects(sys.m, sys.calls)
  {
    hide SysInv, G.Reachable;
    var resource, grantTtl, now, actions :| grantTtl > 0 && sys == Play(Boot(resource, grantTtl, now), actions);
    BootInv(resource, grantTtl, now);
    BootIsReachable(resource, grantTtl, now);
    PlayKeepsSubjects(Boot(resource, grantTtl, now), actions);
  }

  lemma BootIsReachable(resource: Resource, grantTtl: int, now: Time)
    requires grantTtl > 0
    ensures G.Reachable(Boot(resource, grantTtl, now).m)
  {
    assert Run(Init(resource, grantTtl, now), []) == Init(resource, grantTtl, now);
  }

  /** A call gets in exactly when its grant is alive and no refresh is pending: into the tool, or to
      its verification, again by the lock of the grant's other calls. */
  lemma CallEnters(sys: System, id: CallId, keep: bool, newLock: LockId)
    requires Reachable(sys) && Offered(sys, Acquire(id, keep, newLock)) && sys.calls[id].phase.WaitContext?
    ensures
      var (sys', call) := (Take(sys, Acquire(id, keep, newLock)), sys.calls[id]);
      var g := call.grantId;
      sys'.log == sys.log &&
      if !Alive(sys.m, g) || RefreshPending(sys.m, g) then
        id !in sys'.calls && (Alive(sys.m, g) ==> !Alive(sys'.m, g))
      else if call.tool.Hello? then sys'.calls == sys.calls[id := call.(phase := InTool)]
      else id in sys'.calls && var l := sys'.calls[id].lock;
           sys'.calls == sys.calls[id := call.(phase := WaitVerify(Enter), lock := l)] &&
           SharesLock(sys.calls[id := call.(phase := InTool)], g, l)
  {
    StateIsReachable(sys);
    ReachableInv(sys);
    InvLocksKnown(sys);
    ReachableSubjects(sys);
    var call := sys.calls[id];
    StoredSubject(sys.m, call.grantId);
    assert call.grantId in sys.m.h.grants && call.subject == sys.m.h.grants[call.grantId].subject;
    LoadingIs(sys.m, call.grantId);
    EnterIs(sys, id, keep, newLock);
    TakesEntry(sys, id, keep, newLock);
    hide G.Reachable, Reachable, SysInv, Step, P.LoadSession, EnterContext, LocksKnown, SharesLock, Subjects, Take,
      Offered;
  }

  lemma TakesEntry(sys: System, id: CallId, keep: bool, newLock: LockId)
    requires Offered(sys, Acquire(id, keep, newLock)) && sys.calls[id].phase.WaitContext?
    ensures Take(sys, Acquire(id, keep, newLock)) == EnterContext(sys, id, keep, newLock)
  {
  }

  lemma EnterIs(sys: System, id: CallId, keep: bool, newLock: LockId)
    requires LocksKnown(sys) && id in sys.calls
    ensures
      var (sys', call) := (EnterContext(sys, id, keep, newLock), sys.calls[id]);
      var loaded := P.LoadSession(sys.m.s, call.grantId, sys.m.now).1;
      sys'.log == sys.log && sys'.m == Step(sys.m, LoadSession(call.grantId)) &&
      if loaded.None? || loaded.value.userId != call.subject then id !in sys'.calls
      else if call.tool.Hello? then sys'.calls == sys.calls[id := call.(phase := InTool)]
      else id in sys'.calls && var l := sys'.calls[id].lock;
           sys'.calls == sys.calls[id := call.(phase := WaitVerify(Enter), lock := l)] &&
           SharesLock(sys.calls[id := call.(phase := InTool)], call.grantId, l)
  {
    var sys1 := SetPhase(sys.(m := Step(sys.m, LoadSession(sys.calls[id].grantId))), id, InTool);
    hide Step, P.LoadSession, SharesLock, WantLock;
    assert LocksKnown(sys1);
    hide LocksKnown;
    WantsLock(sys1, id, WaitVerify(Enter), keep, newLock);
  }

  lemma StoredSubject(m: State, g: GrantId)
    requires G.Reachable(m) && g in m.h.grants
    ensures g in m.s.grants ==>
      m.s.grants[g].session.userId == m.s.grants[g].subject && m.s.grants[g].subject == m.h.grants[g].subject
  {
    G.ReachableInv(m);
    if g in m.s.grants { assert GrantOk(m.h, m.s.resource, g, m.s.grants[g]); }
    hide Inv, G.Reachable;
  }

  /** The tool's code waits for the lock before each request, again the one of the grant's other
      calls. */
  lemma RequestBegins(sys: System, id: CallId, keep: bool, newLock: LockId)
    requires Reachable(sys) && Offered(sys, BeginRequest(id, keep, newLock))
    ensures
      var sys' := Take(sys, BeginRequest(id, keep, newLock));
      sys'.log == sys.log && sys'.m == sys.m && id in sys'.calls && var l := sys'.calls[id].lock;
      sys'.calls == sys.calls[id := sys.calls[id].(phase := WaitVerify(Request), lock := l)] &&
      SharesLock(sys.calls, sys.calls[id].grantId, l)
  {
    ReachableInv(sys);
    InvLocksKnown(sys);
    hide Reachable, SysInv, WantLock, SharesLock, LocksKnown;
    WantsLock(sys, id, WaitVerify(Request), keep, newLock);
  }

  /** After its request the call is back in the tool's code; a call that ends gives its lock back;
      a crash leaves no call and no lock. */
  lemma CallsMoveOn(sys: System, a: Action)
    requires Reachable(sys) && Offered(sys, a) && (a.FinishRequest? || a.End? || a.Crash?)
    ensures
      var sys' := Take(sys, a);
      sys'.log == sys.log &&
      match a
      case FinishRequest(id) => sys' == sys.(calls := sys.calls[id := sys.calls[id].(phase := InTool)])
      case End(id) =>
        sys'.m == sys.m && sys'.calls == P.Without(sys.calls, id) &&
        (HoldsLock(sys.calls[id]) ==> sys.calls[id].lock !in sys'.holder)
      case Crash(_) => sys'.calls == map[] && sys'.holder == map[]
  {
    hide Reachable, Step;
    if a.End? { LeavingIs(sys, a.id); }
  }

  lemma LeavingIs(sys: System, id: CallId)
    requires Reachable(sys) && id in sys.calls
    ensures
      var sys' := Leave(sys, id);
      sys'.m == sys.m && sys'.log == sys.log && sys'.calls == P.Without(sys.calls, id) &&
      (HoldsLock(sys.calls[id]) ==> sys.calls[id].lock !in sys'.holder)
  {
    if HoldsLock(sys.calls[id]) { HolderHolds(sys, id); }
    hide Reachable;
  }
}
