/** The promises of the delegated session over every run: tool calls interleaved at every
    suspension point with each other, with other parties' requests, cancellation and crashes. */
module SessionTheorems {
  import opened OAuthTypes
  import opened Machine
  import opened Invariant
  import opened UserSession
  import opened SessionSafety
  import opened SessionInvariant
  import P = ProviderModel

  // --- Actions keep the invariant ---

  lemma LeaveKeeps(sys: System, id: CallId)
    requires SysInv(sys) && id in sys.calls
    ensures SysInv(Leave(sys, id))
  {
    hide Inv, PhaseOk, TokenOk;
    assert Locks(sys, {id});
    PostsFrame(sys, Leave(sys, id));
    hide Locks, Posts;
    LeaveLocks(sys, id);
  }

  lemma IdleKeeps(sys: System, id: CallId, phase: Phase)
    requires SysInv(sys) && id in sys.calls && !HoldsLock(sys.calls[id]) && (phase.InTool? || phase.Requesting?)
    ensures SysInv(SetPhase(sys, id, phase))
  {
    PostsFrame(sys, SetPhase(sys, id, phase));
    hide Inv, Locks, Posts;
    IdleLocks(sys, id, phase);
  }

  lemma WantKeeps(sys: System, id: CallId, phase: Phase, keep: bool, newLock: LockId)
    requires SysInv(sys) && id in sys.calls && !HasLockRef(sys.calls[id]) && (phase.WaitContext? || phase.WaitVerify?)
    ensures SysInv(WantLock(sys, id, phase, keep, newLock))
  {
    PostsFrame(sys, WantLock(sys, id, phase, keep, newLock));
    hide Inv, Locks, Posts;
    WantLocks(sys, id, phase, keep, newLock);
  }

  lemma NewCallLocks(sys: System, id: CallId, call: Call)
    requires Locks(sys, {}) && id !in sys.calls && call.phase.InTool?
    ensures Locks(sys.(calls := sys.calls[id := call]), {})
  {
  }

  lemma NewCallCalls(sys: System, id: CallId, call: Call)
    requires Calls(sys) && id !in sys.calls && call.phase.InTool? && TokenOk(sys.m.h, call)
    ensures Calls(sys.(calls := sys.calls[id := call]))
  {
    hide TokenOk;
  }

  lemma AddCallKeeps(sys: System, id: CallId, call: Call)
    requires SysInv(sys) && id !in sys.calls && call.phase.InTool? && TokenOk(sys.m.h, call)
    ensures SysInv(sys.(calls := sys.calls[id := call]))
  {
    PostsFrame(sys, sys.(calls := sys.calls[id := call]));
    hide Inv, Posts, Locks, Calls, TokenOk;
    NewCallLocks(sys, id, call);
    NewCallCalls(sys, id, call);
  }

  lemma SparingKeeps(sys: System, m': State)
    requires SysInv(sys) && Inv(m') && Spares(sys.m, m', {})
    ensures SysInv(sys.(m := m'))
  {
    SparingBystands(sys.m, m');
    BystandingKeeps(sys, m');
  }

  /** A loaded access token is the one the history knows, with its scopes. */
  lemma LoadedTokenOk(m: State, t: Token, call: Call)
    requires Inv(m) && P.FindToken(m.s, t, Access, m.now).Some? && call.token == t
    requires
      var info := P.FindToken(m.s, t, Access, m.now).value;
      call.grantId == info.grantId && (call.tool.Scoped? ==> call.tool.scope in info.scopes)
    ensures TokenOk(m.h, call)
  {
    assert RowOk(m.h, m.s.grants, t, m.s.tokens[t]);
    assert TokenRecOk(m.h, m.now, m.h.tokens[t]);
  }

  lemma CheckedToken(sys: System, t: Token)
    requires SysInv(sys)
    ensures
      var m1 := Step(sys.m, LoadAccess(t));
      SysInv(sys.(m := m1)) && Inv(m1) && P.LoadAccess(sys.m.s, t, sys.m.now).1 == P.FindToken(m1.s, t, Access, m1.now)
  {
    ReadingSpares(sys.m, LoadAccess(t));
    hide Inv, Spares, SysInv;
    SparingKeeps(sys, Step(sys.m, LoadAccess(t)));
  }

  lemma AdmitKeeps(sys: System, id: CallId, call: Call, keep: bool, newLock: LockId)
    requires SysInv(sys) && id !in sys.calls && call.phase.InTool? && TokenOk(sys.m.h, call)
    ensures SysInv(WantLock(sys.(calls := sys.calls[id := call]), id, WaitContext, keep, newLock))
  {
    hide SysInv, TokenOk, WantLock;
    AddCallKeeps(sys, id, call);
    WantKeeps(sys.(calls := sys.calls[id := call]), id, WaitContext, keep, newLock);
  }

  lemma StartKeeps(sys: System, id: CallId, t: Token, tool: Tool, keep: bool, newLock: LockId)
    requires SysInv(sys) && id !in sys.calls
    ensures SysInv(StartCall(sys, id, t, tool, keep, newLock))
  {
    CheckedToken(sys, t);
    hide SysInv, Inv, Step, P.LoadAccess, P.FindToken, TokenOk, WantLock;
    var m1 := Step(sys.m, LoadAccess(t));
    var info := P.LoadAccess(sys.m.s, t, sys.m.now).1;
    if info.Some? && !(tool.Scoped? && tool.scope !in info.value.scopes) {
      var call := Call(t, tool, info.value.grantId, info.value.subject, newLock, InTool);
      LoadedTokenOk(m1, t, call);
      AdmitKeeps(sys.(m := m1), id, call, keep, newLock);
      assert StartCall(sys, id, t, tool, keep, newLock) ==
        WantLock(sys.(m := m1, calls := sys.calls[id := call]), id, WaitContext, keep, newLock);
    }
  }

  lemma LoadingKeeps(sys: System, g: GrantId)
    requires SysInv(sys)
    ensures SysInv(sys.(m := Step(sys.m, LoadSession(g))))
  {
    LoadedSpares(sys.m, g);
    hide Inv, Spares, SysInv, Step;
    SparingKeeps(sys, Step(sys.m, LoadSession(g)));
  }

  lemma EnterContextKeeps(sys: System, id: CallId, keep: bool, newLock: LockId)
    requires SysInv(sys) && id in sys.calls && sys.calls[id].phase.WaitContext?
    ensures SysInv(EnterContext(sys, id, keep, newLock))
  {
    hide SysInv, Step, P.LoadSession, WantLock, Leave;
    var sys1 := sys.(m := Step(sys.m, LoadSession(sys.calls[id].grantId)));
    LoadingKeeps(sys, sys.calls[id].grantId);
    LeaveKeeps(sys1, id);
    EnteredKeeps(sys1, id, keep, newLock);
  }

  lemma EnteredKeeps(sys: System, id: CallId, keep: bool, newLock: LockId)
    requires SysInv(sys) && id in sys.calls && sys.calls[id].phase.WaitContext?
    ensures SysInv(SetPhase(sys, id, InTool)) &&
      SysInv(WantLock(SetPhase(sys, id, InTool), id, WaitVerify(Enter), keep, newLock))
  {
    hide SysInv, WantLock;
    IdleKeeps(sys, id, InTool);
    WantKeeps(SetPhase(sys, id, InTool), id, WaitVerify(Enter), keep, newLock);
  }

  lemma VerifyIsSound(sys: System, id: CallId)
    requires id in sys.calls && Inv(sys.m)
    ensures Sound(sys, id, Verify(sys.m, sys.calls[id].token, sys.calls[id].grantId))
  {
    VerifySpares(sys.m, sys.calls[id].token, sys.calls[id].grantId);
    hide Inv, Spares, Verify;
  }

  lemma TakingIsHolding(sys: System, id: CallId)
    requires SysInv(sys) && id in sys.calls && sys.calls[id].phase.WaitVerify? && sys.calls[id].lock !in sys.holder
    ensures Holding(sys.(holder := sys.holder[sys.calls[id].lock := id]), id)
  {
    var held := sys.(holder := sys.holder[sys.calls[id].lock := id]);
    PostsFrame(sys, held);
    hide Inv, Posts, Locks;
    TakeLocks(sys, id);
  }

  lemma AcquireKeeps(sys: System, id: CallId, purpose: Purpose)
    requires SysInv(sys) && id in sys.calls && sys.calls[id].phase.WaitVerify? && sys.calls[id].lock !in sys.holder
    ensures SysInv(AcquireForVerify(sys, id, purpose))
  {
    var held := sys.(holder := sys.holder[sys.calls[id].lock := id]);
    TakingIsHolding(sys, id);
    assert Inv(held.m);
    hide Inv;
    VerifyIsSound(held, id);
    hide SysInv, Holding, Sound, Verify;
    SettleKeeps(held, id, purpose, Verify(sys.m, sys.calls[id].token, sys.calls[id].grantId));
  }

  lemma ExchangingIsHolding(sys: System, id: CallId)
    requires SysInv(sys) && id in sys.calls && HoldsLock(sys.calls[id])
    ensures Holding(sys, id) && PhaseOk(sys.m, sys.calls[id])
  {
    assert Locks(sys, {id});
    hide Inv, Posts;
  }

  lemma FinishRefreshIsSound(sys: System, id: CallId, reply: RefreshReply)
    requires id in sys.calls && Inv(sys.m) && sys.calls[id].phase.Posting? &&
      (reply.Rotated? ==> reply.refresh.id !in sys.m.h.lineage)
    ensures Sound(sys, id, FinishRefresh(sys.m, sys.calls[id].grantId, sys.calls[id].phase.session, reply))
  {
    FinishRefreshSpares(sys.m, sys.calls[id].token, sys.calls[id].grantId, sys.calls[id].phase.session, reply);
    hide Inv, Spares, FinishRefresh;
  }

  lemma FinishVerifyIsSound(sys: System, id: CallId, reply: MeReply)
    requires id in sys.calls && Inv(sys.m) && sys.calls[id].phase.Asking? && PhaseOk(sys.m, sys.calls[id])
    ensures Sound(sys, id, FinishVerify(sys.m, sys.calls[id].token, sys.calls[id].grantId, sys.calls[id].phase.session,
      sys.calls[id].phase.refreshed, reply))
  {
    FinishVerifySpares(sys.m, sys.calls[id].token, sys.calls[id].grantId, sys.calls[id].phase.session,
      sys.calls[id].phase.refreshed, reply);
    hide Inv, Spares, FinishVerify;
  }

  lemma RefreshAnsweredKeeps(sys: System, id: CallId, reply: RefreshReply)
    requires SysInv(sys) && Offered(sys, RefreshAnswered(id, reply))
    ensures SysInv(Take(sys, RefreshAnswered(id, reply)))
  {
    ExchangingIsHolding(sys, id);
    FinishRefreshIsSound(sys, id, reply);
    hide SysInv, Holding, Sound, FinishRefresh, Settle;
    var call := sys.calls[id];
    SettleKeeps(sys, id, call.phase.purpose, FinishRefresh(sys.m, call.grantId, call.phase.session, reply));
  }

  lemma MeAnsweredKeeps(sys: System, id: CallId, reply: MeReply)
    requires SysInv(sys) && Offered(sys, MeAnswered(id, reply))
    ensures SysInv(Take(sys, MeAnswered(id, reply)))
  {
    ExchangingIsHolding(sys, id);
    FinishVerifyIsSound(sys, id, reply);
    hide SysInv, Holding, Sound, FinishVerify, Settle;
    var call := sys.calls[id];
    SettleKeeps(sys, id, call.phase.purpose,
      FinishVerify(sys.m, call.token, call.grantId, call.phase.session, call.phase.refreshed, reply));
  }

  lemma CrashKeeps(sys: System, grantTtl: int)
    requires SysInv(sys)
    ensures SysInv(Take(sys, Crash(grantTtl)))
  {
    RestartBystands(sys.m, grantTtl);
    BystandingKeepsPosts(sys, Step(sys.m, Restart(grantTtl)));
    PostsFrame(sys.(m := Step(sys.m, Restart(grantTtl))), Take(sys, Crash(grantTtl)));
    hide Inv, Posts, Step;
  }

  lemma ServeKeeps(sys: System, op: Op)
    requires SysInv(sys) && Outside(op)
    ensures SysInv(sys.(m := Step(sys.m, op)))
  {
    assert Inv(sys.m);
    hide SysInv, Inv, Step, Bystands;
    OutsideBystands(sys.m, op);
    BystandingKeeps(sys, Step(sys.m, op));
  }

  lemma AdvanceKeeps(sys: System, a: Action)
    requires SysInv(sys)
    ensures SysInv(Advance(sys, a))
  {
    hide SysInv, Step, StartCall, EnterContext, AcquireForVerify, Settle, WantLock, Leave, FinishRefresh, FinishVerify;
    if Offered(sys, a) {
      match a
      case Serve(op) => ServeKeeps(sys, op);
      case Start(id, t, tool, keep, newLock) => StartKeeps(sys, id, t, tool, keep, newLock);
      case Acquire(id, keep, newLock) =>
        if sys.calls[id].phase.WaitContext? { EnterContextKeeps(sys, id, keep, newLock); }
        else { AcquireKeeps(sys, id, sys.calls[id].phase.purpose); }
      case RefreshAnswered(id, reply) => RefreshAnsweredKeeps(sys, id, reply);
      case MeAnswered(id, reply) => MeAnsweredKeeps(sys, id, reply);
      case BeginRequest(id, keep, newLock) => WantKeeps(sys, id, WaitVerify(Request), keep, newLock);
      case FinishRequest(id) => IdleKeeps(sys, id, InTool);
      case End(id) => LeaveKeeps(sys, id);
      case Crash(grantTtl) => CrashKeeps(sys, grantTtl);
    }
  }

  lemma {:induction false} PlayKeeps(sys: System, actions: seq<Action>)
    requires SysInv(sys)
    ensures SysInv(Play(sys, actions))
    decreases |actions|
  {
    hide SysInv, Advance;
    if actions != [] {
      AdvanceKeeps(sys, actions[0]);
      PlayKeeps(Advance(sys, actions[0]), actions[1..]);
    }
  }

  ghost predicate Reachable(sys: System) {
    exists resource, grantTtl, now, actions {:trigger Play(Boot(resource, grantTtl, now), actions)} ::
      grantTtl > 0 && sys == Play(Boot(resource, grantTtl, now), actions)
  }

  lemma BootInv(resource: Resource, grantTtl: int, now: Time)
    requires grantTtl > 0
    ensures SysInv(Boot(resource, grantTtl, now))
  {
    InitInv(resource, grantTtl, now);
    hide Inv;
  }

  lemma ReachableInv(sys: System)
    requires Reachable(sys)
    ensures SysInv(sys)
  {
    hide SysInv;
    var resource, grantTtl, now, actions :| grantTtl > 0 && sys == Play(Boot(resource, grantTtl, now), actions);
    BootInv(resource, grantTtl, now);
    PlayKeeps(Boot(resource, grantTtl, now), actions);
  }

  // --- Locks ---

  /** Although lock objects are dropped and recreated, no two calls of one grant are ever in an
      upstream exchange at once. */
  lemma MutualExclusion(sys: System, id: CallId, other: CallId)
    requires Reachable(sys) && id in sys.calls && other in sys.calls && HoldsLock(sys.calls[id]) &&
      HoldsLock(sys.calls[other])
    ensures sys.calls[id].grantId == sys.calls[other].grantId ==> id == other
  {
    ReachableInv(sys);
    if sys.calls[id].grantId == sys.calls[other].grantId {
      OneHolderPerGrant(sys, id, other, {});
    }
  }

  /** No lock leaks: whoever holds one is a running call in an upstream exchange, and it is that
      call's own lock. */
  lemma HeldLocksAreInUse(sys: System, l: LockId)
    requires Reachable(sys) && l in sys.holder
    ensures sys.holder[l] in sys.calls && HoldsLock(sys.calls[sys.holder[l]]) && sys.calls[sys.holder[l]].lock == l
  {
    ReachableInv(sys);
  }

  // --- Each upstream credential is posted at most once ---

  lemma CredentialPostedAtMostOnce(sys: System, i: nat, j: nat)
    requires Reachable(sys) && i < j < |sys.log| && sys.log[i].Posted? && sys.log[j].Posted?
    ensures sys.log[i].credential != sys.log[j].credential
  {
    ReachableInv(sys);
  }

  // --- Upstream calls start live ---

  /** What holds at the instant an upstream call starts. */
  predicate StartsWell(m: State, e: Event) {
    Live(m, e.grantId) &&
    match e
    case Posted(g, credential) => m.s.grants[g].refreshPending && m.s.grants[g].session.refresh.id == credential
    case Asked(g) => !m.s.grants[g].refreshPending
    case Requested(g, t, scope) =>
      var info := P.FindToken(m.s, t, Access, m.now);
      !m.s.grants[g].refreshPending && info.Some? && info.value.grantId == g && scope in info.value.scopes
  }

  ghost predicate NewEventsStartWell(sys: System, sys': System) {
    |sys.log| <= |sys'.log| && sys'.log[..|sys.log|] == sys.log &&
    forall i {:trigger sys'.log[i]} :: |sys.log| <= i < |sys'.log| ==> StartsWell(sys'.m, sys'.log[i])
  }

  lemma ScopeIsStillThere(m: State, call: Call)
    requires Inv(m) && TokenOk(m.h, call) && call.tool.Scoped? && P.FindToken(m.s, call.token, Access, m.now).Some?
    ensures call.tool.scope in P.FindToken(m.s, call.token, Access, m.now).value.scopes
  {
    assert RowOk(m.h, m.s.grants, call.token, m.s.tokens[call.token]);
  }

  /** What settling logs: at most the call the outcome announces. */
  lemma SettleLog(sys: System, id: CallId, purpose: Purpose, result: (State, Outcome))
    requires id in sys.calls
    ensures
      var call, sys' := sys.calls[id], Settle(sys, id, purpose, result);
      sys'.m == result.0 &&
      match result.1
      case Fail => sys'.log == sys.log
      case Post(session) => sys'.log == sys.log + [Posted(call.grantId, session.refresh.id)]
      case Ask(_, _) => sys'.log == sys.log + [Asked(call.grantId)]
      case Verified =>
        sys'.log == sys.log ||
        (call.tool.Scoped? && sys'.log == sys.log + [Requested(call.grantId, call.token, call.tool.scope)])
  {
  }

  lemma OneEventStartsWell(sys: System, sys': System, e: Event)
    requires sys'.log == sys.log + [e] && StartsWell(sys'.m, e)
    ensures NewEventsStartWell(sys, sys')
  {
    hide StartsWell;
  }

  lemma RequestStartsWell(sys: System, id: CallId, result: (State, Outcome))
    requires id in sys.calls && Inv(sys.m) && Sound(sys, id, result) && TokenOk(sys.m.h, sys.calls[id]) &&
      sys.calls[id].tool.Scoped?
    requires result.1.Verified? && (sys.calls[id].grantId in sys.m.s.grants ==>
      !sys.m.s.grants[sys.calls[id].grantId].refreshPending)
    ensures StartsWell(result.0, Requested(sys.calls[id].grantId, sys.calls[id].token, sys.calls[id].tool.scope))
  {
    var call := sys.calls[id];
    TokenFrame(sys.m.h, result.0.h, call);
    ScopeIsStillThere(result.0, call);
    assert result.0.s.grants[call.grantId].refreshPending == sys.m.s.grants[call.grantId].refreshPending;
    hide Inv, TokenOk, P.FindToken;
  }

  lemma RefreshStartsWell(sys: System, id: CallId, result: (State, Outcome))
    requires id in sys.calls && Sound(sys, id, result)
    ensures result.1.Post? ==> StartsWell(result.0, Posted(sys.calls[id].grantId, result.1.session.refresh.id))
    ensures result.1.Ask? ==> StartsWell(result.0, Asked(sys.calls[id].grantId))
  {
    hide Inv, Spares;
  }

  lemma SettleStartsWell(sys: System, id: CallId, purpose: Purpose, result: (State, Outcome))
    requires id in sys.calls && Inv(sys.m) && Sound(sys, id, result) && TokenOk(sys.m.h, sys.calls[id])
    requires result.1.Verified? ==> sys.calls[id].grantId in sys.m.s.grants ==>
      !sys.m.s.grants[sys.calls[id].grantId].refreshPending
    ensures NewEventsStartWell(sys, Settle(sys, id, purpose, result))
  {
    hide Inv, Sound, TokenOk, StartsWell, Settle, NewEventsStartWell;
    SettleLog(sys, id, purpose, result);
    var call, sys' := sys.calls[id], Settle(sys, id, purpose, result);
    if result.1.Verified? && call.tool.Scoped? { RequestStartsWell(sys, id, result); }
    RefreshStartsWell(sys, id, result);
    if sys'.log == sys.log { QuietStartsWell(sys, sys'); } else { OneEventStartsWell(sys, sys', sys'.log[|sys.log|]); }
  }

  lemma QuietStartsWell(sys: System, sys': System)
    requires sys'.log == sys.log
    ensures NewEventsStartWell(sys, sys')
  {
  }

  lemma CallTokenOk(sys: System, id: CallId)
    requires SysInv(sys) && id in sys.calls
    ensures TokenOk(sys.m.h, sys.calls[id]) && PhaseOk(sys.m, sys.calls[id]) && Inv(sys.m)
  {
    hide Inv, Locks, Posts;
  }

  lemma AcquireStartsWell(sys: System, id: CallId, purpose: Purpose)
    requires SysInv(sys) && id in sys.calls && sys.calls[id].phase.WaitVerify?
    ensures NewEventsStartWell(sys, AcquireForVerify(sys, id, purpose))
  {
    CallTokenOk(sys, id);
    var held := sys.(holder := sys.holder[sys.calls[id].lock := id]);
    assert held.m == sys.m && held.calls == sys.calls;
    hide SysInv, Inv;
    VerifyIsSound(held, id);
    VerifySpares(sys.m, sys.calls[id].token, sys.calls[id].grantId);
    hide Sound, Verify, Spares, Settle, NewEventsStartWell, ReadyTo, TokenOk, PhaseOk;
    SettleStartsWell(held, id, purpose, Verify(sys.m, sys.calls[id].token, sys.calls[id].grantId));
    SameLogStartsWell(held, sys, AcquireForVerify(sys, id, purpose));
  }

  lemma SameLogStartsWell(sys: System, sys1: System, sys': System)
    requires NewEventsStartWell(sys, sys') && sys1.log == sys.log
    ensures NewEventsStartWell(sys1, sys')
  {
  }

  lemma RefreshAnsweredStartsWell(sys: System, id: CallId, reply: RefreshReply)
    requires SysInv(sys) && Offered(sys, RefreshAnswered(id, reply))
    ensures NewEventsStartWell(sys, Take(sys, RefreshAnswered(id, reply)))
  {
    hide SysInv, Inv, Sound, FinishRefresh, Settle, NewEventsStartWell, TokenOk;
    CallTokenOk(sys, id);
    FinishRefreshIsSound(sys, id, reply);
    var call := sys.calls[id];
    RefreshNeverVerifies(sys.m, call.grantId, call.phase.session, reply);
    SettleStartsWell(sys, id, call.phase.purpose, FinishRefresh(sys.m, call.grantId, call.phase.session, reply));
  }

  lemma RefreshNeverVerifies(m: State, g: GrantId, session: RelaySession, reply: RefreshReply)
    ensures !FinishRefresh(m, g, session, reply).1.Verified?
  {
    hide Step, P.SaveSession;
  }

  lemma MeAnsweredStartsWell(sys: System, id: CallId, reply: MeReply)
    requires SysInv(sys) && Offered(sys, MeAnswered(id, reply))
    ensures NewEventsStartWell(sys, Take(sys, MeAnswered(id, reply)))
  {
    hide SysInv, Inv, Sound, FinishVerify, Settle, NewEventsStartWell, TokenOk;
    CallTokenOk(sys, id);
    FinishVerifyIsSound(sys, id, reply);
    var call := sys.calls[id];
    SettleStartsWell(sys, id, call.phase.purpose,
      FinishVerify(sys.m, call.token, call.grantId, call.phase.session, call.phase.refreshed, reply));
  }

  lemma AdvanceStartsWell(sys: System, a: Action)
    requires SysInv(sys)
    ensures NewEventsStartWell(sys, Advance(sys, a))
  {
    hide SysInv, NewEventsStartWell, Settle, StartsWell;
    if Offered(sys, a) && a.Acquire? && sys.calls[a.id].phase.WaitVerify? {
      AcquireStartsWell(sys, a.id, sys.calls[a.id].phase.purpose);
    } else if Offered(sys, a) && a.RefreshAnswered? {
      RefreshAnsweredStartsWell(sys, a.id, a.refreshReply);
    } else if Offered(sys, a) && a.MeAnswered? {
      MeAnsweredStartsWell(sys, a.id, a.meReply);
    } else {
      QuietStartsWell(sys, Advance(sys, a));
    }
  }

  /** Every upstream call starts at an instant when its grant is neither revoked nor expired; a
      tool's request starts, moreover, with a live access token of that grant that holds the
      tool's scope. Whatever other parties did at the suspension points before. */
  lemma UpstreamCallsStartWell(sys: System, a: Action, i: nat)
    requires Reachable(sys) && |sys.log| <= i < |Advance(sys, a).log|
    ensures StartsWell(Advance(sys, a).m, Advance(sys, a).log[i])
  {
    ReachableInv(sys);
    AdvanceStartsWell(sys, a);
    hide SysInv, Advance, StartsWell;
  }

  lemma RequestOrigin(sys: System, a: Action, i: nat)
    requires Offered(sys, a) && |sys.log| <= i < |Take(sys, a).log| && Take(sys, a).log[i].Requested?
    ensures a.MeAnswered?
  {
    if a.Acquire? && sys.calls[a.id].phase.WaitVerify? {
      var id := a.id;
      var held := sys.(holder := sys.holder[sys.calls[id].lock := id]);
      VerifyNeverFinishes(sys.m, sys.calls[id].token, sys.calls[id].grantId);
      SettleLog(held, id, sys.calls[id].phase.purpose, Verify(sys.m, sys.calls[id].token, sys.calls[id].grantId));
      hide Verify, Settle;
    } else if a.RefreshAnswered? {
      var call := sys.calls[a.id];
      var result := FinishRefresh(sys.m, call.grantId, call.phase.session, a.refreshReply);
      assert !result.1.Verified?;
      hide FinishRefresh, Settle;
      SettleLog(sys, a.id, call.phase.purpose, result);
    } else {
      hide Verify, FinishRefresh, FinishVerify, Settle;
    }
  }

  lemma VerifyNeverFinishes(m: State, t: Token, g: GrantId)
    ensures !Verify(m, t, g).1.Verified?
  {
  }

  lemma GrantSubject(m: State, g: GrantId)
    requires Inv(m) && g in m.s.grants
    ensures m.s.grants[g].session.userId == m.s.grants[g].subject &&
      m.s.grants[g].session.workspaceId == m.s.grants[g].workspaceId
  {
    assert GrantOk(m.h, m.s.resource, g, m.s.grants[g]);
  }

  /** A verified identity is the stored grant's own. */
  lemma VerifiedIdentity(m: State, t: Token, g: GrantId, session: RelaySession, refreshed: bool, reply: MeReply)
    requires Inv(m) && (g in m.s.grants ==> m.s.grants[g].session == session)
    requires FinishVerify(m, t, g, session, refreshed, reply).1.Verified?
    ensures
      var m' := FinishVerify(m, t, g, session, refreshed, reply).0;
      g in m'.s.grants && reply == Identity(m'.s.grants[g].subject, m'.s.grants[g].workspaceId)
  {
    FinishVerifySpares(m, t, g, session, refreshed, reply);
    var m' := FinishVerify(m, t, g, session, refreshed, reply).0;
    GrantSubject(m', g);
    assert m'.s.grants[g].session == m.s.grants[g].session;
    hide Inv, FinishVerify;
  }

  /** A tool's request starts in the very step in which the upstream identity arrived and was
      found to be the grant's subject and workspace. */
  lemma RequestFollowsIdentity(sys: System, a: Action, i: nat)
    requires Reachable(sys) && Offered(sys, a) && |sys.log| <= i < |Take(sys, a).log| && Take(sys, a).log[i].Requested?
    ensures a.MeAnswered? && a.meReply.Identity?
    ensures
      var g, m' := sys.calls[a.id].grantId, Take(sys, a).m;
      Take(sys, a).log[i].grantId == g && g in m'.s.grants &&
        a.meReply == Identity(m'.s.grants[g].subject, m'.s.grants[g].workspaceId)
  {
    hide Reachable, SysInv, Inv, FinishVerify, Settle, TokenOk;
    ReachableInv(sys);
    RequestOrigin(sys, a, i);
    var call := sys.calls[a.id];
    var result := FinishVerify(sys.m, call.token, call.grantId, call.phase.session, call.phase.refreshed, a.meReply);
    CallTokenOk(sys, a.id);
    SettleLog(sys, a.id, call.phase.purpose, result);
    VerifiedIdentity(sys.m, call.token, call.grantId, call.phase.session, call.phase.refreshed, a.meReply);
  }
}
