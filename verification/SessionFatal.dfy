/** An upstream refresh that is interrupted, rejected or answered ambiguously is the end of its
    grant: nothing clears the pending flag, nothing is sent upstream for the grant again, and the
    next session load revokes it. */
module SessionFatal {
  import opened Basics
  import opened OAuthTypes
  import opened Machine
  import opened Invariant
  import opened UserSession
  import opened SessionSafety
  import opened SessionInvariant
  import opened SessionTheorems
  import P = ProviderModel

  ghost predicate NobodyPosting(calls: map<CallId, Call>, g: GrantId) {
    forall id {:trigger calls[id]} :: id in calls && calls[id].phase.Posting? ==> calls[id].grantId != g
  }

  ghost predicate Stranded(m: State, g: GrantId) {
    g in m.h.grants && (g in m.s.grants ==> m.s.grants[g].refreshPending)
  }

  /** The grant is pending (or already gone) and no call is waiting for a refresh reply. */
  ghost predicate Doomed(sys: System, g: GrantId) {
    Stranded(sys.m, g) && NobodyPosting(sys.calls, g)
  }

  ghost predicate NothingStarts(sys: System, sys': System, g: GrantId) {
    |sys.log| <= |sys'.log| && sys'.log[..|sys.log|] == sys.log &&
    forall i {:trigger sys'.log[i]} :: |sys.log| <= i < |sys'.log| ==> sys'.log[i].grantId != g
  }

  lemma BystandingStrands(m: State, m': State, g: GrantId)
    requires Stranded(m, g) && Bystands(m, m')
    ensures Stranded(m', g)
  {
    hide Inv;
  }

  lemma SparingStrands(m: State, m': State, g: GrantId, touched: set<GrantId>)
    requires Stranded(m, g) && Spares(m, m', touched) && g !in touched
    ensures Stranded(m', g)
  {
  }

  /** For a stranded grant no stretch of a call that is not awaiting the refresh reply gets
      anywhere. */
  lemma StrandedFails(sys: System, id: CallId, result: (State, Outcome), g: GrantId)
    requires id in sys.calls && Sound(sys, id, result) && sys.calls[id].grantId == g && Stranded(sys.m, g) &&
      PhaseOk(sys.m, sys.calls[id])
    requires !result.1.Post? ==> Spares(sys.m, result.0, {})
    requires result.1.Verified? ==> sys.calls[id].phase.Asking?
    ensures result.1.Fail? && Stranded(result.0, g)
  {
    hide Inv;
    if g in result.0.s.grants {
      assert result.1.Post? || result.0.s.grants[g].refreshPending == sys.m.s.grants[g].refreshPending;
    }
  }

  lemma SettleStaysDoomed(sys: System, id: CallId, purpose: Purpose, result: (State, Outcome), g: GrantId)
    requires id in sys.calls && Doomed(sys, g) && Stranded(result.0, g)
    requires sys.calls[id].grantId == g ==> result.1.Fail?
    ensures var sys' := Settle(sys, id, purpose, result); Doomed(sys', g) && NothingStarts(sys, sys', g)
  {
    SettleShape(sys, id, purpose, result);
    SettleLog(sys, id, purpose, result);
    hide Settle, Stranded;
  }

  lemma AcquireStaysDoomed(sys: System, id: CallId, purpose: Purpose, g: GrantId)
    requires SysInv(sys) && Doomed(sys, g) && id in sys.calls && sys.calls[id].phase.WaitVerify?
    ensures var sys' := AcquireForVerify(sys, id, purpose); Doomed(sys', g) && NothingStarts(sys, sys', g)
  {
    hide Inv, Verify, Settle, Spares, Stranded, NobodyPosting, NothingStarts;
    CallTokenOk(sys, id);
    hide SysInv;
    var call := sys.calls[id];
    var result := Verify(sys.m, call.token, call.grantId);
    var held := sys.(holder := sys.holder[call.lock := id]);
    VerifyIsSound(held, id);
    VerifySpares(sys.m, call.token, call.grantId);
    if call.grantId == g {
      StrandedFails(held, id, result, g);
    } else {
      SparingStrands(sys.m, result.0, g, {call.grantId});
    }
    hide Sound, Spares, NothingStarts;
    SettleStaysDoomed(held, id, purpose, result, g);
    SameLogNothingStarts(held, sys, AcquireForVerify(sys, id, purpose), g);
  }

  lemma SameLogNothingStarts(sys: System, sys1: System, sys': System, g: GrantId)
    requires NothingStarts(sys, sys', g) && sys1.log == sys.log
    ensures NothingStarts(sys1, sys', g)
  {
  }

  lemma RefreshAnsweredStaysDoomed(sys: System, id: CallId, reply: RefreshReply, g: GrantId)
    requires SysInv(sys) && Doomed(sys, g) && Offered(sys, RefreshAnswered(id, reply))
    ensures var sys' := Take(sys, RefreshAnswered(id, reply)); Doomed(sys', g) && NothingStarts(sys, sys', g)
  {
    hide Inv, FinishRefresh, Settle, Spares, Stranded, NothingStarts, Locks, Calls, Posts, Live;
    var call := sys.calls[id];
    var result := FinishRefresh(sys.m, call.grantId, call.phase.session, reply);
    FinishRefreshSpares(sys.m, call.token, call.grantId, call.phase.session, reply);
    SparingStrands(sys.m, result.0, g, {call.grantId});
    SettleStaysDoomed(sys, id, call.phase.purpose, result, g);
  }

  lemma MeAnsweredStaysDoomed(sys: System, id: CallId, reply: MeReply, g: GrantId)
    requires SysInv(sys) && Doomed(sys, g) && Offered(sys, MeAnswered(id, reply))
    ensures var sys' := Take(sys, MeAnswered(id, reply)); Doomed(sys', g) && NothingStarts(sys, sys', g)
  {
    hide Inv, FinishVerify, Settle, Spares, Stranded, NobodyPosting, NothingStarts;
    CallTokenOk(sys, id);
    var call := sys.calls[id];
    var result := FinishVerify(sys.m, call.token, call.grantId, call.phase.session, call.phase.refreshed, reply);
    FinishVerifyIsSound(sys, id, reply);
    FinishVerifySpares(sys.m, call.token, call.grantId, call.phase.session, call.phase.refreshed, reply);
    hide SysInv, Inv, FinishVerify, Settle;
    if call.grantId == g {
      StrandedFails(sys, id, result, g);
    } else {
      SparingStrands(sys.m, result.0, g, {call.grantId});
    }
    hide Sound, Spares, NothingStarts;
    SettleStaysDoomed(sys, id, call.phase.purpose, result, g);
  }

  /** Nothing is logged and no call starts awaiting a refresh reply. */
  ghost predicate Idles(sys: System, sys': System) {
    sys'.log == sys.log &&
    forall id {:trigger sys'.calls[id]} :: id in sys'.calls && sys'.calls[id].phase.Posting? ==>
      id in sys.calls && sys'.calls[id] == sys.calls[id]
  }

  lemma IdlesStaysDoomed(sys: System, sys': System, g: GrantId)
    requires Doomed(sys, g) && Idles(sys, sys') && Stranded(sys'.m, g)
    ensures Doomed(sys', g) && NothingStarts(sys, sys', g)
  {
    hide Stranded;
  }

  lemma ServeIdles(sys: System, op: Op, g: GrantId)
    requires SysInv(sys) && Stranded(sys.m, g) && Outside(op)
    ensures Idles(sys, Take(sys, Serve(op))) && Stranded(Take(sys, Serve(op)).m, g)
  {
    hide SysInv, Inv, Bystands, Stranded, Step;
    SysInvMeans(sys);
    OutsideBystands(sys.m, op);
    BystandingStrands(sys.m, Step(sys.m, op), g);
  }

  lemma StartShape(sys: System, a: Action)
    requires a.Start? && Offered(sys, a)
    ensures Idles(sys, Take(sys, a)) && Take(sys, a).m == Step(sys.m, LoadAccess(a.token))
  {
    hide Step, P.LoadAccess, SessionLock, Unused;
  }

  lemma StartIdles(sys: System, a: Action, g: GrantId)
    requires SysInv(sys) && Stranded(sys.m, g) && a.Start? && Offered(sys, a)
    ensures Idles(sys, Take(sys, a)) && Stranded(Take(sys, a).m, g)
  {
    assert Inv(sys.m);
    StartShape(sys, a);
    hide SysInv, Take, Inv, Spares, Stranded, Step, Offered;
    ReadingSpares(sys.m, LoadAccess(a.token));
    SparingStrands(sys.m, Step(sys.m, LoadAccess(a.token)), g, {});
  }

  lemma EnterShape(sys: System, id: CallId, keep: bool, newLock: LockId)
    requires id in sys.calls && sys.calls[id].phase.WaitContext?
    ensures var sys' := EnterContext(sys, id, keep, newLock);
      Idles(sys, sys') && sys'.m == Step(sys.m, LoadSession(sys.calls[id].grantId))
  {
    hide Step, P.LoadSession, SessionLock;
  }

  lemma EnterIdles(sys: System, id: CallId, keep: bool, newLock: LockId, g: GrantId)
    requires SysInv(sys) && Stranded(sys.m, g) && id in sys.calls && sys.calls[id].phase.WaitContext?
    ensures Idles(sys, EnterContext(sys, id, keep, newLock)) && Stranded(EnterContext(sys, id, keep, newLock).m, g)
  {
    assert Inv(sys.m);
    EnterShape(sys, id, keep, newLock);
    hide SysInv, EnterContext, Inv, Spares, Stranded, Step;
    LoadedSpares(sys.m, sys.calls[id].grantId);
    SparingStrands(sys.m, Step(sys.m, LoadSession(sys.calls[id].grantId)), g, {});
  }

  lemma SysInvMeans(sys: System)
    requires SysInv(sys)
    ensures Inv(sys.m)
  {
    hide Inv, Locks, Calls, Posts;
  }

  lemma CrashShape(sys: System, grantTtl: int)
    ensures
      var sys' := Take(sys, Crash(grantTtl));
      sys'.m == Step(sys.m, Restart(grantTtl)) && sys'.calls == map[] && sys'.log == sys.log
  {
    hide Step;
  }

  lemma CrashIdles(sys: System, grantTtl: int, g: GrantId)
    requires SysInv(sys) && Stranded(sys.m, g)
    ensures Idles(sys, Take(sys, Crash(grantTtl))) && Stranded(Take(sys, Crash(grantTtl)).m, g)
  {
    hide SysInv, Inv, Bystands, Stranded, Step, Take;
    SysInvMeans(sys);
    CrashShape(sys, grantTtl);
    RestartBystands(sys.m, grantTtl);
    BystandingStrands(sys.m, Step(sys.m, Restart(grantTtl)), g);
  }

  /** Actions that settle no stretch. */
  lemma OtherActionsIdle(sys: System, a: Action, g: GrantId)
    requires SysInv(sys) && Stranded(sys.m, g) && Offered(sys, a)
    requires !a.RefreshAnswered? && !a.MeAnswered? && !(a.Acquire? && sys.calls[a.id].phase.WaitVerify?)
    ensures Idles(sys, Take(sys, a)) && Stranded(Take(sys, a).m, g)
  {
    hide SysInv, Stranded, Step, StartCall, EnterContext;
    match a
    case Serve(op) => ServeIdles(sys, op, g);
    case Start(_, _, _, _, _) => StartIdles(sys, a, g);
    case Acquire(id, keep, newLock) => EnterIdles(sys, id, keep, newLock, g);
    case Crash(grantTtl) => CrashIdles(sys, grantTtl, g);
    case _ =>
  }

  lemma DoomedStays(sys: System, a: Action, g: GrantId)
    requires SysInv(sys) && Doomed(sys, g)
    ensures Doomed(Advance(sys, a), g) && NothingStarts(sys, Advance(sys, a), g)
  {
    hide SysInv, AcquireForVerify, Settle;
    if !Offered(sys, a) {
    } else if a.Acquire? && sys.calls[a.id].phase.WaitVerify? {
      AcquireStaysDoomed(sys, a.id, sys.calls[a.id].phase.purpose, g);
    } else if a.RefreshAnswered? {
      RefreshAnsweredStaysDoomed(sys, a.id, a.refreshReply, g);
    } else if a.MeAnswered? {
      MeAnsweredStaysDoomed(sys, a.id, a.meReply, g);
    } else {
      OtherActionsIdle(sys, a, g);
      hide Idles, Stranded;
      IdlesStaysDoomed(sys, Take(sys, a), g);
    }
  }

  lemma NothingStartsTransitive(sys: System, sys1: System, sys2: System, g: GrantId)
    requires NothingStarts(sys, sys1, g) && NothingStarts(sys1, sys2, g)
    ensures NothingStarts(sys, sys2, g)
  {
    assert sys2.log[..|sys.log|] == sys1.log[..|sys.log|];
    forall i | |sys.log| <= i < |sys2.log| ensures sys2.log[i].grantId != g {
      if i < |sys1.log| { assert sys2.log[i] == sys2.log[..|sys1.log|][i]; }
    }
  }

  lemma {:induction false} DoomedForever(sys: System, actions: seq<Action>, g: GrantId)
    requires SysInv(sys) && Doomed(sys, g)
    ensures var sys' := Play(sys, actions); SysInv(sys') && Doomed(sys', g) && NothingStarts(sys, sys', g)
    decreases |actions|
  {
    hide SysInv, Doomed, Advance;
    if actions == [] {
      assert NothingStarts(sys, sys, g);
    } else {
      hide NothingStarts;
      DoomedStays(sys, actions[0], g);
      AdvanceKeeps(sys, actions[0]);
      var sys1 := Advance(sys, actions[0]);
      DoomedForever(sys1, actions[1..], g);
      NothingStartsTransitive(sys, sys1, Play(sys1, actions[1..]), g);
    }
  }

  // --- Becoming doomed ---

  /** The call awaiting the reply is the only one of its grant. */
  lemma OnlyPoster(sys: System, id: CallId)
    requires SysInv(sys) && id in sys.calls && sys.calls[id].phase.Posting?
    ensures Stranded(sys.m, sys.calls[id].grantId) && NobodyPosting(P.Without(sys.calls, id), sys.calls[id].grantId)
  {
    hide Inv, Posts;
    forall other | other in sys.calls && other != id && sys.calls[other].phase.Posting?
      ensures sys.calls[other].grantId != sys.calls[id].grantId {
      if sys.calls[other].grantId == sys.calls[id].grantId { OneHolderPerGrant(sys, id, other, {}); }
    }
  }

  lemma UnansweredSettles(sys: System, id: CallId, purpose: Purpose, result: (State, Outcome), g: GrantId)
    requires id in sys.calls && sys.calls[id].grantId == g && Stranded(sys.m, g) &&
      NobodyPosting(P.Without(sys.calls, id), g)
    requires result.1.Fail? && Spares(sys.m, result.0, {})
    ensures var sys' := Settle(sys, id, purpose, result); Doomed(sys', g) && NothingStarts(sys, sys', g)
  {
    hide Inv;
    SettleState(sys, id, purpose, result);
    SettleShape(sys, id, purpose, result);
    SettleLog(sys, id, purpose, result);
    SparingStrands(sys.m, result.0, g, {});
    hide Spares, Stranded, Settle;
    FailedNobodyPosting(sys.calls, Settle(sys, id, purpose, result).calls, id, g);
  }

  /** A reply that does not end in a stored rotation dooms the grant. */
  lemma UnansweredIsDoomed(sys: System, id: CallId, reply: RefreshReply)
    requires SysInv(sys) && Offered(sys, RefreshAnswered(id, reply))
    ensures
      var sys', g := Take(sys, RefreshAnswered(id, reply)), sys.calls[id].grantId;
      (id in sys'.calls && sys'.calls[id].phase.Asking?) || (Doomed(sys', g) && NothingStarts(sys, sys', g))
  {
    var call := sys.calls[id];
    var result := FinishRefresh(sys.m, call.grantId, call.phase.session, reply);
    hide Settle, Stranded, NobodyPosting, Spares, FinishRefresh, NothingStarts, Inv;
    OnlyPoster(sys, id);
    FinishRefreshSpares(sys.m, call.token, call.grantId, call.phase.session, reply);
    hide SysInv;
    if result.1.Fail? {
      UnansweredSettles(sys, id, call.phase.purpose, result, call.grantId);
    } else {
      FailOrLeave(sys, id, call.phase.purpose, result);
    }
  }

  lemma FailedNobodyPosting(calls: map<CallId, Call>, calls': map<CallId, Call>, id: CallId, g: GrantId)
    requires id in calls && NobodyPosting(P.Without(calls, id), g)
    requires calls' == P.Without(calls, id) ||
      (id in calls' && calls' == calls[id := calls'[id]] && !calls'[id].phase.Posting?)
    ensures NobodyPosting(calls', g)
  {
    forall other | other in calls' && calls'[other].phase.Posting? ensures calls'[other].grantId != g {
      assert other != id ==> P.Without(calls, id)[other] == calls[other];
    }
  }

  lemma FailOrLeave(sys: System, id: CallId, purpose: Purpose, result: (State, Outcome))
    requires id in sys.calls && result.1.Ask?
    ensures var sys' := Settle(sys, id, purpose, result); id in sys'.calls && sys'.calls[id].phase.Asking?
  {
  }

  lemma LeaveShape(sys: System, id: CallId)
    requires id in sys.calls
    ensures Leave(sys, id).m == sys.m && Leave(sys, id).calls == P.Without(sys.calls, id) &&
      Leave(sys, id).log == sys.log
  {
  }

  /** Losing the process while the credential is out. */
  lemma CrashedIsDoomed(sys: System, grantTtl: int, g: GrantId)
    requires Stranded(sys.m, g) && Bystands(sys.m, Step(sys.m, Restart(grantTtl)))
    ensures var sys' := Take(sys, Crash(grantTtl)); Doomed(sys', g) && NothingStarts(sys, sys', g)
  {
    hide Bystands, Stranded, Step, Take, Doomed, NothingStarts;
    CrashShape(sys, grantTtl);
    BystandingStrands(sys.m, Step(sys.m, Restart(grantTtl)), g);
    EmptiedIsDoomed(sys, Take(sys, Crash(grantTtl)), g);
  }

  lemma EmptiedIsDoomed(sys: System, sys': System, g: GrantId)
    requires Stranded(sys'.m, g) && sys'.calls == map[] && sys'.log == sys.log
    ensures Doomed(sys', g) && NothingStarts(sys, sys', g)
  {
    hide Stranded;
  }

  /** Cancelling the call while the credential is out. */
  lemma CancelledIsDoomed(sys: System, id: CallId, g: GrantId)
    requires id in sys.calls && Stranded(sys.m, g) && NobodyPosting(P.Without(sys.calls, id), g)
    ensures Doomed(Leave(sys, id), g) && NothingStarts(sys, Leave(sys, id), g)
  {
    hide Stranded, Leave;
    LeaveShape(sys, id);
  }

  /** What a session load finds of a stranded grant. */
  lemma StrandedLoads(m: State, g: GrantId)
    requires Stranded(m, g)
    ensures P.LoadSession(m.s, g, m.now).1.None?
    ensures Live(m, g) ==> P.LoadSession(m.s, g, m.now).0.grants[g].revokedAt == Some(m.now)
  {
  }

  lemma OfferedAdvances(sys: System, a: Action)
    requires Offered(sys, a)
    ensures Advance(sys, a) == Take(sys, a)
  {
    hide Take, Offered;
  }

  lemma EndIsLeaving(sys: System, id: CallId)
    requires id in sys.calls
    ensures Take(sys, End(id)) == Leave(sys, id)
  {
    hide Leave;
  }

  lemma InterruptedIsDoomed(sys: System, id: CallId, a: Action)
    requires SysInv(sys) && id in sys.calls && sys.calls[id].phase.Posting? && Offered(sys, a)
    requires a == End(id) || a.Crash? || (a.RefreshAnswered? && a.id == id)
    requires var sys1 := Take(sys, a); !(id in sys1.calls && sys1.calls[id].phase.Asking?)
    ensures var sys1 := Take(sys, a);
      SysInv(sys1) && Doomed(sys1, sys.calls[id].grantId) && NothingStarts(sys, sys1, sys.calls[id].grantId)
  {
    hide SysInv, Take, Doomed, NothingStarts, Stranded, NobodyPosting, Inv, Bystands, Step, Offered;
    OfferedAdvances(sys, a);
    AdvanceKeeps(sys, a);
    var g := sys.calls[id].grantId;
    OnlyPoster(sys, id);
    if a.RefreshAnswered? {
      UnansweredIsDoomed(sys, id, a.refreshReply);
    } else if a.Crash? {
      SysInvMeans(sys);
      RestartBystands(sys.m, a.grantTtl);
      CrashedIsDoomed(sys, a.grantTtl, g);
    } else {
      CancelledIsDoomed(sys, id, g);
      EndIsLeaving(sys, id);
    }
  }

  /** Whatever goes wrong while a credential is out: over every continuation the pending flag
      stays, no upstream call is made for the grant, and loading its session fails and, if the
      grant is still live, revokes it. */
  lemma InterruptedRefreshIsFatal(sys: System, id: CallId, a: Action, more: seq<Action>)
    requires Reachable(sys) && id in sys.calls && sys.calls[id].phase.Posting? && Offered(sys, a)
    requires a == End(id) || a.Crash? || (a.RefreshAnswered? && a.id == id)
    requires var sys1 := Take(sys, a); !(id in sys1.calls && sys1.calls[id].phase.Asking?)
    ensures
      var sys', g := Play(Take(sys, a), more), sys.calls[id].grantId;
      && (g in sys'.m.s.grants ==> sys'.m.s.grants[g].refreshPending)
      && (forall i {:trigger sys'.log[i]} :: |sys.log| <= i < |sys'.log| ==> sys'.log[i].grantId != g)
      && P.LoadSession(sys'.m.s, g, sys'.m.now).1.None?
      && (Live(sys'.m, g) ==> P.LoadSession(sys'.m.s, g, sys'.m.now).0.grants[g].revokedAt == Some(sys'.m.now))
  {
    var g := sys.calls[id].grantId;
    var sys1 := Take(sys, a);
    var sys' := Play(sys1, more);
    hide SysInv, Take, Play, Offered, Reachable, P.LoadSession, Live, NobodyPosting;
    ReachableInv(sys);
    InterruptedIsDoomed(sys, id, a);
    DoomedForever(sys1, more, g);
    NothingStartsTransitive(sys, sys1, sys', g);
    StrandedLoads(sys'.m, g);
  }
}
