/** The invariant of the tool calls and its preservation by every action. */
module SessionInvariant {
  import opened OAuthTypes
  import opened Machine
  import opened Invariant
  import opened Preservation
  import opened Evolution
  import opened UserSession
  import opened SessionSafety
  import G = GrantTheorems
  import P = ProviderModel

  // --- Locks ---

  /** Calls of one grant refer to one lock object, whoever is in an upstream exchange holds it,
      and only such calls do; `taking` has just taken it. */
  ghost predicate Locks(sys: System, taking: set<CallId>) {
    && (forall id {:trigger sys.calls[id]} :: id in sys.calls && HasLockRef(sys.calls[id]) ==>
          sys.calls[id].grantId in sys.lockOf && sys.lockOf[sys.calls[id].grantId] == sys.calls[id].lock)
    && (forall id {:trigger sys.calls[id]} :: id in sys.calls && HoldsLock(sys.calls[id]) ==>
      Holds(sys, sys.calls[id].lock, id))
    && (forall l {:trigger sys.holder[l]} :: l in sys.holder ==>
          sys.holder[l] in sys.calls && sys.calls[sys.holder[l]].lock == l &&
            (HoldsLock(sys.calls[sys.holder[l]]) || sys.holder[l] in taking))
  }

  /** Mutual exclusion: no two calls of one grant are in an upstream exchange at once. */
  lemma OneHolderPerGrant(sys: System, id: CallId, other: CallId, taking: set<CallId>)
    requires Locks(sys, taking) && id in sys.calls && other in sys.calls
    requires HasLockRef(sys.calls[id]) && Holds(sys, sys.calls[id].lock, id) && HoldsLock(sys.calls[other])
    requires sys.calls[id].grantId == sys.calls[other].grantId
    ensures other == id
  {
  }

  // --- Calls ---

  ghost predicate PhaseOk(m: State, call: Call) {
    match call.phase
    case Posting(_, session) =>
      call.grantId in m.s.grants ==>
        m.s.grants[call.grantId].session == session && m.s.grants[call.grantId].refreshPending
    case Asking(_, session, _) =>
      call.grantId in m.s.grants ==>
        m.s.grants[call.grantId].session == session && !m.s.grants[call.grantId].refreshPending
    case _ => true
  }

  ghost predicate TokenOk(h: History, call: Call) {
    call.token in h.tokens && h.tokens[call.token].kind == Access && h.tokens[call.token].grant == call.grantId &&
      call.grantId in h.grants &&
    (call.tool.Scoped? ==> call.tool.scope in h.tokens[call.token].scopes)
  }

  ghost predicate Calls(sys: System) {
    forall id {:trigger sys.calls[id]} :: id in sys.calls ==>
      PhaseOk(sys.m, sys.calls[id]) && TokenOk(sys.m.h, sys.calls[id])
  }

  // --- Posted credentials ---

  /** A posted credential descends from the login of the grant it was posted for. */
  ghost predicate PostedOk(h: History, e: Event) {
    e.Posted? ==> e.grantId in h.grants && h.grants[e.grantId].code in h.codes && e.credential in h.lineage &&
                  h.lineage[e.credential] == h.codes[h.grants[e.grantId].code].login
  }

  ghost predicate PostedOnce(log: seq<Event>) {
    forall i, j :: 0 <= i < j < |log| && log[i].Posted? && log[j].Posted? ==> log[i].credential != log[j].credential
  }

  /** A stored credential that was ever posted is marked pending. */
  ghost predicate PostedIsPending(grants: map<GrantId, Grant>, log: seq<Event>) {
    forall g, i {:trigger grants[g], log[i]} ::
      g in grants && 0 <= i < |log| && log[i].Posted? && log[i].credential == grants[g].session.refresh.id ==>
        grants[g].refreshPending
  }

  ghost predicate Posts(sys: System) {
    && (forall i {:trigger sys.log[i]} :: 0 <= i < |sys.log| ==> PostedOk(sys.m.h, sys.log[i]))
    && PostedOnce(sys.log)
    && PostedIsPending(sys.m.s.grants, sys.log)
  }

  ghost predicate SysInv(sys: System) {
    Inv(sys.m) && Locks(sys, {}) && Calls(sys) && Posts(sys)
  }

  // --- Frames ---

  lemma TokenFrame(h: History, h': History, call: Call)
    requires TokenOk(h, call) && Grows(h, h')
    ensures TokenOk(h', call)
  {
  }

  lemma PostedFrame(h: History, h': History, log: seq<Event>)
    requires Grows(h, h') && forall i {:trigger log[i]} :: 0 <= i < |log| ==> PostedOk(h, log[i])
    ensures forall i {:trigger log[i]} :: 0 <= i < |log| ==> PostedOk(h', log[i])
  {
  }

  /** The other calls are not disturbed by what the holder of a grant's lock does to it. */
  lemma SparedCalls(sys: System, id: CallId, m': State, taking: set<CallId>)
    requires Locks(sys, taking) && Calls(sys) && id in sys.calls && HasLockRef(sys.calls[id]) &&
      Holds(sys, sys.calls[id].lock, id)
    requires Spares(sys.m, m', {sys.calls[id].grantId})
    ensures forall other {:trigger sys.calls[other]} :: other in sys.calls && other != id ==>
      PhaseOk(m', sys.calls[other]) && TokenOk(m'.h, sys.calls[other])
    ensures TokenOk(m'.h, sys.calls[id])
  {
    TokenFrame(sys.m.h, m'.h, sys.calls[id]);
    forall other | other in sys.calls && other != id
      ensures PhaseOk(m', sys.calls[other]) && TokenOk(m'.h, sys.calls[other]) {
      TokenFrame(sys.m.h, m'.h, sys.calls[other]);
      if HoldsLock(sys.calls[other]) && sys.calls[other].grantId == sys.calls[id].grantId {
        OneHolderPerGrant(sys, id, other, taking);
      }
    }
  }

  lemma SparedPosts(sys: System, m': State)
    requires Posts(sys) && Spares(sys.m, m', {})
    ensures Posts(sys.(m := m'))
  {
    PostedFrame(sys.m.h, m'.h, sys.log);
    hide PostedOk, Grows;
  }

  /** Storing a credential the upstream has just handed out. */
  lemma RotatedPosts(sys: System, m': State, g: GrantId)
    requires Posts(sys) && Spares(sys.m, m', {g})
    requires g in m'.s.grants ==> m'.s.grants[g].session.refresh.id !in sys.m.h.lineage
    ensures Posts(sys.(m := m'))
  {
    PostedFrame(sys.m.h, m'.h, sys.log);
    hide Grows;
  }

  /** Posting the stored credential of a grant that was not pending. */
  lemma PostedPosts(sys: System, m': State, g: GrantId, credential: nat)
    requires Inv(m') && Posts(sys) && Spares(sys.m, m', {g})
    requires g in sys.m.s.grants && !sys.m.s.grants[g].refreshPending &&
      sys.m.s.grants[g].session.refresh.id == credential
    requires g in m'.s.grants && m'.s.grants[g].refreshPending && m'.s.grants[g].session.refresh.id == credential
    ensures Posts(sys.(m := m', log := sys.log + [Posted(g, credential)]))
  {
    var log := sys.log + [Posted(g, credential)];
    PostedFrame(sys.m.h, m'.h, sys.log);
    assert GrantOk(m'.h, m'.s.resource, g, m'.s.grants[g]);
    assert PostedOk(m'.h, Posted(g, credential));
    forall i | 0 <= i < |sys.log| && sys.log[i].Posted? ensures sys.log[i].credential != credential {
      assert sys.m.s.grants[g] == sys.m.s.grants[g];
    }
    forall g', i | g' in m'.s.grants && 0 <= i < |log| && log[i].Posted? &&
      log[i].credential == m'.s.grants[g'].session.refresh.id
      ensures m'.s.grants[g'].refreshPending
    {
      if g' != g {
        G.CredentialsDiffer(m', g, g');
        assert sys.m.s.grants[g'].session == m'.s.grants[g'].session;
        assert log[i] == sys.log[i];
      }
    }
  }

  lemma LoggedPosts(sys: System, e: Event)
    requires Posts(sys) && !e.Posted?
    ensures Posts(sys.(log := sys.log + [e]))
  {
    var log := sys.log + [e];
    assert forall i :: 0 <= i < |log| && log[i].Posted? ==> i < |sys.log| && log[i] == sys.log[i];
  }

  // --- Lock moves ---

  lemma LeaveLocks(sys: System, id: CallId)
    requires Locks(sys, {id}) && id in sys.calls
    ensures Locks(Leave(sys, id), {})
  {
  }

  lemma ReleaseLocks(sys: System, id: CallId, phase: Phase)
    requires Locks(sys, {id}) && id in sys.calls && (phase.InTool? || phase.Requesting?)
    ensures Locks(SetPhase(Release(sys, id), id, phase), {})
  {
  }

  lemma KeepLocks(sys: System, id: CallId, phase: Phase)
    requires Locks(sys, {id}) && id in sys.calls && HasLockRef(sys.calls[id]) && Holds(sys, sys.calls[id].lock, id)
    requires phase.Posting? || phase.Asking?
    ensures Locks(SetPhase(sys, id, phase), {})
  {
  }

  lemma IdleLocks(sys: System, id: CallId, phase: Phase)
    requires Locks(sys, {}) && id in sys.calls && !HoldsLock(sys.calls[id]) && (phase.InTool? || phase.Requesting?)
    ensures Locks(SetPhase(sys, id, phase), {})
  {
  }

  lemma WantLocks(sys: System, id: CallId, phase: Phase, keep: bool, newLock: LockId)
    requires Locks(sys, {}) && id in sys.calls && !HasLockRef(sys.calls[id]) &&
      (phase.WaitContext? || phase.WaitVerify?)
    ensures Locks(WantLock(sys, id, phase, keep, newLock), {})
  {
    var sys' := WantLock(sys, id, phase, keep, newLock);
    forall other | other in sys'.calls && HasLockRef(sys'.calls[other])
      ensures sys'.calls[other].grantId in sys'.lockOf &&
        sys'.lockOf[sys'.calls[other].grantId] == sys'.calls[other].lock
    {
      if other != id {
        assert sys.calls[other] == sys'.calls[other];
      }
    }
  }

  lemma TakeLocks(sys: System, id: CallId)
    requires Locks(sys, {}) && id in sys.calls && HasLockRef(sys.calls[id]) && sys.calls[id].lock !in sys.holder
    ensures Locks(sys.(holder := sys.holder[sys.calls[id].lock := id]), {id})
  {
  }

  lemma LocksFrame(sys: System, sys': System, taking: set<CallId>)
    requires Locks(sys, taking) && sys'.lockOf == sys.lockOf && sys'.holder == sys.holder && sys'.calls == sys.calls
    ensures Locks(sys', taking)
  {
  }

  // --- Settling a stretch ---

  /** What every stretch of the lock's holder guarantees about the state it leaves. */
  ghost predicate Sound(sys: System, id: CallId, result: (State, Outcome))
    requires id in sys.calls
  {
    var call, m', outcome := sys.calls[id], result.0, result.1;
    var g := call.grantId;
    && Inv(m') && Spares(sys.m, m', {g}) && ReadyTo(m', call.token, g, outcome)
    && match outcome
       case Post(session) => g in sys.m.s.grants && sys.m.s.grants[g].session == session &&
         !sys.m.s.grants[g].refreshPending
       case Ask(session, _) => Spares(sys.m, m', {}) || session.refresh.id !in sys.m.h.lineage
       case _ => Spares(sys.m, m', {})
  }

  ghost predicate Holding(sys: System, id: CallId) {
    id in sys.calls && HasLockRef(sys.calls[id]) && Holds(sys, sys.calls[id].lock, id) &&
    Inv(sys.m) && Locks(sys, {id}) && Calls(sys) && Posts(sys)
  }

  lemma SettleKeepsLocks(sys: System, id: CallId, purpose: Purpose, result: (State, Outcome))
    requires id in sys.calls && HasLockRef(sys.calls[id]) && Holds(sys, sys.calls[id].lock, id) && Locks(sys, {id})
    ensures Locks(Settle(sys, id, purpose, result), {})
  {
    hide Locks;
    var sys1 := sys.(m := result.0);
    LocksFrame(sys, sys1, {id});
    var sys' := Settle(sys, id, purpose, result);
    match result.1
    case Fail =>
      LeaveLocks(sys1, id);
      ReleaseLocks(sys1, id, InTool);
    case Post(session) =>
      KeepLocks(sys1, id, Posting(purpose, session));
      LocksFrame(SetPhase(sys1, id, Posting(purpose, session)), sys', {});
    case Ask(session, refreshed) =>
      KeepLocks(sys1, id, Asking(purpose, session, refreshed));
      LocksFrame(SetPhase(sys1, id, Asking(purpose, session, refreshed)), sys', {});
    case Verified =>
      ReleaseLocks(sys1, id, InTool);
      ReleaseLocks(sys1, id, Requesting);
      LocksFrame(SetPhase(Release(sys1, id), id, Requesting),
        SetPhase(Release(sys1, id), id, Requesting).(log := sys'.log), {});
  }

  /** Every call but one is in order. */
  ghost predicate OthersOk(m: State, calls: map<CallId, Call>, id: CallId) {
    forall other {:trigger calls[other]} :: other in calls && other != id ==>
      PhaseOk(m, calls[other]) && TokenOk(m.h, calls[other])
  }

  lemma CallsAfter(m: State, before: map<CallId, Call>, id: CallId, sys': System)
    requires id in before && OthersOk(m, before, id) && sys'.m == m
    requires sys'.calls == P.Without(before, id) ||
             (id in sys'.calls && sys'.calls == before[id := sys'.calls[id]] && PhaseOk(m, sys'.calls[id]) &&
               TokenOk(m.h, sys'.calls[id]))
    ensures Calls(sys')
  {
    hide PhaseOk, TokenOk;
  }

  /** The phase a settled call is left in, if it is left. */
  lemma SettleShape(sys: System, id: CallId, purpose: Purpose, result: (State, Outcome))
    requires id in sys.calls
    ensures
      var calls' := Settle(sys, id, purpose, result).calls;
      calls' == P.Without(sys.calls, id) ||
      (id in calls' && calls' == sys.calls[id := sys.calls[id].(phase := calls'[id].phase)] &&
       match result.1
       case Post(session) => calls'[id].phase == Posting(purpose, session)
       case Ask(session, refreshed) => calls'[id].phase == Asking(purpose, session, refreshed)
       case _ => calls'[id].phase.InTool? || calls'[id].phase.Requesting?)
  {
  }

  lemma ReadyPhase(sys: System, id: CallId, result: (State, Outcome), phase: Phase)
    requires id in sys.calls && ReadyTo(result.0, sys.calls[id].token, sys.calls[id].grantId, result.1)
    requires
      match result.1
      case Post(session) => phase.Posting? && phase.session == session
      case Ask(session, refreshed) => phase.Asking? && phase.session == session
      case _ => phase.InTool? || phase.Requesting?
    ensures PhaseOk(result.0, sys.calls[id].(phase := phase))
  {
  }

  lemma SettleKeepsCalls(sys: System, id: CallId, purpose: Purpose, result: (State, Outcome))
    requires id in sys.calls && HasLockRef(sys.calls[id]) && Holds(sys, sys.calls[id].lock, id) && Locks(sys, {id})
    requires Calls(sys) && Sound(sys, id, result)
    ensures Calls(Settle(sys, id, purpose, result))
  {
    SparedCalls(sys, id, result.0, {id});
    SettleShape(sys, id, purpose, result);
    SettleState(sys, id, purpose, result);
    var sys' := Settle(sys, id, purpose, result);
    assert OthersOk(result.0, sys.calls, id);
    assert TokenOk(result.0.h, sys.calls[id]);
    if id in sys'.calls { ReadyPhase(sys, id, result, sys'.calls[id].phase); }
    hide Locks, Spares, Inv, Calls, OthersOk, Settle, PhaseOk, ReadyTo;
    CallsAfter(result.0, sys.calls, id, sys');
  }

  lemma SettleState(sys: System, id: CallId, purpose: Purpose, result: (State, Outcome))
    requires id in sys.calls
    ensures Settle(sys, id, purpose, result).m == result.0
  {
  }

  lemma SettleKeepsPosts(sys: System, id: CallId, purpose: Purpose, result: (State, Outcome))
    requires id in sys.calls && Posts(sys) && Sound(sys, id, result)
    ensures Posts(Settle(sys, id, purpose, result))
  {
    var g, m' := sys.calls[id].grantId, result.0;
    var sys1 := sys.(m := m');
    var sys' := Settle(sys, id, purpose, result);
    hide Posts, Spares, Inv;
    if result.1.Post? {
      PostedPosts(sys, m', g, result.1.session.refresh.id);
      PostsFrame(sys.(m := m', log := sys'.log), sys');
    } else {
      if Spares(sys.m, m', {}) { SparedPosts(sys, m'); } else { RotatedPosts(sys, m', g); }
      if sys'.log != sys.log {
        LoggedPosts(sys1, sys'.log[|sys.log|]);
      }
      PostsFrame(sys.(m := m', log := sys'.log), sys');
    }
  }

  lemma PostsFrame(sys: System, sys': System)
    requires Posts(sys) && sys'.m == sys.m && sys'.log == sys.log
    ensures Posts(sys')
  {
  }

  lemma SettleKeeps(sys: System, id: CallId, purpose: Purpose, result: (State, Outcome))
    requires Holding(sys, id) && Sound(sys, id, result)
    ensures SysInv(Settle(sys, id, purpose, result))
  {
    SettleState(sys, id, purpose, result);
    hide Locks, Calls, Posts, Inv, Spares, Settle;
    SettleKeepsLocks(sys, id, purpose, result);
    SettleKeepsCalls(sys, id, purpose, result);
    SettleKeepsPosts(sys, id, purpose, result);
  }

  // --- Every action ---

  /** What requests of other parties leave alone: the sessions of every grant there was. */
  ghost predicate Bystands(m: State, m': State) {
    && Inv(m') && Grows(m.h, m'.h)
    && forall g {:trigger m'.s.grants[g]} :: g in m'.s.grants && g in m.h.grants ==>
      g in m.s.grants && m'.s.grants[g].session == m.s.grants[g].session &&
        m'.s.grants[g].refreshPending == m.s.grants[g].refreshPending
  }

  lemma EvolvedBystands(m: State, m': State, born: set<nat>)
    requires Inv(m') && Grows(m.h, m'.h) && Evolves(m.s, m'.s, born) && born !! m.h.grants.Keys
    ensures Bystands(m, m')
  {
    hide Inv, Grows, GrantsAge, TokensAge;
    forall g | g in m'.s.grants && g in m.h.grants
      ensures g in m.s.grants && m'.s.grants[g].session == m.s.grants[g].session &&
        m'.s.grants[g].refreshPending == m.s.grants[g].refreshPending
    {
      assert g in m.h.grants.Keys && g !in born;
    }
  }

  lemma NewGrantsAreNew(m: State, op: Op)
    requires Inv(m) && Enabled(m, op)
    ensures NewNames(op) !! m.h.grants.Keys
  {
    assert m.h.grants.Keys <= m.h.used;
    assert NewNames(op) !! m.h.used;
  }

  lemma OutsideBystands(m: State, op: Op)
    requires Inv(m) && Outside(op)
    ensures Bystands(m, Step(m, op))
  {
    hide Inv, Grows, Perform, NewNames, Evolves, Record;
    StepKeeps(m, op);
    StepGrows(m, op);
    if Enabled(m, op) {
      NewGrantsAreNew(m, op);
      PerformEvolves(m.s, op, m.now);
      EvolvedBystands(m, Step(m, op), NewNames(op));
    } else {
      assert forall g :: g in m.s.grants ==> m.s.grants[g] == m.s.grants[g];
    }
  }

  lemma RestartBystands(m: State, grantTtl: int)
    requires Inv(m)
    ensures Bystands(m, Step(m, Restart(grantTtl)))
  {
    hide Inv, Grows;
    StepKeeps(m, Restart(grantTtl));
    StepGrows(m, Restart(grantTtl));
    RestartKeepsGrants(m, grantTtl);
    hide Step;
  }

  lemma RestartKeepsGrants(m: State, grantTtl: int)
    ensures Step(m, Restart(grantTtl)).s.grants == m.s.grants
  {
  }

  lemma BystandingKeepsCalls(sys: System, m': State)
    requires Calls(sys) && Bystands(sys.m, m')
    ensures Calls(sys.(m := m'))
  {
    forall id | id in sys.calls ensures PhaseOk(m', sys.calls[id]) && TokenOk(m'.h, sys.calls[id]) {
      TokenFrame(sys.m.h, m'.h, sys.calls[id]);
    }
  }

  /** A grant made since holds a credential no one has posted. */
  lemma NewGrantUnposted(m: State, m': State, e: Event, g: GrantId)
    requires Inv(m') && Grows(m.h, m'.h) && PostedOk(m.h, e) && e.Posted? && g in m'.s.grants && g !in m.h.grants
    ensures e.credential != m'.s.grants[g].session.refresh.id
  {
    assert GrantOk(m'.h, m'.s.resource, g, m'.s.grants[g]);
    assert m'.h.grants[e.grantId].code in m'.h.codes;
    assert m'.h.grants[g].code != m'.h.grants[e.grantId].code;
    G.CodesShareNothing(m', m'.h.grants[g].code, m'.h.grants[e.grantId].code);
  }

  lemma BystandingKeepsPosts(sys: System, m': State)
    requires Posts(sys) && Bystands(sys.m, m')
    ensures Posts(sys.(m := m'))
  {
    PostedFrame(sys.m.h, m'.h, sys.log);
    hide Inv, Grows;
    forall g, i | g in m'.s.grants && 0 <= i < |sys.log| && sys.log[i].Posted? &&
      sys.log[i].credential == m'.s.grants[g].session.refresh.id
      ensures m'.s.grants[g].refreshPending
    {
      if g in sys.m.h.grants {
        assert sys.m.s.grants[g].session == m'.s.grants[g].session;
      } else {
        NewGrantUnposted(sys.m, m', sys.log[i], g);
      }
    }
  }

  lemma BystandingKeeps(sys: System, m': State)
    requires SysInv(sys) && Bystands(sys.m, m')
    ensures SysInv(sys.(m := m'))
  {
    LocksFrame(sys, sys.(m := m'), {});
    hide Locks, Inv;
    BystandingKeepsCalls(sys, m');
    BystandingKeepsPosts(sys, m');
    hide Calls, Posts;
  }

  lemma SparingBystands(m: State, m': State)
    requires Inv(m') && Spares(m, m', {})
    ensures Bystands(m, m')
  {
    hide Inv, Grows;
  }
}
