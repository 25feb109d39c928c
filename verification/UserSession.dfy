/** Tool calls as coroutines over the provider.

    An atomic step is the code between two suspension points: waiting for the grant's lock,
    waiting for the upstream, or running tool code. Everything a step asks of the provider is an
    operation of `Machine`, so whatever holds of every provider run holds here too.
  */
module UserSession {
  import opened OAuthTypes
  import opened Machine
  import P = ProviderModel

  type CallId = nat
  type LockId = nat

  /** Every tool but `relay_hello` needs one scope and verifies the upstream identity. */
  datatype Tool = Hello | Scoped(scope: Scope)

  /** Why the identity is being verified: to enter the tool, or before one of its requests. */
  datatype Purpose = Enter | Request

  datatype Phase =
    | WaitContext                                                        // wants the lock, to load the session
    | WaitVerify(purpose: Purpose)                                       // wants the lock, to verify
    | Posting(purpose: Purpose, session: RelaySession)                   // holds it: POST /auth/refresh in flight
    | Asking(purpose: Purpose, session: RelaySession, refreshed: bool)   // holds it: GET /auth/me in flight
    | InTool                                                             // tool code runs
    | Requesting                                                         // the tool's own request in flight

  datatype Call = Call(token: Token, tool: Tool, grantId: GrantId, subject: UserId, lock: LockId, phase: Phase)

  // --- What one uninterrupted stretch of `DelegatedRequestSession` does ---

  datatype RefreshReply = NetworkError | Rejected | Malformed | Rotated(access: Credential, refresh: Credential)

  datatype MeReply = Unauthorized | Forbidden | Unavailable | Identity(userId: UserId, workspaceId: WorkspaceId)

  datatype Outcome = Fail | Post(session: RelaySession) | Ask(session: RelaySession, refreshed: bool) | Verified

  /** `check_grant`: the tool's access token still loads, for the same grant. */
  function CheckGrant(m: State, t: Token, g: GrantId): (State, bool) {
    var info := P.LoadAccess(m.s, t, m.now).1;
    (Step(m, LoadAccess(t)), info.Some? && info.value.grantId == g)
  }

  /** `_refresh` up to sending the credential: the pending flag is written first. */
  function StartRefresh(m: State, t: Token, g: GrantId, session: RelaySession): (State, Outcome) {
    var (m1, live) := CheckGrant(m, t, g);
    if !live then (m1, Fail) else
    var ok := P.BeginRefresh(m1.s, g, m1.now).1;
    (Step(m1, BeginRefresh(g)), if ok then Post(session) else Fail)
  }

  /** `_refresh` once the upstream has answered, up to asking for the identity. */
  function FinishRefresh(m: State, g: GrantId, session: RelaySession, reply: RefreshReply): (State, Outcome) {
    match reply
    case NetworkError => (m, Fail)
    case Malformed => (m, Fail)
    case Rejected => (Step(m, RevokeGrant(g)), Fail)
    case Rotated(access, refresh) =>
      var expiry := TokenExpiry(access, AccessClaim);
      if expiry.None? || expiry.value <= m.now then (m, Fail) else
      var rotated := session.(access := access, refresh := refresh);
      var ok := P.SaveSession(m.s, g, rotated, m.now).1;
      (Step(m, SaveSession(g, rotated)), if ok then Ask(rotated, true) else Fail)
  }

  /** `verify_identity` from holding the lock to its first upstream call. */
  function Verify(m: State, t: Token, g: GrantId): (State, Outcome) {
    var (m1, live) := CheckGrant(m, t, g);
    if !live then (m1, Fail) else
    var loaded := P.LoadSession(m1.s, g, m1.now).1;
    var m2 := Step(m1, LoadSession(g));
    if loaded.None? then (m2, Fail) else
    var expiry := TokenExpiry(loaded.value.access, AccessClaim);
    if expiry.None? || expiry.value <= m2.now + 60 then StartRefresh(m2, t, g, loaded.value)
    else (m2, Ask(loaded.value, false))
  }

  /** `verify_identity` once `/auth/me` has answered. */
  function FinishVerify(m: State, t: Token, g: GrantId, session: RelaySession, refreshed: bool,
          reply: MeReply): (State, Outcome)
  {
    match reply
    case Unauthorized => if refreshed then (Step(m, RevokeGrant(g)), Fail) else StartRefresh(m, t, g, session)
    case Forbidden => (m, Fail)
    case Unavailable => (m, Fail)
    case Identity(userId, workspaceId) =>
      if session.userId == "" || session.workspaceId == "" || userId != session.userId ||
        workspaceId != session.workspaceId
      then (Step(m, RevokeGrant(g)), Fail)
      else
        var (m1, live) := CheckGrant(m, t, g);
        (m1, if live then Verified else Fail)
  }

  // --- The system ---

  /** Upstream calls, in the order they start. */
  datatype Event =
    | Posted(grantId: GrantId, credential: nat)
    | Asked(grantId: GrantId)
    | Requested(grantId: GrantId, token: Token, scope: Scope)

  /** `lockOf` is the weak table of lock objects, `holder` says who holds a locked one. */
  datatype System = System(
    m: State,
    lockOf: map<GrantId, LockId>,
    holder: map<LockId, CallId>,
    calls: map<CallId, Call>,
    log: seq<Event>)

  predicate HasLockRef(call: Call) {
    call.phase.WaitContext? || call.phase.WaitVerify? || call.phase.Posting? || call.phase.Asking?
  }

  predicate HoldsLock(call: Call) {
    call.phase.Posting? || call.phase.Asking?
  }

  predicate Holds(sys: System, l: LockId, id: CallId) {
    l in sys.holder && sys.holder[l] == id
  }

  predicate Referenced(calls: map<CallId, Call>, l: LockId) {
    exists id :: id in calls && HasLockRef(calls[id]) && calls[id].lock == l
  }

  /** `session_lock`: the table keeps a lock object alive only while some call refers to it;
      an unreferenced one may (`keep`) or may not still be there. */
  function SessionLock(sys: System, g: GrantId, keep: bool, newLock: LockId): LockId {
    if g in sys.lockOf && (keep || Referenced(sys.calls, sys.lockOf[g])) then sys.lockOf[g] else newLock
  }

  function Release(sys: System, id: CallId): System
    requires id in sys.calls
  {
    if Holds(sys, sys.calls[id].lock, id) then sys.(holder := P.Without(sys.holder, sys.calls[id].lock)) else sys
  }

  function Leave(sys: System, id: CallId): System
    requires id in sys.calls
  {
    Release(sys, id).(calls := P.Without(sys.calls, id))
  }

  function SetPhase(sys: System, id: CallId, phase: Phase): System
    requires id in sys.calls
  {
    sys.(calls := sys.calls[id := sys.calls[id].(phase := phase)])
  }

  /** A call that wants to verify refers to its grant's lock object from now on. */
  function WantLock(sys: System, id: CallId, phase: Phase, keep: bool, newLock: LockId): System
    requires id in sys.calls
  {
    var call := sys.calls[id];
    var l := SessionLock(sys, call.grantId, keep, newLock);
    sys.(lockOf := sys.lockOf[call.grantId := l], calls := sys.calls[id := call.(lock := l, phase := phase)])
  }

  /** What the outcome of a stretch does to the call that holds the lock. A failed verification
      ends the call when entering the tool and is reported to the tool's code otherwise. */
  function Settle(sys: System, id: CallId, purpose: Purpose, result: (State, Outcome)): System
    requires id in sys.calls
  {
    var call := sys.calls[id];
    var sys1 := sys.(m := result.0);
    match result.1
    case Fail => if purpose == Enter then Leave(sys1, id) else SetPhase(Release(sys1, id), id, InTool)
    case Post(session) =>
      SetPhase(sys1, id, Posting(purpose, session)).(log := sys.log + [Posted(call.grantId, session.refresh.id)])
    case Ask(session, refreshed) =>
      SetPhase(sys1, id, Asking(purpose, session, refreshed)).(log := sys.log + [Asked(call.grantId)])
    case Verified =>
      if purpose == Enter then SetPhase(Release(sys1, id), id, InTool)
      else if call.tool.Hello? then SetPhase(Release(sys1, id), id, InTool)
      else SetPhase(Release(sys1, id), id, Requesting).(log := sys.log +
        [Requested(call.grantId, call.token, call.tool.scope)])
  }

  datatype Action =
    | Serve(op: Op)
    | Start(id: CallId, token: Token, tool: Tool, keep: bool, newLock: LockId)
    | Acquire(id: CallId, keep: bool, newLock: LockId)
    | RefreshAnswered(id: CallId, refreshReply: RefreshReply)
    | MeAnswered(id: CallId, meReply: MeReply)
    | BeginRequest(id: CallId, keep: bool, newLock: LockId)
    | FinishRequest(id: CallId)
    | End(id: CallId)
    | Crash(grantTtl: int)

  /** Requests other parties make directly; the delegated session belongs to the calls. */
  predicate Outside(op: Op) {
    !op.LoadSession? && !op.BeginRefresh? && !op.SaveSession? && !op.Restart?
  }

  predicate Unused(sys: System, l: LockId) {
    l !in sys.holder && forall id :: id in sys.calls ==> sys.calls[id].lock != l
  }

  predicate Offered(sys: System, a: Action) {
    match a
    case Serve(op) => Outside(op)
    case Start(id, _, _, _, newLock) => id !in sys.calls && Unused(sys, newLock)
    case Acquire(id, _, newLock) =>
      id in sys.calls && (sys.calls[id].phase.WaitContext? || sys.calls[id].phase.WaitVerify?) &&
        sys.calls[id].lock !in sys.holder && Unused(sys, newLock)
    case RefreshAnswered(id, reply) =>
      id in sys.calls && sys.calls[id].phase.Posting? && (reply.Rotated? ==> reply.refresh.id !in sys.m.h.lineage)
    case MeAnswered(id, _) => id in sys.calls && sys.calls[id].phase.Asking?
    case BeginRequest(id, _, newLock) =>
      id in sys.calls && sys.calls[id].phase.InTool? && sys.calls[id].tool.Scoped? && Unused(sys, newLock)
    case FinishRequest(id) => id in sys.calls && sys.calls[id].phase.Requesting?
    case End(id) => id in sys.calls
    case Crash(_) => true
  }

  /** `remote_client_context` up to waiting for the lock: token, then scope. */
  function StartCall(sys: System, id: CallId, t: Token, tool: Tool, keep: bool, newLock: LockId): System {
    var info := P.LoadAccess(sys.m.s, t, sys.m.now).1;
    var sys1 := sys.(m := Step(sys.m, LoadAccess(t)));
    if info.None? || (tool.Scoped? && tool.scope !in info.value.scopes) then sys1
    else
      var call := Call(t, tool, info.value.grantId, info.value.subject, newLock, WaitContext);
      WantLock(sys1.(calls := sys1.calls[id := call.(phase := InTool)]), id, WaitContext, keep, newLock)
  }

  /** The first use of the lock loads the session and gives the lock back at once. */
  function EnterContext(sys: System, id: CallId, keep: bool, newLock: LockId): System
    requires id in sys.calls
  {
    var call := sys.calls[id];
    var loaded := P.LoadSession(sys.m.s, call.grantId, sys.m.now).1;
    var sys1 := sys.(m := Step(sys.m, LoadSession(call.grantId)));
    if loaded.None? || loaded.value.userId != call.subject then Leave(sys1, id)
    else if call.tool.Hello? then SetPhase(sys1, id, InTool)
    else WantLock(SetPhase(sys1, id, InTool), id, WaitVerify(Enter), keep, newLock)
  }

  function AcquireForVerify(sys: System, id: CallId, purpose: Purpose): System
    requires id in sys.calls
  {
    var call := sys.calls[id];
    Settle(sys.(holder := sys.holder[call.lock := id]), id, purpose, Verify(sys.m, call.token, call.grantId))
  }

  function Take(sys: System, a: Action): System
    requires Offered(sys, a)
  {
    match a
    case Serve(op) => sys.(m := Step(sys.m, op))
    case Start(id, t, tool, keep, newLock) => StartCall(sys, id, t, tool, keep, newLock)
    case Acquire(id, keep, newLock) =>
      if sys.calls[id].phase.WaitContext? then EnterContext(sys, id, keep, newLock)
      else AcquireForVerify(sys, id, sys.calls[id].phase.purpose)
    case RefreshAnswered(id, reply) =>
      var call := sys.calls[id];
      Settle(sys, id, call.phase.purpose, FinishRefresh(sys.m, call.grantId, call.phase.session, reply))
    case MeAnswered(id, reply) =>
      var call := sys.calls[id];
      Settle(sys, id, call.phase.purpose, FinishVerify(sys.m, call.token, call.grantId, call.phase.session,
        call.phase.refreshed, reply))
    case BeginRequest(id, keep, newLock) => WantLock(sys, id, WaitVerify(Request), keep, newLock)
    case FinishRequest(id) => SetPhase(sys, id, InTool)
    case End(id) => Leave(sys, id)
    case Crash(grantTtl) => System(Step(sys.m, Restart(grantTtl)), map[], map[], map[], sys.log)
  }

  function Advance(sys: System, a: Action): System {
    if Offered(sys, a) then Take(sys, a) else sys
  }

  function Play(sys: System, actions: seq<Action>): System
    decreases |actions|
  {
    if actions == [] then sys else Play(Advance(sys, actions[0]), actions[1..])
  }

  function Boot(resource: Resource, grantTtl: int, now: Time): System {
    System(Init(resource, grantTtl, now), map[], map[], map[], [])
  }
}
