/** `DelegatedRequestSession`: the object behind one tool call. Each method is one uninterrupted
    stretch of its coroutines, proved to do to the provider what `UserSession` says, and to put
    every credential it touches on the list that redacts the call's results. */
module RequestSession {
  import opened Basics
  import opened OAuthTypes
  import opened Machine
  import opened UserSession
  import opened Provider
  import P = ProviderModel

  /** What the redactor must hide: the client's bearer token and upstream credentials. */
  datatype Secret = Bearer(token: Token) | Upstream(credential: Credential)

  function Pair(session: RelaySession): seq<Secret> {
    [Upstream(session.access), Upstream(session.refresh)]
  }

  function BothOf(session: RelaySession): set<Secret> {
    {Upstream(session.access), Upstream(session.refresh)}
  }

  /** The session `verify_identity` loads, if it gets that far. */
  function Loaded(m: State, t: Token, g: GrantId): Option<RelaySession> {
    var (m1, live) := UserSession.CheckGrant(m, t, g);
    if live then P.LoadSession(m1.s, g, m1.now).1 else None
  }

  class DelegatedRequestSession {
    const provider: RelayOAuthProvider
    const grantId: GrantId
    const token: Token
    var session: RelaySession
    var credentials: seq<Secret>
    /** Every credential the call was made with, loaded, sent or received: it grows where the
        credential is touched, not where it is put on the list. */
    ghost var handled: set<Secret>

    ghost predicate Valid()
      reads this, provider, provider.database
    {
      provider.database.saved.None? && Remembered()
    }

    /** Everything handled is on the list, and everything the object can send has been handled. */
    ghost predicate Remembered()
      reads this
    {
      (forall c :: c in handled ==> c in credentials) && Bearer(token) in handled && BothOf(session) <= handled
    }

    constructor (provider: RelayOAuthProvider, grantId: GrantId, token: Token, session: RelaySession)
      requires provider.database.saved.None?
      ensures Valid() && this.provider == provider && this.grantId == grantId && this.token == token &&
        this.session == session
      ensures credentials == [Bearer(token)] + Pair(session) && handled == {Bearer(token)} + BothOf(session)
    {
      this.provider := provider;
      this.grantId := grantId;
      this.token := token;
      this.session := session;
      credentials := [Bearer(token)] + Pair(session);
      handled := {Bearer(token)} + BothOf(session);
    }

    method Remember(access: Credential, refresh: Credential)
      modifies this`credentials
      ensures credentials == old(credentials) + [Upstream(access), Upstream(refresh)]
      ensures Upstream(access) in credentials && Upstream(refresh) in credentials
      ensures forall c :: c in old(credentials) ==> c in credentials
    {
      var added := [Upstream(access), Upstream(refresh)];
      assert added[0] in added && added[1] in added;
      credentials := credentials + added;
    }

    /** `check_grant`. */
    method CheckGrant(ghost m: State, now: Time) returns (live: bool)
      requires Valid() && m.s == provider.View() && m.now == now
      modifies provider, provider.authorizationStore, provider.loginStore, provider.codeStore, provider.database
      ensures Valid() && (provider.View(), live) ==
        (UserSession.CheckGrant(m, token, grantId).0.s, UserSession.CheckGrant(m, token, grantId).1)
    {
      var active := provider.LoadAccessToken(token, now);
      live := active.Some? && active.value.grantId == grantId;
    }

    /** `_refresh` up to sending the credential. */
    method StartRefresh(ghost m: State, now: Time) returns (outcome: Outcome)
      requires Valid() && m.s == provider.View() && m.now == now
      modifies this`handled, provider, provider.authorizationStore, provider.loginStore, provider.codeStore,
        provider.database
      ensures Valid() && (provider.View(), outcome) ==
        (UserSession.StartRefresh(m, token, grantId, session).0.s,
        UserSession.StartRefresh(m, token, grantId, session).1)
      ensures handled == old(handled) + (if outcome.Post? then {Upstream(outcome.session.refresh)} else {})
    {
      hide Record, P.LoadAccess, P.BeginRefresh;
      var live := CheckGrant(m, now);
      if !live {
        return Fail;
      }
      var ok := provider.BeginSessionRefresh(grantId, now);
      if !ok {
        return Fail;
      }
      handled := handled + {Upstream(session.refresh)};
      outcome := Post(session);
    }

    /** The end of `_refresh`: the new access token must have time left, and the pair is stored
        before anything else is sent. */
    method StoreRotated(ghost m: State, access: Credential, refresh: Credential, now: Time) returns (outcome: Outcome)
      requires Valid() && m.s == provider.View() && m.now == now && refresh.id !in m.h.lineage
      requires Upstream(access) in handled && Upstream(refresh) in handled
      modifies this`session, provider.database`grants
      ensures Valid()
      ensures
        var (m', expected) := UserSession.FinishRefresh(m, grantId, old(session), Rotated(access, refresh));
        provider.View() == m'.s && outcome == expected
      ensures outcome.Ask? ==> outcome.session == session
    {
      hide Record, P.SaveSession;
      var expiry := TokenExpiry(access, AccessClaim);
      if expiry.None? || expiry.value <= now {
        return Fail;
      }
      session := session.(access := access, refresh := refresh);
      var ok := provider.SaveSession(grantId, session, now);
      outcome := if ok then Ask(session, true) else Fail;
    }

    /** `_refresh` once the upstream has answered: rotated credentials are remembered before
        anything is checked about them. */
    method FinishRefresh(ghost m: State, reply: RefreshReply, now: Time) returns (outcome: Outcome)
      requires Valid() && m.s == provider.View() && m.now == now
      requires reply.Rotated? ==> reply.refresh.id !in m.h.lineage
      modifies this, provider.database`grants
      ensures Valid()
      ensures
        var (m', expected) := UserSession.FinishRefresh(m, grantId, old(session), reply);
        provider.View() == m'.s && outcome == expected
      ensures credentials == old(credentials) + if reply.Rotated? then [Upstream(reply.access), Upstream(reply.refresh)]
        else []
      ensures handled == old(handled) + if reply.Rotated? then {Upstream(reply.access), Upstream(reply.refresh)} else {}
      ensures outcome.Ask? ==> outcome.session == session
    {
      hide Record;
      match reply {
        case NetworkError => return Fail;
        case Rejected =>
          provider.RevokeGrant(grantId, now);
          return Fail;
        case Malformed => return Fail;
        case Rotated(access, refresh) =>
          handled := handled + {Upstream(access), Upstream(refresh)};
          Remember(access, refresh);
          outcome := StoreRotated(m, access, refresh, now);
      }
    }

    /** `verify_identity` from holding the lock to its first upstream call. */
    method StartVerify(ghost m: State, now: Time) returns (outcome: Outcome)
      requires Valid() && m.s == provider.View() && m.now == now
      modifies this, provider, provider.authorizationStore, provider.loginStore, provider.codeStore, provider.database
      ensures Valid()
      ensures provider.View() == Verify(m, token, grantId).0.s && outcome == Verify(m, token, grantId).1
      ensures session == if Loaded(m, token, grantId).Some? then Loaded(m, token, grantId).value else old(session)
      ensures credentials == old(credentials) + if Loaded(m, token, grantId).Some? then Pair(session) else []
      ensures handled == old(handled) + if Loaded(m, token, grantId).Some? then BothOf(session) else {}
      ensures outcome.Post? || outcome.Ask? ==> outcome.session == session
    {
      hide Record, P.LoadAccess, P.LoadSession, P.BeginRefresh;
      var live := CheckGrant(m, now);
      if !live {
        return Fail;
      }
      ghost var m1 := UserSession.CheckGrant(m, token, grantId).0;
      // Another call may have refreshed while this one waited for the lock.
      var loaded := provider.LoadSession(grantId, now);
      if loaded.None? {
        return Fail;
      }
      session := loaded.value;
      handled := handled + BothOf(session);
      Remember(session.access, session.refresh);
      var expiry := TokenExpiry(session.access, AccessClaim);
      if expiry.None? || expiry.value <= now + 60 {
        outcome := StartRefresh(Step(m1, LoadSession(grantId)), now);
      } else {
        outcome := Ask(session, false);
      }
    }

    /** `verify_identity` once `/auth/me` has answered. */
    method FinishVerify(ghost m: State, refreshed: bool, reply: MeReply, now: Time) returns (outcome: Outcome)
      requires Valid() && m.s == provider.View() && m.now == now
      modifies this`handled, provider, provider.authorizationStore, provider.loginStore, provider.codeStore,
        provider.database
      ensures Valid()
      ensures handled == old(handled) + (if outcome.Post? then {Upstream(outcome.session.refresh)} else {})
      ensures
        var (m', expected) := UserSession.FinishVerify(m, token, grantId, session, refreshed, reply);
        provider.View() == m'.s && outcome == expected
      ensures outcome.Post? ==> outcome.session == session
    {
      match reply {
        case Unauthorized =>
          if !refreshed {
            outcome := StartRefresh(m, now);
          } else {
            provider.RevokeGrant(grantId, now);
            outcome := Fail;
          }
        case Forbidden => outcome := Fail;
        case Unavailable => outcome := Fail;
        case Identity(userId, workspaceId) =>
          if session.userId == "" || session.workspaceId == "" || userId != session.userId ||
            workspaceId != session.workspaceId {
            provider.RevokeGrant(grantId, now);
            return Fail;
          }
          var live := CheckGrant(m, now);
          outcome := if live then Verified else Fail;
      }
    }
  }
}
