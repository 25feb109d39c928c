/** The provider's in-memory stores and its database, as the objects the program updates. */
module Stores {
  import opened Basics
  import opened OAuthTypes
  import P = ProviderModel

  class AuthorizationStore {
    var requests: map<RequestId, Pending>

    constructor ()
      ensures requests == map[]
    {
      requests := map[];
    }

    method Cleanup(now: Time)
      modifies this
      ensures requests == P.LiveRequests(old(requests), now)
    {
      requests := map r | r in requests && requests[r].expiresAt > now :: requests[r];
    }

    method Create(clientId: ClientId, params: Params, r: RequestId, now: Time)
      modifies this
      ensures requests == P.LiveRequests(old(requests), now)[r := Pending(clientId, params, now + REQUEST_TTL)]
    {
      Cleanup(now);
      requests := requests[r := Pending(clientId, params, now + REQUEST_TTL)];
    }

    /** Takes the request out, whether or not it is still good. */
    method Consume(r: RequestId, now: Time) returns (request: Option<Pending>)
      modifies this
      ensures requests == P.Without(old(requests), r)
      ensures request == if r in old(requests) && old(requests)[r].expiresAt > now then Some(old(requests)[r]) else None
    {
      request := if r in requests then Some(requests[r]) else None;
      requests := P.Without(requests, r);
      if request.None? || request.value.expiresAt <= now {
        request := None;
      }
    }

    method Get(r: RequestId, now: Time) returns (request: Option<Pending>)
      modifies this
      ensures request == if r in old(requests) && old(requests)[r].expiresAt > now then Some(old(requests)[r]) else None
      ensures requests == if r in old(requests) && request.None? then P.Without(old(requests), r) else old(requests)
    {
      if r !in requests {
        return None;
      }
      if requests[r].expiresAt <= now {
        requests := P.Without(requests, r);
        return None;
      }
      request := Some(requests[r]);
    }
  }

  class LoginStore {
    var sessions: map<LoginId, Login>

    constructor ()
      ensures sessions == map[]
    {
      sessions := map[];
    }

    method Cleanup(now: Time)
      modifies this
      ensures sessions == P.LiveLogins(old(sessions), now)
    {
      sessions := map l | l in sessions && sessions[l].expiresAt > now :: sessions[l];
    }

    method Save(session: RelaySession, l: LoginId, now: Time)
      modifies this
      ensures sessions == P.LiveLogins(old(sessions), now)[l := Login(session.userId, session, now + LOGIN_TTL)]
    {
      Cleanup(now);
      sessions := sessions[l := Login(session.userId, session, now + LOGIN_TTL)];
    }

    method Get(l: LoginId, now: Time) returns (login: Option<Login>)
      modifies this
      ensures login == if l in old(sessions) && old(sessions)[l].expiresAt > now then Some(old(sessions)[l]) else None
      ensures sessions == if l in old(sessions) && login.None? then P.Without(old(sessions), l) else old(sessions)
    {
      if l !in sessions {
        return None;
      }
      if sessions[l].expiresAt <= now {
        sessions := P.Without(sessions, l);
        return None;
      }
      login := Some(sessions[l]);
    }

    method Pop(l: LoginId)
      modifies this
      ensures sessions == P.Without(old(sessions), l)
    {
      sessions := P.Without(sessions, l);
    }
  }

  class AuthorizationCodeStore {
    var codes: map<CodeId, Code>

    constructor ()
      ensures codes == map[]
    {
      codes := map[];
    }

    method Cleanup(now: Time)
      modifies this
      ensures codes == P.LiveCodes(old(codes), now)
    {
      codes := map c | c in codes && codes[c].expiresAt > now :: codes[c];
    }

    method Create(clientId: ClientId, params: Params, userId: UserId, session: RelaySession, c: CodeId, now: Time)
      modifies this
      ensures codes == P.LiveCodes(old(codes), now)[c := Code(clientId, params, userId, session, now + CODE_TTL)]
    {
      Cleanup(now);
      codes := codes[c := Code(clientId, params, userId, session, now + CODE_TTL)];
    }

    method Get(c: CodeId, clientId: ClientId, now: Time) returns (code: Option<Code>)
      modifies this
      ensures codes == P.LiveCodes(old(codes), now)
      ensures code == if c in codes && codes[c].clientId == clientId then Some(codes[c]) else None
    {
      Cleanup(now);
      if c in codes && codes[c].clientId == clientId {
        return Some(codes[c]);
      }
      code := None;
    }

    method Consume(c: CodeId, clientId: ClientId, now: Time) returns (code: Option<Code>)
      modifies this
      ensures
        var live := P.LiveCodes(old(codes), now);
        code == (if c in live && live[c].clientId == clientId then Some(live[c]) else None) &&
        codes == (if code.Some? then P.Without(live, c) else live)
    {
      code := Get(c, clientId, now);
      if code.Some? {
        codes := P.Without(codes, c);
      }
    }
  }

  /** The durable tables. A transaction snapshots them and a rollback puts the snapshot back. */
  class OAuthDatabase {
    var clients: map<ClientId, Client>
    var grants: map<GrantId, Grant>
    var tokens: map<Token, TokenRow>
    var saved: Option<(map<GrantId, Grant>, map<Token, TokenRow>)>

    constructor ()
      ensures clients == map[] && grants == map[] && tokens == map[] && saved.None?
    {
      clients, grants, tokens, saved := map[], map[], map[], None;
    }

    method Begin()
      requires saved.None?
      modifies this`saved
      ensures saved == Some((grants, tokens))
    {
      saved := Some((grants, tokens));
    }

    method Commit()
      requires saved.Some?
      modifies this`saved
      ensures saved.None?
    {
      saved := None;
    }

    method Rollback()
      requires saved.Some?
      modifies this`saved, this`grants, this`tokens
      ensures saved.None? && grants == old(saved).value.0 && tokens == old(saved).value.1
    {
      grants, tokens, saved := saved.value.0, saved.value.1, None;
    }

    /** Delete expired grants, cascading to their tokens, then expired access tokens. */
    method DeleteExpired(now: Time)
      modifies this`grants, this`tokens
      ensures grants == P.LiveGrants(old(grants), now)
      ensures tokens == P.LiveTokens(old(tokens), old(grants), now)
    {
      grants := map g | g in grants && grants[g].expiresAt > now :: grants[g];
      tokens := map t | t in tokens && tokens[t].grantId in grants :: tokens[t];
      tokens := map t | t in tokens && !(tokens[t].kind == Access && tokens[t].expiresAt <= now) :: tokens[t];
    }

    method InsertGrant(g: GrantId, grant: Grant)
      requires g !in grants
      modifies this`grants
      ensures grants == old(grants)[g := grant]
    {
      grants := grants[g := grant];
    }

    method UpdateGrant(g: GrantId, grant: Grant)
      requires g in grants
      modifies this`grants
      ensures grants == old(grants)[g := grant]
    {
      grants := grants[g := grant];
    }

    method InsertToken(t: Token, row: TokenRow)
      requires t !in tokens
      modifies this`tokens
      ensures tokens == old(tokens)[t := row]
    {
      tokens := tokens[t := row];
    }

    method MarkConsumed(t: Token, now: Time)
      requires t in tokens
      modifies this`tokens
      ensures tokens == old(tokens)[t := old(tokens)[t].(consumedAt := Some(now))]
    {
      tokens := tokens[t := tokens[t].(consumedAt := Some(now))];
    }
  }
}
