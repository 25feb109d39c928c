/** What every reachable state of the provider satisfies.

    `Records` is about the history alone, `Stores` about requests, logins and codes, `Grants`
    about grant rows, `Rotation` about the refresh tokens of a grant and `Rows` about all token
    rows. They hold together: each needs facts of the others to survive a step.
  */
module Invariant {
  import opened Basics
  import opened OAuthTypes
  import opened Machine

  ghost predicate Within<K, V>(a: map<K, V>, b: map<K, V>) {
    forall k :: k in a ==> k in b && b[k] == a[k]
  }

  ghost predicate Undecided(h: History, r: RequestId) {
    forall i :: 0 <= i < |h.decisions| ==> h.decisions[i].request != r
  }

  ghost predicate UnspentLogin(h: History, l: LoginId) {
    forall i :: 0 <= i < |h.decisions| ==> h.decisions[i].login != l
  }

  ghost predicate UnspentCode(h: History, c: CodeId) {
    forall g :: g in h.grants ==> h.grants[g].code != c
  }

  ghost predicate Descends(h: History, session: RelaySession, l: LoginId) {
    session.refresh.id in h.lineage && h.lineage[session.refresh.id] == l
  }

  // --- The history ---

  ghost predicate Names(h: History) {
    && h.requests.Keys <= h.used && h.codes.Keys <= h.used && h.logins.Keys <= h.used
    && h.grants.Keys <= h.used && h.tokens.Keys <= h.used
    && h.issued.Keys == h.grants.Keys && h.stored.Keys == h.grants.Keys
    && (forall g, i :: g in h.issued && 0 <= i < |h.issued[g]| ==> h.issued[g][i] in h.tokens)
    && (forall i :: 0 <= i < |h.exchanged| ==> h.exchanged[i] in h.tokens)
  }

  ghost predicate RequestRecOk(clients: map<ClientId, Client>, now: Time, rec: RequestRec) {
    rec.at <= now && rec.client in clients && rec.scopes <= SCOPES * clients[rec.client].scopes
  }

  ghost predicate CodeRecOk(h: History, now: Time, c: CodeId, rec: CodeRec) {
    rec.request in h.requests && rec.login in h.logins && rec.subject == h.logins[rec.login] &&
    rec.client == h.requests[rec.request].client && rec.scopes == h.requests[rec.request].scopes &&
    h.requests[rec.request].at <= rec.at < h.requests[rec.request].at + REQUEST_TTL && rec.at <= now &&
    exists i :: 0 <= i < |h.decisions| && h.decisions[i] == Decision(rec.request, rec.login, Some(c))
  }

  ghost predicate GrantRecOk(h: History, now: Time, rec: GrantRec) {
    rec.code in h.codes && rec.client == h.codes[rec.code].client && rec.subject == h.codes[rec.code].subject &&
    h.codes[rec.code].at <= rec.at < h.codes[rec.code].at + CODE_TTL && rec.at <= now
  }

  ghost predicate TokenRecOk(h: History, now: Time, rec: TokenRec) {
    rec.at <= now && rec.grant in h.grants && h.grants[rec.grant].code in h.codes &&
    rec.scopes <= h.codes[h.grants[rec.grant].code].scopes &&
    (rec.parent.Some? ==>
       rec.parent.value in h.tokens && h.tokens[rec.parent.value].kind == Refresh &&
       h.tokens[rec.parent.value].grant == rec.grant && rec.scopes <= h.tokens[rec.parent.value].scopes)
  }

  /** One decision per request and per login, one grant per code, one exchange per token. */
  ghost predicate Linear(h: History) {
    && (forall i, j :: 0 <= i < j < |h.decisions| ==>
          h.decisions[i].request != h.decisions[j].request && h.decisions[i].login != h.decisions[j].login)
    && (forall i :: 0 <= i < |h.decisions| ==> h.decisions[i].request in h.requests && h.decisions[i].login in h.logins)
    && (forall g, g' :: g in h.grants && g' in h.grants && g != g' ==> h.grants[g].code != h.grants[g'].code)
    && (forall i, j :: 0 <= i < j < |h.exchanged| ==> h.exchanged[i] != h.exchanged[j])
  }

  ghost predicate Records(h: History, clients: map<ClientId, Client>, now: Time) {
    && Names(h)
    && Linear(h)
    && (forall r {:trigger RequestRecOk(clients, now, h.requests[r])} :: r in h.requests ==>
      RequestRecOk(clients, now, h.requests[r]))
    && (forall c {:trigger CodeRecOk(h, now, c, h.codes[c])} :: c in h.codes ==> CodeRecOk(h, now, c, h.codes[c]))
    && (forall g {:trigger GrantRecOk(h, now, h.grants[g])} :: g in h.grants ==> GrantRecOk(h, now, h.grants[g]))
    && (forall t {:trigger TokenRecOk(h, now, h.tokens[t])} :: t in h.tokens ==> TokenRecOk(h, now, h.tokens[t]))
  }

  // --- Requests, logins, codes ---

  ghost predicate RequestOk(h: History, r: RequestId, p: Pending) {
    r in h.requests && p.clientId == h.requests[r].client && p.params.scopes == h.requests[r].scopes &&
    p.expiresAt == h.requests[r].at + REQUEST_TTL && Undecided(h, r)
  }

  ghost predicate LoginOk(h: History, l: LoginId, login: Login) {
    l in h.logins && login.userId == h.logins[l] && login.session.userId == login.userId &&
    Descends(h, login.session, l) && UnspentLogin(h, l)
  }

  ghost predicate CodeOk(h: History, c: CodeId, code: Code) {
    c in h.codes && code.clientId == h.codes[c].client && code.params.scopes == h.codes[c].scopes &&
    code.subject == h.codes[c].subject && code.session.userId == code.subject &&
    code.expiresAt == h.codes[c].at + CODE_TTL && Descends(h, code.session, h.codes[c].login) && UnspentCode(h, c)
  }

  ghost predicate Stores(requests: map<RequestId, Pending>, logins: map<LoginId, Login>, codes: map<CodeId, Code>,
          h: History)
  {
    && (forall r {:trigger RequestOk(h, r, requests[r])} :: r in requests ==> RequestOk(h, r, requests[r]))
    && (forall l {:trigger LoginOk(h, l, logins[l])} :: l in logins ==> LoginOk(h, l, logins[l]))
    && (forall c {:trigger CodeOk(h, c, codes[c])} :: c in codes ==> CodeOk(h, c, codes[c]))
  }

  // --- Grants ---

  /** The least of the grant's own limit and every stored upstream expiry. */
  function Capped(limit: Time, expiries: seq<Time>): Time {
    if expiries == [] then limit else Min(Capped(limit, expiries[..|expiries| - 1]), expiries[|expiries| - 1])
  }

  ghost predicate GrantOk(h: History, resource: Resource, g: GrantId, grant: Grant) {
    g in h.grants && g in h.stored &&
    var rec := h.grants[g];
    grant.clientId == rec.client && grant.subject == rec.subject && grant.workspaceId == rec.workspace &&
      grant.resource == resource &&
    grant.session.userId == grant.subject && grant.session.workspaceId == grant.workspaceId &&
    grant.expiresAt == Capped(rec.limit, h.stored[g]) &&
    rec.code in h.codes && Descends(h, grant.session, h.codes[rec.code].login)
  }

  ghost predicate Grants(grants: map<GrantId, Grant>, resource: Resource, h: History) {
    forall g {:trigger GrantOk(h, resource, g, grants[g])} :: g in grants ==> GrantOk(h, resource, g, grants[g])
  }

  // --- Refresh tokens ---

  /** A refresh row of a stored grant: consumed exactly when it is not the newest, and never
      expiring before the grant does. */
  ghost predicate IssuedOk(grants: map<GrantId, Grant>, tokens: map<Token, TokenRow>, g: GrantId, t: Token,
          newest: bool)
  {
    g in grants && t in tokens && tokens[t].kind == Refresh && tokens[t].grantId == g &&
    (tokens[t].consumedAt.None? <==> newest) && tokens[t].expiresAt >= grants[g].expiresAt
  }

  ghost predicate RotationOk(grants: map<GrantId, Grant>, tokens: map<Token, TokenRow>, h: History, g: GrantId) {
    g in h.issued && h.issued[g] != [] &&
    forall i {:trigger h.issued[g][i]} :: 0 <= i < |h.issued[g]| ==>
      IssuedOk(grants, tokens, g, h.issued[g][i], i == |h.issued[g]| - 1)
  }

  ghost predicate Rotation(grants: map<GrantId, Grant>, tokens: map<Token, TokenRow>, h: History) {
    && (forall g {:trigger RotationOk(grants, tokens, h, g)} :: g in grants ==> RotationOk(grants, tokens, h, g))
    && (forall i {:trigger h.exchanged[i]} :: 0 <= i < |h.exchanged| && h.exchanged[i] in tokens ==>
      tokens[h.exchanged[i]].consumedAt.Some?)
  }

  // --- Token rows ---

  ghost predicate RowOk(h: History, grants: map<GrantId, Grant>, t: Token, row: TokenRow) {
    row.grantId in grants && t in h.tokens && row.grantId in h.issued &&
    row.kind == h.tokens[t].kind && row.grantId == h.tokens[t].grant && row.scopes == h.tokens[t].scopes &&
    (row.kind == Access ==> row.expiresAt <= h.tokens[t].at + ACCESS_TTL) &&
    (row.kind == Refresh ==> t in h.issued[row.grantId])
  }

  ghost predicate Rows(grants: map<GrantId, Grant>, tokens: map<Token, TokenRow>, h: History) {
    forall t {:trigger RowOk(h, grants, t, tokens[t])} :: t in tokens ==> RowOk(h, grants, t, tokens[t])
  }

  ghost predicate Inv(m: State) {
    && Records(m.h, m.s.clients, m.now)
    && Stores(m.s.requests, m.s.logins, m.s.codes, m.h)
    && Grants(m.s.grants, m.s.resource, m.h)
    && Rotation(m.s.grants, m.s.tokens, m.h)
    && Rows(m.s.grants, m.s.tokens, m.h)
    && m.s.grantTtl > 0
  }

  lemma InitInv(resource: Resource, grantTtl: int, now: Time)
    requires grantTtl > 0
    ensures Inv(Init(resource, grantTtl, now))
  {
  }

  // --- Forgetting: cleanup, lazy expiry, restart ---

  /** `s'` is `s` with some entries gone; a grant goes with all its tokens and otherwise keeps
      every refresh token. */
  ghost predicate Forgets(s: Server, s': Server) {
    && s'.resource == s.resource && s'.clients == s.clients && s'.grantTtl > 0
    && Within(s'.requests, s.requests) && Within(s'.logins, s.logins) && Within(s'.codes, s.codes)
    && ForgetsRows(s.grants, s.tokens, s'.grants, s'.tokens)
  }

  ghost predicate ForgetsRows(grants: map<GrantId, Grant>, tokens: map<Token, TokenRow>, grants': map<GrantId, Grant>,
          tokens': map<Token, TokenRow>)
  {
    && Within(grants', grants) && Within(tokens', tokens)
    && (forall t :: t in tokens' && tokens'[t].grantId in grants ==> tokens'[t].grantId in grants')
    && (forall t :: t in tokens && tokens[t].kind == Refresh && tokens[t].grantId in grants' ==> t in tokens')
  }

  lemma ForgetKeepsStores(requests: map<RequestId, Pending>, logins: map<LoginId, Login>, codes: map<CodeId, Code>,
          s: Server, h: History)
    requires Stores(requests, logins, codes, h)
    requires Within(s.requests, requests) && Within(s.logins, logins) && Within(s.codes, codes)
    ensures Stores(s.requests, s.logins, s.codes, h)
  {
    forall r | r in s.requests ensures RequestOk(h, r, s.requests[r]) { assert RequestOk(h, r, requests[r]); }
    forall l | l in s.logins ensures LoginOk(h, l, s.logins[l]) { assert LoginOk(h, l, logins[l]); }
    forall c | c in s.codes ensures CodeOk(h, c, s.codes[c]) { assert CodeOk(h, c, codes[c]); }
  }

  lemma ForgetKeepsGrants(grants: map<GrantId, Grant>, grants': map<GrantId, Grant>, resource: Resource, h: History)
    requires Grants(grants, resource, h) && Within(grants', grants)
    ensures Grants(grants', resource, h)
  {
    forall g | g in grants' ensures GrantOk(h, resource, g, grants'[g]) { assert GrantOk(h, resource, g, grants[g]); }
  }

  lemma ForgetKeepsRotation(grants: map<GrantId, Grant>, tokens: map<Token, TokenRow>, grants': map<GrantId, Grant>,
          tokens': map<Token, TokenRow>, h: History)
    requires Rotation(grants, tokens, h) && ForgetsRows(grants, tokens, grants', tokens')
    ensures Rotation(grants', tokens', h)
  {
    forall g | g in grants' ensures RotationOk(grants', tokens', h, g) {
      assert RotationOk(grants, tokens, h, g);
    }
  }

  lemma ForgetKeepsRows(grants: map<GrantId, Grant>, tokens: map<Token, TokenRow>, grants': map<GrantId, Grant>,
          tokens': map<Token, TokenRow>, h: History)
    requires Rows(grants, tokens, h) && ForgetsRows(grants, tokens, grants', tokens')
    ensures Rows(grants', tokens', h)
  {
    forall t | t in tokens' ensures RowOk(h, grants', t, tokens'[t]) {
      assert RowOk(h, grants, t, tokens[t]);
    }
  }

  lemma ForgetKeeps(m: State, s': Server)
    requires Inv(m) && Forgets(m.s, s')
    ensures Inv(m.(s := s'))
  {
    ForgetKeepsStores(m.s.requests, m.s.logins, m.s.codes, s', m.h);
    ForgetKeepsGrants(m.s.grants, s'.grants, m.s.resource, m.h);
    ForgetKeepsRotation(m.s.grants, m.s.tokens, s'.grants, s'.tokens, m.h);
    ForgetKeepsRows(m.s.grants, m.s.tokens, s'.grants, s'.tokens, m.h);
  }
}
