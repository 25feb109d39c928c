/** Every operation keeps the invariant: frames for each part of it, then one lemma per effect
    an operation can have, then one per operation, then whole runs. */
module Preservation {
  import opened Basics
  import opened OAuthTypes
  import opened Machine
  import opened Invariant
  import P = ProviderModel

  // --- Frames: how each part survives a longer history ---

  ghost predicate Prefix<T>(a: seq<T>, b: seq<T>) {
    |a| <= |b| && forall i :: 0 <= i < |a| ==> b[i] == a[i]
  }

  /** `h'` records everything `h` does, and possibly more. */
  ghost predicate Extends(h: History, h': History) {
    && Within(h.requests, h'.requests) && Within(h.logins, h'.logins) && Within(h.lineage, h'.lineage)
    && Prefix(h.decisions, h'.decisions) && Within(h.codes, h'.codes) && Within(h.grants, h'.grants)
    && Within(h.tokens, h'.tokens)
    && forall g :: g in h.issued ==> g in h'.issued && Prefix(h.issued[g], h'.issued[g])
  }

  lemma CodeRecFrame(h: History, h': History, c: CodeId, rec: CodeRec, now: Time, now': Time)
    requires CodeRecOk(h, now, c, rec) && Extends(h, h') && now <= now'
    ensures CodeRecOk(h', now', c, rec)
  {
    var i :| 0 <= i < |h.decisions| && h.decisions[i] == Decision(rec.request, rec.login, Some(c));
    assert h'.decisions[i] == h.decisions[i];
  }

  lemma GrantRecFrame(h: History, h': History, rec: GrantRec, now: Time, now': Time)
    requires GrantRecOk(h, now, rec) && Extends(h, h') && now <= now'
    ensures GrantRecOk(h', now', rec)
  {
  }

  lemma TokenRecFrame(h: History, h': History, rec: TokenRec, now: Time, now': Time)
    requires TokenRecOk(h, now, rec) && Extends(h, h') && now <= now'
    ensures TokenRecOk(h', now', rec)
  {
  }

  lemma RecordsFrame(h: History, h': History, clients: map<ClientId, Client>, clients': map<ClientId, Client>,
          now: Time, now': Time)
    requires Records(h, clients, now) && Extends(h, h') && Within(clients, clients') && now <= now'
    requires Names(h') && Linear(h')
    requires forall r {:trigger RequestRecOk(clients', now', h'.requests[r])} ::
      r in h'.requests && r !in h.requests ==> RequestRecOk(clients', now', h'.requests[r])
    requires forall c {:trigger CodeRecOk(h', now', c, h'.codes[c])} :: c in h'.codes && c !in h.codes ==>
      CodeRecOk(h', now', c, h'.codes[c])
    requires forall g {:trigger GrantRecOk(h', now', h'.grants[g])} :: g in h'.grants && g !in h.grants ==>
      GrantRecOk(h', now', h'.grants[g])
    requires forall t {:trigger TokenRecOk(h', now', h'.tokens[t])} :: t in h'.tokens && t !in h.tokens ==>
      TokenRecOk(h', now', h'.tokens[t])
    ensures Records(h', clients', now')
  {
    forall r | r in h.requests ensures RequestRecOk(clients', now', h'.requests[r]) {
      assert RequestRecOk(clients, now, h.requests[r]);
    }
    forall c | c in h.codes ensures CodeRecOk(h', now', c, h'.codes[c]) {
      CodeRecFrame(h, h', c, h.codes[c], now, now');
    }
    forall g | g in h.grants ensures GrantRecOk(h', now', h'.grants[g]) {
      GrantRecFrame(h, h', h.grants[g], now, now');
    }
    forall t | t in h.tokens ensures TokenRecOk(h', now', h'.tokens[t]) {
      TokenRecFrame(h, h', h.tokens[t], now, now');
    }
  }

  lemma StoresFrame(s: Server, h: History, h': History)
    requires Stores(s.requests, s.logins, s.codes, h) && Extends(h, h') && h'.decisions == h.decisions &&
      h'.grants == h.grants
    ensures Stores(s.requests, s.logins, s.codes, h')
  {
    forall r | r in s.requests ensures RequestOk(h', r, s.requests[r]) { assert RequestOk(h, r, s.requests[r]); }
    forall l | l in s.logins ensures LoginOk(h', l, s.logins[l]) { assert LoginOk(h, l, s.logins[l]); }
    forall c | c in s.codes ensures CodeOk(h', c, s.codes[c]) { assert CodeOk(h, c, s.codes[c]); }
  }

  lemma GrantsFrame(s: Server, h: History, h': History)
    requires Grants(s.grants, s.resource, h) && Extends(h, h')
    requires forall g :: g in s.grants && g in h.stored ==> g in h'.stored && h'.stored[g] == h.stored[g]
    ensures Grants(s.grants, s.resource, h')
  {
    forall g | g in s.grants ensures GrantOk(h', s.resource, g, s.grants[g]) {
      assert GrantOk(h, s.resource, g, s.grants[g]);
    }
  }

  lemma RotationFrame(s: Server, h: History, h': History)
    requires Rotation(s.grants, s.tokens, h) && h'.issued == h.issued && h'.exchanged == h.exchanged
    ensures Rotation(s.grants, s.tokens, h')
  {
    forall g | g in s.grants ensures RotationOk(s.grants, s.tokens, h', g) {
      assert RotationOk(s.grants, s.tokens, h, g);
    }
  }

  lemma RowsFrame(s: Server, h: History, h': History)
    requires Rows(s.grants, s.tokens, h) && Extends(h, h')
    ensures Rows(s.grants, s.tokens, h')
  {
    forall t | t in s.tokens ensures RowOk(h', s.grants, t, s.tokens[t]) {
      assert RowOk(h, s.grants, t, s.tokens[t]);
      if s.tokens[t].kind == Refresh {
        var g := s.tokens[t].grantId;
        var i :| 0 <= i < |h.issued[g]| && h.issued[g][i] == t;
        assert h'.issued[g][i] == t;
      }
    }
  }

  // --- Effects that only forget ---

  lemma CleanupForgets(s: Server, now: Time)
    requires s.grantTtl > 0
    ensures Forgets(s, P.Cleanup(s, now))
  {
  }

  lemma CleanupKeeps(m: State)
    requires Inv(m)
    ensures Inv(m.(s := P.Cleanup(m.s, m.now)))
  {
    CleanupForgets(m.s, m.now);
    ForgetKeeps(m, P.Cleanup(m.s, m.now));
  }

  /** A history without new records: more names, lineage or expiries at most. */
  lemma RecordsStay(h: History, h': History, clients: map<ClientId, Client>, now: Time, now': Time)
    requires Records(h, clients, now) && now <= now' && h.used <= h'.used && Within(h.lineage, h'.lineage)
    requires h'.requests == h.requests && h'.logins == h.logins && h'.codes == h.codes && h'.grants == h.grants
    requires h'.tokens == h.tokens && h'.decisions == h.decisions && h'.issued == h.issued &&
      h'.exchanged == h.exchanged
    requires h'.stored.Keys == h.stored.Keys
    ensures Records(h', clients, now') && Extends(h, h')
  {
    RecordsFrame(h, h', clients, clients, now, now');
  }

  lemma UsedKeeps(m: State, names: set<nat>, now: Time)
    requires Inv(m) && now >= m.now
    ensures Inv(State(m.s, m.h.(used := m.h.used + names), now))
  {
    hide Records, Stores, Grants, Rotation, Rows, Extends;
    var h := m.h.(used := m.h.used + names);
    RecordsStay(m.h, h, m.s.clients, m.now, now);
    StoresFrame(m.s, m.h, h);
    GrantsFrame(m.s, m.h, h);
    RotationFrame(m.s, m.h, h);
    RowsFrame(m.s, m.h, h);
  }

  // --- Effects on one grant row ---

  lemma RegrantKeepsRotation(s: Server, h: History, g: GrantId, grant: Grant)
    requires Rotation(s.grants, s.tokens, h) && g in s.grants && grant.expiresAt <= s.grants[g].expiresAt
    ensures Rotation(s.grants[g := grant], s.tokens, h)
  {
    forall g' | g' in s.grants ensures RotationOk(s.grants[g := grant], s.tokens, h, g') {
      assert RotationOk(s.grants, s.tokens, h, g');
    }
  }

  lemma RegrantKeepsRows(s: Server, h: History, g: GrantId, grant: Grant)
    requires Rows(s.grants, s.tokens, h) && g in s.grants
    ensures Rows(s.grants[g := grant], s.tokens, h)
  {
    forall t | t in s.tokens ensures RowOk(h, s.grants[g := grant], t, s.tokens[t]) {
      assert RowOk(h, s.grants, t, s.tokens[t]);
    }
  }

  lemma RegrantKeepsGrants(s: Server, h: History, g: GrantId, grant: Grant)
    requires Grants(s.grants, s.resource, h) && GrantOk(h, s.resource, g, grant)
    ensures Grants(s.grants[g := grant], s.resource, h)
  {
    forall g' | g' in s.grants && g' != g ensures GrantOk(h, s.resource, g', s.grants[g := grant][g']) {
      assert GrantOk(h, s.resource, g', s.grants[g']);
    }
  }

  /** A row changes but neither its identity nor, upwards, its expiry. */
  lemma RegrantKeeps(m: State, g: GrantId, grant: Grant)
    requires Inv(m) && g in m.s.grants && GrantOk(m.h, m.s.resource, g, grant)
    requires grant.expiresAt <= m.s.grants[g].expiresAt
    ensures Inv(m.(s := m.s.(grants := m.s.grants[g := grant])))
  {
    RegrantKeepsRotation(m.s, m.h, g, grant);
    RegrantKeepsRows(m.s, m.h, g, grant);
    RegrantKeepsGrants(m.s, m.h, g, grant);
  }

  lemma RevokeKeeps(m: State, g: GrantId)
    requires Inv(m)
    ensures Inv(m.(s := P.RevokeGrant(m.s, g, m.now)))
  {
    if g in m.s.grants && m.s.grants[g].revokedAt.None? {
      assert GrantOk(m.h, m.s.resource, g, m.s.grants[g]);
      RegrantKeeps(m, g, m.s.grants[g].(revokedAt := Some(m.now)));
    }
  }

  lemma BeginRefreshKeeps(m: State, g: GrantId)
    requires Inv(m)
    ensures Inv(m.(s := P.BeginRefresh(m.s, g, m.now).0))
  {
    if P.CanBeginRefresh(m.s, g, m.now) {
      assert GrantOk(m.h, m.s.resource, g, m.s.grants[g]);
      RegrantKeeps(m, g, m.s.grants[g].(refreshPending := true));
    }
  }

  lemma LoadSessionKeeps(m: State, g: GrantId)
    requires Inv(m)
    ensures Inv(m.(s := P.LoadSession(m.s, g, m.now).0))
  {
    RevokeKeeps(m, g);
  }

  /** A new upstream credential enters the lineage of a login; no stored session changes. */
  lemma LineageKeeps(m: State, credential: nat, l: LoginId)
    requires Inv(m) && credential !in m.h.lineage
    ensures Inv(m.(h := m.h.(lineage := m.h.lineage[credential := l])))
  {
    hide Records, Stores, Grants, Rotation, Rows, Extends;
    var h := m.h.(lineage := m.h.lineage[credential := l]);
    RecordsStay(m.h, h, m.s.clients, m.now, m.now);
    StoresFrame(m.s, m.h, h);
    GrantsFrame(m.s, m.h, h);
    RotationFrame(m.s, m.h, h);
    RowsFrame(m.s, m.h, h);
  }

  function Restored(grant: Grant, session: RelaySession, expiry: Time): Grant {
    grant.(session := session, refreshPending := false, expiresAt := Min(grant.expiresAt, expiry))
  }

  lemma StoreKeepsGrants(s: Server, h: History, g: GrantId, session: RelaySession, expiry: Time)
    requires Grants(s.grants, s.resource, h) && g in s.grants && g in h.stored && g in h.grants
    requires session.userId == s.grants[g].subject && session.workspaceId == s.grants[g].workspaceId
    requires h.grants[g].code in h.codes && Descends(h, session, h.codes[h.grants[g].code].login)
    ensures Grants(s.grants[g := Restored(s.grants[g], session, expiry)], s.resource,
      h.(stored := h.stored[g := h.stored[g] + [expiry]]))
  {
    var stored := h.stored[g] + [expiry];
    var h' := h.(stored := h.stored[g := stored]);
    assert stored[..|stored| - 1] == h.stored[g];
    forall g' | g' in s.grants
      ensures GrantOk(h', s.resource, g', s.grants[g := Restored(s.grants[g], session, expiry)][g']) {
      assert GrantOk(h, s.resource, g', s.grants[g']);
    }
  }

  /** Storing a rotated session: the expiry drops to the credential's, which is noted. */
  lemma StoreKeeps(m: State, g: GrantId, session: RelaySession, expiry: Time)
    requires Inv(m) && g in m.s.grants && g in m.h.stored && g in m.h.grants
    requires session.userId == m.s.grants[g].subject && session.workspaceId == m.s.grants[g].workspaceId
    requires m.h.grants[g].code in m.h.codes && Descends(m.h, session, m.h.codes[m.h.grants[g].code].login)
    ensures Inv(State(m.s.(grants := m.s.grants[g := Restored(m.s.grants[g], session, expiry)]),
                      m.h.(stored := m.h.stored[g := m.h.stored[g] + [expiry]]), m.now))
  {
    hide Records, Stores, Grants, Rotation, Rows, Extends;
    var grant := Restored(m.s.grants[g], session, expiry);
    var s := m.s.(grants := m.s.grants[g := grant]);
    var h := m.h.(stored := m.h.stored[g := m.h.stored[g] + [expiry]]);
    RecordsStay(m.h, h, m.s.clients, m.now, m.now);
    StoresFrame(m.s, m.h, h);
    StoreKeepsGrants(m.s, m.h, g, session, expiry);
    RegrantKeepsRotation(m.s, m.h, g, grant);
    RegrantKeepsRows(m.s, m.h, g, grant);
    RotationFrame(s, m.h, h);
    RowsFrame(s, m.h, h);
  }

  lemma SaveSessionKeeps(m: State, g: GrantId, session: RelaySession)
    requires Inv(m) && session.refresh.id !in m.h.lineage
    ensures Inv(State(P.SaveSession(m.s, g, session, m.now).0,
      RecordSave(m.h, g, session, P.SaveSession(m.s, g, session, m.now).1), m.now))
  {
    assert g in m.s.grants ==> GrantOk(m.h, m.s.resource, g, m.s.grants[g]);
    if g in m.h.grants {
      assert GrantRecOk(m.h, m.now, m.h.grants[g]);
      var l := m.h.codes[m.h.grants[g].code].login;
      LineageKeeps(m, session.refresh.id, l);
      var m1 := m.(h := m.h.(lineage := m.h.lineage[session.refresh.id := l]));
      if P.SaveSession(m.s, g, session, m.now).1 {
        StoreKeeps(m1, g, session, TokenExpiry(session.refresh, RefreshClaim).value);
      } else {
        RevokeKeeps(m1, g);
      }
    }
  }

  // --- Effects on requests, logins and codes ---

  lemma RegisterKeeps(m: State, clientId: ClientId, reg: Registration)
    requires Inv(m)
    ensures Inv(m.(s := P.Register(m.s, clientId, reg).0))
  {
    hide P.SafeRedirect, P.UriTexts, Stores, Grants, Rotation, Rows;
    var s := P.Register(m.s, clientId, reg).0;
    RecordsFrame(m.h, m.h, m.s.clients, s.clients, m.now, m.now);
  }

  lemma AddRequestKeepsRecords(h: History, clients: map<ClientId, Client>, now: Time, r: RequestId, rec: RequestRec)
    requires Records(h, clients, now) && r !in h.used && RequestRecOk(clients, now, rec)
    ensures Records(h.(used := h.used + {r}, requests := h.requests[r := rec]), clients, now)
    ensures Extends(h, h.(used := h.used + {r}, requests := h.requests[r := rec]))
  {
    RecordsFrame(h, h.(used := h.used + {r}, requests := h.requests[r := rec]), clients, clients, now, now);
  }

  lemma AddRequestKeeps(m: State, r: RequestId, p: Pending)
    requires Inv(m) && r !in m.h.used
    requires RequestRecOk(m.s.clients, m.now, RequestRec(p.clientId, p.params.scopes, m.now)) &&
      p.expiresAt == m.now + REQUEST_TTL
    ensures
      var rec := RequestRec(p.clientId, p.params.scopes, m.now);
      Inv(State(m.s.(requests := m.s.requests[r := p]),
                m.h.(used := m.h.used + {r}, requests := m.h.requests[r := rec]), m.now))
  {
    var rec := RequestRec(p.clientId, p.params.scopes, m.now);
    var h := m.h.(used := m.h.used + {r}, requests := m.h.requests[r := rec]);
    AddRequestKeepsRecords(m.h, m.s.clients, m.now, r, rec);
    StoresFrame(m.s, m.h, h);
    assert RequestOk(h, r, p);
    GrantsFrame(m.s, m.h, h);
    RotationFrame(m.s, m.h, h);
    RowsFrame(m.s, m.h, h);
  }

  lemma AuthorizeKeeps(m: State, clientId: ClientId, req: AuthorizationRequest, r: RequestId)
    requires Inv(m) && r !in m.h.used
    ensures Inv(Do(m, Authorize(clientId, req, r)))
  {
    hide Inv;
    if clientId in m.s.clients {
      CleanupKeeps(m);
      var m1 := m.(s := P.Cleanup(m.s, m.now));
      if P.Authorize(m.s, clientId, req, r, m.now).1.Ok? {
        ForgetKeeps(m1, m1.s.(requests := P.LiveRequests(m1.s.requests, m.now)));
        var m2 := m1.(s := m1.s.(requests := P.LiveRequests(m1.s.requests, m.now)));
        var scopes := P.RequestedScopes(m.s.clients[clientId], req.scopes);
        AddRequestKeeps(m2, r, Pending(clientId, Params(scopes, req.redirectUri, req.challenge, req.resource),
          m.now + REQUEST_TTL));
      } else {
        UsedKeeps(m1, {r}, m.now);
      }
    } else {
      UsedKeeps(m, {r}, m.now);
    }
  }

  lemma AddLoginKeepsRecords(h: History, clients: map<ClientId, Client>, now: Time, session: RelaySession, l: LoginId)
    requires Records(h, clients, now) && l !in h.used && session.refresh.id !in h.lineage
    ensures Records(RecordLogin(h.(used := h.used + {l}), session, l), clients, now)
    ensures Extends(h, RecordLogin(h.(used := h.used + {l}), session, l))
  {
    RecordsFrame(h, RecordLogin(h.(used := h.used + {l}), session, l), clients, clients, now, now);
  }

  lemma AddLoginKeeps(m: State, l: LoginId, session: RelaySession, expiresAt: Time)
    requires Inv(m) && l !in m.h.used && session.refresh.id !in m.h.lineage
    ensures Inv(State(m.s.(logins := m.s.logins[l := Login(session.userId, session, expiresAt)]),
                      RecordLogin(m.h.(used := m.h.used + {l}), session, l), m.now))
  {
    var h := RecordLogin(m.h.(used := m.h.used + {l}), session, l);
    AddLoginKeepsRecords(m.h, m.s.clients, m.now, session, l);
    StoresFrame(m.s, m.h, h);
    assert LoginOk(h, l, Login(session.userId, session, expiresAt));
    GrantsFrame(m.s, m.h, h);
    RotationFrame(m.s, m.h, h);
    RowsFrame(m.s, m.h, h);
  }

  lemma TtlIsPositive(m: State)
    requires Inv(m)
    ensures m.s.grantTtl > 0
  {
  }

  lemma LoginsForget(s: Server, previous: Option<LoginId>, now: Time)
    requires s.grantTtl > 0
    ensures Forgets(s, s.(logins := P.LiveLogins(P.DropLogin(s, previous).logins, now)))
  {
  }

  lemma SaveLoginKeeps(m: State, previous: Option<LoginId>, session: RelaySession, l: LoginId)
    requires Inv(m) && Enabled(m, SaveLogin(previous, session, l))
    ensures Inv(Do(m, SaveLogin(previous, session, l)))
  {
    hide Inv, Forgets, RecordLogin, P.LiveLogins, P.DropLogin;
    TtlIsPositive(m);
    var logins := P.LiveLogins(P.DropLogin(m.s, previous).logins, m.now);
    var m1 := m.(s := m.s.(logins := logins));
    LoginsForget(m.s, previous, m.now);
    ForgetKeeps(m, m1.s);
    AddLoginKeeps(m1, l, session, m.now + LOGIN_TTL);
    assert Do(m, SaveLogin(previous, session, l)) ==
           State(m1.s.(logins := logins[l := Login(session.userId, session, m.now + LOGIN_TTL)]),
                 RecordLogin(m.h.(used := m.h.used + {l}), session, l), m.now);
  }

  /** A decision spends its request and its login for good. */
  lemma DecisionKeepsStores(s: Server, h: History, h': History, d: Decision)
    requires Stores(s.requests, s.logins, s.codes, h) && Extends(h, h') && h'.grants == h.grants &&
      h'.decisions == h.decisions + [d]
    requires d.request !in s.requests && d.login !in s.logins
    ensures Stores(s.requests, s.logins, s.codes, h')
  {
    forall r | r in s.requests ensures RequestOk(h', r, s.requests[r]) { assert RequestOk(h, r, s.requests[r]); }
    forall l | l in s.logins ensures LoginOk(h', l, s.logins[l]) { assert LoginOk(h, l, s.logins[l]); }
    forall c | c in s.codes ensures CodeOk(h', c, s.codes[c]) { assert CodeOk(h, c, s.codes[c]); }
  }

  lemma DecisionKeeps(m: State, h': History, d: Decision)
    requires Inv(m) && d.request !in m.s.requests && d.login !in m.s.logins
    requires d.request in m.h.requests && d.login in m.h.logins && Undecided(m.h, d.request) &&
      UnspentLogin(m.h, d.login)
    requires h' == m.h.(decisions := m.h.decisions + [d])
    ensures Inv(m.(h := h'))
  {
    RecordsFrame(m.h, h', m.s.clients, m.s.clients, m.now, m.now);
    DecisionKeepsStores(m.s, m.h, h', d);
    GrantsFrame(m.s, m.h, h');
    RotationFrame(m.s, m.h, h');
    RowsFrame(m.s, m.h, h');
  }

  lemma CodeJoins(requests: map<RequestId, Pending>, logins: map<LoginId, Login>, codes: map<CodeId, Code>, h: History,
          c: CodeId, code: Code)
    requires Stores(requests, logins, codes, h) && CodeOk(h, c, code)
    ensures Stores(requests, logins, codes[c := code], h)
  {
  }

  lemma CodeNamesAreUsed(h: History)
    requires Names(h)
    ensures h.codes.Keys <= h.used
  {
  }

  lemma AddCodeKeepsShape(h: History, h': History, c: CodeId, rec: CodeRec)
    requires Names(h) && Linear(h) && c !in h.codes && h' == h.(used := h.used + {c}, codes := h.codes[c := rec])
    ensures Names(h') && Linear(h') && Extends(h, h')
  {
  }

  lemma AddCodeKeepsRecords(h: History, h': History, clients: map<ClientId, Client>, now: Time, c: CodeId, rec: CodeRec)
    requires Records(h, clients, now) && c !in h.used && CodeRecOk(h, now, c, rec)
    requires h' == h.(used := h.used + {c}, codes := h.codes[c := rec])
    ensures Records(h', clients, now) && Extends(h, h') && UnspentCode(h', c)
  {
    hide Names, Linear, Extends, CodeRecOk;
    CodeNamesAreUsed(h);
    AddCodeKeepsShape(h, h', c, rec);
    CodeRecFrame(h, h', c, rec, now, now);
    RecordsFrame(h, h', clients, clients, now, now);
    forall g | g in h'.grants ensures h'.grants[g].code != c { assert GrantRecOk(h, now, h.grants[g]); }
  }

  lemma AddCodeKeeps(m: State, c: CodeId, code: Code, rec: CodeRec)
    requires Inv(m) && c !in m.h.used && CodeRecOk(m.h, m.now, c, rec)
    requires code.clientId == rec.client && code.params.scopes == rec.scopes && code.subject == rec.subject
    requires code.session.userId == code.subject && code.expiresAt == rec.at + CODE_TTL &&
      Descends(m.h, code.session, rec.login)
    ensures Inv(State(m.s.(codes := m.s.codes[c := code]), m.h.(used := m.h.used + {c}, codes := m.h.codes[c := rec]),
      m.now))
  {
    hide Records, Stores, Grants, Rotation, Rows, Extends, UnspentCode;
    var h := m.h.(used := m.h.used + {c}, codes := m.h.codes[c := rec]);
    AddCodeKeepsRecords(m.h, h, m.s.clients, m.now, c, rec);
    StoresFrame(m.s, m.h, h);
    CodeJoins(m.s.requests, m.s.logins, m.s.codes, h, c, code);
    GrantsFrame(m.s, m.h, h);
    RotationFrame(m.s, m.h, h);
    RowsFrame(m.s, m.h, h);
  }

  /** What the invariant says of the request and the login a decision is about to spend. */
  lemma DecisionFacts(m: State, r: RequestId, l: LoginId)
    requires Inv(m) && r in m.s.requests && l in m.s.logins
    ensures RequestOk(m.h, r, m.s.requests[r]) && LoginOk(m.h, l, m.s.logins[l])
    ensures RequestRecOk(m.s.clients, m.now, m.h.requests[r]) && m.s.grantTtl > 0
  {
  }

  lemma DenyKeeps(m: State, r: RequestId, l: LoginId)
    requires Inv(m) && r in m.s.requests && l in m.s.logins
    ensures Inv(State(m.s.(requests := P.Without(m.s.requests, r), logins := P.Without(m.s.logins, l)),
                      m.h.(decisions := m.h.decisions + [Decision(r, l, None)]), m.now))
  {
    DecisionFacts(m, r, l);
    hide Inv;
    var s1 := m.s.(requests := P.Without(m.s.requests, r), logins := P.Without(m.s.logins, l));
    ForgetKeeps(m, s1);
    DecisionKeeps(m.(s := s1), m.h.(decisions := m.h.decisions + [Decision(r, l, None)]), Decision(r, l, None));
  }

  lemma ApproveKeeps(m: State, r: RequestId, l: LoginId, c: CodeId)
    requires Inv(m) && r in m.s.requests && l in m.s.logins && c !in m.h.used && m.s.requests[r].expiresAt > m.now
    ensures
      var p, login := m.s.requests[r], m.s.logins[l];
      var code := Code(p.clientId, p.params, login.userId, login.session, m.now + CODE_TTL);
      Inv(State(m.s.(requests := P.Without(m.s.requests, r), logins := P.Without(m.s.logins, l),
        codes := P.LiveCodes(m.s.codes, m.now)[c := code]),
                RecordDecision(m.h.(used := m.h.used + {c}), m.s, r, l, Some(c), m.now), m.now))
  {
    DecisionFacts(m, r, l);
    hide Inv;
    var p, login := m.s.requests[r], m.s.logins[l];
    var d := Decision(r, l, Some(c));
    var m1 := m.(s := m.s.(requests := P.Without(m.s.requests, r), logins := P.Without(m.s.logins, l),
      codes := P.LiveCodes(m.s.codes, m.now)));
    ForgetKeeps(m, m1.s);
    var h2 := m.h.(decisions := m.h.decisions + [d]);
    DecisionKeeps(m1, h2, d);
    assert h2.decisions[|m.h.decisions|] == d;
    AddCodeKeeps(m1.(h := h2), c, Code(p.clientId, p.params, login.userId, login.session, m.now + CODE_TTL),
                 CodeRec(r, l, p.clientId, p.params.scopes, login.userId, m.now));
  }

  lemma ForgetsTransitive(s: Server, s1: Server, s2: Server)
    requires Forgets(s, s1) && Forgets(s1, s2)
    ensures Forgets(s, s2)
  {
  }

  lemma GetRequestForgets(s: Server, r: RequestId, now: Time)
    requires s.grantTtl > 0
    ensures Forgets(s, P.GetRequest(s, r, now).0)
  {
  }

  lemma GetLoginForgets(s: Server, l: LoginId, now: Time)
    requires s.grantTtl > 0
    ensures Forgets(s, P.GetLogin(s, l, now).0)
  {
  }

  /** A decision that is not taken only drops what has expired. */
  lemma UndecidedForgets(s: Server, r: RequestId, login: Option<LoginId>, verdict: Verdict, c: CodeId, now: Time)
    requires s.grantTtl > 0
    requires var answer := P.Decide(s, r, login, verdict, c, now).1; !answer.Denied? && !answer.Approved?
    ensures Forgets(s, P.Decide(s, r, login, verdict, c, now).0)
  {
    GetRequestForgets(s, r, now);
    var s1 := P.GetRequest(s, r, now).0;
    assert s1.grantTtl > 0;
    if login.Some? {
      GetLoginForgets(s1, login.value, now);
      ForgetsTransitive(s, s1, P.GetLogin(s1, login.value, now).0);
    }
    hide Forgets;
  }

  lemma UndecidedKeeps(m: State, r: RequestId, login: Option<LoginId>, verdict: Verdict, c: CodeId)
    requires Inv(m)
    requires var answer := P.Decide(m.s, r, login, verdict, c, m.now).1; !answer.Denied? && !answer.Approved?
    ensures Inv(State(P.Decide(m.s, r, login, verdict, c, m.now).0, m.h.(used := m.h.used + {c}), m.now))
  {
    UndecidedForgets(m.s, r, login, verdict, c, m.now);
    var m1 := m.(s := P.Decide(m.s, r, login, verdict, c, m.now).0);
    hide *;
    ForgetKeeps(m, m1.s);
    UsedKeeps(m1, {c}, m.now);
  }

  lemma DeniedKeeps(m: State, r: RequestId, login: Option<LoginId>, verdict: Verdict, c: CodeId)
    requires Inv(m) && c !in m.h.used && P.Decide(m.s, r, login, verdict, c, m.now).1.Denied?
    ensures Inv(Do(m, Decide(r, login, verdict, c)))
  {
    hide Inv;
    DenyKeeps(m, r, login.value);
    var m1 := State(m.s.(requests := P.Without(m.s.requests, r), logins := P.Without(m.s.logins, login.value)),
                    m.h.(decisions := m.h.decisions + [Decision(r, login.value, None)]), m.now);
    UsedKeeps(m1, {c}, m.now);
  }

  lemma DecideKeeps(m: State, r: RequestId, login: Option<LoginId>, verdict: Verdict, c: CodeId)
    requires Inv(m) && c !in m.h.used
    ensures Inv(Do(m, Decide(r, login, verdict, c)))
  {
    hide Inv;
    var answer := P.Decide(m.s, r, login, verdict, c, m.now).1;
    if answer.Denied? {
      DeniedKeeps(m, r, login, verdict, c);
    } else if answer.Approved? {
      ApproveKeeps(m, r, login.value, c);
    } else {
      UndecidedKeeps(m, r, login, verdict, c);
    }
  }

  // --- Effects that add tokens ---

  /** The history of a new grant: everything `RecordGrant` notes. */
  ghost predicate GrantRecorded(h: History, h': History, g: GrantId, rec: GrantRec, access: Token, refresh: Token,
          expiry: Time, scopes: set<Scope>, later: Time)
  {
    h' == h.(used := h.used + {g, access, refresh},
             grants := h.grants[g := rec],
             issued := h.issued[g := [refresh]],
             stored := h.stored[g := [expiry]],
             tokens := h.tokens[access := TokenRec(Access, g, scopes, None, later)]
                               [refresh := TokenRec(Refresh, g, scopes, None, later)])
  }

  lemma AddGrantExtends(h: History, h': History, g: GrantId, rec: GrantRec, access: Token, refresh: Token, expiry: Time,
          scopes: set<Scope>, later: Time)
    requires Names(h) && GrantRecorded(h, h', g, rec, access, refresh, expiry, scopes, later)
    requires g !in h.used && access !in h.used && refresh !in h.used
    ensures Extends(h, h')
  {
  }

  lemma AddGrantKeepsNames(h: History, h': History, g: GrantId, rec: GrantRec, access: Token, refresh: Token,
          expiry: Time, scopes: set<Scope>, later: Time)
    requires Names(h) && GrantRecorded(h, h', g, rec, access, refresh, expiry, scopes, later)
    ensures Names(h')
  {
    forall g', i | g' in h'.issued && 0 <= i < |h'.issued[g']| ensures h'.issued[g'][i] in h'.tokens {
      if g' != g { assert h.issued[g'][i] in h.tokens; }
    }
  }

  lemma AddGrantKeepsLinear(h: History, h': History, g: GrantId, rec: GrantRec, access: Token, refresh: Token,
          expiry: Time, scopes: set<Scope>, later: Time)
    requires Linear(h) && GrantRecorded(h, h', g, rec, access, refresh, expiry, scopes, later) &&
      UnspentCode(h, rec.code)
    ensures Linear(h')
  {
  }

  lemma AddGrantKeepsRecords(h: History, h': History, clients: map<ClientId, Client>, now: Time, later: Time,
          g: GrantId, rec: GrantRec, access: Token, refresh: Token, expiry: Time, scopes: set<Scope>)
    requires Records(h, clients, now) && GrantRecorded(h, h', g, rec, access, refresh, expiry, scopes, later)
    requires g !in h.used && access !in h.used && refresh !in h.used && access != refresh && UnspentCode(h, rec.code)
    requires GrantRecOk(h, now, rec) && scopes <= h.codes[rec.code].scopes && later >= now
    ensures Records(h', clients, later) && Extends(h, h')
  {
    AddGrantExtends(h, h', g, rec, access, refresh, expiry, scopes, later);
    AddGrantKeepsNames(h, h', g, rec, access, refresh, expiry, scopes, later);
    AddGrantKeepsLinear(h, h', g, rec, access, refresh, expiry, scopes, later);
    hide Names, Linear;
    RecordsFrame(h, h', clients, clients, now, later);
  }

  lemma AddGrantKeepsStores(s: Server, h: History, h': History, g: GrantId, rec: GrantRec)
    requires Stores(s.requests, s.logins, s.codes, h) && Extends(h, h') && h'.decisions == h.decisions
    requires h'.grants == h.grants[g := rec] && rec.code !in s.codes
    ensures Stores(s.requests, s.logins, s.codes, h')
  {
    forall r | r in s.requests ensures RequestOk(h', r, s.requests[r]) { assert RequestOk(h, r, s.requests[r]); }
    forall l | l in s.logins ensures LoginOk(h', l, s.logins[l]) { assert LoginOk(h, l, s.logins[l]); }
    forall c | c in s.codes ensures CodeOk(h', c, s.codes[c]) { assert CodeOk(h, c, s.codes[c]); }
  }

  lemma AddGrantKeepsRotation(s: Server, h: History, h': History, g: GrantId, grant: Grant, access: Token,
          accessRow: TokenRow, refresh: Token, refreshRow: TokenRow)
    requires Names(h) && Rotation(s.grants, s.tokens, h)
    requires g !in h.used && access !in h.used && refresh !in h.used && access != refresh && h.tokens.Keys <= h.used
    requires h'.issued == h.issued[g := [refresh]] && h'.exchanged == h.exchanged
    requires refreshRow.kind == Refresh && refreshRow.grantId == g && refreshRow.consumedAt.None? &&
      refreshRow.expiresAt >= grant.expiresAt
    ensures Rotation(s.grants[g := grant], s.tokens[access := accessRow][refresh := refreshRow], h')
  {
    var grants, tokens := s.grants[g := grant], s.tokens[access := accessRow][refresh := refreshRow];
    forall g' | g' in grants ensures RotationOk(grants, tokens, h', g') {
      if g' != g {
        assert RotationOk(s.grants, s.tokens, h, g');
        forall i | 0 <= i < |h.issued[g']|
          ensures IssuedOk(grants, tokens, g', h.issued[g'][i], i == |h.issued[g']| - 1) {
          assert h.issued[g'][i] in h.tokens;
        }
      }
    }
  }

  lemma AddGrantKeepsRows(s: Server, h: History, h': History, g: GrantId, grant: Grant, access: Token,
          accessRow: TokenRow, refresh: Token, refreshRow: TokenRow)
    requires Rows(s.grants, s.tokens, h) && Extends(h, h')
    requires access in h'.tokens && accessRow.kind == h'.tokens[access].kind == Access &&
      accessRow.scopes == h'.tokens[access].scopes
    requires accessRow.grantId == h'.tokens[access].grant == g &&
      accessRow.expiresAt <= h'.tokens[access].at + ACCESS_TTL
    requires refresh in h'.tokens && refreshRow.kind == h'.tokens[refresh].kind == Refresh &&
      refreshRow.scopes == h'.tokens[refresh].scopes
    requires refreshRow.grantId == h'.tokens[refresh].grant == g && g in h'.issued && refresh in h'.issued[g] &&
      access != refresh
    ensures Rows(s.grants[g := grant], s.tokens[access := accessRow][refresh := refreshRow], h')
  {
    var grants, tokens := s.grants[g := grant], s.tokens[access := accessRow][refresh := refreshRow];
    RowsFrame(s, h, h');
    forall t | t in tokens ensures RowOk(h', grants, t, tokens[t]) {
      if t != access && t != refresh { assert RowOk(h', s.grants, t, s.tokens[t]); }
    }
  }

  lemma AddGrantKeepsGrants(s: Server, h: History, h': History, g: GrantId, grant: Grant)
    requires Grants(s.grants, s.resource, h) && Extends(h, h') && GrantOk(h', s.resource, g, grant)
    requires forall g' :: g' in h.stored && g' != g ==> g' in h'.stored && h'.stored[g'] == h.stored[g']
    ensures Grants(s.grants[g := grant], s.resource, h')
  {
    forall g' | g' in s.grants && g' != g ensures GrantOk(h', s.resource, g', s.grants[g := grant][g']) {
      assert GrantOk(h, s.resource, g', s.grants[g']);
    }
  }

  lemma AddGrantKeeps(m: State, h': History, later: P.Readings, g: GrantId, grant: Grant, rec: GrantRec, access: Token,
          refresh: Token, expiry: Time, scopes: set<Scope>, reply: (Server, Tokens))
    requires Inv(m) && m.now <= later.checked <= later.issued &&
      GrantRecorded(m.h, h', g, rec, access, refresh, expiry, scopes, later.issued)
    requires g !in m.h.used && access !in m.h.used && refresh !in m.h.used && access != refresh
    requires GrantRecOk(m.h, m.now, rec) && scopes <= m.h.codes[rec.code].scopes && UnspentCode(m.h, rec.code) &&
      rec.code !in m.s.codes
    requires GrantOk(h', m.s.resource, g, grant)
    requires P.Issue(m.s.(grants := m.s.grants[g := grant]), g, scopes, access, refresh, later) == Ok(reply)
    ensures Inv(State(reply.0, h', later.issued))
  {
    var limit := grant.expiresAt;
    var accessRow := TokenRow(Access, g, scopes, Min(later.issued + ACCESS_TTL, limit), None);
    var refreshRow := TokenRow(Refresh, g, scopes, limit, None);
    assert reply.0 == m.s.(grants := m.s.grants[g := grant],
      tokens := m.s.tokens[access := accessRow][refresh := refreshRow]);
    assert Names(m.h);
    hide Records, Names, Stores, Grants, Rotation, Rows, Extends;
    AddGrantKeepsRecords(m.h, h', m.s.clients, m.now, later.issued, g, rec, access, refresh, expiry, scopes);
    AddGrantKeepsStores(m.s, m.h, h', g, rec);
    AddGrantKeepsGrants(m.s, m.h, h', g, grant);
    assert m.h.tokens.Keys <= m.h.used by { NamesTokens(m.h); }
    AddGrantKeepsRotation(m.s, m.h, h', g, grant, access, accessRow, refresh, refreshRow);
    AddGrantKeepsRows(m.s, m.h, h', g, grant, access, accessRow, refresh, refreshRow);
  }

  lemma NamesTokens(h: History)
    requires Names(h)
    ensures h.tokens.Keys <= h.used
  {
  }

  lemma ConsumedCodeForgets(s: Server, c: CodeId, clientId: ClientId, now: Time)
    requires s.grantTtl > 0
    ensures Forgets(s, P.ConsumeCode(s, c, clientId, now).0)
  {
  }

  lemma ExchangeCodeRefusedKeeps(m: State, clientId: ClientId, c: CodeId, names: P.Fresh, later: P.Readings)
    requires Inv(m) && Enabled(m, ExchangeCode(clientId, c, names, later))
    requires P.ExchangeCode(m.s, clientId, c, names, m.now, later).1.Err?
    ensures Inv(Do(m, ExchangeCode(clientId, c, names, later)))
  {
    var s1 := P.ConsumeCode(m.s, c, clientId, m.now).0;
    ConsumedCodeForgets(m.s, c, clientId, m.now);
    hide Inv, Forgets;
    ForgetKeeps(m, s1);
    UsedKeeps(m.(s := s1), {names.grant, names.access, names.refresh}, later.issued);
  }

  /** What the invariant says of a code about to be exchanged. */
  lemma CodeFacts(m: State, c: CodeId)
    requires Inv(m) && c in m.s.codes
    ensures CodeOk(m.h, c, m.s.codes[c]) && CodeRecOk(m.h, m.now, c, m.h.codes[c]) && m.s.grantTtl > 0
  {
  }

  lemma NewGrantOk(h: History, h': History, resource: Resource, g: GrantId, grant: Grant, rec: GrantRec, c: CodeId,
          session: RelaySession, limit: Time, expiry: Time)
    requires c in h.codes && Descends(h, session, h.codes[c].login) && h'.codes == h.codes && h'.lineage == h.lineage
    requires g in h'.grants && h'.grants[g] == rec && g in h'.stored && h'.stored[g] == [expiry]
    requires rec.code == c && rec.client == grant.clientId && rec.subject == grant.subject &&
      rec.workspace == grant.workspaceId && rec.limit == limit
    requires grant.resource == resource && grant.session == session && session.userId == grant.subject &&
      session.workspaceId == grant.workspaceId
    requires grant.expiresAt == Min(limit, expiry)
    ensures GrantOk(h', resource, g, grant)
  {
    assert [expiry][..0] == [];
    assert Capped(limit, [expiry]) == Min(Capped(limit, []), expiry);
  }

  /** A successful code exchange: the server after `_issue`, and a grant in the history. */
  lemma ExchangeCodeShape(m: State, clientId: ClientId, c: CodeId, names: P.Fresh, later: P.Readings)
    requires Enabled(m, ExchangeCode(clientId, c, names, later))
    requires P.ExchangeCode(m.s, clientId, c, names, m.now, later).1.Ok?
    ensures
      c in m.s.codes &&
      var code, s1 := m.s.codes[c], P.ConsumeCode(m.s, c, clientId, m.now).0;
      var s2 := s1.(grants := s1.grants[names.grant := P.NewGrant(s1, code, m.now)]);
      var issued := P.Issue(s2, names.grant, code.params.scopes, names.access, names.refresh, later);
      var h := m.h.(used := m.h.used + {names.grant, names.access, names.refresh});
      P.Exchangeable(m.s, code, m.now) && code.clientId == clientId && issued.Ok? &&
      Do(m, ExchangeCode(clientId, c, names, later)) ==
      State(issued.value.0, RecordGrant(h, m.s, c, names, m.now, later.issued), later.issued)
  {
    hide P.Issue, RecordGrant, RecordSave, RecordDecision, RecordRotation, RecordLogin, RecordRequest;
  }

  lemma ExchangeCodeKeeps(m: State, clientId: ClientId, c: CodeId, names: P.Fresh, later: P.Readings)
    requires Inv(m) && Enabled(m, ExchangeCode(clientId, c, names, later))
    ensures Inv(Do(m, ExchangeCode(clientId, c, names, later)))
  {
    hide Inv;
    if P.ExchangeCode(m.s, clientId, c, names, m.now, later).1.Err? {
      ExchangeCodeRefusedKeeps(m, clientId, c, names, later);
    } else {
      ExchangeCodeShape(m, clientId, c, names, later);
      hide Do, P.ExchangeCode;
      CodeFacts(m, c);
      var s1 := P.ConsumeCode(m.s, c, clientId, m.now).0;
      ConsumedCodeForgets(m.s, c, clientId, m.now);
      ForgetKeeps(m, s1);
      hide Forgets;
      var code := m.s.codes[c];
      var expiry := TokenExpiry(code.session.refresh, RefreshClaim).value;
      var rec := GrantRec(c, code.clientId, code.subject, code.session.workspaceId, m.now, m.now + m.s.grantTtl);
      var grant := P.NewGrant(s1, code, m.now);
      var scopes := code.params.scopes;
      var h' := RecordGrant(m.h.(used := m.h.used + {names.grant, names.access, names.refresh}), m.s, c, names, m.now,
        later.issued);
      NewGrantOk(m.h, h', m.s.resource, names.grant, grant, rec, c, code.session, m.now + m.s.grantTtl, expiry);
      var reply := P.Issue(s1.(grants := s1.grants[names.grant := grant]), names.grant, scopes, names.access,
        names.refresh, later).value;
      AddGrantKeeps(m.(s := s1), h', later, names.grant, grant, rec, names.access, names.refresh, expiry, scopes,
        reply);
    }
  }

  /** The history of a rotation: everything `RecordRotation` notes. */
  ghost predicate RotationRecorded(h: History, h': History, g: GrantId, t: Token, access: Token, refresh: Token,
          scopes: set<Scope>, later: Time)
    requires g in h.issued
  {
    h' == h.(used := h.used + {access, refresh},
             issued := h.issued[g := h.issued[g] + [refresh]],
             tokens := h.tokens[access := TokenRec(Access, g, scopes, Some(t), later)]
                               [refresh := TokenRec(Refresh, g, scopes, Some(t), later)],
             exchanged := h.exchanged + [t])
  }

  lemma RotateExtends(h: History, h': History, g: GrantId, t: Token, access: Token, refresh: Token, scopes: set<Scope>,
          later: Time)
    requires Names(h) && g in h.issued && RotationRecorded(h, h', g, t, access, refresh, scopes, later) &&
      access !in h.used && refresh !in h.used
    ensures Extends(h, h')
  {
  }

  lemma RotateKeepsNames(h: History, h': History, g: GrantId, t: Token, access: Token, refresh: Token,
          scopes: set<Scope>, later: Time)
    requires Names(h) && g in h.issued && RotationRecorded(h, h', g, t, access, refresh, scopes, later) && t in h.tokens
    ensures Names(h')
  {
    forall g', i | g' in h'.issued && 0 <= i < |h'.issued[g']| ensures h'.issued[g'][i] in h'.tokens {
      if g' != g || i < |h.issued[g]| { assert h.issued[g'][i] in h.tokens; }
    }
    forall i | 0 <= i < |h'.exchanged| ensures h'.exchanged[i] in h'.tokens {
      if i < |h.exchanged| { assert h.exchanged[i] in h.tokens; }
    }
  }

  lemma RotateKeepsLinear(h: History, h': History, g: GrantId, t: Token, access: Token, refresh: Token,
          scopes: set<Scope>, later: Time)
    requires Linear(h) && g in h.issued && RotationRecorded(h, h', g, t, access, refresh, scopes, later) &&
      t !in h.exchanged
    ensures Linear(h')
  {
  }

  lemma RotateKeepsRecords(h: History, h': History, clients: map<ClientId, Client>, now: Time, later: Time, g: GrantId,
          t: Token, access: Token, refresh: Token, scopes: set<Scope>)
    requires Records(h, clients, now) && later >= now && g in h.issued &&
      RotationRecorded(h, h', g, t, access, refresh, scopes, later)
    requires access !in h.used && refresh !in h.used && access != refresh && t !in h.exchanged
    requires t in h.tokens && h.tokens[t].kind == Refresh && h.tokens[t].grant == g && scopes <= h.tokens[t].scopes
    ensures Records(h', clients, later) && Extends(h, h')
  {
    RotateExtends(h, h', g, t, access, refresh, scopes, later);
    RotateKeepsNames(h, h', g, t, access, refresh, scopes, later);
    RotateKeepsLinear(h, h', g, t, access, refresh, scopes, later);
    assert TokenRecOk(h, now, h.tokens[t]);
    NamesTokens(h);
    hide Names, Linear;
    RecordsFrame(h, h', clients, clients, now, later);
  }

  /** The unconsumed refresh token of a grant is the newest one issued. */
  lemma UnconsumedIsNewest(s: Server, h: History, t: Token)
    requires Rotation(s.grants, s.tokens, h) && Rows(s.grants, s.tokens, h)
    requires t in s.tokens && s.tokens[t].kind == Refresh && s.tokens[t].consumedAt.None?
    ensures
      var g := s.tokens[t].grantId;
      g in s.grants && g in h.issued && h.issued[g] != [] && h.issued[g][|h.issued[g]| - 1] == t && t in h.tokens &&
      h.tokens[t].kind == Refresh && h.tokens[t].grant == g && h.tokens[t].scopes == s.tokens[t].scopes
    ensures t !in h.exchanged
  {
    var g := s.tokens[t].grantId;
    assert RowOk(h, s.grants, t, s.tokens[t]);
    assert RotationOk(s.grants, s.tokens, h, g);
    var i :| 0 <= i < |h.issued[g]| && h.issued[g][i] == t;
    assert IssuedOk(s.grants, s.tokens, g, h.issued[g][i], i == |h.issued[g]| - 1);
  }

  lemma RotateKeepsRotation(s: Server, h: History, h': History, t: Token, consumed: TokenRow, access: Token,
          accessRow: TokenRow, refresh: Token, refreshRow: TokenRow)
    requires Names(h) && Rotation(s.grants, s.tokens, h) && h.tokens.Keys <= h.used
    requires access !in h.used && refresh !in h.used && access != refresh
    requires t in s.tokens && t in h.tokens && s.tokens[t].kind == Refresh &&
      consumed == s.tokens[t].(consumedAt := consumed.consumedAt) && consumed.consumedAt.Some?
    requires
      var g := s.tokens[t].grantId;
      g in s.grants && g in h.issued && h.issued[g] != [] && h.issued[g][|h.issued[g]| - 1] == t &&
      h'.issued == h.issued[g := h.issued[g] + [refresh]] && h'.exchanged == h.exchanged + [t] &&
      refreshRow == TokenRow(Refresh, g, refreshRow.scopes, s.grants[g].expiresAt, None)
    ensures Rotation(s.grants, s.tokens[t := consumed][access := accessRow][refresh := refreshRow], h')
  {
    var g := s.tokens[t].grantId;
    var tokens := s.tokens[t := consumed][access := accessRow][refresh := refreshRow];
    forall g' | g' in s.grants ensures RotationOk(s.grants, tokens, h', g') {
      assert RotationOk(s.grants, s.tokens, h, g');
      forall i | 0 <= i < |h'.issued[g']|
        ensures IssuedOk(s.grants, tokens, g', h'.issued[g'][i], i == |h'.issued[g']| - 1) {
        if g' != g || i < |h.issued[g]| {
          assert h.issued[g'][i] in h.tokens;
          assert IssuedOk(s.grants, s.tokens, g', h.issued[g'][i], i == |h.issued[g']| - 1);
        }
      }
    }
    forall i | 0 <= i < |h'.exchanged| && h'.exchanged[i] in tokens ensures tokens[h'.exchanged[i]].consumedAt.Some? {
      if i < |h.exchanged| { assert h.exchanged[i] in h.tokens; }
    }
  }

  lemma RotateKeepsRows(s: Server, h: History, h': History, t: Token, consumed: TokenRow, access: Token,
          accessRow: TokenRow, refresh: Token, refreshRow: TokenRow)
    requires Rows(s.grants, s.tokens, h) && Extends(h, h')
    requires t in s.tokens && consumed == s.tokens[t].(consumedAt := consumed.consumedAt)
    requires access in h'.tokens && accessRow.kind == h'.tokens[access].kind == Access &&
      accessRow.scopes == h'.tokens[access].scopes
    requires accessRow.grantId == h'.tokens[access].grant && accessRow.expiresAt <= h'.tokens[access].at + ACCESS_TTL
    requires refresh in h'.tokens && refreshRow.kind == h'.tokens[refresh].kind == Refresh &&
      refreshRow.scopes == h'.tokens[refresh].scopes
    requires refreshRow.grantId == h'.tokens[refresh].grant == accessRow.grantId == s.tokens[t].grantId
    requires refreshRow.grantId in h'.issued && refresh in h'.issued[refreshRow.grantId] && access != refresh
    ensures Rows(s.grants, s.tokens[t := consumed][access := accessRow][refresh := refreshRow], h')
  {
    var tokens := s.tokens[t := consumed][access := accessRow][refresh := refreshRow];
    RowsFrame(s, h, h');
    assert RowOk(h', s.grants, t, s.tokens[t]);
    forall x | x in tokens ensures RowOk(h', s.grants, x, tokens[x]) {
      if x != access && x != refresh && x != t { assert RowOk(h', s.grants, x, s.tokens[x]); }
    }
  }

  lemma RotatedRows(s: Server, t: Token, scopes: set<Scope>, access: Token, refresh: Token, now: Time,
          later: P.Readings)
    requires t in s.tokens && P.Issue(P.Consume(s, t, now), s.tokens[t].grantId, scopes, access, refresh, later).Ok?
    ensures
      var g := s.tokens[t].grantId;
      g in s.grants &&
      var limit := s.grants[g].expiresAt;
      P.Issue(P.Consume(s, t, now), g, scopes, access, refresh, later).value.0 ==
      s.(tokens := s.tokens[t := s.tokens[t].(consumedAt := Some(now))]
                           [access := TokenRow(Access, g, scopes, Min(later.issued + ACCESS_TTL, limit), None)]
                           [refresh := TokenRow(Refresh, g, scopes, limit, None)])
  {
  }

  lemma InvNames(m: State)
    requires Inv(m)
    ensures Names(m.h)
  {
    hide Names, Stores, Grants, Rotation, Rows;
  }

  lemma RotateKeeps(m: State, h': History, later: P.Readings, t: Token, access: Token, refresh: Token,
          scopes: set<Scope>, reply: (Server, Tokens))
    requires Inv(m) && m.now <= later.checked <= later.issued && access !in m.h.used && refresh !in m.h.used &&
      access != refresh
    requires t in m.s.tokens && m.s.tokens[t].kind == Refresh && m.s.tokens[t].consumedAt.None? &&
      scopes <= m.s.tokens[t].scopes
    requires m.s.tokens[t].grantId in m.h.issued &&
      RotationRecorded(m.h, h', m.s.tokens[t].grantId, t, access, refresh, scopes, later.issued)
    requires P.Issue(P.Consume(m.s, t, m.now), m.s.tokens[t].grantId, scopes, access, refresh, later) == Ok(reply)
    ensures Inv(State(reply.0, h', later.issued))
  {
    var g := m.s.tokens[t].grantId;
    var consumed := m.s.tokens[t].(consumedAt := Some(m.now));
    hide Records, Names, Stores, Grants, Rotation, Rows, Extends, P.Issue;
    RotatedRows(m.s, t, scopes, access, refresh, m.now, later);
    var limit := m.s.grants[g].expiresAt;
    var accessRow := TokenRow(Access, g, scopes, Min(later.issued + ACCESS_TTL, limit), None);
    var refreshRow := TokenRow(Refresh, g, scopes, limit, None);
    InvNames(m);
    NamesTokens(m.h);
    UnconsumedIsNewest(m.s, m.h, t);
    RotateKeepsRecords(m.h, h', m.s.clients, m.now, later.issued, g, t, access, refresh, scopes);
    StoresFrame(m.s, m.h, h');
    GrantsFrame(m.s, m.h, h');
    RotateKeepsRotation(m.s, m.h, h', t, consumed, access, accessRow, refresh, refreshRow);
    RotateKeepsRows(m.s, m.h, h', t, consumed, access, accessRow, refresh, refreshRow);
  }

  lemma RowFacts(m: State, t: Token)
    requires Inv(m) && t in m.s.tokens
    ensures m.s.tokens[t].grantId in m.h.issued
  {
    assert RowOk(m.h, m.s.grants, t, m.s.tokens[t]);
  }

  lemma ExchangeRefreshKeeps(m: State, clientId: ClientId, t: Token, scopes: set<Scope>, access: Token, refresh: Token,
          later: P.Readings)
    requires Inv(m) && Enabled(m, ExchangeRefresh(clientId, t, scopes, access, refresh, later))
    ensures Inv(Do(m, ExchangeRefresh(clientId, t, scopes, access, refresh, later)))
  {
    hide Inv;
    var result := P.ExchangeRefresh(m.s, clientId, t, scopes, access, refresh, m.now, later);
    if result.1.Ok? {
      RowFacts(m, t);
      var g := m.s.tokens[t].grantId;
      var h' := RecordRotation(m.h.(used := m.h.used + {access, refresh}), m.s, t, scopes, access, refresh,
        later.issued);
      var reply := P.Issue(P.Consume(m.s, t, m.now), g, scopes, access, refresh, later).value;
      RotateKeeps(m, h', later, t, access, refresh, scopes, reply);
    } else if result.0 == m.s {
      UsedKeeps(m, {access, refresh}, later.issued);
    } else {
      var g := m.s.tokens[t].grantId;
      RevokeKeeps(m, g);
      UsedKeeps(m.(s := P.RevokeGrant(m.s, g, m.now)), {access, refresh}, later.issued);
    }
  }

  // --- Every operation, every run ---

  lemma LoadRefreshKeeps(m: State, clientId: ClientId, t: Token)
    requires Inv(m)
    ensures Inv(m.(s := P.LoadRefresh(m.s, clientId, t, m.now).0))
  {
    hide Inv;
    CleanupKeeps(m);
    var m1 := m.(s := P.Cleanup(m.s, m.now));
    var found := P.FindToken(m1.s, t, Refresh, m.now);
    if found.Some? {
      RevokeKeeps(m1, found.value.grantId);
    }
  }

  lemma RevokeTokenKeeps(m: State, clientId: ClientId, t: Token)
    requires Inv(m)
    ensures Inv(m.(s := P.RevokeToken(m.s, clientId, t, m.now)))
  {
    hide Inv;
    CleanupKeeps(m);
    var (s1, access) := P.LoadAccess(m.s, t, m.now);
    var m1 := m.(s := s1);
    LoadRefreshKeeps(m1, clientId, t);
    var (s2, token) := if access.Some? then (s1, access) else P.LoadRefresh(s1, clientId, t, m.now);
    if token.Some? {
      RevokeKeeps(m.(s := s2), token.value.grantId);
    }
  }

  lemma DropLoginForgets(s: Server, l: LoginId)
    requires s.grantTtl > 0
    ensures Forgets(s, P.DropLogin(s, Some(l)))
  {
  }

  lemma ShowCodeKeeps(m: State, c: CodeId, clientId: ClientId)
    requires Inv(m)
    ensures Inv(m.(s := P.GetCode(P.Cleanup(m.s, m.now), c, clientId, m.now).0))
  {
    CleanupKeeps(m);
    var s1 := P.Cleanup(m.s, m.now);
    hide Inv;
    ForgetKeeps(m.(s := s1), s1.(codes := P.LiveCodes(s1.codes, m.now)));
  }

  lemma RestartForgets(s: Server, grantTtl: int)
    requires grantTtl > 0
    ensures Forgets(s, P.Restart(s, grantTtl))
  {
  }

  /** Operations whose whole effect is to forget. */
  predicate Forgetful(op: Op) {
    op.ShowRequest? || op.ShowLogin? || op.DropLogin? || op.Cleanup? || op.LoadAccess? || op.Restart?
  }

  lemma ForgetfulKeeps(m: State, op: Op)
    requires Inv(m) && Enabled(m, op) && Forgetful(op)
    ensures Inv(Do(m, op))
  {
    var s' := Perform(m.s, op, m.now).0;
    assert m.h.(used := m.h.used + {}) == m.h;
    assert m.s.grantTtl > 0;
    hide Inv, Forgets, P.Cleanup, P.GetRequest, P.GetLogin, P.DropLogin, P.Restart;
    assert Forgets(m.s, s') by {
      match op
      case ShowRequest(r) => GetRequestForgets(m.s, r, m.now);
      case ShowLogin(l) => GetLoginForgets(m.s, l, m.now);
      case DropLogin(l) => DropLoginForgets(m.s, l);
      case Restart(ttl) => RestartForgets(m.s, ttl);
      case _ => CleanupForgets(m.s, m.now);
    }
    ForgetKeeps(m, s');
  }

  lemma DoKeeps(m: State, op: Op)
    requires Inv(m) && Enabled(m, op)
    ensures Inv(Do(m, op))
  {
    hide Inv;
    if Forgetful(op) {
      ForgetfulKeeps(m, op);
    } else {
      assert m.h.(used := m.h.used + {}) == m.h;
      match op
      case Wait(until) => UsedKeeps(m, {}, until);
      case Register(clientId, reg) => RegisterKeeps(m, clientId, reg);
      case Authorize(clientId, req, r) => AuthorizeKeeps(m, clientId, req, r);
      case SaveLogin(previous, session, l) => SaveLoginKeeps(m, previous, session, l);
      case Decide(r, login, verdict, c) => DecideKeeps(m, r, login, verdict, c);
      case ShowCode(c, clientId) => ShowCodeKeeps(m, c, clientId);
      case ExchangeCode(clientId, c, names, later) => ExchangeCodeKeeps(m, clientId, c, names, later);
      case LoadRefresh(clientId, t) => LoadRefreshKeeps(m, clientId, t);
      case ExchangeRefresh(clientId, t, scopes, access, refresh, later) =>
        ExchangeRefreshKeeps(m, clientId, t, scopes, access, refresh, later);
      case RevokeToken(clientId, t) => RevokeTokenKeeps(m, clientId, t);
      case RevokeGrant(g) => RevokeKeeps(m, g);
      case LoadSession(g) => LoadSessionKeeps(m, g);
      case BeginRefresh(g) => BeginRefreshKeeps(m, g);
      case SaveSession(g, session) => SaveSessionKeeps(m, g, session);
      case _ =>
    }
  }

  lemma StepKeeps(m: State, op: Op)
    requires Inv(m)
    ensures Inv(Step(m, op))
  {
    hide Inv;
    if Enabled(m, op) { DoKeeps(m, op); }
  }

  /** Every reachable state satisfies the invariant. */
  lemma {:induction false} RunKeeps(m: State, ops: seq<Op>)
    requires Inv(m)
    ensures Inv(Run(m, ops))
    decreases |ops|
  {
    hide Inv;
    if ops != [] {
      StepKeeps(m, ops[0]);
      RunKeeps(Step(m, ops[0]), ops[1..]);
    }
  }
}
