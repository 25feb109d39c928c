/** The entities of the MCP server's OAuth provider.

    Identifiers, tokens and codes are random strings that the program only ever compares for
    equality, so they are numbers here. `token_hash` is taken to be injective and credential
    encryption to be a round trip, so a token row is keyed by the token and a grant row holds
    its session in the clear.
  */
module OAuthTypes {

  import opened Basics

  /** Seconds. One reading of the clock serves a whole uninterrupted step, except where a
      second reading is an explicit parameter. */
  type Time = int

  type Scope = string
  type Resource = nat
  type ClientId = nat
  type RequestId = nat
  type LoginId = nat
  type CodeId = nat
  type GrantId = nat
  type Token = nat
  /** Upstream identities are strings: the program tests them for emptiness. */
  type UserId = string
  type WorkspaceId = string

  const SCOPES: set<Scope> := {"relay:read", "relay:write", "relay:execute", "relay:delete"}
  const REQUEST_TTL := 300
  const LOGIN_TTL := 600
  const CODE_TTL := 60
  const ACCESS_TTL := 300
  const CLEANUP_INTERVAL := 60

  // --- Upstream (Relay) credentials ---

  /** The `type` claim of an upstream JWT. */
  datatype ClaimType = AccessClaim | RefreshClaim

  /** What can be read off an upstream token: nothing when it does not decode or its `exp` is
      not a number. */
  datatype Claims = Claims(claimType: ClaimType, exp: int)

  datatype Credential = Credential(id: nat, claims: Option<Claims>)

  function TokenExpiry(token: Credential, expected: ClaimType): Option<Time> {
    if token.claims.None? || token.claims.value.claimType != expected then None
    else if 0 < token.claims.value.exp < 0x8000_0000_0000_0000 then Some(token.claims.value.exp)
    else None
  }

  datatype RelaySession = RelaySession(access: Credential, refresh: Credential, userId: UserId,
    workspaceId: WorkspaceId)

  // --- In-memory records ---

  datatype AuthorizationRequest = AuthorizationRequest(scopes: Option<set<Scope>>, redirectUri: string,
    challenge: string, resource: Resource)

  datatype Params = Params(scopes: set<Scope>, redirectUri: string, challenge: string, resource: Resource)

  datatype Pending = Pending(clientId: ClientId, params: Params, expiresAt: Time)

  datatype Login = Login(userId: UserId, session: RelaySession, expiresAt: Time)

  datatype Code = Code(clientId: ClientId, params: Params, subject: UserId, session: RelaySession, expiresAt: Time)

  // --- Database rows ---

  /** A redirect URI as registered: its text and the parts that are checked, "" where absent. */
  datatype RedirectUri = RedirectUri(text: string, scheme: string, host: string, username: string, password: string,
    fragment: string)

  datatype Registration = Registration(scopes: set<Scope>, grantTypes: set<string>, redirectUris: seq<RedirectUri>)

  datatype RegistrationError = InvalidClientMetadata | InvalidRedirectUri

  const GRANT_TYPES: set<string> := {"authorization_code", "refresh_token"}
  const LOOPBACK_HOSTS: set<string> := {"localhost", "127.0.0.1", "[::1]"}

  datatype Client = Client(scopes: set<Scope>, redirectUris: set<string>)

  datatype Grant = Grant(
    clientId: ClientId,
    resource: Resource,
    subject: UserId,
    workspaceId: WorkspaceId,
    session: RelaySession,
    expiresAt: Time,
    revokedAt: Option<Time>,
    refreshPending: bool)

  datatype TokenKind = Access | Refresh

  datatype TokenRow = TokenRow(kind: TokenKind, grantId: GrantId, scopes: set<Scope>, expiresAt: Time,
    consumedAt: Option<Time>)

  /** Everything the provider holds: the durable tables and the stores a restart loses. */
  datatype Server = Server(
    resource: Resource,
    grantTtl: int,
    clients: map<ClientId, Client>,
    grants: map<GrantId, Grant>,
    tokens: map<Token, TokenRow>,
    requests: map<RequestId, Pending>,
    logins: map<LoginId, Login>,
    codes: map<CodeId, Code>,
    nextCleanup: Time)

  // --- Replies ---

  /** A token row joined with its live grant (`AccessToken` and `RefreshToken` models). */
  datatype TokenInfo = TokenInfo(clientId: ClientId, subject: UserId, scopes: set<Scope>, expiresAt: Time,
    grantId: GrantId, consumed: bool)

  /** The token endpoint's success body. */
  datatype Tokens = Tokens(access: Token, refresh: Token, expiresIn: int, scopes: set<Scope>)

  datatype OAuthError = InvalidGrant | InvalidScope | InvalidRequest | InvalidTarget | InvalidClient

  datatype Verdict = Approve | Deny | Unreadable

  datatype Decided = RequestExpired | LoginRequired | InvalidDecision | Denied | Approved(code: CodeId)
}
