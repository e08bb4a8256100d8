/**
 The credential chain of Knox as a state machine over its two stores:
 password check, MFA challenge, SSO session, authorization code, access and
 refresh tokens, rotation, and the password flows that revoke them.

 Every request is one atomic step. Random values are drawn from a counter of
 values not used before, a signed challenge is accepted only if it was issued,
 and a stored hash stands for the secret it was made from. The `log` is history
 only: no request reads it.
 */
module Credentials {
  import opened Wrappers
  import opened Redis
  import opened Pkce
  import Scopes
  import SecondFactors

  type Uuid = nat
  type Time = nat

  // ── Rows and contexts ────────────────────────────────────────────────────

  datatype Standing = Active | Inactive | Deleted

  datatype Identity = Identity(
    tenant: Uuid, pool: Uuid, machine: bool, standing: Standing,
    password: Option<string>, permissions: set<string>)

  datatype Client = Client(
    id: Uuid, pool: Uuid, active: bool, secret: Option<string>,
    redirectUris: set<string>, allowedScopes: seq<string>, grantTypes: set<string>,
    allowRefreshTokens: bool, refreshTokenTtl: nat, authCodeTtl: nat)

  datatype Config = Config(
    cookieLifetime: nat, mfaLifetime: nat, mfaMaxAttempts: nat, resetLifetime: nat,
    authCodeTtl: nat, allowPlainPkce: bool, requireAdminMfa: bool,
    /** Seconds past `exp` at which the JWT library still accepts a token. */
    jwtSlack: nat,
    /** base64url of SHA-256 */
    digest: string -> string,
    /** What an authenticator holding a secret shows in each step. */
    shows: Uuid -> SecondFactors.Authenticator,
    /** The hash under which a backup code is stored. */
    backupHash: string -> string)

  datatype Session = Session(
    tenant: Uuid, pool: Uuid, identity: Uuid, amr: seq<string>, epoch: nat, createdAt: Time)

  /** How and when the user authenticated. */
  datatype Auth = Auth(amr: seq<string>, time: Time)

  datatype CodeContext = CodeContext(
    tenant: Uuid, client: Uuid, identity: Uuid, scopes: seq<string>, redirectUri: string,
    challenge: string, challengeMethod: ChallengeMethod, auth: Auth, createdAt: Time)

  datatype RefreshRecord = RefreshRecord(
    tenant: Uuid, client: Uuid, identity: Uuid, scopes: seq<string>, auth: Option<Auth>,
    expiresAt: Time, revoked: bool, family: Uuid)

  datatype Purpose = ForLogin | ForReset

  /** A signed second-factor challenge; `origin` is the reset token it was minted for. */
  datatype Challenge = Challenge(
    jti: Uuid, tenant: Uuid, pool: Uuid, identity: Uuid, purpose: Purpose,
    issuedAt: Time, exp: Time, origin: Option<Uuid>)

  datatype ResetContext = ResetContext(tenant: Uuid, pool: Uuid, identity: Uuid)

  // ── History ──────────────────────────────────────────────────────────────

  datatype Source =
    | FromCode(code: Uuid, verifier: string)
    | FromRefresh(token: Uuid)
    | FromClient

  /** One successful token response; `saved` is the refresh token it issued. */
  datatype Mint = Mint(
    source: Source, tenant: Uuid, pool: Uuid, client: Uuid, identity: Option<Uuid>,
    scopes: seq<string>, auth: Option<Auth>, saved: Option<Uuid>, family: Uuid, at: Time)

  datatype Fact =
    | PasswordChecked(tenant: Uuid, pool: Uuid, identity: Uuid, at: Time)
    | ChallengeIssued(challenge: Challenge)
    /** An attempt was counted; a counter that this attempt creates lasts until `until`. */
    | AttemptCounted(jti: Uuid, at: Time, until: Time)
    | CodeEvaluated(jti: Uuid)
    /** An attempt of a password change was counted against the identity; then its code was evaluated. */
    | SelfCounted(identity: Uuid, at: Time)
    | SelfEvaluated(identity: Uuid)
    | FactorEnrolled(identity: Uuid, enrolment: Uuid, secret: Uuid)
    | FactorAccepted(identity: Uuid, accepted: SecondFactors.Fact)
    /** The consumed marker lasts until `until`. */
    | ChallengeSpent(challenge: Challenge, at: Time, until: Time)
    | SessionOpened(sso: Uuid, session: Session)
    | CodeIssued(code: Uuid, sso: Uuid, context: CodeContext)
    | Minted(mint: Mint)
    | ResetSpent(token: Uuid)
    | PasswordSet(identity: Uuid, reset: Option<Uuid>)

  /** Redis: one map per key family. */
  datatype Cache = Cache(
    epochs: map<(Uuid, Uuid), Entry<nat>>,
    sessions: map<Uuid, Entry<Session>>,
    codes: map<Uuid, Entry<CodeContext>>,
    spent: map<Uuid, Entry<bool>>,
    attempts: map<Uuid, Entry<nat>>,
    selfAttempts: map<Uuid, Entry<nat>>,
    resets: map<Uuid, Entry<ResetContext>>)

  /** Postgres: the rows these requests read and write. */
  datatype Tables = Tables(
    identities: map<Uuid, Identity>,
    clients: map<(Uuid, string), Client>,
    refresh: map<Uuid, RefreshRecord>,
    factors: SecondFactors.Store)

  /** `challenges` holds every challenge ever signed; `nextId` is the next unused random value. */
  datatype State = State(
    now: Time,
    nextId: Uuid,
    cache: Cache,
    db: Tables,
    challenges: map<Uuid, Challenge>,
    log: seq<Fact>)

  predicate IsInitial(s: State) {
    && s.cache == Cache(map[], map[], map[], map[], map[], map[], map[])
    && s.db.refresh == map[] && s.challenges == map[] && s.log == []
    && s.db.factors.enrolments == map[] && s.db.factors.backups == map[]
  }

  datatype Error =
    | InvalidCredentials | ClientRejected | InvalidMfaToken | TooManyAttempts | Forbidden | InvalidMfaCode
    | NotFound | RedirectUriMismatch | InvalidRequest | ReAuthRequired | SessionInvalid | InvalidPrincipal
    | UnauthorizedScope | InvalidAuthCode | Validation | Internal | InvalidResetToken | MfaCodeRequired
    | MfaNotEnrolled | MfaAlreadyEnrolled

  datatype Outcome =
    | Refused(error: Error)
    | LoggedIn(sso: Uuid)
    | MfaRequired(jti: Uuid)
    | Authorized(code: Uuid)
    | Tokens(scopes: seq<string>, refreshToken: Option<Uuid>)
    | ResetIssued(token: Uuid)
    | Done

  // ── Store effects ────────────────────────────────────────────────────────

  const DAY: nat := 86400

  /** How long the session-epoch counter is kept: twice the cookie lifetime, and at least a day. */
  function EpochTtl(cfg: Config): nat {
    if 2 * cfg.cookieLifetime < DAY then DAY else 2 * cfg.cookieLifetime
  }

  function Record(s: State, fact: Fact): State {
    s.(log := s.log + [fact])
  }

  /** Stamps the current epoch into a new session and keeps the counter alive. */
  function OpenSession(s: State, tenant: Uuid, pool: Uuid, identity: Uuid, amr: seq<string>, cfg: Config)
    : (State, Outcome)
  {
    var epochKey := (tenant, identity);
    var session := Session(tenant, pool, identity, amr, Count(s.cache.epochs, epochKey, s.now), s.now);
    (s.(nextId := s.nextId + 1,
        cache := s.cache.(
          epochs := Touch(s.cache.epochs, epochKey, s.now, EpochTtl(cfg)),
          sessions := SetEx(s.cache.sessions, s.nextId, session, s.now, cfg.cookieLifetime)),
        log := s.log + [SessionOpened(s.nextId, session)]),
     LoggedIn(s.nextId))
  }

  function IssueChallenge(s: State, tenant: Uuid, pool: Uuid, identity: Uuid, purpose: Purpose,
                          origin: Option<Uuid>, cfg: Config): (State, Outcome)
  {
    var challenge := Challenge(s.nextId, tenant, pool, identity, purpose, s.now, s.now + cfg.mfaLifetime, origin);
    (s.(nextId := s.nextId + 1,
        challenges := s.challenges[s.nextId := challenge],
        log := s.log + [ChallengeIssued(challenge)]),
     MfaRequired(s.nextId))
  }

  /** Which refresh records an UPDATE of `revoked_at` names. */
  datatype Selection = Token(token: Uuid) | Family(family: Uuid) | Owner(tenant: Uuid, identity: Uuid)

  predicate Selects(sel: Selection, token: Uuid, record: RefreshRecord) {
    match sel
    case Token(t) => token == t
    case Family(f) => record.family == f
    case Owner(tenant, identity) => record.tenant == tenant && record.identity == identity
  }

  function Revoke(records: map<Uuid, RefreshRecord>, sel: Selection): map<Uuid, RefreshRecord> {
    map t | t in records ::
      if Selects(sel, t, records[t]) then records[t].(revoked := true) else records[t]
  }

  /** Revokes the identity's refresh records and moves its session epoch on. */
  function RevokeAllSessions(s: State, tenant: Uuid, identity: Uuid, cfg: Config): State {
    var epochKey := (tenant, identity);
    var bumped := Increment(s.cache.epochs, epochKey, s.now, EpochTtl(cfg));
    s.(db := s.db.(refresh := Revoke(s.db.refresh, Owner(tenant, identity))),
       cache := s.cache.(epochs := Touch(bumped, epochKey, s.now, EpochTtl(cfg))))
  }

  // ── Lookups ──────────────────────────────────────────────────────────────

  function FindClient(s: State, tenant: Uuid, name: string): Option<Client> {
    if (tenant, name) in s.db.clients && s.db.clients[(tenant, name)].active
    then Some(s.db.clients[(tenant, name)])
    else None
  }

  /** A client that presents a secret must present the right one. */
  function AuthenticateClient(s: State, tenant: Uuid, name: string, secret: Option<string>): Option<Client> {
    match FindClient(s, tenant, name)
    case None => None
    case Some(client) => if secret.Some? && client.secret != secret then None else Some(client)
  }

  function FindIdentity(s: State, pool: Uuid, identity: Uuid): Option<Identity> {
    if && identity in s.db.identities && s.db.identities[identity].pool == pool
       && !s.db.identities[identity].standing.Deleted?
    then Some(s.db.identities[identity])
    else None
  }

  predicate PasswordMatches(s: State, pool: Uuid, identity: Uuid, password: string) {
    match FindIdentity(s, pool, identity)
    case None => false
    case Some(row) => row.password == Some(password) && row.standing.Active?
  }

  /** Whether the identity has a verified second factor. */
  predicate IsEnrolled(s: State, identity: Uuid) { SecondFactors.HasVerified(s.db.factors, identity) }

  // ── Login ────────────────────────────────────────────────────────────────

  function Login(s: State, tenant: Uuid, client: string, identity: Uuid, password: string, cfg: Config)
    : (State, Outcome)
  {
    match FindClient(s, tenant, client)
    case None => (s, Refused(ClientRejected))
    case Some(c) =>
      if !PasswordMatches(s, c.pool, identity, password) then
        (s, Refused(InvalidCredentials))
      else
        var s1 := Record(s, PasswordChecked(tenant, c.pool, identity, s.now));
        if IsEnrolled(s, identity)
        then IssueChallenge(s1, tenant, c.pool, identity, ForLogin, None, cfg)
        else OpenSession(s1, tenant, c.pool, identity, ["pwd"], cfg)
  }

  datatype MfaOption = Totp | WebAuthn | Sms | BackupCode

  function AmrFor(option: MfaOption): string {
    match option
    case Totp => "otp"
    case BackupCode => "otp"
    case WebAuthn => "swk"
    case Sms => "sms"
  }

  /** A code that the second factor accepts, and what the store then remembers of it. */
  datatype Acceptance = Acceptance(store: SecondFactors.Store, accepted: SecondFactors.Fact)

  /** Matches and claims a TOTP step of the enrolment `e`. */
  function ClaimCode(st: SecondFactors.Store, owner: Uuid, e: SecondFactors.Enrolment, code: string, now: Time,
                     cfg: Config): Result<Acceptance, Error>
  {
    match SecondFactors.MatchStep(cfg.shows(e.secret), code, now)
    case None => Failure(InvalidMfaCode)
    case Some(step) =>
      if !SecondFactors.CanClaim(st, owner, e.id, step) then Failure(InvalidMfaCode)
      else Success(Acceptance(SecondFactors.ClaimStep(st, owner, e.id, step),
                              SecondFactors.TotpAccepted(e.id, e.secret, code, step, now, now, now)))
  }

  /** The verdict of the identity's second factor on a code. */
  function VerifyFactor(st: SecondFactors.Store, owner: Uuid, option: MfaOption, code: string, now: Time, cfg: Config)
    : Result<Acceptance, Error>
  {
    match option
    case Totp =>
      if SecondFactors.HasVerified(st, owner) then ClaimCode(st, owner, st.enrolments[owner], code, now, cfg)
      else Failure(MfaNotEnrolled)
    case BackupCode =>
      var rows := SecondFactors.Redeemable(st, owner, cfg.backupHash(code));
      if rows == {} then Failure(InvalidMfaCode)
      else Success(Acceptance(SecondFactors.ConsumeBackup(st, owner, cfg.backupHash(code)),
                              SecondFactors.BackupAccepted(rows)))
    case _ => Failure(Validation)
  }

  function AcceptFactor(s: State, identity: Uuid, a: Acceptance): State {
    s.(db := s.db.(factors := a.store), log := s.log + [FactorAccepted(identity, a.accepted)])
  }

  /** Whether the signed challenge verifies at this tenant and time. */
  predicate ChallengeVerifies(s: State, tenant: Uuid, jti: Uuid, cfg: Config) {
    jti in s.challenges && s.challenges[jti].tenant == tenant && s.now < s.challenges[jti].exp + cfg.jwtSlack
  }

  /** What becomes of a second-factor attempt before its code is looked at. */
  datatype Screening =
    | Unheard(error: Error)
    | Counted(error: Error)
    | Admitted(challenge: Challenge)

  function Screen(s: State, tenant: Uuid, expectedPool: Option<Uuid>, jti: Uuid, option: MfaOption,
                  purpose: Purpose, cfg: Config): Screening
  {
    if !ChallengeVerifies(s, tenant, jti, cfg) then Unheard(InvalidMfaToken)
    else
      var challenge := s.challenges[jti];
      if challenge.purpose != purpose then Unheard(InvalidMfaToken)
      else if expectedPool.Some? && expectedPool.value != challenge.pool then Unheard(InvalidMfaToken)
      else if IsLive(s.cache.spent, jti, s.now) then Unheard(InvalidMfaToken)
      else if Count(s.cache.attempts, jti, s.now) + 1 > cfg.mfaMaxAttempts then Counted(TooManyAttempts)
      else
        match FindIdentity(s, challenge.pool, challenge.identity)
        case None => Counted(NotFound)
        case Some(row) =>
          if !row.standing.Active? then Counted(Forbidden)
          else if option.WebAuthn? || option.Sms? then Counted(Validation)
          else Admitted(challenge)
  }

  /** The attempt is in the counter, which the first attempt creates. */
  function CountAttempt(s: State, jti: Uuid, cfg: Config): State {
    s.(cache := s.cache.(attempts := Increment(s.cache.attempts, jti, s.now, cfg.mfaLifetime)),
       log := s.log + [AttemptCounted(jti, s.now, s.now + cfg.mfaLifetime)])
  }

  /** The challenge is marked consumed. */
  function SpendChallenge(s: State, challenge: Challenge, cfg: Config): State {
    s.(cache := s.cache.(spent := SetEx(s.cache.spent, challenge.jti, true, s.now, cfg.mfaLifetime)),
       log := s.log + [ChallengeSpent(challenge, s.now, s.now + cfg.mfaLifetime)])
  }

  function ConsumeChallenge(s: State, tenant: Uuid, expectedPool: Option<Uuid>, jti: Uuid, option: MfaOption,
                            code: string, purpose: Purpose, cfg: Config): (State, Result<Challenge, Error>)
  {
    match Screen(s, tenant, expectedPool, jti, option, purpose, cfg)
    case Unheard(e) => (s, Failure(e))
    case Counted(e) => (CountAttempt(s, jti, cfg), Failure(e))
    case Admitted(challenge) =>
      var evaluated := Record(CountAttempt(s, jti, cfg), CodeEvaluated(jti));
      match VerifyFactor(s.db.factors, challenge.identity, option, code, s.now, cfg)
      case Failure(e) => (evaluated, Failure(e))
      case Success(a) =>
        (SpendChallenge(AcceptFactor(evaluated, challenge.identity, a), challenge, cfg), Success(challenge))
  }

  function LoginMfa(s: State, tenant: Uuid, client: string, jti: Uuid, option: MfaOption, code: string, cfg: Config)
    : (State, Outcome)
  {
    match FindClient(s, tenant, client)
    case None => (s, Refused(ClientRejected))
    case Some(c) =>
      var (s1, consumed) := ConsumeChallenge(s, tenant, Some(c.pool), jti, option, code, ForLogin, cfg);
      match consumed
      case Failure(e) => (s1, Refused(e))
      case Success(challenge) =>
        OpenSession(s1, tenant, c.pool, challenge.identity, ["pwd", AmrFor(option), "mfa"], cfg)
  }

  // ── Authorize ────────────────────────────────────────────────────────────

  /** Redeems an SSO cookie at a client of `pool`. */
  function ValidateSession(s: State, tenant: Uuid, pool: Uuid, sso: Uuid, maxAge: Option<nat>)
    : Result<Session, Error>
  {
    match Read(s.cache.sessions, sso, s.now)
    case None => Failure(SessionInvalid)
    case Some(session) =>
      if session.tenant != tenant || session.pool != pool then Failure(SessionInvalid)
      else if session.epoch < Count(s.cache.epochs, (tenant, session.identity), s.now) then Failure(SessionInvalid)
      else if maxAge.Some? && s.now - session.createdAt > maxAge.value then Failure(ReAuthRequired)
      else
        match FindIdentity(s, pool, session.identity)
        case None => Failure(SessionInvalid)
        case Some(row) => if row.standing.Active? then Success(session) else Failure(SessionInvalid)
  }

  datatype AuthorizeRequest = AuthorizeRequest(
    client: string, redirectUri: string, challenge: string, challengeMethod: ChallengeMethod, sso: Uuid,
    scope: seq<string>, maxAge: Option<nat>, prompt: Option<string>)

  /** The context of the code that this request earns. */
  function ApproveAuthorize(s: State, tenant: Uuid, client: Client, req: AuthorizeRequest, cfg: Config)
    : Result<CodeContext, Error>
  {
    if req.redirectUri !in client.redirectUris then Failure(RedirectUriMismatch)
    else if !AcceptsChallenge(req.challenge, req.challengeMethod, cfg.allowPlainPkce) then Failure(InvalidRequest)
    else if req.prompt == Some("login") then Failure(ReAuthRequired)
    else
      match ValidateSession(s, tenant, client.pool, req.sso, req.maxAge)
      case Failure(e) => Failure(e)
      case Success(session) =>
        if s.db.identities[session.identity].machine then Failure(InvalidPrincipal)
        else if req.scope == [] then Failure(InvalidRequest)
        else if exists x :: x in req.scope && x !in client.allowedScopes then Failure(UnauthorizedScope)
        else
          Success(CodeContext(tenant, client.id, session.identity, req.scope, req.redirectUri,
                              req.challenge, req.challengeMethod, Auth(session.amr, session.createdAt), s.now))
  }

  function Authorize(s: State, tenant: Uuid, req: AuthorizeRequest, cfg: Config): (State, Outcome) {
    match FindClient(s, tenant, req.client)
    case None => (s, Refused(ClientRejected))
    case Some(client) =>
      match ApproveAuthorize(s, tenant, client, req, cfg)
      case Failure(e) => (s, Refused(e))
      case Success(context) =>
        (s.(nextId := s.nextId + 1,
            cache := s.cache.(codes := SetEx(s.cache.codes, s.nextId, context, s.now, client.authCodeTtl)),
            log := s.log + [CodeIssued(s.nextId, req.sso, context)]),
         Authorized(s.nextId))
  }

  // ── Token endpoint ───────────────────────────────────────────────────────

  datatype Grant = Grant(
    source: Source, identity: Option<Uuid>, scopes: seq<string>, auth: Option<Auth>, family: Option<Uuid>)

  /**
   Mints the access token and, for an identity at a client that allows it, saves
   a refresh record. `signs` is false when no signing key or pool is available.
   */
  function MintTokens(s: State, tenant: Uuid, tenantIsPlatform: bool, client: Client, grant: Grant, signs: bool)
    : (State, Outcome)
  {
    if !signs then (s, Refused(Internal))
    else
      var scopes := Scopes.Strip(grant.scopes, tenantIsPlatform);
      var saves := client.allowRefreshTokens && grant.identity.Some?;
      var family := if grant.family.Some? then grant.family.value else s.nextId + 1;
      var saved := if saves then Some(s.nextId) else None;
      var refresh' :=
        if saves then
          s.db.refresh[s.nextId := RefreshRecord(tenant, client.id, grant.identity.value, scopes, grant.auth,
                                             s.now + client.refreshTokenTtl, false, family)]
        else s.db.refresh;
      (s.(nextId := s.nextId + 2,
          db := s.db.(refresh := refresh'),
          log := s.log + [Minted(Mint(grant.source, tenant, client.pool, client.id, grant.identity, scopes,
                                      grant.auth, saved, family, s.now))]),
       Tokens(scopes, saved))
  }

  function ClientCredentials(s: State, tenant: Uuid, tenantIsPlatform: bool, name: string, secret: string,
                             scope: Option<seq<string>>, signs: bool): (State, Outcome)
  {
    match AuthenticateClient(s, tenant, name, Some(secret))
    case None => (s, Refused(ClientRejected))
    case Some(client) =>
      if "client_credentials" !in client.grantTypes then (s, Refused(Validation))
      else if scope.Some? && exists x :: x in scope.value && x !in client.allowedScopes then
        (s, Refused(Validation))
      else
        var scopes := if scope.Some? then scope.value else client.allowedScopes;
        MintTokens(s, tenant, tenantIsPlatform, client, Grant(FromClient, None, scopes, None, None), signs)
  }

  /** The checks made on a code context after the code itself has been consumed. */
  function CheckCode(s: State, tenant: Uuid, context: CodeContext, client: Client, redirectUri: Option<string>,
                     verifier: string, cfg: Config): Option<Error>
  {
    if context.client != client.id then Some(InvalidAuthCode)
    else if s.now > context.createdAt + cfg.authCodeTtl then Some(InvalidAuthCode)
    else if redirectUri.Some? && redirectUri.value != context.redirectUri then Some(RedirectUriMismatch)
    else if "authorization_code" !in client.grantTypes then Some(Validation)
    else if !AcceptsVerifier(verifier) then Some(InvalidAuthCode)
    else if !Answers(verifier, context.challenge, context.challengeMethod, cfg.allowPlainPkce, cfg.digest) then
      Some(InvalidAuthCode)
    else None
  }

  datatype TokenRequest = TokenRequest(
    tenant: Uuid, tenantIsPlatform: bool, client: string, secret: Option<string>, cfg: Config, signs: bool)

  datatype Approval = Approval(client: Client, grant: Grant)

  /** What a consumed code earns. */
  function ApproveCode(s: State, req: TokenRequest, code: Uuid, context: CodeContext, redirectUri: Option<string>,
                       verifier: string): Result<Approval, Error>
  {
    if context.tenant != req.tenant then Failure(InvalidAuthCode)
    else
      match AuthenticateClient(s, req.tenant, req.client, req.secret)
      case None => Failure(ClientRejected)
      case Some(client) =>
        match CheckCode(s, req.tenant, context, client, redirectUri, verifier, req.cfg)
        case Some(e) => Failure(e)
        case None =>
          match FindIdentity(s, client.pool, context.identity)
          case None => Failure(NotFound)
          case Some(row) =>
            if !row.standing.Active? then Failure(InvalidCredentials)
            else
              match Scopes.Permitted(context.scopes, row.permissions, req.cfg.requireAdminMfa,
                                     IsEnrolled(s, context.identity))
              case Failure(_) => Failure(Forbidden)
              case Success(scopes) =>
                Success(Approval(client, Grant(FromCode(code, verifier), Some(context.identity), scopes,
                                               Some(context.auth), None)))
  }

  /** Presenting a code consumes it, whatever follows. */
  function RedeemCode(s: State, req: TokenRequest, code: Uuid, redirectUri: Option<string>, verifier: string)
    : (State, Outcome)
  {
    var s1 := s.(cache := s.cache.(codes := s.cache.codes - {code}));
    match Read(s.cache.codes, code, s.now)
    case None => (s1, Refused(InvalidAuthCode))
    case Some(context) =>
      match ApproveCode(s, req, code, context, redirectUri, verifier)
      case Failure(e) => (s1, Refused(e))
      case Success(a) => MintTokens(s1, req.tenant, req.tenantIsPlatform, a.client, a.grant, req.signs)
  }

  /** What becomes of a presented refresh token. */
  datatype Verdict =
    | Ignore(error: Error)
    | EndFamily(error: Error)
    | Retire(error: Error)
    | Reissue(approval: Approval)

  function Judge(s: State, req: TokenRequest, token: Uuid): Verdict {
    if token !in s.db.refresh || s.db.refresh[token].tenant != req.tenant then Ignore(InvalidCredentials)
    else
      var record := s.db.refresh[token];
      match AuthenticateClient(s, req.tenant, req.client, req.secret)
      case None => Ignore(ClientRejected)
      case Some(client) =>
        if record.client != client.id || record.revoked then EndFamily(InvalidCredentials)
        else if record.expiresAt < s.now then Ignore(InvalidCredentials)
        else if "refresh_token" !in client.grantTypes then Ignore(Validation)
        else
          match FindIdentity(s, client.pool, record.identity)
          case None => Retire(NotFound)
          case Some(row) =>
            if !row.standing.Active? then EndFamily(InvalidCredentials)
            else
              match Scopes.Permitted(record.scopes, row.permissions, req.cfg.requireAdminMfa,
                                     IsEnrolled(s, record.identity))
              case Failure(_) => Retire(Forbidden)
              case Success(scopes) =>
                Reissue(Approval(client, Grant(FromRefresh(token), Some(record.identity), scopes, record.auth,
                                               Some(record.family))))
  }

  function Rotate(s: State, req: TokenRequest, token: Uuid): (State, Outcome) {
    match Judge(s, req, token)
    case Ignore(e) => (s, Refused(e))
    case EndFamily(e) =>
      (s.(db := s.db.(refresh := Revoke(s.db.refresh, Family(s.db.refresh[token].family)))), Refused(e))
    case Retire(e) => (s.(db := s.db.(refresh := Revoke(s.db.refresh, Token(token)))), Refused(e))
    case Reissue(a) =>
      MintTokens(s.(db := s.db.(refresh := Revoke(s.db.refresh, Token(token)))), req.tenant, req.tenantIsPlatform,
                 a.client, a.grant, req.signs)
  }

  // ── Password flows ───────────────────────────────────────────────────────

  /** Writes the password and revokes every session; `reset` names the reset token that led here. */
  function SetPassword(s: State, tenant: Uuid, pool: Uuid, identity: Uuid, password: string, reset: Option<Uuid>,
                       cfg: Config): (State, Outcome)
  {
    if |password| < 8 then (s, Refused(Validation))
    else
      match FindIdentity(s, pool, identity)
      case None => (s, Refused(NotFound))
      case Some(row) =>
        var s1 := s.(db := s.db.(identities := s.db.identities[identity := row.(password := Some(password))]),
                     log := s.log + [PasswordSet(identity, reset)]);
        (RevokeAllSessions(s1, tenant, identity, cfg), Done)
  }

  /** An option and a code, as the caller presents them. */
  datatype SecondFactor = SecondFactor(option: MfaOption, code: string)

  /** Attempts are counted per identity, there being no challenge on this path. */
  function ChangePassword(s: State, tenant: Uuid, pool: Uuid, identity: Uuid, current: string, password: string,
                          mfa: Option<SecondFactor>, cfg: Config): (State, Outcome)
  {
    if !PasswordMatches(s, pool, identity, current) then (s, Refused(InvalidCredentials))
    else if !IsEnrolled(s, identity) then SetPassword(s, tenant, pool, identity, password, None, cfg)
    else if mfa.None? then (s, Refused(MfaCodeRequired))
    else
      var counted := CountSelfAttempt(s, identity, cfg);
      if Count(s.cache.selfAttempts, identity, s.now) + 1 > cfg.mfaMaxAttempts then (counted, Refused(TooManyAttempts))
      else
        var evaluated := EvaluateSelf(s, identity, cfg);
        match VerifyFactor(s.db.factors, identity, mfa.value.option, mfa.value.code, s.now, cfg)
        case Failure(e) => (evaluated, Refused(e))
        case Success(a) =>
          SetPassword(AcceptFactor(evaluated, identity, a), tenant, pool, identity, password, None, cfg)
  }

  function CountSelfAttempt(s: State, identity: Uuid, cfg: Config): State {
    s.(cache := s.cache.(selfAttempts := Increment(s.cache.selfAttempts, identity, s.now, cfg.mfaLifetime)),
       log := s.log + [SelfCounted(identity, s.now)])
  }

  /** The attempt is counted and its code about to be looked at. */
  function EvaluateSelf(s: State, identity: Uuid, cfg: Config): State {
    Record(CountSelfAttempt(s, identity, cfg), SelfEvaluated(identity))
  }

  function RequestReset(s: State, tenant: Uuid, pool: Uuid, identity: Uuid, cfg: Config): (State, Outcome) {
    (s.(nextId := s.nextId + 1,
        cache := s.cache.(resets := SetEx(s.cache.resets, s.nextId, ResetContext(tenant, pool, identity), s.now,
                                          cfg.resetLifetime))),
     ResetIssued(s.nextId))
  }

  function Reset(s: State, tenant: Uuid, token: Uuid, password: string, cfg: Config): (State, Outcome) {
    match Read(s.cache.resets, token, s.now)
    case None => (s.(cache := s.cache.(resets := s.cache.resets - {token})), Refused(InvalidResetToken))
    case Some(context) =>
      var s1 := s.(cache := s.cache.(resets := s.cache.resets - {token}), log := s.log + [ResetSpent(token)]);
      if context.tenant != tenant then (s1, Refused(InvalidResetToken))
      else if IsEnrolled(s1, context.identity) then
        IssueChallenge(s1, tenant, context.pool, context.identity, ForReset, Some(token), cfg)
      else
        SetPassword(s1, tenant, context.pool, context.identity, password, Some(token), cfg)
  }

  function ResetMfa(s: State, tenant: Uuid, jti: Uuid, option: MfaOption, code: string, password: string, cfg: Config)
    : (State, Outcome)
  {
    var (s1, consumed) := ConsumeChallenge(s, tenant, None, jti, option, code, ForReset, cfg);
    match consumed
    case Failure(e) => (s1, Refused(e))
    case Success(challenge) =>
      SetPassword(s1, tenant, challenge.pool, challenge.identity, password, challenge.origin, cfg)
  }

  // ── Enrolment and housekeeping ───────────────────────────────────────────

  /** `hashes` are those of newly generated backup codes. */
  datatype FactorOp =
    | StartEnrolment(secret: Uuid)
    | ConfirmEnrolment(code: string, hashes: seq<string>)
    | RemoveEnrolment(enrolment: Uuid)
    | RegenerateCodes(hashes: seq<string>)

  function ManageFactor(s: State, owner: Uuid, op: FactorOp, cfg: Config): (State, Outcome) {
    var st := s.db.factors;
    match op
    case StartEnrolment(secret) =>
      if SecondFactors.HasVerified(st, owner) then (s, Refused(MfaAlreadyEnrolled))
      else (s.(db := s.db.(factors := SecondFactors.CreateEnrolment(st, owner, secret)),
               log := s.log + [FactorEnrolled(owner, st.nextId, secret)]), Done)
    case ConfirmEnrolment(code, hashes) =>
      if owner !in st.enrolments then (s, Refused(MfaNotEnrolled))
      else if st.enrolments[owner].verified then (s, Refused(MfaAlreadyEnrolled))
      else
        (match ClaimCode(st, owner, st.enrolments[owner], code, s.now, cfg)
         case Failure(e) => (s, Refused(e))
         case Success(a) =>
           var verified := SecondFactors.MarkVerified(a.store, owner, st.enrolments[owner].id);
           var store := SecondFactors.ReplaceBackups(verified, owner, hashes);
           (AcceptFactor(s, owner, a.(store := store)), Done))
    case RemoveEnrolment(id) =>
      if !SecondFactors.IsEnrolment(st, owner, id) then (s, Refused(NotFound))
      else
        var removed := SecondFactors.DeleteEnrolment(st, owner, id);
        (s.(db := s.db.(factors := SecondFactors.DeleteBackups(removed, owner))), Done)
    case RegenerateCodes(hashes) =>
      if !SecondFactors.HasVerified(st, owner) then (s, Refused(MfaNotEnrolled))
      else (s.(db := s.db.(factors := SecondFactors.ReplaceBackups(st, owner, hashes))), Done)
  }

  /** The scheduled job that deletes expired and revoked refresh rows. */
  function Pruned(records: map<Uuid, RefreshRecord>, now: Time): map<Uuid, RefreshRecord> {
    map t | t in records && now <= records[t].expiresAt && !records[t].revoked :: records[t]
  }

  // ── Runs ─────────────────────────────────────────────────────────────────

  /** An administrative change may rewrite rows but never moves an identity to another pool. */
  predicate KeepsPools(before: map<Uuid, Identity>, after: map<Uuid, Identity>) {
    forall i :: i in before ==> i in after && after[i].pool == before[i].pool
  }

  datatype Request =
    | Wait(seconds: nat)
    | Administer(identities: map<Uuid, Identity>, clients: map<(Uuid, string), Client>)
    | DoLogin(tenant: Uuid, client: string, identity: Uuid, password: string, cfg: Config)
    | DoLoginMfa(tenant: Uuid, client: string, jti: Uuid, option: MfaOption, otp: string, cfg: Config)
    | DoAuthorize(tenant: Uuid, authorize: AuthorizeRequest, cfg: Config)
    | DoClientCredentials(tenant: Uuid, platform: bool, client: string, secret: string,
                          scope: Option<seq<string>>, signs: bool)
    | DoRedeemCode(token: TokenRequest, code: Uuid, redirectUri: Option<string>, verifier: string)
    | DoRotate(token: TokenRequest, refreshToken: Uuid)
    | DoChangePassword(tenant: Uuid, pool: Uuid, identity: Uuid, password: string, newPassword: string,
                       mfa: Option<SecondFactor>, cfg: Config)
    | DoRequestReset(tenant: Uuid, pool: Uuid, identity: Uuid, cfg: Config)
    | DoReset(tenant: Uuid, reset: Uuid, newPassword: string, cfg: Config)
    | DoResetMfa(tenant: Uuid, jti: Uuid, option: MfaOption, otp: string, newPassword: string, cfg: Config)
    | DoRevokeSessions(tenant: Uuid, identity: Uuid, cfg: Config)
    | DoManageFactor(identity: Uuid, op: FactorOp, cfg: Config)
    | Prune

  function Handle(s: State, req: Request): (State, Outcome) {
    match req
    case Wait(seconds) => (s.(now := s.now + seconds), Done)
    case Administer(identities, clients) =>
      if KeepsPools(s.db.identities, identities)
      then (s.(db := s.db.(identities := identities, clients := clients)), Done)
      else (s, Refused(Validation))
    case DoLogin(tenant, client, identity, password, cfg) => Login(s, tenant, client, identity, password, cfg)
    case DoLoginMfa(tenant, client, jti, option, code, cfg) =>
      LoginMfa(s, tenant, client, jti, option, code, cfg)
    case DoAuthorize(tenant, authorize, cfg) => Authorize(s, tenant, authorize, cfg)
    case DoClientCredentials(tenant, platform, client, secret, scope, signs) =>
      ClientCredentials(s, tenant, platform, client, secret, scope, signs)
    case DoRedeemCode(token, code, redirectUri, verifier) => RedeemCode(s, token, code, redirectUri, verifier)
    case DoRotate(token, refreshToken) => Rotate(s, token, refreshToken)
    case DoChangePassword(tenant, pool, identity, password, newPassword, mfa, cfg) =>
      ChangePassword(s, tenant, pool, identity, password, newPassword, mfa, cfg)
    case DoRequestReset(tenant, pool, identity, cfg) => RequestReset(s, tenant, pool, identity, cfg)
    case DoReset(tenant, reset, newPassword, cfg) => Reset(s, tenant, reset, newPassword, cfg)
    case DoResetMfa(tenant, jti, option, code, newPassword, cfg) =>
      ResetMfa(s, tenant, jti, option, code, newPassword, cfg)
    case DoRevokeSessions(tenant, identity, cfg) => (RevokeAllSessions(s, tenant, identity, cfg), Done)
    case DoManageFactor(identity, op, cfg) => ManageFactor(s, identity, op, cfg)
    case Prune => (s.(db := s.db.(refresh := Pruned(s.db.refresh, s.now))), Done)
  }

  function Run(s: State, reqs: seq<Request>): State
    decreases reqs
  {
    if reqs == [] then s else Run(Handle(s, reqs[0]).0, reqs[1..])
  }
}
