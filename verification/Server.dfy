/**
 The server as Knox runs it: an object whose methods read and write the stores
 in the order the services do. Each method is proved against the state-machine
 step of `Credentials`, so what is proved there of every run holds of every
 sequence of calls made here.
 */
module Server {
  import opened Wrappers
  import opened Redis
  import opened Pkce
  import opened Credentials
  import Scopes
  import SecondFactors

  lemma {:induction false} FilterKeepsAll(xs: seq<string>, keep: string -> bool)
    requires forall x :: x in xs ==> keep(x)
    ensures Scopes.Filter(xs, keep) == xs
  {
    if xs != [] {
      FilterKeepsAll(xs[1..], keep);
    }
  }

  /** Revoking a token and then its family is revoking the family. */
  lemma RevokeTokenThenFamily(records: map<Uuid, RefreshRecord>, token: Uuid)
    requires token in records
    ensures var family := Family(records[token].family);
            Revoke(Revoke(records, Token(token)), family) == Revoke(records, family)
  {
  }

  lemma RunAppend(s: State, reqs: seq<Request>, i: nat)
    requires i < |reqs|
    ensures Run(s, reqs[i..]) == Run(Handle(s, reqs[i]).0, reqs[i + 1..])
  {
  }

  /** Narrows the requested scopes; the second factor is consulted only when it could matter. */
  method PermittedScopes(row: Identity, enrolled: bool, requested: seq<string>, cfg: Config)
    returns (r: Result<seq<string>, ()>)
    ensures r == Scopes.Permitted(requested, row.permissions, cfg.requireAdminMfa, enrolled)
  {
    var held := row.permissions;
    var granted := Scopes.Filter(requested, s => Scopes.IsOidc(s) || s in held);
    if cfg.requireAdminMfa && exists x :: x in granted && !(Scopes.IsSelfService(x) || Scopes.IsOidc(x)) {
      if !enrolled {
        granted := Scopes.Filter(granted, s => Scopes.IsSelfService(s) || Scopes.IsOidc(s));
        if granted == [] {
          return Failure(());
        }
      }
    } else if cfg.requireAdminMfa {
      FilterKeepsAll(granted, s => Scopes.IsSelfService(s) || Scopes.IsOidc(s));
    }
    return if granted == [] then Failure(()) else Success(granted);
  }

  class CredentialServer {
    var now: Time
    var nextId: Uuid
    var epochs: map<(Uuid, Uuid), Entry<nat>>
    var sessions: map<Uuid, Entry<Session>>
    var codes: map<Uuid, Entry<CodeContext>>
    var spent: map<Uuid, Entry<bool>>
    var attempts: map<Uuid, Entry<nat>>
    var selfAttempts: map<Uuid, Entry<nat>>
    var resets: map<Uuid, Entry<ResetContext>>
    var identities: map<Uuid, Identity>
    var clients: map<(Uuid, string), Client>
    var refresh: map<Uuid, RefreshRecord>
    var factors: SecondFactors.Store
    var challenges: map<Uuid, Challenge>
    var log: seq<Fact>

    function Snapshot(): State
      reads this
    {
      State(now, nextId, Cache(epochs, sessions, codes, spent, attempts, selfAttempts, resets),
            Tables(identities, clients, refresh, factors), challenges, log)
    }

    constructor (now: Time, identities: map<Uuid, Identity>, clients: map<(Uuid, string), Client>)
      ensures IsInitial(Snapshot())
      ensures this.now == now && this.identities == identities && this.clients == clients
    {
      this.now := now;
      nextId := 0;
      epochs, sessions, codes, spent, attempts, selfAttempts, resets := map[], map[], map[], map[], map[], map[], map[];
      this.identities, this.clients, refresh, challenges, log := identities, clients, map[], map[], [];
      factors := SecondFactors.Store(0, map[], map[]);
    }

    method FreshId() returns (id: Uuid)
      modifies this`nextId
      ensures id == old(nextId) && nextId == id + 1
    {
      id := nextId;
      nextId := nextId + 1;
    }

    // ── Sessions ───────────────────────────────────────────────────────────

    method EstablishSession(tenant: Uuid, pool: Uuid, identity: Uuid, amr: seq<string>, cfg: Config)
      returns (outcome: Outcome)
      modifies this
      ensures (Snapshot(), outcome) == OpenSession(old(Snapshot()), tenant, pool, identity, amr, cfg)
    {
      var epoch := Count(epochs, (tenant, identity), now);
      epochs := Touch(epochs, (tenant, identity), now, EpochTtl(cfg));
      var session := Session(tenant, pool, identity, amr, epoch, now);
      var sso := FreshId();
      sessions := SetEx(sessions, sso, session, now, cfg.cookieLifetime);
      log := log + [SessionOpened(sso, session)];
      outcome := LoggedIn(sso);
    }

    /** Revokes the refresh records, then bumps and refreshes the epoch counter. */
    method RevokeSessions(tenant: Uuid, identity: Uuid, cfg: Config)
      modifies this`refresh, this`epochs
      ensures Snapshot() == RevokeAllSessions(old(Snapshot()), tenant, identity, cfg)
    {
      refresh := Revoke(refresh, Owner(tenant, identity));
      epochs := Increment(epochs, (tenant, identity), now, EpochTtl(cfg));
      epochs := Touch(epochs, (tenant, identity), now, EpochTtl(cfg));
    }

    method ValidateSso(tenant: Uuid, pool: Uuid, sso: Uuid, maxAge: Option<nat>) returns (r: Result<Session, Error>)
      ensures r == ValidateSession(Snapshot(), tenant, pool, sso, maxAge)
    {
      var stored := Read(sessions, sso, now);
      if stored.None? || stored.value.tenant != tenant || stored.value.pool != pool {
        return Failure(SessionInvalid);
      }
      var session := stored.value;
      var epoch := Count(epochs, (tenant, session.identity), now);
      if session.epoch < epoch {
        return Failure(SessionInvalid);
      }
      if maxAge.Some? {
        var age := now - session.createdAt;
        if age > maxAge.value {
          return Failure(ReAuthRequired);
        }
      }
      var row := FindIdentity(Snapshot(), pool, session.identity);
      if row.None? || !row.value.standing.Active? {
        return Failure(SessionInvalid);
      }
      return Success(session);
    }

    // ── Login ──────────────────────────────────────────────────────────────

    method MintChallenge(tenant: Uuid, pool: Uuid, identity: Uuid, purpose: Purpose, origin: Option<Uuid>, cfg: Config)
      returns (outcome: Outcome)
      modifies this
      ensures (Snapshot(), outcome) == IssueChallenge(old(Snapshot()), tenant, pool, identity, purpose, origin, cfg)
    {
      var jti := FreshId();
      var challenge := Challenge(jti, tenant, pool, identity, purpose, now, now + cfg.mfaLifetime, origin);
      challenges := challenges[jti := challenge];
      log := log + [ChallengeIssued(challenge)];
      outcome := MfaRequired(jti);
    }

    method AuthenticateUser(tenant: Uuid, client: string, identity: Uuid, password: string, cfg: Config)
      returns (outcome: Outcome)
      modifies this
      ensures (Snapshot(), outcome) == Login(old(Snapshot()), tenant, client, identity, password, cfg)
    {
      var found := FindClient(Snapshot(), tenant, client);
      if found.None? {
        return Refused(ClientRejected);
      }
      var pool := found.value.pool;
      if !PasswordMatches(Snapshot(), pool, identity, password) {
        return Refused(InvalidCredentials);
      }
      log := log + [PasswordChecked(tenant, pool, identity, now)];
      if !IsEnrolled(Snapshot(), identity) {
        outcome := EstablishSession(tenant, pool, identity, ["pwd"], cfg);
      } else {
        outcome := MintChallenge(tenant, pool, identity, ForLogin, None, cfg);
      }
    }

    /** Dispatches on the option; an accepted code is claimed or consumed in the factor store. */
    method Verify(identity: Uuid, option: MfaOption, code: string, cfg: Config) returns (r: Result<(), Error>)
      modifies this`factors, this`log
      ensures match VerifyFactor(old(factors), identity, option, code, now, cfg)
              case Failure(e) => r == Failure(e) && Snapshot() == old(Snapshot())
              case Success(a) => r == Success(()) && Snapshot() == AcceptFactor(old(Snapshot()), identity, a)
    {
      match option
      case Totp =>
        if !SecondFactors.HasVerified(factors, identity) {
          return Failure(MfaNotEnrolled);
        }
        var e := factors.enrolments[identity];
        var step := SecondFactors.MatchedStep(cfg.shows(e.secret), code, now);
        if step.None? || !SecondFactors.CanClaim(factors, identity, e.id, step.value) {
          return Failure(InvalidMfaCode);
        }
        factors := SecondFactors.ClaimStep(factors, identity, e.id, step.value);
        var accepted := SecondFactors.TotpAccepted(e.id, e.secret, code, step.value, now, now, now);
        log := log + [FactorAccepted(identity, accepted)];
        return Success(());
      case BackupCode =>
        var rows := SecondFactors.Redeemable(factors, identity, cfg.backupHash(code));
        if rows == {} {
          return Failure(InvalidMfaCode);
        }
        factors := SecondFactors.ConsumeBackup(factors, identity, cfg.backupHash(code));
        log := log + [FactorAccepted(identity, SecondFactors.BackupAccepted(rows))];
        return Success(());
      case _ => return Failure(Validation);
    }

    /** Signature and binding checks first, then the marker, the counter and the account. */
    method Admit(tenant: Uuid, expectedPool: Option<Uuid>, jti: Uuid, option: MfaOption, purpose: Purpose, cfg: Config)
      returns (r: Screening)
      modifies this`attempts, this`log
      ensures r == Screen(old(Snapshot()), tenant, expectedPool, jti, option, purpose, cfg)
      ensures Snapshot() == if r.Unheard? then old(Snapshot()) else CountAttempt(old(Snapshot()), jti, cfg)
    {
      if !ChallengeVerifies(Snapshot(), tenant, jti, cfg) {
        return Unheard(InvalidMfaToken);
      }
      var challenge := challenges[jti];
      if challenge.purpose != purpose {
        return Unheard(InvalidMfaToken);
      }
      if expectedPool.Some? && challenge.pool != expectedPool.value {
        return Unheard(InvalidMfaToken);
      }
      if Read(spent, jti, now).Some? {
        return Unheard(InvalidMfaToken);
      }
      attempts := Increment(attempts, jti, now, cfg.mfaLifetime);
      log := log + [AttemptCounted(jti, now, now + cfg.mfaLifetime)];
      if attempts[jti].value > cfg.mfaMaxAttempts {
        return Counted(TooManyAttempts);
      }
      var row := FindIdentity(Snapshot(), challenge.pool, challenge.identity);
      if row.None? {
        return Counted(NotFound);
      }
      if !row.value.standing.Active? {
        return Counted(Forbidden);
      }
      if option.WebAuthn? || option.Sms? {
        return Counted(Validation);
      }
      return Admitted(challenge);
    }

    /** Only a code that the factor accepts marks the challenge consumed. */
    method Consume(tenant: Uuid, expectedPool: Option<Uuid>, jti: Uuid, option: MfaOption, code: string,
                   purpose: Purpose, cfg: Config) returns (r: Result<Challenge, Error>)
      modifies this`attempts, this`spent, this`factors, this`log
      ensures (Snapshot(), r)
              == ConsumeChallenge(old(Snapshot()), tenant, expectedPool, jti, option, code, purpose, cfg)
    {
      hide Screen, VerifyFactor, CountAttempt, SpendChallenge;
      var screening := Admit(tenant, expectedPool, jti, option, purpose, cfg);
      if !screening.Admitted? {
        return Failure(screening.error);
      }
      var challenge := screening.challenge;
      log := log + [CodeEvaluated(jti)];
      var verdict := Verify(challenge.identity, option, code, cfg);
      if verdict.Failure? {
        return Failure(verdict.error);
      }
      MarkSpent(challenge, cfg);
      return Success(challenge);
    }

    method MarkSpent(challenge: Challenge, cfg: Config)
      modifies this`spent, this`log
      ensures Snapshot() == SpendChallenge(old(Snapshot()), challenge, cfg)
    {
      spent := SetEx(spent, challenge.jti, true, now, cfg.mfaLifetime);
      log := log + [ChallengeSpent(challenge, now, now + cfg.mfaLifetime)];
    }

    method AuthenticateMfa(tenant: Uuid, client: string, jti: Uuid, option: MfaOption, code: string, cfg: Config)
      returns (outcome: Outcome)
      modifies this
      ensures (Snapshot(), outcome) == LoginMfa(old(Snapshot()), tenant, client, jti, option, code, cfg)
    {
      var found := FindClient(Snapshot(), tenant, client);
      if found.None? {
        return Refused(ClientRejected);
      }
      var pool := found.value.pool;
      var consumed := Consume(tenant, Some(pool), jti, option, code, ForLogin, cfg);
      if consumed.Failure? {
        return Refused(consumed.error);
      }
      outcome := EstablishSession(tenant, pool, consumed.value.identity, ["pwd", AmrFor(option), "mfa"], cfg);
    }

    // ── Authorize ──────────────────────────────────────────────────────────

    method HandleAuthorize(tenant: Uuid, req: AuthorizeRequest, cfg: Config) returns (outcome: Outcome)
      modifies this
      ensures (Snapshot(), outcome) == Authorize(old(Snapshot()), tenant, req, cfg)
    {
      var found := FindClient(Snapshot(), tenant, req.client);
      if found.None? {
        return Refused(ClientRejected);
      }
      var client := found.value;
      if req.redirectUri !in client.redirectUris {
        return Refused(RedirectUriMismatch);
      }
      if !AcceptsChallenge(req.challenge, req.challengeMethod, cfg.allowPlainPkce) {
        return Refused(InvalidRequest);
      }
      if req.prompt == Some("login") {
        return Refused(ReAuthRequired);
      }
      var validated := ValidateSso(tenant, client.pool, req.sso, req.maxAge);
      if validated.Failure? {
        return Refused(validated.error);
      }
      var session := validated.value;
      if identities[session.identity].machine {
        return Refused(InvalidPrincipal);
      }
      if req.scope == [] {
        return Refused(InvalidRequest);
      }
      if exists x :: x in req.scope && x !in client.allowedScopes {
        return Refused(UnauthorizedScope);
      }
      var context := CodeContext(tenant, client.id, session.identity, req.scope, req.redirectUri, req.challenge,
                                 req.challengeMethod, Auth(session.amr, session.createdAt), now);
      var code := FreshId();
      codes := SetEx(codes, code, context, now, client.authCodeTtl);
      log := log + [CodeIssued(code, req.sso, context)];
      outcome := Authorized(code);
    }

    // ── Token endpoint ─────────────────────────────────────────────────────

    /** The tail of the token endpoint: strip, sign, save. */
    method IssueTokens(tenant: Uuid, tenantIsPlatform: bool, client: Client, grant: Grant, signs: bool)
      returns (outcome: Outcome)
      modifies this`nextId, this`refresh, this`log
      ensures (Snapshot(), outcome) == MintTokens(old(Snapshot()), tenant, tenantIsPlatform, client, grant, signs)
    {
      var scopes := grant.scopes;
      if !tenantIsPlatform {
        scopes := Scopes.Filter(scopes, s => !Scopes.IsPlatform(s));
      }
      if !signs {
        return Refused(Internal);
      }
      var token := FreshId();
      var newFamily := FreshId();
      var family := if grant.family.Some? then grant.family.value else newFamily;
      var saved := None;
      if client.allowRefreshTokens && grant.identity.Some? {
        refresh := refresh[token := RefreshRecord(tenant, client.id, grant.identity.value, scopes, grant.auth,
                                                  now + client.refreshTokenTtl, false, family)];
        saved := Some(token);
      }
      log := log + [Minted(Mint(grant.source, tenant, client.pool, client.id, grant.identity, scopes, grant.auth,
                                saved, family, now))];
      outcome := Tokens(scopes, saved);
    }

    method GrantClientCredentials(tenant: Uuid, tenantIsPlatform: bool, name: string, secret: string,
                                  scope: Option<seq<string>>, signs: bool) returns (outcome: Outcome)
      modifies this`nextId, this`refresh, this`log
      ensures (Snapshot(), outcome)
           == ClientCredentials(old(Snapshot()), tenant, tenantIsPlatform, name, secret, scope, signs)
    {
      var found := AuthenticateClient(Snapshot(), tenant, name, Some(secret));
      if found.None? {
        return Refused(ClientRejected);
      }
      var client := found.value;
      if "client_credentials" !in client.grantTypes {
        return Refused(Validation);
      }
      var scopes := client.allowedScopes;
      if scope.Some? {
        if exists x :: x in scope.value && x !in client.allowedScopes {
          return Refused(Validation);
        }
        scopes := scope.value;
      }
      outcome := IssueTokens(tenant, tenantIsPlatform, client, Grant(FromClient, None, scopes, None, None), signs);
    }

    /** The code is consumed before anything about it is checked. */
    method GrantAuthorizationCode(req: TokenRequest, code: Uuid, redirectUri: Option<string>, verifier: string)
      returns (outcome: Outcome)
      modifies this`codes, this`nextId, this`refresh, this`log
      ensures (Snapshot(), outcome) == RedeemCode(old(Snapshot()), req, code, redirectUri, verifier)
    {
      var stored := Read(codes, code, now);
      codes := codes - {code};
      if stored.None? || stored.value.tenant != req.tenant {
        return Refused(InvalidAuthCode);
      }
      var context := stored.value;
      var found := AuthenticateClient(Snapshot(), req.tenant, req.client, req.secret);
      if found.None? {
        return Refused(ClientRejected);
      }
      var client := found.value;
      var problem := CheckCode(Snapshot(), req.tenant, context, client, redirectUri, verifier, req.cfg);
      if problem.Some? {
        return Refused(problem.value);
      }
      var row := FindIdentity(Snapshot(), client.pool, context.identity);
      if row.None? {
        return Refused(NotFound);
      }
      if !row.value.standing.Active? {
        return Refused(InvalidCredentials);
      }
      var scopes := PermittedScopes(row.value, IsEnrolled(Snapshot(), context.identity), context.scopes, req.cfg);
      if scopes.Failure? {
        return Refused(Forbidden);
      }
      outcome := IssueTokens(req.tenant, req.tenantIsPlatform, client,
                             Grant(FromCode(code, verifier), Some(context.identity), scopes.value,
                                   Some(context.auth), None),
                             req.signs);
    }

    /** The presented token is revoked before the identity behind it is even looked up. */
    method GrantRefreshToken(req: TokenRequest, token: Uuid) returns (outcome: Outcome)
      modifies this`nextId, this`refresh, this`log
      ensures (Snapshot(), outcome) == Rotate(old(Snapshot()), req, token)
    {
      if token !in refresh || refresh[token].tenant != req.tenant {
        return Refused(InvalidCredentials);
      }
      var record := refresh[token];
      var found := AuthenticateClient(Snapshot(), req.tenant, req.client, req.secret);
      if found.None? {
        return Refused(ClientRejected);
      }
      var client := found.value;
      if record.client != client.id {
        refresh := Revoke(refresh, Family(record.family));
        return Refused(InvalidCredentials);
      }
      if record.revoked {
        refresh := Revoke(refresh, Family(record.family));
        return Refused(InvalidCredentials);
      }
      if record.expiresAt < now {
        return Refused(InvalidCredentials);
      }
      if "refresh_token" !in client.grantTypes {
        return Refused(Validation);
      }
      refresh := Revoke(refresh, Token(token));
      var row := FindIdentity(Snapshot(), client.pool, record.identity);
      if row.None? {
        return Refused(NotFound);
      }
      if !row.value.standing.Active? {
        RevokeTokenThenFamily(old(refresh), token);
        refresh := Revoke(refresh, Family(record.family));
        return Refused(InvalidCredentials);
      }
      var scopes := PermittedScopes(row.value, IsEnrolled(Snapshot(), record.identity), record.scopes, req.cfg);
      if scopes.Failure? {
        return Refused(Forbidden);
      }
      outcome := IssueTokens(req.tenant, req.tenantIsPlatform, client,
                             Grant(FromRefresh(token), Some(record.identity), scopes.value, record.auth,
                                   Some(record.family)),
                             req.signs);
    }

    // ── Password flows ─────────────────────────────────────────────────────

    method WritePassword(tenant: Uuid, pool: Uuid, identity: Uuid, password: string, reset: Option<Uuid>, cfg: Config)
      returns (outcome: Outcome)
      modifies this
      ensures (Snapshot(), outcome) == SetPassword(old(Snapshot()), tenant, pool, identity, password, reset, cfg)
    {
      if |password| < 8 {
        return Refused(Validation);
      }
      var row := FindIdentity(Snapshot(), pool, identity);
      if row.None? {
        return Refused(NotFound);
      }
      identities := identities[identity := row.value.(password := Some(password))];
      log := log + [PasswordSet(identity, reset)];
      RevokeSessions(tenant, identity, cfg);
      outcome := Done;
    }

    /** The current password is checked before a second-factor attempt is spent. */
    method ChangeOwnPassword(tenant: Uuid, pool: Uuid, identity: Uuid, current: string, password: string,
                             mfa: Option<SecondFactor>, cfg: Config) returns (outcome: Outcome)
      modifies this
      ensures (Snapshot(), outcome)
              == ChangePassword(old(Snapshot()), tenant, pool, identity, current, password, mfa, cfg)
    {
      if !PasswordMatches(Snapshot(), pool, identity, current) {
        return Refused(InvalidCredentials);
      }
      if IsEnrolled(Snapshot(), identity) {
        if mfa.None? {
          return Refused(MfaCodeRequired);
        }
        selfAttempts := Increment(selfAttempts, identity, now, cfg.mfaLifetime);
        log := log + [SelfCounted(identity, now)];
        if selfAttempts[identity].value > cfg.mfaMaxAttempts {
          return Refused(TooManyAttempts);
        }
        log := log + [SelfEvaluated(identity)];
        var verdict := Verify(identity, mfa.value.option, mfa.value.code, cfg);
        if verdict.Failure? {
          return Refused(verdict.error);
        }
      }
      outcome := WritePassword(tenant, pool, identity, password, None, cfg);
    }

    method RequestPasswordReset(tenant: Uuid, pool: Uuid, identity: Uuid, cfg: Config) returns (outcome: Outcome)
      modifies this`nextId, this`resets
      ensures (Snapshot(), outcome) == RequestReset(old(Snapshot()), tenant, pool, identity, cfg)
    {
      var token := FreshId();
      resets := SetEx(resets, token, ResetContext(tenant, pool, identity), now, cfg.resetLifetime);
      outcome := ResetIssued(token);
    }

    /** Presenting the token consumes it, whatever follows. */
    method ResetPassword(tenant: Uuid, token: Uuid, password: string, cfg: Config) returns (outcome: Outcome)
      modifies this
      ensures (Snapshot(), outcome) == Reset(old(Snapshot()), tenant, token, password, cfg)
    {
      var stored := Read(resets, token, now);
      resets := resets - {token};
      if stored.None? {
        return Refused(InvalidResetToken);
      }
      log := log + [ResetSpent(token)];
      var context := stored.value;
      if context.tenant != tenant {
        return Refused(InvalidResetToken);
      }
      if !IsEnrolled(Snapshot(), context.identity) {
        outcome := WritePassword(tenant, context.pool, context.identity, password, Some(token), cfg);
      } else {
        outcome := MintChallenge(tenant, context.pool, context.identity, ForReset, Some(token), cfg);
      }
    }

    method CompleteReset(tenant: Uuid, jti: Uuid, option: MfaOption, code: string, password: string, cfg: Config)
      returns (outcome: Outcome)
      modifies this
      ensures (Snapshot(), outcome) == ResetMfa(old(Snapshot()), tenant, jti, option, code, password, cfg)
    {
      var consumed := Consume(tenant, None, jti, option, code, ForReset, cfg);
      if consumed.Failure? {
        return Refused(consumed.error);
      }
      var challenge := consumed.value;
      outcome := WritePassword(tenant, challenge.pool, challenge.identity, password, challenge.origin, cfg);
    }

    // ── Enrolment ──────────────────────────────────────────────────────────

    method Enrol(owner: Uuid, op: FactorOp, cfg: Config) returns (outcome: Outcome)
      modifies this`factors, this`log
      ensures (Snapshot(), outcome) == ManageFactor(old(Snapshot()), owner, op, cfg)
    {
      outcome := Done;
      match op
      case StartEnrolment(secret) =>
        if SecondFactors.HasVerified(factors, owner) {
          return Refused(MfaAlreadyEnrolled);
        }
        log := log + [FactorEnrolled(owner, factors.nextId, secret)];
        factors := SecondFactors.CreateEnrolment(factors, owner, secret);
      case ConfirmEnrolment(code, hashes) =>
        if owner !in factors.enrolments {
          return Refused(MfaNotEnrolled);
        }
        var e := factors.enrolments[owner];
        if e.verified {
          return Refused(MfaAlreadyEnrolled);
        }
        var claimed := ClaimCode(factors, owner, e, code, now, cfg);
        if claimed.Failure? {
          return Refused(claimed.error);
        }
        factors := SecondFactors.MarkVerified(claimed.value.store, owner, e.id);
        factors := SecondFactors.ReplaceBackups(factors, owner, hashes);
        log := log + [FactorAccepted(owner, claimed.value.accepted)];
      case RemoveEnrolment(id) =>
        if !SecondFactors.IsEnrolment(factors, owner, id) {
          return Refused(NotFound);
        }
        factors := SecondFactors.DeleteEnrolment(factors, owner, id);
        factors := SecondFactors.DeleteBackups(factors, owner);
      case RegenerateCodes(hashes) =>
        if !SecondFactors.HasVerified(factors, owner) {
          return Refused(MfaNotEnrolled);
        }
        factors := SecondFactors.ReplaceBackups(factors, owner, hashes);
    }

    // ── Serving requests ───────────────────────────────────────────────────

    method Administrate(rows: map<Uuid, Identity>, apps: map<(Uuid, string), Client>) returns (outcome: Outcome)
      modifies this`identities, this`clients
      ensures (Snapshot(), outcome) == Handle(old(Snapshot()), Administer(rows, apps))
    {
      if !KeepsPools(identities, rows) {
        return Refused(Validation);
      }
      identities, clients := rows, apps;
      return Done;
    }

    method PruneRecords()
      modifies this`refresh
      ensures Snapshot() == Handle(old(Snapshot()), Prune).0
    {
      refresh := Pruned(refresh, now);
    }

    method Serve(req: Request) returns (outcome: Outcome)
      modifies this
      ensures (Snapshot(), outcome) == Handle(old(Snapshot()), req)
    {
      hide Login, LoginMfa, Authorize, ClientCredentials, RedeemCode, Rotate;
      match req
      case DoLogin(tenant, client, identity, password, cfg) =>
        outcome := AuthenticateUser(tenant, client, identity, password, cfg);
      case DoLoginMfa(tenant, client, jti, option, code, cfg) =>
        outcome := AuthenticateMfa(tenant, client, jti, option, code, cfg);
      case DoAuthorize(tenant, authorize, cfg) => outcome := HandleAuthorize(tenant, authorize, cfg);
      case DoClientCredentials(tenant, platform, client, secret, scope, signs) =>
        outcome := GrantClientCredentials(tenant, platform, client, secret, scope, signs);
      case DoRedeemCode(token, code, redirectUri, verifier) =>
        outcome := GrantAuthorizationCode(token, code, redirectUri, verifier);
      case DoRotate(token, refreshToken) => outcome := GrantRefreshToken(token, refreshToken);
      case _ => outcome := ServeAccount(req);
    }

    /** The requests that issue no token: passwords, sessions, factors, rows and time. */
    method ServeAccount(req: Request) returns (outcome: Outcome)
      requires !req.DoLogin? && !req.DoLoginMfa? && !req.DoAuthorize?
      requires !req.DoClientCredentials? && !req.DoRedeemCode? && !req.DoRotate?
      modifies this
      ensures (Snapshot(), outcome) == Handle(old(Snapshot()), req)
    {
      hide ChangePassword, Reset, ResetMfa, RequestReset, RevokeAllSessions, ManageFactor, KeepsPools, Pruned;
      outcome := Done;
      match req
      case Wait(seconds) => now := now + seconds;
      case Administer(rows, apps) => outcome := Administrate(rows, apps);
      case DoChangePassword(tenant, pool, identity, password, newPassword, mfa, cfg) =>
        outcome := ChangeOwnPassword(tenant, pool, identity, password, newPassword, mfa, cfg);
      case DoRequestReset(tenant, pool, identity, cfg) => outcome := RequestPasswordReset(tenant, pool, identity, cfg);
      case DoReset(tenant, reset, newPassword, cfg) => outcome := ResetPassword(tenant, reset, newPassword, cfg);
      case DoResetMfa(tenant, jti, option, code, newPassword, cfg) =>
        outcome := CompleteReset(tenant, jti, option, code, newPassword, cfg);
      case DoRevokeSessions(tenant, identity, cfg) => RevokeSessions(tenant, identity, cfg);
      case DoManageFactor(identity, op, cfg) => outcome := Enrol(identity, op, cfg);
      case Prune => PruneRecords();
    }

    /** Any sequence of requests takes the server where the state machine says. */
    method ServeAll(reqs: seq<Request>)
      modifies this
      ensures Snapshot() == Run(old(Snapshot()), reqs)
    {
      hide Handle;
      assert reqs[0..] == reqs;
      for i := 0 to |reqs|
        invariant Run(Snapshot(), reqs[i..]) == Run(old(Snapshot()), reqs)
      {
        RunAppend(Snapshot(), reqs, i);
        var _ := Serve(reqs[i]);
      }
    }
  }
}
