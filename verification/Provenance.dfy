/**
 Where every token comes from. The history of any run is sound: each fact is
 justified by earlier ones, so every identity-bearing token traces back through
 rotations, one code and one session to a password check.
 */
module Provenance {
  import opened Wrappers
  import opened Redis
  import opened Credentials
  import Scopes

  ghost function Last(log: seq<Fact>): Fact
    requires log != []
  {
    log[|log| - 1]
  }

  /** `session` was opened right after its password check, or right after its login challenge was spent. */
  ghost predicate OpenedBy(session: Session, last: Fact) {
    match last
    case PasswordChecked(tenant, pool, identity, at) =>
      && session.tenant == tenant && session.pool == pool && session.identity == identity
      && session.createdAt == at && "mfa" !in session.amr
    case ChallengeSpent(c, at, _) =>
      && c.purpose.ForLogin? && session.tenant == c.tenant && session.pool == c.pool
      && session.identity == c.identity && session.createdAt == at && "mfa" in session.amr
    case _ => false
  }

  ghost predicate FromSession(context: CodeContext, session: Session) {
    && context.tenant == session.tenant && context.identity == session.identity
    && context.auth == Auth(session.amr, session.createdAt)
  }

  ghost predicate FromContext(m: Mint, context: CodeContext) {
    && m.tenant == context.tenant && m.client == context.client && m.identity == Some(context.identity)
    && m.auth == Some(context.auth) && Scopes.Subsequence(m.scopes, context.scopes)
  }

  ghost predicate FromPredecessor(m: Mint, p: Mint) {
    && m.tenant == p.tenant && m.client == p.client && m.identity == p.identity
    && m.auth == p.auth && m.family == p.family && Scopes.Subsequence(m.scopes, p.scopes)
  }

  ghost predicate MintJustified(m: Mint, log: seq<Fact>) {
    match m.source
    case FromClient => m.identity.None? && m.auth.None?
    case FromCode(code, _) =>
      exists f :: f in log && f.CodeIssued? && f.code == code && FromContext(m, f.context)
    case FromRefresh(token) =>
      exists f :: f in log && f.Minted? && f.mint.saved == Some(token) && FromPredecessor(m, f.mint)
  }

  ghost predicate IsFactorOf(f: Fact, identity: Uuid) { f.FactorAccepted? && f.identity == identity }

  ghost predicate Justified(fact: Fact, log: seq<Fact>) {
    match fact
    case ChallengeIssued(c) =>
      c.purpose.ForLogin? ==> log != [] && Last(log) == PasswordChecked(c.tenant, c.pool, c.identity, c.issuedAt)
    case ChallengeSpent(c, _, _) => ChallengeIssued(c) in log && log != [] && IsFactorOf(Last(log), c.identity)
    case SessionOpened(_, session) => log != [] && OpenedBy(session, Last(log))
    case CodeIssued(_, sso, context) =>
      exists f :: f in log && f.SessionOpened? && f.sso == sso && FromSession(context, f.session)
    case Minted(m) => MintJustified(m, log)
    case _ => true
  }

  ghost predicate Sound(log: seq<Fact>) {
    log == [] || (Sound(log[..|log| - 1]) && Justified(Last(log), log[..|log| - 1]))
  }

  ghost predicate RecordOf(m: Mint, token: Uuid, r: RefreshRecord) {
    && m.saved == Some(token) && m.tenant == r.tenant && m.client == r.client && m.identity == Some(r.identity)
    && m.scopes == r.scopes && m.auth == r.auth && m.family == r.family
  }

  ghost predicate SessionsLogged(sessions: map<Uuid, Entry<Session>>, log: seq<Fact>) {
    forall k :: k in sessions ==> SessionOpened(k, sessions[k].value) in log
  }

  ghost predicate CodesLogged(codes: map<Uuid, Entry<CodeContext>>, log: seq<Fact>) {
    forall k :: k in codes ==>
      exists f :: f in log && f.CodeIssued? && f.code == k && f.context == codes[k].value
  }

  ghost predicate ChallengesLogged(challenges: map<Uuid, Challenge>, log: seq<Fact>) {
    forall k :: k in challenges ==> challenges[k].jti == k && ChallengeIssued(challenges[k]) in log
  }

  ghost predicate RecordsLogged(records: map<Uuid, RefreshRecord>, log: seq<Fact>) {
    forall t :: t in records ==> exists f :: f in log && f.Minted? && RecordOf(f.mint, t, records[t])
  }

  /** Every identity a fact names lives in the pool the fact names. */
  ghost predicate PoolsLogged(identities: map<Uuid, Identity>, log: seq<Fact>) {
    forall f :: f in log ==>
      && (f.SessionOpened? ==> InPool(identities, f.session.identity, f.session.pool))
      && (f.Minted? && f.mint.identity.Some? ==> InPool(identities, f.mint.identity.value, f.mint.pool))
  }

  ghost predicate InPool(identities: map<Uuid, Identity>, identity: Uuid, pool: Uuid) {
    identity in identities && identities[identity].pool == pool
  }

  ghost predicate Inv(s: State) {
    && Sound(s.log)
    && SessionsLogged(s.cache.sessions, s.log)
    && CodesLogged(s.cache.codes, s.log)
    && ChallengesLogged(s.challenges, s.log)
    && RecordsLogged(s.db.refresh, s.log)
    && PoolsLogged(s.db.identities, s.log)
  }

  // ── Each effect keeps the invariant ──────────────────────────────────────

  lemma SoundAppend(log: seq<Fact>, fact: Fact)
    requires Sound(log) && Justified(fact, log)
    ensures Sound(log + [fact])
  {
  }

  /** Appending a justified fact keeps the invariant, provided the fact's identity is where it says. */
  lemma RecordKeeps(s: State, fact: Fact)
    requires Inv(s) && Justified(fact, s.log) && PoolsLogged(s.db.identities, [fact])
    ensures Inv(Record(s, fact))
  {
    SoundAppend(s.log, fact);
    hide Sound;
  }

  lemma OpenSessionKeeps(s: State, tenant: Uuid, pool: Uuid, identity: Uuid, amr: seq<string>, cfg: Config)
    requires Inv(s) && s.log != [] && InPool(s.db.identities, identity, pool)
    requires var epoch := Count(s.cache.epochs, (tenant, identity), s.now);
             OpenedBy(Session(tenant, pool, identity, amr, epoch, s.now), Last(s.log))
    ensures Inv(OpenSession(s, tenant, pool, identity, amr, cfg).0)
  {
  }

  lemma IssueChallengeKeeps(s: State, tenant: Uuid, pool: Uuid, identity: Uuid, purpose: Purpose,
                            origin: Option<Uuid>, cfg: Config)
    requires Inv(s)
    requires purpose.ForLogin? ==> s.log != [] && Last(s.log) == PasswordChecked(tenant, pool, identity, s.now)
    ensures Inv(IssueChallenge(s, tenant, pool, identity, purpose, origin, cfg).0)
  {
  }

  lemma RevokeKeeps(records: map<Uuid, RefreshRecord>, sel: Selection, log: seq<Fact>)
    requires RecordsLogged(records, log)
    ensures RecordsLogged(Revoke(records, sel), log)
  {
  }

  lemma MintKeeps(s: State, tenant: Uuid, platform: bool, client: Client, grant: Grant, signs: bool)
    requires Inv(s)
    requires grant.identity.Some? ==> InPool(s.db.identities, grant.identity.value, client.pool)
    requires var s' := MintTokens(s, tenant, platform, client, grant, signs).0;
             signs ==> Justified(Last(s'.log), s.log)
    ensures Inv(MintTokens(s, tenant, platform, client, grant, signs).0)
  {
  }

  lemma AdmittedMeans(s: State, tenant: Uuid, expectedPool: Option<Uuid>, jti: Uuid, option: MfaOption,
                      purpose: Purpose, cfg: Config)
    requires Inv(s) && Screen(s, tenant, expectedPool, jti, option, purpose, cfg).Admitted?
    ensures var c := Screen(s, tenant, expectedPool, jti, option, purpose, cfg).challenge;
            && c.purpose == purpose && c.tenant == tenant && c.jti == jti
            && (expectedPool.Some? ==> c.pool == expectedPool.value)
            && InPool(s.db.identities, c.identity, c.pool) && ChallengeIssued(c) in s.log
  {
  }

  lemma CountKeeps(s: State, jti: Uuid, cfg: Config)
    requires Inv(s)
    ensures Inv(CountAttempt(s, jti, cfg))
  {
    var counted := s.(cache := s.cache.(attempts := Increment(s.cache.attempts, jti, s.now, cfg.mfaLifetime)));
    RecordKeeps(counted, AttemptCounted(jti, s.now, s.now + cfg.mfaLifetime));
  }

  lemma AcceptKeeps(s: State, identity: Uuid, a: Acceptance)
    requires Inv(s)
    ensures Inv(AcceptFactor(s, identity, a))
  {
    RecordKeeps(s.(db := s.db.(factors := a.store)), FactorAccepted(identity, a.accepted));
  }

  lemma SpendKeeps(s: State, c: Challenge, cfg: Config)
    requires Inv(s) && ChallengeIssued(c) in s.log && s.log != [] && IsFactorOf(Last(s.log), c.identity)
    ensures Inv(SpendChallenge(s, c, cfg))
  {
    var spent := s.(cache := s.cache.(spent := SetEx(s.cache.spent, c.jti, true, s.now, cfg.mfaLifetime)));
    RecordKeeps(spent, ChallengeSpent(c, s.now, s.now + cfg.mfaLifetime));
  }

  lemma ConsumeKeeps(s: State, tenant: Uuid, expectedPool: Option<Uuid>, jti: Uuid, option: MfaOption,
                     code: string, purpose: Purpose, cfg: Config)
    requires Inv(s)
    ensures Inv(ConsumeChallenge(s, tenant, expectedPool, jti, option, code, purpose, cfg).0)
  {
    hide Screen, VerifyFactor, Inv, CountAttempt, SpendChallenge, ChallengesLogged, PoolsLogged;
    var screening := Screen(s, tenant, expectedPool, jti, option, purpose, cfg);
    CountKeeps(s, jti, cfg);
    if screening.Admitted? {
      AdmittedMeans(s, tenant, expectedPool, jti, option, purpose, cfg);
      var c := screening.challenge;
      var counted := CountAttempt(s, jti, cfg);
      EvaluateKeeps(counted, jti);
      var evaluated := Record(counted, CodeEvaluated(jti));
      var verdict := VerifyFactor(s.db.factors, c.identity, option, code, s.now, cfg);
      if verdict.Success? {
        AcceptKeeps(evaluated, c.identity, verdict.value);
        CountTells(s, jti, cfg);
        SpendKeeps(AcceptFactor(evaluated, c.identity, verdict.value), c, cfg);
      }
    }
  }

  lemma EvaluateKeeps(s: State, jti: Uuid)
    requires Inv(s)
    ensures Inv(Record(s, CodeEvaluated(jti)))
  {
    RecordKeeps(s, CodeEvaluated(jti));
  }

  lemma CountTells(s: State, jti: Uuid, cfg: Config)
    ensures CountAttempt(s, jti, cfg).log == s.log + [AttemptCounted(jti, s.now, s.now + cfg.mfaLifetime)]
  {
  }

  /** What consuming a challenge leaves alone, and what it tells when it succeeds. */
  lemma ConsumeTells(s: State, tenant: Uuid, expectedPool: Option<Uuid>, jti: Uuid, option: MfaOption,
                     code: string, purpose: Purpose, cfg: Config)
    ensures var (s', consumed) := ConsumeChallenge(s, tenant, expectedPool, jti, option, code, purpose, cfg);
            && s'.db.identities == s.db.identities && s'.now == s.now
            && (consumed.Success? ==>
                  && s'.log != [] && Last(s'.log) == ChallengeSpent(consumed.value, s.now, s.now + cfg.mfaLifetime)
                  && Screen(s, tenant, expectedPool, jti, option, purpose, cfg) == Admitted(consumed.value))
  {
    hide Screen, VerifyFactor;
  }

  lemma SetPasswordKeeps(s: State, tenant: Uuid, pool: Uuid, identity: Uuid, password: string, reset: Option<Uuid>,
                         cfg: Config)
    requires Inv(s)
    ensures Inv(SetPassword(s, tenant, pool, identity, password, reset, cfg).0)
  {
  }

  // ── Each request keeps the invariant ─────────────────────────────────────

  lemma LoginKeeps(s: State, tenant: Uuid, client: string, identity: Uuid, password: string, cfg: Config)
    requires Inv(s)
    ensures Inv(Login(s, tenant, client, identity, password, cfg).0)
  {
    if FindClient(s, tenant, client).Some? {
      var pool := FindClient(s, tenant, client).value.pool;
      if PasswordMatches(s, pool, identity, password) {
        var fact := PasswordChecked(tenant, pool, identity, s.now);
        RecordKeeps(s, fact);
        if IsEnrolled(s, identity) {
          IssueChallengeKeeps(Record(s, fact), tenant, pool, identity, ForLogin, None, cfg);
        } else {
          OpenSessionKeeps(Record(s, fact), tenant, pool, identity, ["pwd"], cfg);
        }
      }
    }
  }

  lemma LoginMfaKeeps(s: State, tenant: Uuid, client: string, jti: Uuid, option: MfaOption, code: string, cfg: Config)
    requires Inv(s)
    ensures Inv(LoginMfa(s, tenant, client, jti, option, code, cfg).0)
  {
    hide ConsumeChallenge, Inv, FindClient, Screen;
    if FindClient(s, tenant, client).Some? {
      var pool := FindClient(s, tenant, client).value.pool;
      ConsumeKeeps(s, tenant, Some(pool), jti, option, code, ForLogin, cfg);
      ConsumeTells(s, tenant, Some(pool), jti, option, code, ForLogin, cfg);
      var (s1, consumed) := ConsumeChallenge(s, tenant, Some(pool), jti, option, code, ForLogin, cfg);
      if consumed.Success? {
        AdmittedMeans(s, tenant, Some(pool), jti, option, ForLogin, cfg);
        var amr := ["pwd", AmrFor(option), "mfa"];
        assert amr[2] == "mfa";
        OpenSessionKeeps(s1, tenant, pool, consumed.value.identity, amr, cfg);
      }
    }
  }

  lemma AuthorizeKeeps(s: State, tenant: Uuid, req: AuthorizeRequest, cfg: Config)
    requires Inv(s)
    ensures Inv(Authorize(s, tenant, req, cfg).0)
  {
  }

  lemma ClientCredentialsKeeps(s: State, tenant: Uuid, platform: bool, name: string, secret: string,
                               scope: Option<seq<string>>, signs: bool)
    requires Inv(s)
    ensures Inv(ClientCredentials(s, tenant, platform, name, secret, scope, signs).0)
  {
    hide AuthenticateClient, Inv;
    var found := AuthenticateClient(s, tenant, name, Some(secret));
    if found.Some? {
      var scopes := if scope.Some? then scope.value else found.value.allowedScopes;
      MintKeeps(s, tenant, platform, found.value, Grant(FromClient, None, scopes, None, None), signs);
    }
  }

  /** The scopes minted are a subsequence of those the grant was narrowed from. */
  lemma NarrowedIsSubsequence(requested: seq<string>, row: Identity, enrolled: bool, cfg: Config, platform: bool,
                              scopes: seq<string>)
    requires Scopes.Permitted(requested, row.permissions, cfg.requireAdminMfa, enrolled) == Success(scopes)
    ensures Scopes.Subsequence(Scopes.Strip(scopes, platform), requested)
  {
    Scopes.PermittedIsSubsequence(requested, row.permissions, cfg.requireAdminMfa, enrolled);
    Scopes.StripIsSubsequence(scopes, platform);
    Scopes.SubsequenceTransitive(Scopes.Strip(scopes, platform), scopes, requested);
  }

  lemma ApprovedCodeMeans(s: State, req: TokenRequest, code: Uuid, context: CodeContext, redirectUri: Option<string>,
                          verifier: string)
    requires ApproveCode(s, req, code, context, redirectUri, verifier).Success?
    ensures var a := ApproveCode(s, req, code, context, redirectUri, verifier).value;
            && a.grant.source == FromCode(code, verifier) && a.grant.identity == Some(context.identity)
            && a.grant.auth == Some(context.auth) && a.grant.family == None
            && context.tenant == req.tenant && context.client == a.client.id
            && InPool(s.db.identities, context.identity, a.client.pool)
            && Scopes.Subsequence(Scopes.Strip(a.grant.scopes, req.tenantIsPlatform), context.scopes)
  {
    var a := ApproveCode(s, req, code, context, redirectUri, verifier).value;
    NarrowedIsSubsequence(context.scopes, s.db.identities[context.identity], IsEnrolled(s, context.identity), req.cfg,
                          req.tenantIsPlatform, a.grant.scopes);
  }

  lemma ReissueMeans(s: State, req: TokenRequest, token: Uuid)
    requires Judge(s, req, token).Reissue?
    ensures token in s.db.refresh
    ensures var a, record := Judge(s, req, token).approval, s.db.refresh[token];
            && a.grant.source == FromRefresh(token) && a.grant.identity == Some(record.identity)
            && a.grant.auth == record.auth && a.grant.family == Some(record.family)
            && record.tenant == req.tenant && record.client == a.client.id && !record.revoked
            && InPool(s.db.identities, record.identity, a.client.pool)
            && Scopes.Subsequence(Scopes.Strip(a.grant.scopes, req.tenantIsPlatform), record.scopes)
  {
    var a, record := Judge(s, req, token).approval, s.db.refresh[token];
    NarrowedIsSubsequence(record.scopes, s.db.identities[record.identity], IsEnrolled(s, record.identity), req.cfg,
                          req.tenantIsPlatform, a.grant.scopes);
  }

  lemma RedeemCodeKeeps(s: State, req: TokenRequest, code: Uuid, redirectUri: Option<string>, verifier: string)
    requires Inv(s)
    ensures Inv(RedeemCode(s, req, code, redirectUri, verifier).0)
  {
    hide ApproveCode, Sound;
    var s1 := s.(cache := s.cache.(codes := s.cache.codes - {code}));
    if IsLive(s.cache.codes, code, s.now) {
      var context := s.cache.codes[code].value;
      var approved := ApproveCode(s, req, code, context, redirectUri, verifier);
      if approved.Success? {
        ApprovedCodeMeans(s, req, code, context, redirectUri, verifier);
        var f :| f in s.log && f.CodeIssued? && f.code == code && f.context == context;
        var a := approved.value;
        MintKeeps(s1, req.tenant, req.tenantIsPlatform, a.client, a.grant, req.signs);
      }
    }
  }

  lemma RotateKeeps(s: State, req: TokenRequest, token: Uuid)
    requires Inv(s)
    ensures Inv(Rotate(s, req, token).0)
  {
    hide Sound;
    match Judge(s, req, token)
    case Ignore(_) =>
    case EndFamily(_) => RevokeKeeps(s.db.refresh, Family(s.db.refresh[token].family), s.log);
    case Retire(_) => RevokeKeeps(s.db.refresh, Token(token), s.log);
    case Reissue(a) =>
      ReissueMeans(s, req, token);
      RevokeKeeps(s.db.refresh, Token(token), s.log);
      var f :| f in s.log && f.Minted? && RecordOf(f.mint, token, s.db.refresh[token]);
      MintKeeps(s.(db := s.db.(refresh := Revoke(s.db.refresh, Token(token)))), req.tenant, req.tenantIsPlatform,
                a.client, a.grant, req.signs);
  }

  lemma ResetKeeps(s: State, tenant: Uuid, token: Uuid, password: string, cfg: Config)
    requires Inv(s)
    ensures Inv(Reset(s, tenant, token, password, cfg).0)
  {
    if IsLive(s.cache.resets, token, s.now) {
      var context := s.cache.resets[token].value;
      RecordKeeps(s, ResetSpent(token));
      var s1 := s.(cache := s.cache.(resets := s.cache.resets - {token}), log := s.log + [ResetSpent(token)]);
      if context.tenant == tenant {
        if IsEnrolled(s1, context.identity) {
          IssueChallengeKeeps(s1, tenant, context.pool, context.identity, ForReset, Some(token), cfg);
        } else {
          SetPasswordKeeps(s1, tenant, context.pool, context.identity, password, Some(token), cfg);
        }
      }
    }
  }

  lemma ResetMfaKeeps(s: State, tenant: Uuid, jti: Uuid, option: MfaOption, code: string, password: string, cfg: Config)
    requires Inv(s)
    ensures Inv(ResetMfa(s, tenant, jti, option, code, password, cfg).0)
  {
    hide ConsumeChallenge, SetPassword, Inv;
    ConsumeKeeps(s, tenant, None, jti, option, code, ForReset, cfg);
    var (s1, consumed) := ConsumeChallenge(s, tenant, None, jti, option, code, ForReset, cfg);
    if consumed.Success? {
      var c := consumed.value;
      SetPasswordKeeps(s1, tenant, c.pool, c.identity, password, c.origin, cfg);
    }
  }

  lemma ChangePasswordKeeps(s: State, tenant: Uuid, pool: Uuid, identity: Uuid, current: string, password: string,
                            mfa: Option<SecondFactor>, cfg: Config)
    requires Inv(s)
    ensures Inv(ChangePassword(s, tenant, pool, identity, current, password, mfa, cfg).0)
  {
    var counted := CountSelfAttempt(s, identity, cfg);
    var evaluated := EvaluateSelf(s, identity, cfg);
    RecordKeeps(s.(cache := counted.cache), SelfCounted(identity, s.now));
    RecordKeeps(counted, SelfEvaluated(identity));
    hide SetPassword, VerifyFactor, Inv;
    SetPasswordKeeps(s, tenant, pool, identity, password, None, cfg);
    if mfa.Some? {
      var verdict := VerifyFactor(s.db.factors, identity, mfa.value.option, mfa.value.code, s.now, cfg);
      if verdict.Success? {
        AcceptKeeps(evaluated, identity, verdict.value);
        SetPasswordKeeps(AcceptFactor(evaluated, identity, verdict.value), tenant, pool, identity, password, None, cfg);
      }
    }
  }

  lemma ManageFactorKeeps(s: State, owner: Uuid, op: FactorOp, cfg: Config)
    requires Inv(s)
    ensures Inv(ManageFactor(s, owner, op, cfg).0)
  {
    hide ClaimCode;
    if op.ConfirmEnrolment? && owner in s.db.factors.enrolments {
      var e := s.db.factors.enrolments[owner];
      var verdict := ClaimCode(s.db.factors, owner, e, op.code, s.now, cfg);
      if verdict.Success? {
        var verified := SecondFactors.MarkVerified(verdict.value.store, owner, e.id);
        AcceptKeeps(s, owner, verdict.value.(store := SecondFactors.ReplaceBackups(verified, owner, op.hashes)));
      }
    }
  }

  lemma StepKeeps(s: State, req: Request)
    requires Inv(s)
    ensures Inv(Handle(s, req).0)
  {
    hide Login, LoginMfa, Authorize, ClientCredentials, RedeemCode, Rotate, ChangePassword, Reset, ResetMfa,
      ManageFactor, Inv;
    match req
    case DoLogin(tenant, client, identity, password, cfg) => LoginKeeps(s, tenant, client, identity, password, cfg);
    case DoLoginMfa(tenant, client, jti, option, code, cfg) =>
      LoginMfaKeeps(s, tenant, client, jti, option, code, cfg);
    case DoAuthorize(tenant, authorize, cfg) => AuthorizeKeeps(s, tenant, authorize, cfg);
    case DoClientCredentials(tenant, platform, client, secret, scope, signs) =>
      ClientCredentialsKeeps(s, tenant, platform, client, secret, scope, signs);
    case DoRedeemCode(token, code, redirectUri, verifier) => RedeemCodeKeeps(s, token, code, redirectUri, verifier);
    case DoRotate(token, refreshToken) => RotateKeeps(s, token, refreshToken);
    case DoChangePassword(tenant, pool, identity, password, newPassword, mfa, cfg) =>
      ChangePasswordKeeps(s, tenant, pool, identity, password, newPassword, mfa, cfg);
    case DoReset(tenant, reset, newPassword, cfg) => ResetKeeps(s, tenant, reset, newPassword, cfg);
    case DoResetMfa(tenant, jti, option, code, newPassword, cfg) =>
      ResetMfaKeeps(s, tenant, jti, option, code, newPassword, cfg);
    case DoManageFactor(identity, op, cfg) => ManageFactorKeeps(s, identity, op, cfg);
    case _ => SilentKeeps(s, req);
  }

  /** The requests that record nothing. */
  lemma SilentKeeps(s: State, req: Request)
    requires Inv(s)
    requires req.Wait? || req.Administer? || req.DoRequestReset? || req.DoRevokeSessions? || req.Prune?
    ensures Inv(Handle(s, req).0)
  {
    hide Sound;
    if req.Administer? && KeepsPools(s.db.identities, req.identities) {
      assert PoolsLogged(req.identities, s.log);
    } else if req.DoRevokeSessions? {
      RevokeKeeps(s.db.refresh, Owner(req.tenant, req.identity), s.log);
    }
  }

  lemma {:induction false} RunKeeps(s: State, reqs: seq<Request>)
    requires Inv(s)
    ensures Inv(Run(s, reqs))
    decreases reqs
  {
    if reqs != [] {
      StepKeeps(s, reqs[0]);
      RunKeeps(Handle(s, reqs[0]).0, reqs[1..]);
    }
  }

  // ── The theorem ──────────────────────────────────────────────────────────

  /** The mint at `k` was reached from the mint at `root` by zero or more rotations. */
  ghost predicate RotatedFrom(log: seq<Fact>, k: nat, root: nat)
    requires k < |log|
  {
    && log[k].Minted?
    && (k == root
        || (&& log[k].mint.source.FromRefresh?
            && exists j: nat ::
                 && j < k && log[j].Minted? && log[j].mint.saved == Some(log[k].mint.source.token)
                 && RotatedFrom(log, j, root)))
  }

  /** A password check of the session's identity, tenant and pool precedes the session opened at `o`. */
  ghost predicate PasswordBehind(log: seq<Fact>, o: nat)
    requires o < |log| && log[o].SessionOpened?
  {
    var session := log[o].session;
    exists f :: f in log[..o] && f.PasswordChecked? && f.tenant == session.tenant && f.pool == session.pool
                && f.identity == session.identity
  }

  /** The session opened at `o` came from a login challenge consumed with a factor of the same identity. */
  ghost predicate ChallengeBehind(log: seq<Fact>, o: nat)
    requires o < |log| && log[o].SessionOpened?
  {
    var session := log[o].session;
    && 1 < o && log[o - 1].ChallengeSpent? && IsFactorOf(log[o - 2], session.identity)
    && var c := log[o - 1].challenge;
       c.purpose.ForLogin? && c.tenant == session.tenant && c.pool == session.pool && c.identity == session.identity
  }

  /** The whole chain behind the mint at `k`: root mint, code, session, password. */
  ghost predicate Grounded(log: seq<Fact>, k: nat, root: nat, c: nat, o: nat) {
    && o < c < root <= k < |log|
    && RotatedFrom(log, k, root)
    && log[root].Minted? && log[root].mint.source.FromCode?
    && log[c].CodeIssued? && log[c].code == log[root].mint.source.code
    && log[o].SessionOpened? && log[o].sso == log[c].sso
    && var m, session := log[k].mint, log[o].session;
       && m.identity == Some(session.identity) && m.tenant == session.tenant && m.pool == session.pool
       && m.auth == Some(Auth(session.amr, session.createdAt))
       && m.client == log[c].context.client && m.family == log[root].mint.family
       && Scopes.Subsequence(m.scopes, log[c].context.scopes)
       && PasswordBehind(log, o)
       && ("mfa" in session.amr <==> ChallengeBehind(log, o))
  }

  lemma {:induction false} SoundAt(log: seq<Fact>, k: nat)
    requires Sound(log) && k < |log|
    ensures Justified(log[k], log[..k]) && Sound(log[..k])
    decreases |log|
  {
    var front := log[..|log| - 1];
    if k == |log| - 1 {
      assert log[..k] == front;
    } else {
      SoundAt(front, k);
      assert front[..k] == log[..k];
    }
  }

  lemma SessionHasPassword(log: seq<Fact>, o: nat)
    requires Sound(log) && o < |log| && log[o].SessionOpened?
    ensures PasswordBehind(log, o)
    ensures "mfa" in log[o].session.amr <==> ChallengeBehind(log, o)
  {
    SoundAt(log, o);
    assert Last(log[..o]) == log[o - 1];
    if log[o - 1].PasswordChecked? {
      assert log[o - 1] in log[..o];
    } else {
      SoundAt(log, o - 1);
      assert Last(log[..o - 1]) == log[o - 2];
      var c := log[o - 1].challenge;
      var i :| 0 <= i < |log[..o - 1]| && log[..o - 1][i] == ChallengeIssued(c);
      SoundAt(log, i);
      assert Last(log[..i]) == log[i - 1];
      assert log[i - 1] in log[..o];
    }
  }

  lemma {:induction false} MintHasCode(log: seq<Fact>, k: nat, identities: map<Uuid, Identity>)
    requires Sound(log) && PoolsLogged(identities, log)
    requires k < |log| && log[k].Minted? && log[k].mint.identity.Some?
    ensures exists root: nat, c: nat, o: nat :: Grounded(log, k, root, c, o)
    decreases k
  {
    SoundAt(log, k);
    var m := log[k].mint;
    match m.source {
      case FromClient =>
      case FromCode(code, _) =>
        var f :| f in log[..k] && f.CodeIssued? && f.code == code && FromContext(m, f.context);
        var c :| 0 <= c < k && log[c] == f;
        SoundAt(log, c);
        var g :| g in log[..c] && g.SessionOpened? && g.sso == f.sso && FromSession(f.context, g.session);
        var o :| 0 <= o < c && log[o] == g;
        SessionHasPassword(log, o);
        assert log[k] in log && log[o] in log;
        assert Grounded(log, k, k, c, o);
      case FromRefresh(token) =>
        var f :| f in log[..k] && f.Minted? && f.mint.saved == Some(token) && FromPredecessor(m, f.mint);
        var j :| 0 <= j < k && log[j] == f;
        MintHasCode(log, j, identities);
        var root: nat, c: nat, o: nat :| Grounded(log, j, root, c, o);
        assert log[k] in log && log[o] in log;
        Scopes.SubsequenceTransitive(m.scopes, f.mint.scopes, log[c].context.scopes);
        assert RotatedFrom(log, j, root);
        assert Grounded(log, k, root, c, o);
    }
  }

  /**
   In every run, every identity-bearing token traces back through rotations, one
   code and one session to a password check of the same identity, tenant and
   pool. Its `auth_time` is the session's creation time, its `amr` the session's,
   and that `amr` holds "mfa" exactly when the session came from a consumed
   login challenge. Its scopes are a subsequence of the code's.
   */
  lemma TokenProvenance(s: State, reqs: seq<Request>, k: nat)
    requires IsInitial(s)
    requires var log := Run(s, reqs).log;
             k < |log| && log[k].Minted? && log[k].mint.identity.Some?
    ensures exists root: nat, c: nat, o: nat :: Grounded(Run(s, reqs).log, k, root, c, o)
  {
    RunKeeps(s, reqs);
    MintHasCode(Run(s, reqs).log, k, Run(s, reqs).db.identities);
  }

  /** A refresh record saved in any run carries exactly what the mint that saved it carried. */
  lemma RecordProvenance(s: State, reqs: seq<Request>, token: Uuid)
    requires IsInitial(s) && token in Run(s, reqs).db.refresh
    ensures var s' := Run(s, reqs);
            exists k: nat :: k < |s'.log| && s'.log[k].Minted? && RecordOf(s'.log[k].mint, token, s'.db.refresh[token])
  {
    RunKeeps(s, reqs);
    var s' := Run(s, reqs);
    var f :| f in s'.log && f.Minted? && RecordOf(f.mint, token, s'.db.refresh[token]);
    var k :| 0 <= k < |s'.log| && s'.log[k] == f;
  }

  /** Every rotated token has a predecessor whose login it repeats and whose scopes it narrows. */
  lemma RotationNarrows(s: State, reqs: seq<Request>, k: nat)
    requires IsInitial(s)
    requires var log := Run(s, reqs).log; k < |log| && log[k].Minted? && log[k].mint.source.FromRefresh?
    ensures var log := Run(s, reqs).log;
            exists j: nat :: j < k && log[j].Minted? && log[j].mint.saved == Some(log[k].mint.source.token)
                             && FromPredecessor(log[k].mint, log[j].mint)
  {
    RunKeeps(s, reqs);
    var log := Run(s, reqs).log;
    SoundAt(log, k);
    var m := log[k].mint;
    var f :| f in log[..k] && f.Minted? && f.mint.saved == Some(m.source.token) && FromPredecessor(m, f.mint);
    var j :| 0 <= j < k && log[j] == f;
  }
}
