/**
 Who gets in at the login page. Each answer is told in terms of the columns it
 depends on: the client row, the identity row, the factor rows and the entries of
 the challenge. And the password behind every token is one that was presented and
 stored at that moment.
 */
module Logins {
  import opened Wrappers
  import opened Redis
  import opened Credentials
  import History
  import Provenance
  import Scopes
  import SecondFactors

  // ── Columns ──────────────────────────────────────────────────────────────

  ghost predicate IsActiveClient(s: State, tenant: Uuid, name: string) {
    (tenant, name) in s.db.clients && s.db.clients[(tenant, name)].active
  }

  /** The identity is stored in the pool and active. */
  ghost predicate Stands(s: State, pool: Uuid, identity: Uuid) {
    && identity in s.db.identities && s.db.identities[identity].pool == pool
    && s.db.identities[identity].standing == Active
  }

  ghost predicate KnowsPassword(s: State, pool: Uuid, identity: Uuid, password: string) {
    Stands(s, pool, identity) && s.db.identities[identity].password == Some(password)
  }

  ghost predicate HasFactor(s: State, identity: Uuid) {
    identity in s.db.factors.enrolments && s.db.factors.enrolments[identity].verified
  }

  // ── The password ─────────────────────────────────────────────────────────

  ghost predicate MayLogIn(s: State, tenant: Uuid, name: string, identity: Uuid, password: string) {
    IsActiveClient(s, tenant, name) && KnowsPassword(s, s.db.clients[(tenant, name)].pool, identity, password)
  }

  ghost function EpochAt(s: State, tenant: Uuid, identity: Uuid): nat {
    if (tenant, identity) in s.cache.epochs && s.now < s.cache.epochs[(tenant, identity)].expiry
    then s.cache.epochs[(tenant, identity)].value else 0
  }

  /** Twice the cookie lifetime, or a day if that is longer. */
  ghost function EpochLifetime(cfg: Config): nat {
    if 2 * cfg.cookieLifetime < 86400 then 86400 else 2 * cfg.cookieLifetime
  }

  /**
   A session of this identity is stored under `sso`, for the cookie's lifetime; a running
   epoch counter is kept alive; and no other session or counter changes.
   */
  ghost predicate Opened(s: State, s': State, sso: Uuid, tenant: Uuid, pool: Uuid, identity: Uuid, amr: seq<string>,
                         cfg: Config)
  {
    && sso == s.nextId && s'.nextId == s.nextId + 1
    && s'.cache.sessions == s.cache.sessions[
         sso := Entry(Session(tenant, pool, identity, amr, EpochAt(s, tenant, identity), s.now),
                      s.now + cfg.cookieLifetime)]
    && var k := (tenant, identity);
       s'.cache.epochs == if k in s.cache.epochs && s.now < s.cache.epochs[k].expiry
                          then s.cache.epochs[k := s.cache.epochs[k].(expiry := s.now + EpochLifetime(cfg))]
                          else s.cache.epochs
  }

  /** A challenge of this purpose was signed for the identity, and no other. */
  ghost predicate Challenged(s: State, s': State, jti: Uuid, tenant: Uuid, pool: Uuid, identity: Uuid,
                             purpose: Purpose, origin: Option<Uuid>, cfg: Config)
  {
    && jti == s.nextId && s'.nextId == s.nextId + 1
    && s'.challenges == s.challenges[
         jti := Challenge(jti, tenant, pool, identity, purpose, s.now, s.now + cfg.mfaLifetime, origin)]
    && s'.cache.sessions == s.cache.sessions
  }

  /**
   A login succeeds if and only if the client is active and the identity is stored in
   its pool, active, with exactly the presented password. It opens a session exactly
   when no second factor is verified, and otherwise asks for one.
   */
  lemma LoginExactly(s: State, tenant: Uuid, name: string, identity: Uuid, password: string, cfg: Config)
    ensures var (s', outcome) := Handle(s, DoLogin(tenant, name, identity, password, cfg));
            && s'.db == s.db && s'.now == s.now
            && (outcome.LoggedIn? <==> MayLogIn(s, tenant, name, identity, password) && !HasFactor(s, identity))
            && (outcome.MfaRequired? <==> MayLogIn(s, tenant, name, identity, password) && HasFactor(s, identity))
            && (outcome.LoggedIn? ==>
                  var pool := s.db.clients[(tenant, name)].pool;
                  Opened(s, s', outcome.sso, tenant, pool, identity, ["pwd"], cfg) && s'.challenges == s.challenges)
            && (outcome.MfaRequired? ==>
                  var pool := s.db.clients[(tenant, name)].pool;
                  Challenged(s, s', outcome.jti, tenant, pool, identity, ForLogin, None, cfg))
            && (!outcome.LoggedIn? && !outcome.MfaRequired? ==>
                  && s' == s
                  && outcome == Refused(if IsActiveClient(s, tenant, name) then InvalidCredentials else ClientRejected))
  {
  }

  /** The request `i` presented the password that its state had stored for this identity. */
  ghost predicate Presented(s: State, reqs: seq<Request>, i: nat, q: nat) {
    && History.ToldBy(s, reqs, i, q) && Run(s, reqs).log[q].PasswordChecked? && reqs[i].DoLogin?
    && var f, met := Run(s, reqs).log[q], Run(s, reqs[..i]);
       && reqs[i].tenant == f.tenant && reqs[i].identity == f.identity && met.now == f.at
       && IsActiveClient(met, f.tenant, reqs[i].client) && met.db.clients[(f.tenant, reqs[i].client)].pool == f.pool
       && KnowsPassword(met, f.pool, f.identity, reqs[i].password)
  }

  lemma CheckedMeans(s: State, req: Request, q: nat)
    requires req.DoLogin? && |s.log| <= q < |Handle(s, req).0.log| && Handle(s, req).0.log[q].PasswordChecked?
    ensures IsActiveClient(s, req.tenant, req.client)
    ensures var pool := s.db.clients[(req.tenant, req.client)].pool;
            && Handle(s, req).0.log[q] == PasswordChecked(req.tenant, pool, req.identity, s.now)
            && KnowsPassword(s, pool, req.identity, req.password)
  {
  }

  /** Whoever is behind a password check presented the password then stored. */
  lemma PasswordWasPresented(s: State, reqs: seq<Request>, q: nat) returns (i: nat)
    requires IsInitial(s) && q < |Run(s, reqs).log| && Run(s, reqs).log[q].PasswordChecked?
    ensures Presented(s, reqs, i, q)
  {
    hide Handle;
    i := History.Trace(s, reqs, q);
    var met := Run(s, reqs[..i]);
    assert History.Told(Handle(met, reqs[i]).0.log[q], reqs[i]);
    CheckedMeans(met, reqs[i], q);
  }

  /**
   In every run, behind every token of an identity there is a login request that
   presented the identity's stored password at an active client of its pool.
   */
  lemma TokensRestOnAPassword(s: State, reqs: seq<Request>, k: nat)
    requires IsInitial(s)
    requires var log := Run(s, reqs).log;
             k < |log| && log[k].Minted? && log[k].mint.identity.Some?
    ensures exists i: nat, q: nat ::
              && q < k && Presented(s, reqs, i, q)
              && Some(reqs[i].identity) == Run(s, reqs).log[k].mint.identity
              && reqs[i].tenant == Run(s, reqs).log[k].mint.tenant
  {
    hide Run, Provenance.ChallengeBehind, Scopes.Subsequence, Presented;
    Provenance.TokenProvenance(s, reqs, k);
    var log := Run(s, reqs).log;
    var root: nat, c: nat, o: nat :| Provenance.Grounded(log, k, root, c, o);
    var f :| f in log[..o] && f.PasswordChecked? && f.tenant == log[o].session.tenant
             && f.identity == log[o].session.identity;
    var q :| 0 <= q < o && log[q] == f;
    var i := PasswordWasPresented(s, reqs, q);
    PresentedNames(s, reqs, i, q);
  }

  lemma PresentedNames(s: State, reqs: seq<Request>, i: nat, q: nat)
    requires Presented(s, reqs, i, q)
    ensures i < |reqs| && reqs[i].DoLogin? && q < |Run(s, reqs).log| && Run(s, reqs).log[q].PasswordChecked?
    ensures reqs[i].identity == Run(s, reqs).log[q].identity && reqs[i].tenant == Run(s, reqs).log[q].tenant
  {
  }

  // ── The second factor ────────────────────────────────────────────────────

  /** The step is the earliest of the window that the identity's secret shows the code in, and later than any used. */
  ghost predicate FitsStep(s: State, identity: Uuid, code: string, cfg: Config, k: int)
    requires identity in s.db.factors.enrolments
  {
    var e := s.db.factors.enrolments[identity];
    && 0 <= k && 30 * (k - 1) <= s.now < 30 * (k + 2) && cfg.shows(e.secret)(k) == code
    && (forall j :: 0 <= j < k && 30 * (j - 1) <= s.now < 30 * (j + 2) ==> cfg.shows(e.secret)(j) != code)
    && (e.lastUsed.Some? ==> e.lastUsed.value < k)
  }

  ghost predicate IsUnusedRow(s: State, identity: Uuid, code: string, cfg: Config, r: Uuid) {
    && r in s.db.factors.backups && s.db.factors.backups[r].owner == identity
    && s.db.factors.backups[r].hash == cfg.backupHash(code) && !s.db.factors.backups[r].used
  }

  /** The identity's factor accepts the code: a new step of the window, or an unused backup row. */
  ghost predicate CodeFits(s: State, identity: Uuid, option: MfaOption, code: string, cfg: Config) {
    match option
    case Totp => HasFactor(s, identity) && exists k :: FitsStep(s, identity, code, cfg, k)
    case BackupCode => exists r :: IsUnusedRow(s, identity, code, cfg, r)
    case _ => false
  }

  /** What the factor store keeps of an accepted code: the step, or that the rows are used. */
  ghost predicate Spends(s: State, st: SecondFactors.Store, identity: Uuid, option: MfaOption, code: string,
                         cfg: Config)
  {
    match option
    case Totp =>
      && st.backups == s.db.factors.backups && identity in s.db.factors.enrolments
      && exists k :: FitsStep(s, identity, code, cfg, k)
                     && st.enrolments == s.db.factors.enrolments[
                          identity := s.db.factors.enrolments[identity].(lastUsed := Some(k))]
    case _ =>
      && st.enrolments == s.db.factors.enrolments && st.backups.Keys == s.db.factors.backups.Keys
      && forall r :: r in st.backups ==>
           st.backups[r] == s.db.factors.backups[r].(used := s.db.factors.backups[r].used
                                                             || IsUnusedRow(s, identity, code, cfg, r))
  }

  lemma VerifiedExactly(s: State, identity: Uuid, option: MfaOption, code: string, cfg: Config)
    ensures var verdict := VerifyFactor(s.db.factors, identity, option, code, s.now, cfg);
            && (verdict.Success? <==> CodeFits(s, identity, option, code, cfg))
            && (verdict.Success? ==> Spends(s, verdict.value.store, identity, option, code, cfg))
            && (verdict.Failure? ==>
                  verdict.error == (match option
                                    case Totp => if HasFactor(s, identity) then InvalidMfaCode else MfaNotEnrolled
                                    case BackupCode => InvalidMfaCode
                                    case _ => Validation))
  {
    var st := s.db.factors;
    match option
    case Totp =>
      if HasFactor(s, identity) {
        ClaimedExactly(s, identity, code, cfg);
      }
      hide ClaimCode;
    case BackupCode =>
      var rows := SecondFactors.Redeemable(st, identity, cfg.backupHash(code));
      assert forall r :: r in rows <==> IsUnusedRow(s, identity, code, cfg, r);
      if rows != {} {
        var r :| r in rows;
        assert IsUnusedRow(s, identity, code, cfg, r);
      }
    case _ =>
  }

  /** An enrolment's step is claimed exactly for a code that fits. */
  lemma ClaimedExactly(s: State, owner: Uuid, code: string, cfg: Config)
    requires owner in s.db.factors.enrolments
    ensures var st, e := s.db.factors, s.db.factors.enrolments[owner];
            var claim := ClaimCode(st, owner, e, code, s.now, cfg);
            && (claim.Success? <==> exists k :: FitsStep(s, owner, code, cfg, k))
            && (claim.Success? ==>
                  exists k :: && FitsStep(s, owner, code, cfg, k)
                              && claim.value.store
                                 == st.(enrolments := st.enrolments[owner := e.(lastUsed := Some(k))]))
            && (claim.Failure? ==> claim.error == InvalidMfaCode)
  {
    var e := s.db.factors.enrolments[owner];
    var shows := cfg.shows(e.secret);
    SecondFactors.MatchIsEarliest(shows, code, s.now);
    var step := SecondFactors.MatchStep(shows, code, s.now);
    hide SecondFactors.MatchStep;
    forall k | FitsStep(s, owner, code, cfg, k) ensures step == Some(k) {
      assert SecondFactors.InWindow(k, s.now);
      if step.Some? {
        assert SecondFactors.InWindow(step.value, s.now);
      }
    }
    if step.Some? && SecondFactors.CanClaim(s.db.factors, owner, e.id, step.value) {
      forall j | 0 <= j < step.value && 30 * (j - 1) <= s.now < 30 * (j + 2) ensures shows(j) != code {
        assert SecondFactors.InWindow(j, s.now);
      }
      assert FitsStep(s, owner, code, cfg, step.value);
    }
  }

  // ── The challenge ────────────────────────────────────────────────────────

  /** The challenge was signed, for this tenant and purpose, still verifies and has not been consumed. */
  ghost predicate IsHeard(s: State, tenant: Uuid, expectedPool: Option<Uuid>, jti: Uuid, purpose: Purpose, cfg: Config)
  {
    && jti in s.challenges
    && var c := s.challenges[jti];
       && c.tenant == tenant && c.purpose == purpose && s.now < c.exp + cfg.jwtSlack
       && (expectedPool.Some? ==> c.pool == expectedPool.value)
       && (jti in s.cache.spent ==> s.cache.spent[jti].expiry <= s.now)
  }

  /** What the counter of `k` stands at. */
  ghost function Tally(m: map<Uuid, Entry<nat>>, k: Uuid, now: Time): nat {
    if k in m && now < m[k].expiry then m[k].value else 0
  }

  /** One more, and a new deadline only for a counter that this attempt starts. */
  ghost predicate CountedOnce(m: map<Uuid, Entry<nat>>, m': map<Uuid, Entry<nat>>, k: Uuid, now: Time, ttl: nat) {
    var n := Tally(m, k, now);
    m' == m[k := Entry(n + 1, if n == 0 then now + ttl else m[k].expiry)]
  }

  ghost predicate MayConsume(s: State, tenant: Uuid, expectedPool: Option<Uuid>, jti: Uuid, option: MfaOption,
                             code: string, purpose: Purpose, cfg: Config)
  {
    && IsHeard(s, tenant, expectedPool, jti, purpose, cfg)
    && Tally(s.cache.attempts, jti, s.now) < cfg.mfaMaxAttempts
    && Stands(s, s.challenges[jti].pool, s.challenges[jti].identity)
    && CodeFits(s, s.challenges[jti].identity, option, code, cfg)
  }

  /** The error of a heard attempt that does not get through. */
  ghost predicate Fails(s: State, jti: Uuid, option: MfaOption, code: string, cfg: Config, e: Error)
    requires jti in s.challenges
  {
    var c := s.challenges[jti];
    var stored := c.identity in s.db.identities && s.db.identities[c.identity].pool == c.pool
                  && !s.db.identities[c.identity].standing.Deleted?;
    if cfg.mfaMaxAttempts <= Tally(s.cache.attempts, jti, s.now) then e == TooManyAttempts
    else if !stored then e == NotFound
    else if !Stands(s, c.pool, c.identity) then e == Forbidden
    else
      match option
      case Totp => e == if HasFactor(s, c.identity) then InvalidMfaCode else MfaNotEnrolled
      case BackupCode => e == InvalidMfaCode
      case _ => e == Validation
  }

  /** The two states agree on everything but attempts, markers, factors and history. */
  ghost predicate OnlyChallenge(s: State, s': State) {
    s' == s.(cache := s.cache.(attempts := s'.cache.attempts, spent := s'.cache.spent),
             db := s.db.(factors := s'.db.factors), log := s'.log)
  }

  lemma ScreenedExactly(s: State, tenant: Uuid, expectedPool: Option<Uuid>, jti: Uuid, option: MfaOption,
                        purpose: Purpose, cfg: Config)
    ensures var screening := Screen(s, tenant, expectedPool, jti, option, purpose, cfg);
            && (screening.Unheard? <==> !IsHeard(s, tenant, expectedPool, jti, purpose, cfg))
            && (screening.Unheard? ==> screening.error == InvalidMfaToken)
            && (screening.Admitted? <==>
                  && IsHeard(s, tenant, expectedPool, jti, purpose, cfg)
                  && Tally(s.cache.attempts, jti, s.now) < cfg.mfaMaxAttempts
                  && Stands(s, s.challenges[jti].pool, s.challenges[jti].identity)
                  && (option.Totp? || option.BackupCode?))
            && (screening.Admitted? ==> screening.challenge == s.challenges[jti])
            && (screening.Counted? ==> Fails(s, jti, option, "", cfg, screening.error))
  {
  }

  lemma CountedExactly(s: State, jti: Uuid, cfg: Config)
    ensures CountedOnce(s.cache.attempts, CountAttempt(s, jti, cfg).cache.attempts, jti, s.now, cfg.mfaLifetime)
  {
  }

  /**
   A challenge is consumed if and only if it is heard, its attempts stand below the
   limit, its identity is stored in its pool and active, and that identity's factor
   accepts the code. Every heard attempt counts; only a consumed one marks the
   challenge and changes the factor.
   */
  lemma ConsumedExactly(s: State, tenant: Uuid, expectedPool: Option<Uuid>, jti: Uuid, option: MfaOption,
                        code: string, purpose: Purpose, cfg: Config)
    ensures var (s', r) := ConsumeChallenge(s, tenant, expectedPool, jti, option, code, purpose, cfg);
            var heard := IsHeard(s, tenant, expectedPool, jti, purpose, cfg);
            && OnlyChallenge(s, s')
            && (r.Success? <==> MayConsume(s, tenant, expectedPool, jti, option, code, purpose, cfg))
            && (!heard ==> s' == s && r == Failure(InvalidMfaToken))
            && (heard ==> CountedOnce(s.cache.attempts, s'.cache.attempts, jti, s.now, cfg.mfaLifetime))
            && (heard && r.Failure? ==> Fails(s, jti, option, code, cfg, r.error))
            && (r.Failure? ==> s'.cache.spent == s.cache.spent && s'.db.factors == s.db.factors)
            && (r.Success? ==>
                  && r.value == s.challenges[jti]
                  && s'.cache.spent == s.cache.spent[r.value.jti := Entry(true, s.now + cfg.mfaLifetime)]
                  && Spends(s, s'.db.factors, r.value.identity, option, code, cfg))
  {
    ScreenedExactly(s, tenant, expectedPool, jti, option, purpose, cfg);
    CountedExactly(s, jti, cfg);
    if jti in s.challenges {
      VerifiedExactly(s, s.challenges[jti].identity, option, code, cfg);
    }
    hide Screen, VerifyFactor, IsHeard, CountedOnce, Tally, CodeFits, Spends, Stands, HasFactor;
  }

  ghost predicate MayLogInWithFactor(s: State, tenant: Uuid, name: string, jti: Uuid, option: MfaOption, code: string,
                                     cfg: Config)
  {
    && IsActiveClient(s, tenant, name)
    && MayConsume(s, tenant, Some(s.db.clients[(tenant, name)].pool), jti, option, code, ForLogin, cfg)
  }

  /**
   The second step of a login succeeds if and only if the client is active and a login
   challenge of its pool is consumed; the session names the password, the code and
   both factors.
   */
  lemma MfaLoginExactly(s: State, tenant: Uuid, name: string, jti: Uuid, option: MfaOption, code: string, cfg: Config)
    ensures var (s', outcome) := Handle(s, DoLoginMfa(tenant, name, jti, option, code, cfg));
            && s'.db.identities == s.db.identities && s'.db.clients == s.db.clients && s'.db.refresh == s.db.refresh
            && s'.challenges == s.challenges && s'.now == s.now
            && (outcome.LoggedIn? <==> MayLogInWithFactor(s, tenant, name, jti, option, code, cfg))
            && (outcome.LoggedIn? ==>
                  var c := s.challenges[jti];
                  && Opened(s, s', outcome.sso, tenant, c.pool, c.identity, ["pwd", "otp", "mfa"], cfg)
                  && s'.cache.spent == s.cache.spent[c.jti := Entry(true, s.now + cfg.mfaLifetime)]
                  && Spends(s, s'.db.factors, c.identity, option, code, cfg))
            && (IsActiveClient(s, tenant, name) ==>
                  if IsHeard(s, tenant, Some(s.db.clients[(tenant, name)].pool), jti, ForLogin, cfg)
                  then CountedOnce(s.cache.attempts, s'.cache.attempts, jti, s.now, cfg.mfaLifetime)
                  else s' == s && outcome == Refused(InvalidMfaToken))
            && (!outcome.LoggedIn? ==>
                  && outcome.Refused? && s'.cache.sessions == s.cache.sessions && s'.nextId == s.nextId
                  && s'.cache.spent == s.cache.spent && s'.db.factors == s.db.factors
                  && (!IsActiveClient(s, tenant, name) ==> outcome.error == ClientRejected && s' == s))
  {
    hide ConsumeChallenge, CountedOnce, CodeFits, Spends, Stands, IsHeard, Tally;
    if IsActiveClient(s, tenant, name) {
      var pool := s.db.clients[(tenant, name)].pool;
      ConsumedExactly(s, tenant, Some(pool), jti, option, code, ForLogin, cfg);
      var (s1, consumed) := ConsumeChallenge(s, tenant, Some(pool), jti, option, code, ForLogin, cfg);
      if consumed.Failure? {
        assert s1.cache.spent == s.cache.spent && s1.db.factors == s.db.factors;
        assert Handle(s, DoLoginMfa(tenant, name, jti, option, code, cfg)).0 == s1;
      }
      HeardPool(s, tenant, pool, jti, cfg);
      FitsAreOtp(s, option, code, cfg);
    }
  }

  lemma HeardPool(s: State, tenant: Uuid, pool: Uuid, jti: Uuid, cfg: Config)
    ensures IsHeard(s, tenant, Some(pool), jti, ForLogin, cfg) ==> jti in s.challenges && s.challenges[jti].pool == pool
  {
  }

  lemma FitsAreOtp(s: State, option: MfaOption, code: string, cfg: Config)
    ensures forall i :: CodeFits(s, i, option, code, cfg) ==> AmrFor(option) == "otp"
  {
  }
}
