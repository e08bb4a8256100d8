/**
 Single use of codes and refresh tokens, and the refresh-token families that
 rotation builds (sections 4.1.2 and 10.4 of RFC 6749, section 4.14.2 of RFC 9700).
 */
module Rotation {
  import opened Wrappers
  import opened Redis
  import opened Credentials
  import Provenance
  import Scopes

  /** Two facts that may not both occur: an identifier issued twice, a credential redeemed
      twice, or a family started twice. */
  ghost predicate Clash(f: Fact, g: Fact) {
    || (f.SessionOpened? && g.SessionOpened? && f.sso == g.sso)
    || (f.CodeIssued? && g.CodeIssued? && f.code == g.code)
    || (f.Minted? && g.Minted? && MintClash(f.mint, g.mint))
  }

  ghost predicate MintClash(m: Mint, n: Mint) {
    || (m.source.FromCode? && n.source.FromCode? && m.source.code == n.source.code)
    || (m.source.FromRefresh? && n.source.FromRefresh? && m.source.token == n.source.token)
    || (m.saved.Some? && m.saved == n.saved)
    || (!m.source.FromRefresh? && !n.source.FromRefresh? && m.family == n.family)
  }

  ghost predicate Distinct(log: seq<Fact>) {
    forall i, j :: 0 <= i < j < |log| ==> !Clash(log[i], log[j])
  }

  /** Every identifier a fact mentions was drawn before `next`. */
  ghost predicate FactBelow(f: Fact, next: Uuid) {
    match f
    case SessionOpened(sso, _) => sso < next
    case CodeIssued(code, _, _) => code < next
    case Minted(m) => m.family < next && (m.saved.Some? ==> m.saved.value < next)
    case _ => true
  }

  ghost predicate LogBelow(log: seq<Fact>, next: Uuid) {
    forall f :: f in log ==> FactBelow(f, next)
  }

  ghost predicate StoresBelow(codes: map<Uuid, Entry<CodeContext>>, records: map<Uuid, RefreshRecord>, next: Uuid) {
    && (forall c :: c in codes ==> c < next)
    && (forall t :: t in records ==> t < next && records[t].family < next)
  }

  /** The token has been issued and its record, if still stored, is revoked. */
  ghost predicate IsRevoked(records: map<Uuid, RefreshRecord>, token: Uuid, next: Uuid) {
    token < next && (token in records ==> records[token].revoked)
  }

  /** A redeemed code is gone and a redeemed refresh token is revoked or gone. */
  ghost predicate Consumed(f: Fact, codes: map<Uuid, Entry<CodeContext>>, records: map<Uuid, RefreshRecord>,
                           next: Uuid)
  {
    f.Minted? ==>
      && (f.mint.source.FromCode? ==> f.mint.source.code !in codes && f.mint.source.code < next)
      && (f.mint.source.FromRefresh? ==> IsRevoked(records, f.mint.source.token, next))
  }

  ghost predicate LogConsumed(log: seq<Fact>, codes: map<Uuid, Entry<CodeContext>>,
                              records: map<Uuid, RefreshRecord>, next: Uuid)
  {
    forall f :: f in log ==> Consumed(f, codes, records, next)
  }

  ghost predicate IsLiveIn(records: map<Uuid, RefreshRecord>, token: Uuid, family: Uuid) {
    token in records && records[token].family == family && !records[token].revoked
  }

  /** Every family has at most one unrevoked token. */
  ghost predicate AtMostOneLive(records: map<Uuid, RefreshRecord>) {
    forall t, u, f :: IsLiveIn(records, t, f) && IsLiveIn(records, u, f) ==> t == u
  }

  ghost predicate FamilyDead(records: map<Uuid, RefreshRecord>, family: Uuid) {
    forall t :: !IsLiveIn(records, t, family)
  }

  ghost predicate Inv(s: State) {
    && Distinct(s.log) && LogBelow(s.log, s.nextId)
    && StoresBelow(s.cache.codes, s.db.refresh, s.nextId)
    && LogConsumed(s.log, s.cache.codes, s.db.refresh, s.nextId)
    && AtMostOneLive(s.db.refresh)
  }

  // ── Each effect keeps the invariant ──────────────────────────────────────

  lemma DistinctAppend(log: seq<Fact>, fact: Fact)
    requires Distinct(log) && forall f :: f in log ==> !Clash(f, fact)
    ensures Distinct(log + [fact])
  {
  }

  /** A fact that draws its identifier from the counter, or draws none, clashes with nothing earlier. */
  lemma RecordKeeps(s: State, fact: Fact, next: Uuid)
    requires Inv(s) && s.nextId <= next
    requires match fact
             case SessionOpened(sso, _) => sso == s.nextId < next
             case CodeIssued(code, _, _) => code == s.nextId < next
             case Minted(_) => false
             case _ => true
    ensures Distinct(s.log + [fact]) && LogBelow(s.log + [fact], next)
    ensures LogConsumed(s.log + [fact], s.cache.codes, s.db.refresh, next)
  {
    DistinctAppend(s.log, fact);
  }

  lemma RevokeKeeps(s: State, sel: Selection)
    requires Inv(s)
    ensures Inv(s.(db := s.db.(refresh := Revoke(s.db.refresh, sel))))
  {
    var records := Revoke(s.db.refresh, sel);
    forall t, u, f | IsLiveIn(records, t, f) && IsLiveIn(records, u, f)
      ensures t == u
    {
      assert IsLiveIn(s.db.refresh, t, f) && IsLiveIn(s.db.refresh, u, f);
    }
  }

  /** Minting keeps the invariant when its source has just been consumed and its family has nothing live. */
  lemma MintKeeps(s: State, tenant: Uuid, platform: bool, client: Client, grant: Grant, signs: bool)
    requires Inv(s)
    requires forall f :: f in s.log && f.Minted? ==>
               && (f.mint.source.FromCode? && grant.source.FromCode? ==> f.mint.source.code != grant.source.code)
               && (f.mint.source.FromRefresh? && grant.source.FromRefresh? ==>
                     f.mint.source.token != grant.source.token)
    requires grant.source.FromCode? ==> grant.source.code !in s.cache.codes && grant.source.code < s.nextId
    requires grant.source.FromRefresh? ==> IsRevoked(s.db.refresh, grant.source.token, s.nextId)
    requires grant.family.Some? <==> grant.source.FromRefresh?
    requires grant.family.Some? ==> grant.family.value < s.nextId && FamilyDead(s.db.refresh, grant.family.value)
    ensures Inv(MintTokens(s, tenant, platform, client, grant, signs).0)
  {
    if signs {
      var s' := MintTokens(s, tenant, platform, client, grant, signs).0;
      var fact := s'.log[|s.log|];
      DistinctAppend(s.log, fact);
      forall t, u, f | IsLiveIn(s'.db.refresh, t, f) && IsLiveIn(s'.db.refresh, u, f)
        ensures t == u
      {
        if t != s.nextId && u != s.nextId {
          assert IsLiveIn(s.db.refresh, t, f) && IsLiveIn(s.db.refresh, u, f);
        } else if t != s.nextId {
          assert IsLiveIn(s.db.refresh, t, f);
        } else if u != s.nextId {
          assert IsLiveIn(s.db.refresh, u, f);
        }
      }
    }
  }

  lemma OpenSessionKeeps(s: State, tenant: Uuid, pool: Uuid, identity: Uuid, amr: seq<string>, cfg: Config)
    requires Inv(s)
    ensures Inv(OpenSession(s, tenant, pool, identity, amr, cfg).0)
  {
    var s' := OpenSession(s, tenant, pool, identity, amr, cfg).0;
    RecordKeeps(s, s'.log[|s.log|], s'.nextId);
  }

  lemma IssueChallengeKeeps(s: State, tenant: Uuid, pool: Uuid, identity: Uuid, purpose: Purpose,
                            origin: Option<Uuid>, cfg: Config)
    requires Inv(s)
    ensures Inv(IssueChallenge(s, tenant, pool, identity, purpose, origin, cfg).0)
  {
  }

  /** A change to the caches, factors and history that mentions no code, session or token. */
  lemma BystanderKeeps(s: State, s': State, fact: Fact)
    requires Inv(s) && s'.log == s.log + [fact] && s'.nextId == s.nextId
    requires s'.cache.codes == s.cache.codes && s'.db.refresh == s.db.refresh
    requires !fact.SessionOpened? && !fact.CodeIssued? && !fact.Minted?
    ensures Inv(s')
  {
    RecordKeeps(s, fact, s.nextId);
  }

  lemma ConsumeKeeps(s: State, tenant: Uuid, expectedPool: Option<Uuid>, jti: Uuid, option: MfaOption,
                     code: string, purpose: Purpose, cfg: Config)
    requires Inv(s)
    ensures Inv(ConsumeChallenge(s, tenant, expectedPool, jti, option, code, purpose, cfg).0)
  {
    hide Screen, VerifyFactor, Inv;
    var screening := Screen(s, tenant, expectedPool, jti, option, purpose, cfg);
    var counted := CountAttempt(s, jti, cfg);
    BystanderKeeps(s, counted, AttemptCounted(jti, s.now, s.now + cfg.mfaLifetime));
    if screening.Admitted? {
      var c := screening.challenge;
      var evaluated := Record(counted, CodeEvaluated(jti));
      BystanderKeeps(counted, evaluated, CodeEvaluated(jti));
      var verdict := VerifyFactor(s.db.factors, c.identity, option, code, s.now, cfg);
      if verdict.Success? {
        var accepted := AcceptFactor(evaluated, c.identity, verdict.value);
        BystanderKeeps(evaluated, accepted, FactorAccepted(c.identity, verdict.value.accepted));
        BystanderKeeps(accepted, SpendChallenge(accepted, c, cfg), ChallengeSpent(c, s.now, s.now + cfg.mfaLifetime));
      }
    }
  }

  lemma SetPasswordKeeps(s: State, tenant: Uuid, pool: Uuid, identity: Uuid, password: string, reset: Option<Uuid>,
                         cfg: Config)
    requires Inv(s)
    ensures Inv(SetPassword(s, tenant, pool, identity, password, reset, cfg).0)
  {
    if |password| >= 8 && FindIdentity(s, pool, identity).Some? {
      RecordKeeps(s, PasswordSet(identity, reset), s.nextId);
      RevokeKeeps(Record(s, PasswordSet(identity, reset)), Owner(tenant, identity));
    }
  }

  // ── Each request keeps the invariant ─────────────────────────────────────

  lemma LoginKeeps(s: State, tenant: Uuid, client: string, identity: Uuid, password: string, cfg: Config)
    requires Inv(s)
    ensures Inv(Login(s, tenant, client, identity, password, cfg).0)
  {
    if FindClient(s, tenant, client).Some? {
      var pool := FindClient(s, tenant, client).value.pool;
      if PasswordMatches(s, pool, identity, password) {
        var fact := PasswordChecked(tenant, pool, identity, s.now);
        RecordKeeps(s, fact, s.nextId);
        IssueChallengeKeeps(Record(s, fact), tenant, pool, identity, ForLogin, None, cfg);
        OpenSessionKeeps(Record(s, fact), tenant, pool, identity, ["pwd"], cfg);
      }
    }
  }

  lemma LoginMfaKeeps(s: State, tenant: Uuid, client: string, jti: Uuid, option: MfaOption, code: string, cfg: Config)
    requires Inv(s)
    ensures Inv(LoginMfa(s, tenant, client, jti, option, code, cfg).0)
  {
    if FindClient(s, tenant, client).Some? {
      var pool := FindClient(s, tenant, client).value.pool;
      ConsumeKeeps(s, tenant, Some(pool), jti, option, code, ForLogin, cfg);
      var (s1, consumed) := ConsumeChallenge(s, tenant, Some(pool), jti, option, code, ForLogin, cfg);
      if consumed.Success? {
        OpenSessionKeeps(s1, tenant, pool, consumed.value.identity, ["pwd", AmrFor(option), "mfa"], cfg);
      }
    }
  }

  lemma AuthorizeKeeps(s: State, tenant: Uuid, req: AuthorizeRequest, cfg: Config)
    requires Inv(s)
    ensures Inv(Authorize(s, tenant, req, cfg).0)
  {
    var (s', outcome) := Authorize(s, tenant, req, cfg);
    if outcome.Authorized? {
      RecordKeeps(s, s'.log[|s.log|], s'.nextId);
    }
  }

  lemma ClientCredentialsKeeps(s: State, tenant: Uuid, platform: bool, name: string, secret: string,
                               scope: Option<seq<string>>, signs: bool)
    requires Inv(s)
    ensures Inv(ClientCredentials(s, tenant, platform, name, secret, scope, signs).0)
  {
    if ClientCredentials(s, tenant, platform, name, secret, scope, signs).1.Tokens? {
      var client := AuthenticateClient(s, tenant, name, Some(secret)).value;
      var scopes := if scope.Some? then scope.value else client.allowedScopes;
      MintKeeps(s, tenant, platform, client, Grant(FromClient, None, scopes, None, None), signs);
    }
  }

  lemma RedeemCodeKeeps(s: State, req: TokenRequest, code: Uuid, redirectUri: Option<string>, verifier: string)
    requires Inv(s)
    ensures Inv(RedeemCode(s, req, code, redirectUri, verifier).0)
  {
    var s1 := s.(cache := s.cache.(codes := s.cache.codes - {code}));
    if IsLive(s.cache.codes, code, s.now) {
      var approved := ApproveCode(s, req, code, s.cache.codes[code].value, redirectUri, verifier);
      if approved.Success? {
        Provenance.ApprovedCodeMeans(s, req, code, s.cache.codes[code].value, redirectUri, verifier);
        MintKeeps(s1, req.tenant, req.tenantIsPlatform, approved.value.client, approved.value.grant, req.signs);
      }
    }
  }

  /** Revoking the only live token of its family leaves the family with none. */
  lemma RevokingTheLiveOne(records: map<Uuid, RefreshRecord>, token: Uuid)
    requires AtMostOneLive(records) && token in records && !records[token].revoked
    ensures FamilyDead(Revoke(records, Token(token)), records[token].family)
  {
    var family := records[token].family;
    forall t
      ensures !IsLiveIn(Revoke(records, Token(token)), t, family)
    {
      assert IsLiveIn(records, token, family);
      if IsLiveIn(Revoke(records, Token(token)), t, family) {
        assert IsLiveIn(records, t, family);
      }
    }
  }

  lemma RotateKeeps(s: State, req: TokenRequest, token: Uuid)
    requires Inv(s)
    ensures Inv(Rotate(s, req, token).0)
  {
    match Judge(s, req, token)
    case Ignore(_) =>
    case EndFamily(_) => RevokeKeeps(s, Family(s.db.refresh[token].family));
    case Retire(_) => RevokeKeeps(s, Token(token));
    case Reissue(a) =>
      Provenance.ReissueMeans(s, req, token);
      RevokeKeeps(s, Token(token));
      RevokingTheLiveOne(s.db.refresh, token);
      MintKeeps(s.(db := s.db.(refresh := Revoke(s.db.refresh, Token(token)))), req.tenant, req.tenantIsPlatform,
                a.client, a.grant, req.signs);
  }

  lemma ResetKeeps(s: State, tenant: Uuid, token: Uuid, password: string, cfg: Config)
    requires Inv(s)
    ensures Inv(Reset(s, tenant, token, password, cfg).0)
  {
    if IsLive(s.cache.resets, token, s.now) {
      var context := s.cache.resets[token].value;
      RecordKeeps(s, ResetSpent(token), s.nextId);
      var s1 := s.(cache := s.cache.(resets := s.cache.resets - {token}), log := s.log + [ResetSpent(token)]);
      IssueChallengeKeeps(s1, tenant, context.pool, context.identity, ForReset, Some(token), cfg);
      SetPasswordKeeps(s1, tenant, context.pool, context.identity, password, Some(token), cfg);
    }
  }

  lemma ResetMfaKeeps(s: State, tenant: Uuid, jti: Uuid, option: MfaOption, code: string, password: string, cfg: Config)
    requires Inv(s)
    ensures Inv(ResetMfa(s, tenant, jti, option, code, password, cfg).0)
  {
    ConsumeKeeps(s, tenant, None, jti, option, code, ForReset, cfg);
    var (s1, consumed) := ConsumeChallenge(s, tenant, None, jti, option, code, ForReset, cfg);
    if consumed.Success? {
      SetPasswordKeeps(s1, tenant, consumed.value.pool, consumed.value.identity, password, consumed.value.origin, cfg);
    }
  }

  lemma ChangePasswordKeeps(s: State, tenant: Uuid, pool: Uuid, identity: Uuid, current: string, password: string,
                            mfa: Option<SecondFactor>, cfg: Config)
    requires Inv(s)
    ensures Inv(ChangePassword(s, tenant, pool, identity, current, password, mfa, cfg).0)
  {
    var counted := CountSelfAttempt(s, identity, cfg);
    var evaluated := EvaluateSelf(s, identity, cfg);
    BystanderKeeps(s, counted, SelfCounted(identity, s.now));
    BystanderKeeps(counted, evaluated, SelfEvaluated(identity));
    hide SetPassword, VerifyFactor, Inv;
    SetPasswordKeeps(s, tenant, pool, identity, password, None, cfg);
    if mfa.Some? {
      var verdict := VerifyFactor(s.db.factors, identity, mfa.value.option, mfa.value.code, s.now, cfg);
      if verdict.Success? {
        var accepted := AcceptFactor(evaluated, identity, verdict.value);
        BystanderKeeps(evaluated, accepted, FactorAccepted(identity, verdict.value.accepted));
        SetPasswordKeeps(accepted, tenant, pool, identity, password, None, cfg);
      }
    }
  }

  lemma ManageFactorKeeps(s: State, owner: Uuid, op: FactorOp, cfg: Config)
    requires Inv(s)
    ensures Inv(ManageFactor(s, owner, op, cfg).0)
  {
    hide ClaimCode;
    var (s', outcome) := ManageFactor(s, owner, op, cfg);
    if op.ConfirmEnrolment? && outcome.Done? {
      BystanderKeeps(s, s', s'.log[|s.log|]);
    }
  }

  lemma PruneKeeps(s: State)
    requires Inv(s)
    ensures Inv(s.(db := s.db.(refresh := Pruned(s.db.refresh, s.now))))
  {
    var records := Pruned(s.db.refresh, s.now);
    forall t, u, f | IsLiveIn(records, t, f) && IsLiveIn(records, u, f)
      ensures t == u
    {
      assert IsLiveIn(s.db.refresh, t, f) && IsLiveIn(s.db.refresh, u, f);
    }
  }

  lemma StepKeeps(s: State, req: Request)
    requires Inv(s)
    ensures Inv(Handle(s, req).0)
  {
    hide Login, LoginMfa, Authorize, ClientCredentials, RedeemCode, Rotate, ChangePassword, Reset, ResetMfa,
      ManageFactor, Inv;
    match req
    case DoLogin(tenant, client, identity, password, cfg) => LoginKeeps(s, tenant, client, identity, password, cfg);
    case DoLoginMfa(tenant, client, jti, option, code, cfg) =>
      LoginMfaKeeps(s, tenant, client, jti, option, code, cfg);
    case DoAuthorize(tenant, authorize, cfg) => AuthorizeKeeps(s, tenant, authorize, cfg);
    case DoClientCredentials(tenant, platform, client, secret, scope, signs) =>
      ClientCredentialsKeeps(s, tenant, platform, client, secret, scope, signs);
    case DoRedeemCode(token, code, redirectUri, verifier) => RedeemCodeKeeps(s, token, code, redirectUri, verifier);
    case DoRotate(token, refreshToken) => RotateKeeps(s, token, refreshToken);
    case DoChangePassword(tenant, pool, identity, password, newPassword, mfa, cfg) =>
      ChangePasswordKeeps(s, tenant, pool, identity, password, newPassword, mfa, cfg);
    case DoReset(tenant, reset, newPassword, cfg) => ResetKeeps(s, tenant, reset, newPassword, cfg);
    case DoResetMfa(tenant, jti, option, code, newPassword, cfg) =>
      ResetMfaKeeps(s, tenant, jti, option, code, newPassword, cfg);
    case DoManageFactor(identity, op, cfg) => ManageFactorKeeps(s, identity, op, cfg);
    case _ => SilentKeeps(s, req);
  }

  /** The requests that record nothing. */
  lemma SilentKeeps(s: State, req: Request)
    requires Inv(s)
    requires req.Wait? || req.Administer? || req.DoRequestReset? || req.DoRevokeSessions? || req.Prune?
    ensures Inv(Handle(s, req).0)
  {
    if req.DoRevokeSessions? {
      RevokeKeeps(s, Owner(req.tenant, req.identity));
    } else if req.Prune? {
      PruneKeeps(s);
    }
  }

  lemma {:induction false} RunKeeps(s: State, reqs: seq<Request>)
    requires Inv(s)
    ensures Inv(Run(s, reqs))
    decreases reqs
  {
    if reqs != [] {
      StepKeeps(s, reqs[0]);
      RunKeeps(Handle(s, reqs[0]).0, reqs[1..]);
    }
  }

  // ── Families ─────────────────────────────────────────────────────────────

  /** In every reachable state every family has at most one unrevoked token. */
  lemma FamiliesHaveOneLiveToken(s: State, reqs: seq<Request>)
    requires IsInitial(s)
    ensures AtMostOneLive(Run(s, reqs).db.refresh)
  {
    RunKeeps(s, reqs);
  }

  /** Presenting a revoked member, or presenting one at the wrong client, leaves its family with none. */
  lemma ReuseEndsFamily(s: State, req: TokenRequest, token: Uuid)
    requires token in s.db.refresh && s.db.refresh[token].tenant == req.tenant
    requires var found := AuthenticateClient(s, req.tenant, req.client, req.secret);
             found.Some? && (s.db.refresh[token].revoked || s.db.refresh[token].client != found.value.id)
    ensures Rotate(s, req, token).1 == Refused(InvalidCredentials)
    ensures FamilyDead(Rotate(s, req, token).0.db.refresh, s.db.refresh[token].family)
  {
  }

  /** A token whose row the pruning job has deleted is unknown: its reuse is refused and changes nothing. */
  lemma PrunedReuseIsIgnored(s: State, req: TokenRequest, token: Uuid)
    requires token !in s.db.refresh
    ensures Rotate(s, req, token) == (s, Refused(InvalidCredentials))
  {
  }

  /**
   So reuse of a revoked token ends its family exactly while its record is still
   stored, or when the family had nothing live anyway.
   */
  lemma ReuseOnce(s: State, req: TokenRequest, token: Uuid, family: Uuid)
    requires token in s.db.refresh ==>
               var record := s.db.refresh[token];
               record.revoked && record.family == family && record.tenant == req.tenant
    requires AuthenticateClient(s, req.tenant, req.client, req.secret).Some?
    ensures FamilyDead(Rotate(s, req, token).0.db.refresh, family) <==>
            token in s.db.refresh || FamilyDead(s.db.refresh, family)
  {
    if token in s.db.refresh {
      ReuseEndsFamily(s, req, token);
    } else {
      PrunedReuseIsIgnored(s, req, token);
    }
  }

  /**
   And pruning does delete it while the family lives on: a revoked token is no
   tripwire after the next run of the job.
   */
  lemma PruningSparesTheFamily(s: State, token: Uuid, sibling: Uuid, family: Uuid)
    requires token in s.db.refresh && s.db.refresh[token].revoked && s.db.refresh[token].family == family
    requires IsLiveIn(s.db.refresh, sibling, family) && s.now <= s.db.refresh[sibling].expiresAt
    ensures var s' := Handle(s, Prune).0; token !in s'.db.refresh && IsLiveIn(s'.db.refresh, sibling, family)
  {
  }

  // ── How the refresh table evolves ────────────────────────────────────────

  /**
   A row may be revoked or deleted but is never un-revoked, and nothing else of it
   changes; a new row has a new token, and either starts a family of its own or joins
   one that had a live token.
   */
  ghost predicate Evolves(before: map<Uuid, RefreshRecord>, after: map<Uuid, RefreshRecord>, next: Uuid) {
    && (forall t :: t in before && t in after ==>
          after[t] == before[t].(revoked := after[t].revoked) && (before[t].revoked ==> after[t].revoked))
    && (forall t :: t in after && t !in before ==>
          next <= t && (next <= after[t].family || exists u :: IsLiveIn(before, u, after[t].family)))
  }

  ghost predicate StateEvolves(s: State, s': State) {
    Evolves(s.db.refresh, s'.db.refresh, s.nextId) && s.nextId <= s'.nextId
  }

  /** Nor does any request but the pruning job delete a row. */
  ghost predicate StateGrows(s: State, s': State) {
    StateEvolves(s, s') && s.db.refresh.Keys <= s'.db.refresh.Keys
  }

  lemma MintEvolves(s: State, tenant: Uuid, platform: bool, client: Client, grant: Grant, signs: bool)
    requires s.nextId !in s.db.refresh
    requires grant.family.Some? ==> exists u :: IsLiveIn(s.db.refresh, u, grant.family.value)
    ensures StateGrows(s, MintTokens(s, tenant, platform, client, grant, signs).0)
  {
  }

  lemma RevokeEvolves(records: map<Uuid, RefreshRecord>, sel: Selection, next: Uuid)
    ensures Evolves(records, Revoke(records, sel), next)
  {
  }

  /** A mint that joins a family saves at most one row, under a new token. */
  lemma MintAdds(s: State, tenant: Uuid, platform: bool, client: Client, grant: Grant, signs: bool)
    requires grant.family.Some?
    ensures var s' := MintTokens(s, tenant, platform, client, grant, signs).0;
            && s.nextId <= s'.nextId
            && (|| s'.db.refresh == s.db.refresh
                || (&& s.nextId in s'.db.refresh && s'.db.refresh[s.nextId].family == grant.family.value
                    && s'.db.refresh == s.db.refresh[s.nextId := s'.db.refresh[s.nextId]]))
  {
    hide Scopes.Strip;
  }

  /** A row that joins a family with a live token may be added, even as that token is revoked. */
  lemma AddEvolves(before: map<Uuid, RefreshRecord>, revoked: map<Uuid, RefreshRecord>, next: Uuid, row: RefreshRecord,
                   u: Uuid)
    requires Evolves(before, revoked, next) && next !in before && IsLiveIn(before, u, row.family)
    ensures Evolves(before, revoked[next := row], next)
  {
  }

  lemma ReissueEvolves(s: State, req: TokenRequest, token: Uuid)
    requires s.nextId !in s.db.refresh && Judge(s, req, token).Reissue?
    ensures StateGrows(s, Rotate(s, req, token).0)
  {
    Provenance.ReissueMeans(s, req, token);
    var a, revoked := Judge(s, req, token).approval, Revoke(s.db.refresh, Token(token));
    assert IsLiveIn(s.db.refresh, token, a.grant.family.value);
    assert revoked.Keys == s.db.refresh.Keys;
    RevokeEvolves(s.db.refresh, Token(token), s.nextId);
    hide Judge, MintTokens, Scopes.Subsequence, Revoke, Evolves, IsLiveIn;
    MintAdds(s.(db := s.db.(refresh := revoked)), req.tenant, req.tenantIsPlatform, a.client, a.grant, req.signs);
    var s' := Rotate(s, req, token).0;
    if s.nextId in s'.db.refresh {
      AddEvolves(s.db.refresh, revoked, s.nextId, s'.db.refresh[s.nextId], token);
    }
  }

  lemma RotateEvolves(s: State, req: TokenRequest, token: Uuid)
    requires s.nextId !in s.db.refresh
    ensures StateGrows(s, Rotate(s, req, token).0)
  {
    if Judge(s, req, token).Reissue? {
      ReissueEvolves(s, req, token);
    } else {
      RevokeEvolves(s.db.refresh, Token(token), s.nextId);
      if Judge(s, req, token).EndFamily? {
        RevokeEvolves(s.db.refresh, Family(s.db.refresh[token].family), s.nextId);
      }
    }
  }

  lemma RedeemEvolves(s: State, req: TokenRequest, code: Uuid, redirectUri: Option<string>, verifier: string)
    requires s.nextId !in s.db.refresh
    ensures StateGrows(s, RedeemCode(s, req, code, redirectUri, verifier).0)
  {
    if IsLive(s.cache.codes, code, s.now) {
      var approved := ApproveCode(s, req, code, s.cache.codes[code].value, redirectUri, verifier);
      if approved.Success? {
        Provenance.ApprovedCodeMeans(s, req, code, s.cache.codes[code].value, redirectUri, verifier);
        MintEvolves(s.(cache := s.cache.(codes := s.cache.codes - {code})), req.tenant, req.tenantIsPlatform,
                    approved.value.client, approved.value.grant, req.signs);
      }
    }
  }

  lemma ClientCredentialsEvolves(s: State, tenant: Uuid, platform: bool, name: string, secret: string,
                                 scope: Option<seq<string>>, signs: bool)
    requires s.nextId !in s.db.refresh
    ensures StateGrows(s, ClientCredentials(s, tenant, platform, name, secret, scope, signs).0)
  {
  }

  lemma SetPasswordEvolves(s: State, tenant: Uuid, pool: Uuid, identity: Uuid, password: string,
                           reset: Option<Uuid>, cfg: Config)
    ensures StateGrows(s, SetPassword(s, tenant, pool, identity, password, reset, cfg).0)
  {
  }

  lemma ConsumeKeepsRecords(s: State, tenant: Uuid, expectedPool: Option<Uuid>, jti: Uuid, option: MfaOption,
                            code: string, purpose: Purpose, cfg: Config)
    ensures var s' := ConsumeChallenge(s, tenant, expectedPool, jti, option, code, purpose, cfg).0;
            s'.db.refresh == s.db.refresh && s'.nextId == s.nextId
  {
    hide Screen, VerifyFactor;
  }

  lemma ResetMfaEvolves(s: State, tenant: Uuid, jti: Uuid, option: MfaOption, code: string, password: string,
                        cfg: Config)
    ensures StateGrows(s, ResetMfa(s, tenant, jti, option, code, password, cfg).0)
  {
    ConsumeKeepsRecords(s, tenant, None, jti, option, code, ForReset, cfg);
    var (s1, consumed) := ConsumeChallenge(s, tenant, None, jti, option, code, ForReset, cfg);
    if consumed.Success? {
      var c := consumed.value;
      SetPasswordEvolves(s1, tenant, c.pool, c.identity, password, c.origin, cfg);
    }
  }

  lemma ResetEvolves(s: State, tenant: Uuid, token: Uuid, password: string, cfg: Config)
    ensures StateGrows(s, Reset(s, tenant, token, password, cfg).0)
  {
  }

  lemma LoginMfaEvolves(s: State, tenant: Uuid, client: string, jti: Uuid, option: MfaOption, code: string,
                        cfg: Config)
    ensures StateGrows(s, LoginMfa(s, tenant, client, jti, option, code, cfg).0)
  {
    hide ConsumeChallenge, FindClient;
    var found := FindClient(s, tenant, client);
    if found.Some? {
      ConsumeKeepsRecords(s, tenant, Some(found.value.pool), jti, option, code, ForLogin, cfg);
    }
  }

  lemma LoginEvolves(s: State, tenant: Uuid, client: string, identity: Uuid, password: string, cfg: Config)
    ensures StateGrows(s, Login(s, tenant, client, identity, password, cfg).0)
  {
  }

  lemma AuthorizeEvolves(s: State, tenant: Uuid, req: AuthorizeRequest, cfg: Config)
    ensures StateGrows(s, Authorize(s, tenant, req, cfg).0)
  {
  }

  lemma RevokeSessionsEvolves(s: State, tenant: Uuid, identity: Uuid, cfg: Config)
    ensures StateGrows(s, RevokeAllSessions(s, tenant, identity, cfg))
  {
  }

  lemma ChangePasswordEvolves(s: State, tenant: Uuid, pool: Uuid, identity: Uuid, current: string, password: string,
                              mfa: Option<SecondFactor>, cfg: Config)
    ensures StateGrows(s, ChangePassword(s, tenant, pool, identity, current, password, mfa, cfg).0)
  {
    hide SetPassword, VerifyFactor, PasswordMatches, IsEnrolled;
    var evaluated := EvaluateSelf(s, identity, cfg);
    SetPasswordEvolves(s, tenant, pool, identity, password, None, cfg);
    if mfa.Some? {
      var verdict := VerifyFactor(s.db.factors, identity, mfa.value.option, mfa.value.code, s.now, cfg);
      if verdict.Success? {
        var accepted := AcceptFactor(evaluated, identity, verdict.value);
        SetPasswordEvolves(accepted, tenant, pool, identity, password, None, cfg);
      }
    }
  }

  lemma RequestResetEvolves(s: State, tenant: Uuid, pool: Uuid, identity: Uuid, cfg: Config)
    ensures StateGrows(s, RequestReset(s, tenant, pool, identity, cfg).0)
  {
  }

  lemma ManageFactorEvolves(s: State, owner: Uuid, op: FactorOp, cfg: Config)
    ensures StateGrows(s, ManageFactor(s, owner, op, cfg).0)
  {
    hide ClaimCode;
  }

  lemma StepEvolves(s: State, req: Request)
    requires s.nextId !in s.db.refresh
    ensures StateEvolves(s, Handle(s, req).0) && (!req.Prune? ==> StateGrows(s, Handle(s, req).0))
  {
    hide Login, LoginMfa, Authorize, ClientCredentials, RedeemCode, Rotate, ChangePassword, Reset, ResetMfa,
      RequestReset, RevokeAllSessions, ManageFactor, Evolves;
    match req
    case DoLogin(tenant, client, identity, password, cfg) => LoginEvolves(s, tenant, client, identity, password, cfg);
    case DoLoginMfa(tenant, client, jti, option, code, cfg) =>
      LoginMfaEvolves(s, tenant, client, jti, option, code, cfg);
    case DoAuthorize(tenant, authorize, cfg) => AuthorizeEvolves(s, tenant, authorize, cfg);
    case DoClientCredentials(tenant, platform, client, secret, scope, signs) =>
      ClientCredentialsEvolves(s, tenant, platform, client, secret, scope, signs);
    case DoRedeemCode(token, code, redirectUri, verifier) => RedeemEvolves(s, token, code, redirectUri, verifier);
    case DoRotate(token, refreshToken) => RotateEvolves(s, token, refreshToken);
    case DoChangePassword(tenant, pool, identity, password, newPassword, mfa, cfg) =>
      ChangePasswordEvolves(s, tenant, pool, identity, password, newPassword, mfa, cfg);
    case DoRequestReset(tenant, pool, identity, cfg) => RequestResetEvolves(s, tenant, pool, identity, cfg);
    case DoReset(tenant, reset, newPassword, cfg) => ResetEvolves(s, tenant, reset, newPassword, cfg);
    case DoResetMfa(tenant, jti, option, code, newPassword, cfg) =>
      ResetMfaEvolves(s, tenant, jti, option, code, newPassword, cfg);
    case DoRevokeSessions(tenant, identity, cfg) => RevokeSessionsEvolves(s, tenant, identity, cfg);
    case DoManageFactor(identity, op, cfg) => ManageFactorEvolves(s, identity, op, cfg);
    case _ => HousekeepingEvolves(s, req);
  }

  lemma HousekeepingEvolves(s: State, req: Request)
    requires req.Wait? || req.Administer? || req.Prune?
    ensures StateEvolves(s, Handle(s, req).0) && (!req.Prune? ==> StateGrows(s, Handle(s, req).0))
  {
  }

  lemma EvolvesKeepsDead(before: map<Uuid, RefreshRecord>, after: map<Uuid, RefreshRecord>, next: Uuid, family: Uuid)
    requires Evolves(before, after, next) && family < next && FamilyDead(before, family)
    ensures FamilyDead(after, family)
  {
    forall t
      ensures !IsLiveIn(after, t, family)
    {
      assert !IsLiveIn(before, t, family);
    }
  }

  /** A family with no unrevoked token never gains one again. */
  lemma {:induction false} DeadFamilyStaysDead(s: State, reqs: seq<Request>, family: Uuid)
    requires Inv(s) && family < s.nextId && FamilyDead(s.db.refresh, family)
    ensures FamilyDead(Run(s, reqs).db.refresh, family)
    decreases reqs
  {
    if reqs != [] {
      StepKeeps(s, reqs[0]);
      StepEvolves(s, reqs[0]);
      var s1 := Handle(s, reqs[0]).0;
      EvolvesKeepsDead(s.db.refresh, s1.db.refresh, s.nextId, family);
      DeadFamilyStaysDead(s1, reqs[1..], family);
    }
  }

  /** A revoked refresh token stays revoked, or is deleted and never comes back. */
  lemma {:induction false} RevokedStaysRevoked(s: State, reqs: seq<Request>, token: Uuid)
    requires Inv(s) && IsRevoked(s.db.refresh, token, s.nextId)
    ensures IsRevoked(Run(s, reqs).db.refresh, token, Run(s, reqs).nextId)
    decreases reqs
  {
    if reqs != [] {
      StepKeeps(s, reqs[0]);
      StepEvolves(s, reqs[0]);
      RevokedStaysRevoked(Handle(s, reqs[0]).0, reqs[1..], token);
    }
  }

  /** The row is as it was saved, unless revoked since, or is deleted for good. */
  ghost predicate IsRow(s: State, token: Uuid, record: RefreshRecord) {
    && token < s.nextId
    && (token in s.db.refresh ==> s.db.refresh[token] == record.(revoked := s.db.refresh[token].revoked))
  }

  lemma {:induction false} RowStays(s: State, reqs: seq<Request>, token: Uuid, record: RefreshRecord)
    requires Inv(s) && IsRow(s, token, record)
    ensures IsRow(Run(s, reqs), token, record)
    decreases reqs
  {
    if reqs != [] {
      StepKeeps(s, reqs[0]);
      StepEvolves(s, reqs[0]);
      RowStays(Handle(s, reqs[0]).0, reqs[1..], token, record);
    }
  }

  // ── Single use ───────────────────────────────────────────────────────────

  /**
   In every run no code and no refresh token is redeemed twice, no refresh token
   is issued twice, and every code and session identifier names one code and one
   session.
   */
  lemma CredentialsAreSingleUse(s: State, reqs: seq<Request>, i: nat, j: nat)
    requires IsInitial(s) && i < j < |Run(s, reqs).log|
    ensures !Clash(Run(s, reqs).log[i], Run(s, reqs).log[j])
  {
    RunKeeps(s, reqs);
  }

  /**
   All tokens of one family name the same login: tenant, client, identity, `amr`
   and `auth_time` (and so `acr`, which is derived from `amr`) stay constant.
   */
  lemma FamilyKeepsItsLogin(s: State, reqs: seq<Request>, i: nat, j: nat)
    requires IsInitial(s)
    requires var log := Run(s, reqs).log;
             && i < |log| && log[i].Minted? && log[i].mint.identity.Some?
             && j < |log| && log[j].Minted? && log[j].mint.identity.Some?
             && log[i].mint.family == log[j].mint.family
    ensures var m, n := Run(s, reqs).log[i].mint, Run(s, reqs).log[j].mint;
            && m.tenant == n.tenant && m.client == n.client && m.identity == n.identity
            && m.pool == n.pool && m.auth == n.auth
  {
    hide Run, Provenance.Grounded;
    RunKeeps(s, reqs);
    var log := Run(s, reqs).log;
    Provenance.TokenProvenance(s, reqs, i);
    Provenance.TokenProvenance(s, reqs, j);
    var r: nat, c: nat, o: nat :| Provenance.Grounded(log, i, r, c, o);
    var r': nat, c': nat, o': nat :| Provenance.Grounded(log, j, r', c', o');
    OneRoot(log, i, j, r, c, o, r', c', o');
  }

  /** Two mints of one family trace back to the same code and session. */
  lemma OneRoot(log: seq<Fact>, i: nat, j: nat, r: nat, c: nat, o: nat, r': nat, c': nat, o': nat)
    requires Distinct(log) && Provenance.Grounded(log, i, r, c, o) && Provenance.Grounded(log, j, r', c', o')
    requires log[i].mint.family == log[j].mint.family
    ensures r == r' && c == c' && o == o'
    ensures var m, n := log[i].mint, log[j].mint;
            && m.tenant == n.tenant && m.client == n.client && m.identity == n.identity
            && m.pool == n.pool && m.auth == n.auth
  {
    hide Provenance.RotatedFrom, Provenance.PasswordBehind, Provenance.ChallengeBehind, Scopes.Subsequence;
    assert Clash(log[r], log[r']) && Clash(log[r'], log[r]);
    assert Clash(log[c], log[c']) && Clash(log[c'], log[c]);
    assert Clash(log[o], log[o']) && Clash(log[o'], log[o]);
  }

  // ── What a mint may carry ────────────────────────────────────────────────

  ghost predicate ScopeAllowed(x: string, row: Identity, enrolled: bool, cfg: Config, tenantIsPlatform: bool) {
    && (Scopes.IsOidc(x)
        || (x in row.permissions && (cfg.requireAdminMfa && !enrolled ==> Scopes.IsSelfService(x))))
    && (!tenantIsPlatform ==> !Scopes.IsPlatform(x))
  }

  lemma NarrowedScopesAllowed(requested: seq<string>, row: Identity, enrolled: bool, cfg: Config, platform: bool,
                              scopes: seq<string>, x: string)
    requires Scopes.Permitted(requested, row.permissions, cfg.requireAdminMfa, enrolled) == Success(scopes)
    requires x in Scopes.Strip(scopes, platform)
    ensures x in requested && ScopeAllowed(x, row, enrolled, cfg, platform)
  {
    Scopes.PermittedExactly(requested, row.permissions, cfg.requireAdminMfa, enrolled);
    Scopes.FilterMembers(scopes, y => !Scopes.IsPlatform(y), x);
    assert Scopes.Survives(x, requested, row.permissions, cfg.requireAdminMfa, enrolled);
  }

  /**
   At each rotation every scope handed out was on the presented record and is
   allowed at that moment: an OIDC scope, or one the identity holds now (and
   self-service when the policy asks for a factor it lacks).
   */
  lemma RotatedScopesAllowed(s: State, req: TokenRequest, token: Uuid, x: string)
    requires Rotate(s, req, token).1.Tokens? && x in Rotate(s, req, token).1.scopes
    ensures token in s.db.refresh && x in s.db.refresh[token].scopes
    ensures s.db.refresh[token].identity in s.db.identities
    ensures var id := s.db.refresh[token].identity;
            ScopeAllowed(x, s.db.identities[id], IsEnrolled(s, id), req.cfg, req.tenantIsPlatform)
  {
    Provenance.ReissueMeans(s, req, token);
    var record := s.db.refresh[token];
    NarrowedScopesAllowed(record.scopes, s.db.identities[record.identity], IsEnrolled(s, record.identity), req.cfg,
                          req.tenantIsPlatform, Judge(s, req, token).approval.grant.scopes, x);
    hide Judge, ScopeAllowed, Scopes.Strip;
  }

  /** The same at code exchange. */
  lemma RedeemedScopesAllowed(s: State, req: TokenRequest, code: Uuid, redirectUri: Option<string>, verifier: string,
                              x: string)
    requires RedeemCode(s, req, code, redirectUri, verifier).1.Tokens?
    requires x in RedeemCode(s, req, code, redirectUri, verifier).1.scopes
    ensures IsLive(s.cache.codes, code, s.now)
    ensures var context := s.cache.codes[code].value;
            && x in context.scopes && context.identity in s.db.identities
            && ScopeAllowed(x, s.db.identities[context.identity], IsEnrolled(s, context.identity), req.cfg,
                            req.tenantIsPlatform)
  {
    var context := s.cache.codes[code].value;
    var approved := ApproveCode(s, req, code, context, redirectUri, verifier);
    Provenance.ApprovedCodeMeans(s, req, code, context, redirectUri, verifier);
    NarrowedScopesAllowed(context.scopes, s.db.identities[context.identity], IsEnrolled(s, context.identity), req.cfg,
                          req.tenantIsPlatform, approved.value.grant.scopes, x);
  }
}
