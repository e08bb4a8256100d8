/**
 Which request tells which fact. The history only grows, each fact names the kind
 of request that told it, and every fact of a run can be traced to one request of
 the run and the state it met.
 */
module History {
  import opened Wrappers
  import opened Redis
  import opened Credentials
  import Moves

  /** A request of this kind may tell this fact. */
  ghost predicate Told(f: Fact, req: Request) {
    match f
    case PasswordChecked(_, _, _, _) => req.DoLogin?
    case ChallengeIssued(_) => req.DoLogin? || req.DoReset?
    case AttemptCounted(_, _, _) => req.DoLoginMfa? || req.DoResetMfa?
    case CodeEvaluated(_) => req.DoLoginMfa? || req.DoResetMfa?
    case SelfCounted(_, _) => req.DoChangePassword?
    case SelfEvaluated(_) => req.DoChangePassword?
    case FactorEnrolled(_, _, _) => req.DoManageFactor?
    case FactorAccepted(_, _) =>
      req.DoLoginMfa? || req.DoResetMfa? || req.DoChangePassword? || req.DoManageFactor?
    case ChallengeSpent(_, _, _) => req.DoLoginMfa? || req.DoResetMfa?
    case SessionOpened(_, _) => req.DoLogin? || req.DoLoginMfa?
    case CodeIssued(_, _, _) => req.DoAuthorize?
    case Minted(m) =>
      (match m.source
       case FromCode(code, _) => req.DoRedeemCode? && req.code == code
       case FromRefresh(token) => req.DoRotate? && req.refreshToken == token
       case FromClient => req.DoClientCredentials?)
    case ResetSpent(_) => req.DoReset?
    case PasswordSet(_, reset) => if reset.None? then req.DoChangePassword? || req.DoResetMfa?
                                  else req.DoReset? || req.DoResetMfa?
  }

  /** `s'` has the history of `s` and then some facts that the request may tell. */
  ghost predicate Tells(s: State, s': State, req: Request) {
    && |s.log| <= |s'.log| && s'.log[..|s.log|] == s.log
    && forall i :: |s.log| <= i < |s'.log| ==> Told(s'.log[i], req)
  }

  lemma TellsOn(s: State, s1: State, s2: State, req: Request)
    requires Tells(s, s1, req) && Tells(s1, s2, req)
    ensures Tells(s, s2, req)
  {
    assert s2.log[..|s.log|] == s2.log[..|s1.log|][..|s.log|];
    forall i | |s.log| <= i < |s2.log| ensures Told(s2.log[i], req) {
      if i < |s1.log| {
        assert s2.log[i] == s2.log[..|s1.log|][i] == s1.log[i];
      }
    }
  }

  lemma LoginTells(s: State, req: Request)
    requires req.DoLogin?
    ensures Tells(s, Handle(s, req).0, req)
  {
    hide FindClient, PasswordMatches, IsEnrolled;
  }

  lemma ConsumeTells(s: State, tenant: Uuid, expectedPool: Option<Uuid>, jti: Uuid, option: MfaOption, code: string,
                     purpose: Purpose, cfg: Config, req: Request)
    requires req.DoLoginMfa? || req.DoResetMfa?
    ensures Tells(s, ConsumeChallenge(s, tenant, expectedPool, jti, option, code, purpose, cfg).0, req)
  {
    hide Screen, VerifyFactor;
  }

  lemma LoginMfaTells(s: State, req: Request)
    requires req.DoLoginMfa?
    ensures Tells(s, Handle(s, req).0, req)
  {
    hide ConsumeChallenge, FindClient;
    var found := FindClient(s, req.tenant, req.client);
    if found.Some? {
      var consumed :=
        ConsumeChallenge(s, req.tenant, Some(found.value.pool), req.jti, req.option, req.otp, ForLogin, req.cfg);
      ConsumeTells(s, req.tenant, Some(found.value.pool), req.jti, req.option, req.otp, ForLogin, req.cfg, req);
      assert Tells(consumed.0, Handle(s, req).0, req);
      TellsOn(s, consumed.0, Handle(s, req).0, req);
    }
  }

  lemma AuthorizeTells(s: State, req: Request)
    requires req.DoAuthorize?
    ensures Tells(s, Handle(s, req).0, req)
  {
    hide ApproveAuthorize, FindClient;
  }

  lemma MintTells(s: State, tenant: Uuid, platform: bool, client: Client, grant: Grant, signs: bool, req: Request)
    requires forall m: Mint :: m.source == grant.source ==> Told(Minted(m), req)
    ensures Tells(s, MintTokens(s, tenant, platform, client, grant, signs).0, req)
  {
  }

  lemma ApprovedSource(s: State, req: TokenRequest, code: Uuid, context: CodeContext, redirectUri: Option<string>,
                       verifier: string)
    ensures var a := ApproveCode(s, req, code, context, redirectUri, verifier);
            a.Success? ==> a.value.grant.source == FromCode(code, verifier)
  {
    hide CheckCode, FindIdentity, AuthenticateClient;
  }

  lemma JudgedSource(s: State, req: TokenRequest, token: Uuid)
    ensures var verdict := Judge(s, req, token);
            verdict.Reissue? ==> verdict.approval.grant.source == FromRefresh(token)
  {
    hide FindIdentity, AuthenticateClient;
  }

  lemma TokenRequestTells(s: State, req: Request)
    requires req.DoClientCredentials? || req.DoRedeemCode? || req.DoRotate?
    ensures Tells(s, Handle(s, req).0, req)
  {
    hide MintTokens, Judge, ApproveCode, AuthenticateClient, Revoke;
    match req
    case DoClientCredentials(tenant, platform, name, secret, scope, signs) =>
      var found := AuthenticateClient(s, tenant, name, Some(secret));
      if found.Some? {
        var scopes := if scope.Some? then scope.value else found.value.allowedScopes;
        MintTells(s, tenant, platform, found.value, Grant(FromClient, None, scopes, None, None), signs, req);
      }
    case DoRedeemCode(token, code, redirectUri, verifier) =>
      if IsLive(s.cache.codes, code, s.now) {
        var context := s.cache.codes[code].value;
        var a := ApproveCode(s, token, code, context, redirectUri, verifier);
        if a.Success? {
          ApprovedSource(s, token, code, context, redirectUri, verifier);
          MintTells(s.(cache := s.cache.(codes := s.cache.codes - {code})), token.tenant, token.tenantIsPlatform,
                    a.value.client, a.value.grant, token.signs, req);
        }
      }
    case DoRotate(token, refreshToken) =>
      var verdict := Judge(s, token, refreshToken);
      if verdict.Reissue? {
        JudgedSource(s, token, refreshToken);
        MintTells(s.(db := s.db.(refresh := Revoke(s.db.refresh, Token(refreshToken)))), token.tenant,
                  token.tenantIsPlatform, verdict.approval.client, verdict.approval.grant, token.signs, req);
      }
  }

  lemma PasswordTells(s: State, tenant: Uuid, pool: Uuid, identity: Uuid, password: string, reset: Option<Uuid>,
                      cfg: Config, req: Request)
    requires Told(PasswordSet(identity, reset), req)
    ensures Tells(s, SetPassword(s, tenant, pool, identity, password, reset, cfg).0, req)
  {
    hide FindIdentity;
  }

  lemma ChangePasswordTells(s: State, req: Request)
    requires req.DoChangePassword?
    ensures Tells(s, Handle(s, req).0, req)
  {
    hide SetPassword, VerifyFactor, PasswordMatches, IsEnrolled;
    var DoChangePassword(tenant, pool, identity, current, password, mfa, cfg) := req;
    PasswordTells(s, tenant, pool, identity, password, None, cfg, req);
    if mfa.Some? {
      var evaluated := EvaluateSelf(s, identity, cfg);
      var verdict := VerifyFactor(s.db.factors, identity, mfa.value.option, mfa.value.code, s.now, cfg);
      if verdict.Success? {
        var accepted := AcceptFactor(evaluated, identity, verdict.value);
        PasswordTells(accepted, tenant, pool, identity, password, None, cfg, req);
        TellsOn(s, accepted, SetPassword(accepted, tenant, pool, identity, password, None, cfg).0, req);
      }
    }
  }

  lemma ResetTells(s: State, req: Request)
    requires req.DoReset?
    ensures Tells(s, Handle(s, req).0, req)
  {
    hide SetPassword, IsEnrolled;
    var DoReset(tenant, token, password, cfg) := req;
    if IsLive(s.cache.resets, token, s.now) {
      var context := s.cache.resets[token].value;
      var s1 := Moves.Unlock(s, token);
      PasswordTells(s1, tenant, context.pool, context.identity, password, Some(token), cfg, req);
      TellsOn(s, s1, SetPassword(s1, tenant, context.pool, context.identity, password, Some(token), cfg).0, req);
    }
  }

  lemma ResetMfaTells(s: State, req: Request)
    requires req.DoResetMfa?
    ensures Tells(s, Handle(s, req).0, req)
  {
    hide ConsumeChallenge, SetPassword;
    var DoResetMfa(tenant, jti, option, otp, password, cfg) := req;
    var (s1, consumed) := ConsumeChallenge(s, tenant, None, jti, option, otp, ForReset, cfg);
    ConsumeTells(s, tenant, None, jti, option, otp, ForReset, cfg, req);
    if consumed.Success? {
      var c := consumed.value;
      PasswordTells(s1, tenant, c.pool, c.identity, password, c.origin, cfg, req);
      TellsOn(s, s1, SetPassword(s1, tenant, c.pool, c.identity, password, c.origin, cfg).0, req);
    }
  }

  lemma ManageTells(s: State, req: Request)
    requires req.DoManageFactor?
    ensures Tells(s, Handle(s, req).0, req)
  {
    Moves.ManageFrame(s, req.identity, req.op, req.cfg);
    hide ManageFactor;
  }

  lemma StepTells(s: State, req: Request)
    ensures Tells(s, Handle(s, req).0, req)
  {
    if req.DoLogin? {
      LoginTells(s, req);
    } else if req.DoLoginMfa? {
      LoginMfaTells(s, req);
    } else if req.DoAuthorize? {
      AuthorizeTells(s, req);
    } else if req.DoClientCredentials? || req.DoRedeemCode? || req.DoRotate? {
      TokenRequestTells(s, req);
    } else if req.DoChangePassword? {
      ChangePasswordTells(s, req);
    } else if req.DoReset? {
      ResetTells(s, req);
    } else if req.DoResetMfa? {
      ResetMfaTells(s, req);
    } else if req.DoManageFactor? {
      ManageTells(s, req);
    }
  }

  // ── Runs ─────────────────────────────────────────────────────────────────

  lemma {:induction false} RunAppend(s: State, a: seq<Request>, b: seq<Request>)
    ensures Run(s, a + b) == Run(Run(s, a), b)
    decreases a
  {
    hide Handle;
    if a == [] {
      assert [] + b == b;
    } else {
      RunAppend(Handle(s, a[0]).0, a[1..], b);
      assert (a + b)[1..] == a[1..] + b;
    }
  }

  lemma RunOne(s: State, req: Request)
    ensures Run(s, [req]) == Handle(s, req).0
  {
    hide Handle;
    assert Run(Handle(s, req).0, []) == Handle(s, req).0;
  }

  // ── Tracing a fact ───────────────────────────────────────────────────────

  lemma {:induction false} HistoryGrows(s: State, reqs: seq<Request>)
    ensures |s.log| <= |Run(s, reqs).log| && Run(s, reqs).log[..|s.log|] == s.log
    decreases reqs
  {
    hide Handle;
    if reqs != [] {
      var s1 := Handle(s, reqs[0]).0;
      StepTells(s, reqs[0]);
      HistoryGrows(s1, reqs[1..]);
      assert Run(s1, reqs[1..]).log[..|s.log|] == Run(s1, reqs[1..]).log[..|s1.log|][..|s.log|];
    }
  }

  /** The request `i` of the run, met by the state after the requests before it, told the fact at `q`. */
  ghost predicate ToldBy(s: State, reqs: seq<Request>, i: nat, q: nat) {
    && i < |reqs| && q < |Run(s, reqs).log|
    && var met := Run(s, reqs[..i]);
       var left := Handle(met, reqs[i]).0;
       && |met.log| <= q < |left.log| && Tells(met, left, reqs[i])
       && |left.log| <= |Run(s, reqs).log| && left.log == Run(s, reqs).log[..|left.log|]
  }

  /** Every fact of a run was told by one of its requests. */
  lemma {:induction false} Trace(s: State, reqs: seq<Request>, q: nat) returns (i: nat)
    requires |s.log| <= q < |Run(s, reqs).log|
    ensures ToldBy(s, reqs, i, q)
    decreases reqs
  {
    hide Handle;
    var s1 := Handle(s, reqs[0]).0;
    StepTells(s, reqs[0]);
    HistoryGrows(s1, reqs[1..]);
    if q < |s1.log| {
      i := 0;
      assert reqs[..0] == [];
    } else {
      var j := Trace(s1, reqs[1..], q);
      i := j + 1;
      assert reqs[..i][1..] == reqs[1..][..j];
      assert Run(s, reqs[..i]) == Run(s1, reqs[1..][..j]);
    }
  }
}
