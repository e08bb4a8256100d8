/**
 Every request as a short path of moves, as far as second-factor challenges,
 reset tokens and the factor store are concerned. An invariant that each enabled
 move keeps is kept by every request.
 */
module Moves {
  import opened Wrappers
  import opened Redis
  import opened Credentials
  import SecondFactors

  datatype Move =
    /** Nothing of concern changes. */
    | Quiet(to: State)
    | Issue(tenant: Uuid, pool: Uuid, identity: Uuid, purpose: Purpose, origin: Option<Uuid>, cfg: Config)
    | Count(tenant: Uuid, jti: Uuid, cfg: Config)
    | Evaluate(tenant: Uuid, jti: Uuid, cfg: Config)
    | Accept(identity: Uuid, option: MfaOption, code: string, cfg: Config)
    | Spend(tenant: Uuid, jti: Uuid, cfg: Config)
    | OfferReset(tenant: Uuid, pool: Uuid, identity: Uuid, cfg: Config)
    | SpendReset(token: Uuid)
    /** A password is set by a reset token, directly or through its challenge. */
    | Rewrite(to: State, identity: Uuid, token: Uuid)
    | Manage(identity: Uuid, op: FactorOp, cfg: Config)

  /** Facts that say nothing of challenges, reset tokens or factors. */
  ghost predicate IsOther(f: Fact) {
    || f.PasswordChecked? || f.SessionOpened? || f.CodeIssued? || f.Minted? || f.SelfCounted? || f.SelfEvaluated?
    || (f.PasswordSet? && f.reset.None?)
  }

  /** Challenges, their markers and counters, reset tokens and factors are as before. */
  ghost predicate SameLedger(s: State, s': State) {
    && s'.challenges == s.challenges && s'.cache.attempts == s.cache.attempts && s'.cache.spent == s.cache.spent
    && s'.cache.resets.Keys <= s.cache.resets.Keys && s'.db.factors == s.db.factors
    && s.now <= s'.now && s.nextId <= s'.nextId
  }

  ghost predicate Ends(log: seq<Fact>, fact: Fact) { log != [] && log[|log| - 1] == fact }

  ghost predicate EndsInSpend(log: seq<Fact>, token: Uuid) {
    log != [] && log[|log| - 1].ChallengeSpent? && log[|log| - 1].challenge.origin == Some(token)
  }

  /** A code of the identity has just been accepted. */
  ghost predicate EndsInFactor(log: seq<Fact>, identity: Uuid, at: Time) {
    && log != [] && log[|log| - 1].FactorAccepted? && log[|log| - 1].identity == identity
    && (log[|log| - 1].accepted.TotpAccepted? ==> log[|log| - 1].accepted.at == at)
  }

  /** The challenge verifies for the tenant and is not marked consumed. */
  ghost predicate Heard(s: State, tenant: Uuid, jti: Uuid, cfg: Config) {
    ChallengeVerifies(s, tenant, jti, cfg) && !IsLive(s.cache.spent, jti, s.now)
  }

  ghost predicate Enabled(s: State, m: Move) {
    match m
    case Quiet(to) =>
      && SameLedger(s, to)
      && (to.log == s.log || (|to.log| == |s.log| + 1 && to.log[..|s.log|] == s.log && IsOther(to.log[|s.log|])))
    case Issue(_, _, _, purpose, origin, _) =>
      (purpose.ForReset? <==> origin.Some?) && (origin.Some? ==> Ends(s.log, ResetSpent(origin.value)))
    case Count(tenant, jti, cfg) => Heard(s, tenant, jti, cfg)
    case Evaluate(tenant, jti, cfg) =>
      Heard(s, tenant, jti, cfg) && Redis.Count(s.cache.attempts, jti, s.now) + 1 <= cfg.mfaMaxAttempts
    case Accept(identity, option, code, cfg) =>
      VerifyFactor(s.db.factors, identity, option, code, s.now, cfg).Success?
    case Spend(tenant, jti, cfg) =>
      && Heard(s, tenant, jti, cfg) && CodeEvaluated(jti) in s.log
      && EndsInFactor(s.log, s.challenges[jti].identity, s.now)
    case OfferReset(_, _, _, _) => true
    case SpendReset(token) => token in s.cache.resets
    case Rewrite(to, identity, token) =>
      && SameLedger(s, to) && to.log == s.log + [PasswordSet(identity, Some(token))]
      && (Ends(s.log, ResetSpent(token)) || EndsInSpend(s.log, token))
    case Manage(_, _, _) => true
  }

  ghost function Apply(s: State, m: Move): State
    requires Enabled(s, m)
  {
    match m
    case Quiet(to) => to
    case Issue(tenant, pool, identity, purpose, origin, cfg) =>
      IssueChallenge(s, tenant, pool, identity, purpose, origin, cfg).0
    case Count(_, jti, cfg) => CountAttempt(s, jti, cfg)
    case Evaluate(_, jti, cfg) => Record(CountAttempt(s, jti, cfg), CodeEvaluated(jti))
    case Accept(identity, option, code, cfg) =>
      AcceptFactor(s, identity, VerifyFactor(s.db.factors, identity, option, code, s.now, cfg).value)
    case Spend(_, jti, cfg) => SpendChallenge(s, s.challenges[jti], cfg)
    case OfferReset(tenant, pool, identity, cfg) => RequestReset(s, tenant, pool, identity, cfg).0
    case SpendReset(token) => Unlock(s, token)
    case Rewrite(to, _, _) => to
    case Manage(identity, op, cfg) => ManageFactor(s, identity, op, cfg).0
  }

  /** The reset token is spent. */
  ghost function Unlock(s: State, token: Uuid): State {
    s.(cache := s.cache.(resets := s.cache.resets - {token}), log := s.log + [ResetSpent(token)])
  }

  /** The moves are enabled one after the other and lead from `s` to `s'`. */
  ghost predicate Leads(s: State, moves: seq<Move>, s': State)
    decreases |moves|
  {
    if moves == [] then s' == s else Enabled(s, moves[0]) && Leads(Apply(s, moves[0]), moves[1..], s')
  }

  lemma {:induction false} LeadsOn(s: State, moves: seq<Move>, s1: State, m: Move)
    requires Leads(s, moves, s1) && Enabled(s1, m)
    ensures Leads(s, moves + [m], Apply(s1, m))
    decreases |moves|
  {
    if moves == [] {
      assert ([] + [m])[1..] == [];
    } else {
      LeadsOn(Apply(s, moves[0]), moves[1..], s1, m);
      assert (moves + [m])[1..] == moves[1..] + [m];
    }
  }

  /** The tenant and configuration under which a request deals with challenges. */
  ghost function RulingOf(req: Request): Option<(Uuid, Config)> {
    match req
    case DoLogin(tenant, _, _, _, cfg) => Some((tenant, cfg))
    case DoLoginMfa(tenant, _, _, _, _, cfg) => Some((tenant, cfg))
    case DoReset(tenant, _, _, cfg) => Some((tenant, cfg))
    case DoResetMfa(tenant, _, _, _, _, cfg) => Some((tenant, cfg))
    case _ => None
  }

  ghost predicate Obeys(m: Move, ruling: Option<(Uuid, Config)>) {
    m.Issue? || m.Count? || m.Evaluate? || m.Spend? ==> ruling == Some((m.tenant, m.cfg))
  }

  ghost predicate AllObey(moves: seq<Move>, ruling: Option<(Uuid, Config)>) {
    forall m :: m in moves ==> Obeys(m, ruling)
  }

  /** The configuration under which a request verifies codes or manages factors. */
  ghost function VerifierOf(req: Request): Option<Config> {
    match req
    case DoLoginMfa(_, _, _, _, _, cfg) => Some(cfg)
    case DoChangePassword(_, _, _, _, _, _, cfg) => Some(cfg)
    case DoResetMfa(_, _, _, _, _, cfg) => Some(cfg)
    case DoManageFactor(_, _, cfg) => Some(cfg)
    case _ => None
  }

  ghost predicate Uses(m: Move, cfg: Option<Config>) {
    m.Accept? || m.Manage? ==> cfg == Some(m.cfg)
  }

  ghost predicate AllUse(moves: seq<Move>, cfg: Option<Config>) {
    forall m :: m in moves ==> Uses(m, cfg)
  }

  /** Managing factors changes the factor store and records at most one fact of it. */
  lemma ManageFrame(s: State, identity: Uuid, op: FactorOp, cfg: Config)
    ensures var s' := ManageFactor(s, identity, op, cfg).0;
            && s' == s.(db := s.db.(factors := s'.db.factors), log := s'.log)
            && (s'.log == s.log
                || (&& |s'.log| == |s.log| + 1 && s'.log == s.log + [s'.log[|s.log|]]
                    && (s'.log[|s.log|].FactorAccepted? || s'.log[|s.log|].FactorEnrolled?)))
  {
  }

  // ── The path of each request ─────────────────────────────────────────────

  lemma HeardWhen(s: State, tenant: Uuid, expectedPool: Option<Uuid>, jti: Uuid, option: MfaOption,
                  purpose: Purpose, cfg: Config)
    ensures match Screen(s, tenant, expectedPool, jti, option, purpose, cfg)
            case Unheard(_) => true
            case Counted(_) => Enabled(s, Count(tenant, jti, cfg))
            case Admitted(c) => Enabled(s, Evaluate(tenant, jti, cfg)) && c == s.challenges[jti]
  {
  }

  lemma AdmittedIsIssued(s: State, tenant: Uuid, expectedPool: Option<Uuid>, jti: Uuid, option: MfaOption,
                         purpose: Purpose, cfg: Config)
    ensures var screening := Screen(s, tenant, expectedPool, jti, option, purpose, cfg);
            screening.Admitted? ==> jti in s.challenges && screening.challenge == s.challenges[jti]
  {
    hide FindIdentity;
  }

  lemma AcceptedNow(st: SecondFactors.Store, owner: Uuid, option: MfaOption, code: string, now: Time, cfg: Config)
    ensures var verdict := VerifyFactor(st, owner, option, code, now, cfg);
            verdict.Success? && verdict.value.accepted.TotpAccepted? ==> verdict.value.accepted.at == now
  {
  }

  lemma ConsumePath(s: State, tenant: Uuid, expectedPool: Option<Uuid>, jti: Uuid, option: MfaOption, code: string,
                    purpose: Purpose, cfg: Config) returns (moves: seq<Move>)
    ensures var (s', consumed) := ConsumeChallenge(s, tenant, expectedPool, jti, option, code, purpose, cfg);
            && Leads(s, moves, s') && AllObey(moves, Some((tenant, cfg))) && AllUse(moves, Some(cfg))
            && (consumed.Success? ==>
                  && s'.log != [] && s'.log[|s'.log| - 1].ChallengeSpent?
                  && s'.log[|s'.log| - 1].challenge == consumed.value)
  {
    hide Screen, VerifyFactor;
    HeardWhen(s, tenant, expectedPool, jti, option, purpose, cfg);
    moves := [];
    match Screen(s, tenant, expectedPool, jti, option, purpose, cfg)
    case Unheard(_) =>
    case Counted(_) => moves := [Count(tenant, jti, cfg)];
    case Admitted(c) =>
      moves := [Evaluate(tenant, jti, cfg)];
      var s1 := Apply(s, moves[0]);
      LeadsOn(s, [], s, moves[0]);
      if VerifyFactor(s.db.factors, c.identity, option, code, s.now, cfg).Success? {
        var accept, spend := Accept(c.identity, option, code, cfg), Spend(tenant, jti, cfg);
        LeadsOn(s, moves, s1, accept);
        AcceptedNow(s.db.factors, c.identity, option, code, s.now, cfg);
        assert s1.log[|s1.log| - 1] == CodeEvaluated(jti) && s1.log[|s1.log| - 1] in s1.log;
        LeadsOn(s, moves + [accept], Apply(s1, accept), spend);
        moves := moves + [accept] + [spend];
      }
  }

  lemma LoginPath(s: State, req: Request) returns (moves: seq<Move>)
    requires req.DoLogin?
    ensures Leads(s, moves, Handle(s, req).0) && AllObey(moves, RulingOf(req)) && AllUse(moves, VerifierOf(req))
  {
    var DoLogin(tenant, client, identity, password, cfg) := req;
    var found := FindClient(s, tenant, client);
    moves := [];
    if found.Some? && PasswordMatches(s, found.value.pool, identity, password) {
      var s1 := Record(s, PasswordChecked(tenant, found.value.pool, identity, s.now));
      var next := if IsEnrolled(s, identity) then Issue(tenant, found.value.pool, identity, ForLogin, None, cfg)
                  else Quiet(Handle(s, req).0);
      LeadsOn(s, [], s, Quiet(s1));
      LeadsOn(s, [Quiet(s1)], s1, next);
      moves := [Quiet(s1)] + [next];
    }
  }

  lemma LoginMfaPath(s: State, req: Request) returns (moves: seq<Move>)
    requires req.DoLoginMfa?
    ensures Leads(s, moves, Handle(s, req).0) && AllObey(moves, RulingOf(req)) && AllUse(moves, VerifierOf(req))
  {
    hide ConsumeChallenge, FindClient;
    var DoLoginMfa(tenant, client, jti, option, code, cfg) := req;
    var found := FindClient(s, tenant, client);
    moves := [];
    if found.Some? {
      moves := ConsumePath(s, tenant, Some(found.value.pool), jti, option, code, ForLogin, cfg);
      var (s1, consumed) :=
        ConsumeChallenge(s, tenant, Some(found.value.pool), jti, option, code, ForLogin, cfg);
      if consumed.Success? {
        LeadsOn(s, moves, s1, Quiet(Handle(s, req).0));
        moves := moves + [Quiet(Handle(s, req).0)];
      }
    }
  }

  lemma PasswordPath(s: State, tenant: Uuid, pool: Uuid, identity: Uuid, password: string, reset: Option<Uuid>,
                     cfg: Config) returns (m: Move)
    requires reset.Some? ==> Ends(s.log, ResetSpent(reset.value)) || EndsInSpend(s.log, reset.value)
    ensures Enabled(s, m) && Apply(s, m) == SetPassword(s, tenant, pool, identity, password, reset, cfg).0
    ensures m.Quiet? || m.Rewrite?
  {
    hide FindIdentity;
    var (s', outcome) := SetPassword(s, tenant, pool, identity, password, reset, cfg);
    m := if outcome.Done? && reset.Some? then Rewrite(s', identity, reset.value) else Quiet(s');
  }

  /** A code is accepted and the password written. */
  lemma AcceptedPath(s: State, accept: Move, tenant: Uuid, pool: Uuid, password: string, cfg: Config)
    returns (moves: seq<Move>)
    requires accept.Accept? && Enabled(s, accept)
    ensures Leads(s, moves, SetPassword(Apply(s, accept), tenant, pool, accept.identity, password, None, cfg).0)
    ensures AllObey(moves, None) && AllUse(moves, Some(accept.cfg))
  {
    hide SetPassword, VerifyFactor;
    var m := PasswordPath(Apply(s, accept), tenant, pool, accept.identity, password, None, cfg);
    LeadsFrom(s, accept, m);
    moves := [accept, m];
  }

  /** The path of a change by an enrolled identity that presents a code. */
  lemma FactoredChangePath(s: State, req: Request) returns (moves: seq<Move>)
    requires req.DoChangePassword? && req.mfa.Some?
    requires PasswordMatches(s, req.pool, req.identity, req.password) && IsEnrolled(s, req.identity)
    ensures Leads(s, moves, Handle(s, req).0) && AllObey(moves, RulingOf(req)) && AllUse(moves, VerifierOf(req))
  {
    hide SetPassword, VerifyFactor, PasswordMatches, IsEnrolled;
    var DoChangePassword(tenant, pool, identity, current, password, mfa, cfg) := req;
    var counted, evaluated := CountSelfAttempt(s, identity, cfg), EvaluateSelf(s, identity, cfg);
    var accept := Accept(identity, mfa.value.option, mfa.value.code, cfg);
    if Redis.Count(s.cache.selfAttempts, identity, s.now) + 1 > cfg.mfaMaxAttempts {
      LeadsOn(s, [], s, Quiet(counted));
      moves := [] + [Quiet(counted)];
    } else if Enabled(evaluated, accept) {
      moves := AcceptedPath(evaluated, accept, tenant, pool, password, cfg);
      hide Apply;
      LeadsThrough(s, counted, evaluated, moves, Handle(s, req).0);
      moves := [Quiet(counted), Quiet(evaluated)] + moves;
    } else {
      LeadsThrough(s, counted, evaluated, [], evaluated);
      moves := [Quiet(counted), Quiet(evaluated)] + [];
    }
  }

  lemma ChangePasswordPath(s: State, req: Request) returns (moves: seq<Move>)
    requires req.DoChangePassword?
    ensures Leads(s, moves, Handle(s, req).0) && AllObey(moves, RulingOf(req)) && AllUse(moves, VerifierOf(req))
  {
    hide SetPassword, VerifyFactor, PasswordMatches, IsEnrolled;
    moves := [];
    if PasswordMatches(s, req.pool, req.identity, req.password) {
      if !IsEnrolled(s, req.identity) {
        var m := PasswordPath(s, req.tenant, req.pool, req.identity, req.newPassword, None, req.cfg);
        LeadsOn(s, [], s, m);
        moves := [] + [m];
      } else if req.mfa.Some? {
        moves := FactoredChangePath(s, req);
      }
    }
  }

  lemma LeadsFrom(s: State, a: Move, b: Move)
    requires Enabled(s, a) && Enabled(Apply(s, a), b)
    ensures Leads(s, [a, b], Apply(Apply(s, a), b))
  {
    hide Enabled;
    assert [a, b][1..] == [b] && [b][1..] == [];
    assert Leads(Apply(Apply(s, a), b), [], Apply(Apply(s, a), b));
    assert Leads(Apply(s, a), [b], Apply(Apply(s, a), b));
  }

  lemma LeadsThrough(s: State, s1: State, s2: State, moves: seq<Move>, s': State)
    requires Enabled(s, Quiet(s1)) && Enabled(s1, Quiet(s2)) && Leads(s2, moves, s')
    ensures Leads(s, [Quiet(s1), Quiet(s2)] + moves, s')
  {
    hide Enabled;
    var all := [Quiet(s1), Quiet(s2)] + moves;
    assert all[1..] == [Quiet(s2)] + moves && ([Quiet(s2)] + moves)[1..] == moves;
    assert Leads(s1, [Quiet(s2)] + moves, s');
  }

  lemma ResetPath(s: State, req: Request) returns (moves: seq<Move>)
    requires req.DoReset?
    ensures Leads(s, moves, Handle(s, req).0) && AllObey(moves, RulingOf(req)) && AllUse(moves, VerifierOf(req))
  {
    hide SetPassword, IsEnrolled;
    var DoReset(tenant, token, password, cfg) := req;
    if !IsLive(s.cache.resets, token, s.now) {
      LeadsOn(s, [], s, Quiet(Handle(s, req).0));
      moves := [] + [Quiet(Handle(s, req).0)];
    } else {
      var context := s.cache.resets[token].value;
      var s1 := Unlock(s, token);
      LeadsOn(s, [], s, SpendReset(token));
      moves := [] + [SpendReset(token)];
      if context.tenant == tenant {
        var next;
        if IsEnrolled(s1, context.identity) {
          next := Issue(tenant, context.pool, context.identity, ForReset, Some(token), cfg);
        } else {
          next := PasswordPath(s1, tenant, context.pool, context.identity, password, Some(token), cfg);
        }
        LeadsOn(s, moves, s1, next);
        moves := moves + [next];
      }
    }
  }

  lemma ResetMfaPath(s: State, req: Request) returns (moves: seq<Move>)
    requires req.DoResetMfa?
    ensures Leads(s, moves, Handle(s, req).0) && AllObey(moves, RulingOf(req)) && AllUse(moves, VerifierOf(req))
  {
    hide ConsumeChallenge, SetPassword;
    var DoResetMfa(tenant, jti, option, code, password, cfg) := req;
    moves := ConsumePath(s, tenant, None, jti, option, code, ForReset, cfg);
    var (s1, consumed) := ConsumeChallenge(s, tenant, None, jti, option, code, ForReset, cfg);
    if consumed.Success? {
      var c := consumed.value;
      var m := PasswordPath(s1, tenant, c.pool, c.identity, password, c.origin, cfg);
      LeadsOn(s, moves, s1, m);
      moves := moves + [m];
    }
  }

  /** Only codes, refresh records and the history differ, the latter by at most one mint. */
  ghost predicate TokensOnly(s: State, s': State) {
    && s'.cache == s.cache.(codes := s'.cache.codes) && s'.db == s.db.(refresh := s'.db.refresh)
    && s'.challenges == s.challenges && s'.now == s.now && s.nextId <= s'.nextId
    && (s'.log == s.log || (|s'.log| == |s.log| + 1 && s'.log[..|s.log|] == s.log && s'.log[|s.log|].Minted?))
  }

  lemma MintFrame(s: State, tenant: Uuid, platform: bool, client: Client, grant: Grant, signs: bool)
    ensures TokensOnly(s, MintTokens(s, tenant, platform, client, grant, signs).0)
  {
  }

  lemma TokenRequestFrame(s: State, req: Request)
    requires req.DoClientCredentials? || req.DoRedeemCode? || req.DoRotate?
    ensures TokensOnly(s, Handle(s, req).0)
  {
    hide MintTokens, Judge, ApproveCode, AuthenticateClient, Revoke;
    match req
    case DoClientCredentials(tenant, platform, name, secret, scope, signs) =>
      var found := AuthenticateClient(s, tenant, name, Some(secret));
      if found.Some? {
        var scopes := if scope.Some? then scope.value else found.value.allowedScopes;
        MintFrame(s, tenant, platform, found.value, Grant(FromClient, None, scopes, None, None), signs);
      }
    case DoRedeemCode(token, code, redirectUri, verifier) =>
      if IsLive(s.cache.codes, code, s.now) {
        var a := ApproveCode(s, token, code, s.cache.codes[code].value, redirectUri, verifier);
        if a.Success? {
          MintFrame(s.(cache := s.cache.(codes := s.cache.codes - {code})), token.tenant, token.tenantIsPlatform,
                    a.value.client, a.value.grant, token.signs);
        }
      }
    case DoRotate(token, refreshToken) =>
      var verdict := Judge(s, token, refreshToken);
      if verdict.Reissue? {
        MintFrame(s.(db := s.db.(refresh := Revoke(s.db.refresh, Token(refreshToken)))), token.tenant,
                  token.tenantIsPlatform, verdict.approval.client, verdict.approval.grant, token.signs);
      }
  }

  lemma OthersAreQuiet(s: State, req: Request)
    requires req.Wait? || req.Administer? || req.DoAuthorize? || req.DoRevokeSessions? || req.Prune?
    ensures Enabled(s, Quiet(Handle(s, req).0))
  {
    hide ApproveAuthorize;
  }

  /** Every request takes a path of enabled moves, under its own configuration. */
  lemma PathOf(s: State, req: Request) returns (moves: seq<Move>)
    ensures Leads(s, moves, Handle(s, req).0) && AllObey(moves, RulingOf(req)) && AllUse(moves, VerifierOf(req))
  {
    match req
    case DoLogin(_, _, _, _, _) => moves := LoginPath(s, req);
    case DoLoginMfa(_, _, _, _, _, _) => moves := LoginMfaPath(s, req);
    case DoChangePassword(_, _, _, _, _, _, _) => moves := ChangePasswordPath(s, req);
    case DoReset(_, _, _, _) => moves := ResetPath(s, req);
    case DoResetMfa(_, _, _, _, _, _) => moves := ResetMfaPath(s, req);
    case _ =>
      var m := OneMove(s, req);
      LeadsOn(s, [], s, m);
      moves := [] + [m];
  }

  lemma OneMove(s: State, req: Request) returns (m: Move)
    requires !req.DoLogin? && !req.DoLoginMfa? && !req.DoChangePassword? && !req.DoReset? && !req.DoResetMfa?
    ensures Enabled(s, m) && Apply(s, m) == Handle(s, req).0 && Obeys(m, None) && Uses(m, VerifierOf(req))
  {
    match req
    case DoRequestReset(tenant, pool, identity, cfg) => m := OfferReset(tenant, pool, identity, cfg);
    case DoManageFactor(identity, op, cfg) => m := Manage(identity, op, cfg);
    case _ =>
      m := Quiet(Handle(s, req).0);
      if req.DoClientCredentials? || req.DoRedeemCode? || req.DoRotate? {
        TokenRequestFrame(s, req);
      } else {
        OthersAreQuiet(s, req);
      }
  }
}
