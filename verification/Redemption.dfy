/**
 Exactly when the three front doors let a request through, and what a refusal
 leaves behind; and the binding of every code to its PKCE challenge over whole runs
 (section 4.6 of RFC 7636).
 */
module Redemption {
  import opened Wrappers
  import opened Redis
  import opened Pkce
  import opened Credentials
  import History
  import Scopes
  import Provenance

  // ── Sessions and codes ───────────────────────────────────────────────────

  /** The cookie names a live session of this tenant and pool from the identity's present epoch. */
  ghost predicate IsCurrent(s: State, tenant: Uuid, pool: Uuid, sso: Uuid) {
    && IsLive(s.cache.sessions, sso, s.now)
    && var session := s.cache.sessions[sso].value;
       && session.tenant == tenant && session.pool == pool
       && Count(s.cache.epochs, (tenant, session.identity), s.now) <= session.epoch
  }

  ghost predicate IsYoung(s: State, sso: Uuid, maxAge: Option<nat>)
    requires sso in s.cache.sessions
  {
    maxAge.Some? ==> s.now <= s.cache.sessions[sso].value.createdAt + maxAge.value
  }

  /** The session is current, young enough, and of an active identity of the pool. */
  ghost predicate SessionServes(s: State, tenant: Uuid, pool: Uuid, sso: Uuid, maxAge: Option<nat>) {
    && IsCurrent(s, tenant, pool, sso) && IsYoung(s, sso, maxAge)
    && var identity := s.cache.sessions[sso].value.identity;
       Provenance.InPool(s.db.identities, identity, pool) && s.db.identities[identity].standing.Active?
  }

  lemma ValidateSessionExactly(s: State, tenant: Uuid, pool: Uuid, sso: Uuid, maxAge: Option<nat>)
    ensures var r := ValidateSession(s, tenant, pool, sso, maxAge);
            && (r.Success? <==> SessionServes(s, tenant, pool, sso, maxAge))
            && (r.Success? ==> r.value == s.cache.sessions[sso].value)
            && (r.Failure? ==>
                  r.error == if IsCurrent(s, tenant, pool, sso) && !IsYoung(s, sso, maxAge) then ReAuthRequired
                             else SessionInvalid)
  {
  }

  /** Everything a code costs. */
  ghost predicate MayAuthorize(s: State, tenant: Uuid, req: AuthorizeRequest, cfg: Config) {
    && (tenant, req.client) in s.db.clients
    && var client := s.db.clients[(tenant, req.client)];
       && client.active && req.redirectUri in client.redirectUris
       && AcceptsChallenge(req.challenge, req.challengeMethod, cfg.allowPlainPkce)
       && req.prompt != Some("login")
       && SessionServes(s, tenant, client.pool, req.sso, req.maxAge)
       && !s.db.identities[s.cache.sessions[req.sso].value.identity].machine
       && req.scope != [] && forall x :: x in req.scope ==> x in client.allowedScopes
  }

  /** The first thing wrong with a request that earns no code. */
  ghost function AuthorizeError(s: State, tenant: Uuid, req: AuthorizeRequest, cfg: Config): Error {
    if (tenant, req.client) !in s.db.clients || !s.db.clients[(tenant, req.client)].active then ClientRejected
    else
      var client := s.db.clients[(tenant, req.client)];
      if req.redirectUri !in client.redirectUris then RedirectUriMismatch
      else if !AcceptsChallenge(req.challenge, req.challengeMethod, cfg.allowPlainPkce) then InvalidRequest
      else if req.prompt == Some("login") then ReAuthRequired
      else if !IsCurrent(s, tenant, client.pool, req.sso) then SessionInvalid
      else if !IsYoung(s, req.sso, req.maxAge) then ReAuthRequired
      else if !SessionServes(s, tenant, client.pool, req.sso, req.maxAge) then SessionInvalid
      else if s.db.identities[s.cache.sessions[req.sso].value.identity].machine then InvalidPrincipal
      else if req.scope == [] then InvalidRequest
      else UnauthorizedScope
  }

  /** A code is issued exactly when all of it holds; a refusal names the first thing wrong and changes nothing. */
  lemma AuthorizeExactly(s: State, tenant: Uuid, req: AuthorizeRequest, cfg: Config)
    ensures var (s', outcome) := Authorize(s, tenant, req, cfg);
            && (outcome.Authorized? <==> MayAuthorize(s, tenant, req, cfg))
            && (!outcome.Authorized? ==> s' == s && outcome == Refused(AuthorizeError(s, tenant, req, cfg)))
  {
    if FindClient(s, tenant, req.client).Some? {
      ValidateSessionExactly(s, tenant, FindClient(s, tenant, req.client).value.pool, req.sso, req.maxAge);
    }
    hide ValidateSession, SessionServes, IsCurrent, IsYoung, AcceptsChallenge;
  }

  // ── Redeeming a code ─────────────────────────────────────────────────────

  /** The client named by a token request, if it is active and any secret presented is the right one. */
  ghost predicate ClientServes(s: State, req: TokenRequest, client: Client) {
    && (req.tenant, req.client) in s.db.clients && s.db.clients[(req.tenant, req.client)] == client
    && client.active && (req.secret.Some? ==> client.secret == req.secret)
  }

  /** Some requested scope survives the narrowing for this identity. */
  ghost predicate GrantsSomething(row: Identity, enrolled: bool, requested: seq<string>, cfg: Config) {
    exists x :: Scopes.Survives(x, requested, row.permissions, cfg.requireAdminMfa, enrolled)
  }

  lemma PermittedExactlyWhen(row: Identity, enrolled: bool, requested: seq<string>, cfg: Config)
    ensures Scopes.Permitted(requested, row.permissions, cfg.requireAdminMfa, enrolled).Success?
            <==> GrantsSomething(row, enrolled, requested, cfg)
  {
    Scopes.PermittedExactly(requested, row.permissions, cfg.requireAdminMfa, enrolled);
    var r := Scopes.Permitted(requested, row.permissions, cfg.requireAdminMfa, enrolled);
    if r.Success? {
      assert r.value[0] in r.value;
      assert Scopes.Survives(r.value[0], requested, row.permissions, cfg.requireAdminMfa, enrolled);
    }
  }

  /** Everything tokens cost at code exchange. */
  ghost predicate MayRedeem(s: State, req: TokenRequest, code: Uuid, redirectUri: Option<string>, verifier: string) {
    && IsLive(s.cache.codes, code, s.now)
    && var context := s.cache.codes[code].value;
       && context.tenant == req.tenant && (redirectUri.Some? ==> redirectUri.value == context.redirectUri)
       && s.now <= context.createdAt + req.cfg.authCodeTtl
       && AcceptsVerifier(verifier)
       && Answers(verifier, context.challenge, context.challengeMethod, req.cfg.allowPlainPkce, req.cfg.digest)
       && (exists client ::
             && ClientServes(s, req, client) && client.id == context.client && "authorization_code" in client.grantTypes
             && Provenance.InPool(s.db.identities, context.identity, client.pool))
       && s.db.identities[context.identity].standing.Active?
       && GrantsSomething(s.db.identities[context.identity], IsEnrolled(s, context.identity), context.scopes, req.cfg)
       && req.signs
  }

  /** What keeps an identity of the pool from tokens of these scopes: itself, the scopes or at last the signing key. */
  ghost function StandingError(s: State, pool: Uuid, identity: Uuid, requested: seq<string>, cfg: Config): Error {
    if !Provenance.InPool(s.db.identities, identity, pool) || s.db.identities[identity].standing.Deleted? then NotFound
    else if s.db.identities[identity].standing.Inactive? then InvalidCredentials
    else if !GrantsSomething(s.db.identities[identity], IsEnrolled(s, identity), requested, cfg) then Forbidden
    else Internal
  }

  /** The first thing wrong with a code at this client, if anything is. */
  ghost function ContextError(s: State, req: TokenRequest, context: CodeContext, client: Client,
                              redirectUri: Option<string>, verifier: string): Option<Error>
  {
    if context.client != client.id || context.createdAt + req.cfg.authCodeTtl < s.now then Some(InvalidAuthCode)
    else if redirectUri.Some? && redirectUri.value != context.redirectUri then Some(RedirectUriMismatch)
    else if "authorization_code" !in client.grantTypes then Some(Validation)
    else if !AcceptsVerifier(verifier)
            || !Answers(verifier, context.challenge, context.challengeMethod, req.cfg.allowPlainPkce, req.cfg.digest)
    then Some(InvalidAuthCode)
    else None
  }

  /** The first thing wrong with an exchange of a live code that earns no tokens. */
  ghost function ExchangeError(s: State, req: TokenRequest, context: CodeContext, redirectUri: Option<string>,
                               verifier: string): Error
  {
    if context.tenant != req.tenant then InvalidAuthCode
    else if (req.tenant, req.client) !in s.db.clients
            || !ClientServes(s, req, s.db.clients[(req.tenant, req.client)]) then ClientRejected
    else
      var client := s.db.clients[(req.tenant, req.client)];
      match ContextError(s, req, context, client, redirectUri, verifier)
      case Some(e) => e
      case None => StandingError(s, client.pool, context.identity, context.scopes, req.cfg)
  }

  lemma CheckedExactly(s: State, req: TokenRequest, context: CodeContext, client: Client, redirectUri: Option<string>,
                       verifier: string)
    ensures CheckCode(s, req.tenant, context, client, redirectUri, verifier, req.cfg)
            == ContextError(s, req, context, client, redirectUri, verifier)
  {
    hide Answers, AcceptsVerifier;
  }

  lemma ApprovalError(s: State, req: TokenRequest, code: Uuid, redirectUri: Option<string>, verifier: string)
    requires IsLive(s.cache.codes, code, s.now)
    ensures var context := s.cache.codes[code].value;
            var r := ApproveCode(s, req, code, context, redirectUri, verifier);
            ExchangeError(s, req, context, redirectUri, verifier) == if r.Failure? then r.error else Internal
  {
    var context := s.cache.codes[code].value;
    if context.identity in s.db.identities {
      PermittedExactlyWhen(s.db.identities[context.identity], IsEnrolled(s, context.identity), context.scopes, req.cfg);
    }
    var found := AuthenticateClient(s, req.tenant, req.client, req.secret);
    if found.Some? {
      CheckedExactly(s, req, context, found.value, redirectUri, verifier);
    }
    hide Scopes.Permitted, GrantsSomething, IsEnrolled, CheckCode, ContextError;
  }

  /** Approval is what tokens cost, the signing key apart. */
  lemma ApprovedExactly(s: State, req: TokenRequest, code: Uuid, redirectUri: Option<string>, verifier: string)
    requires IsLive(s.cache.codes, code, s.now)
    ensures var context := s.cache.codes[code].value;
            var r := ApproveCode(s, req, code, context, redirectUri, verifier);
            && (r.Success? && req.signs <==> MayRedeem(s, req, code, redirectUri, verifier))
            && ExchangeError(s, req, context, redirectUri, verifier) == if r.Failure? then r.error else Internal
  {
    ApprovalError(s, req, code, redirectUri, verifier);
    hide ExchangeError;
    var context := s.cache.codes[code].value;
    if context.identity in s.db.identities {
      PermittedExactlyWhen(s.db.identities[context.identity], IsEnrolled(s, context.identity), context.scopes, req.cfg);
    }
    hide Scopes.Permitted, GrantsSomething, Answers, AcceptsVerifier, IsEnrolled;
    var found := AuthenticateClient(s, req.tenant, req.client, req.secret);
    assert forall client :: ClientServes(s, req, client) <==> found == Some(client);
  }

  /**
   Tokens are issued exactly when all of it holds; a refusal names the first thing wrong
   and changes nothing else. Whatever happens, the code is gone.
   */
  lemma RedeemExactly(s: State, req: TokenRequest, code: Uuid, redirectUri: Option<string>, verifier: string)
    ensures var (s', outcome) := RedeemCode(s, req, code, redirectUri, verifier);
            && (outcome.Tokens? <==> MayRedeem(s, req, code, redirectUri, verifier))
            && code !in s'.cache.codes
            && (!outcome.Tokens? ==>
                  && s' == s.(cache := s.cache.(codes := s.cache.codes - {code}))
                  && outcome == Refused(if !IsLive(s.cache.codes, code, s.now) then InvalidAuthCode
                                        else ExchangeError(s, req, s.cache.codes[code].value, redirectUri, verifier)))
  {
    hide ApproveCode;
    if IsLive(s.cache.codes, code, s.now) {
      ApprovedExactly(s, req, code, redirectUri, verifier);
      hide MayRedeem, ExchangeError;
    }
  }

  /** What is left to fit once a code has been issued and `d` seconds have passed. */
  ghost predicate MayExchange(s: State, tenant: Uuid, req: AuthorizeRequest, d: nat, token: TokenRequest,
                              verifier: string)
    requires (tenant, req.client) in s.db.clients && req.sso in s.cache.sessions
    requires s.cache.sessions[req.sso].value.identity in s.db.identities
  {
    var client, identity := s.db.clients[(tenant, req.client)], s.cache.sessions[req.sso].value.identity;
    && d < client.authCodeTtl && d <= token.cfg.authCodeTtl
    && (token.secret.Some? ==> client.secret == token.secret) && "authorization_code" in client.grantTypes
    && AcceptsVerifier(verifier)
    && Answers(verifier, req.challenge, req.challengeMethod, token.cfg.allowPlainPkce, token.cfg.digest)
    && GrantsSomething(s.db.identities[identity], IsEnrolled(s, identity), req.scope, token.cfg) && token.signs
  }

  lemma IssuedCode(s: State, tenant: Uuid, req: AuthorizeRequest, cfg: Config)
    requires Authorize(s, tenant, req, cfg).1.Authorized?
    ensures MayAuthorize(s, tenant, req, cfg)
    ensures var (s1, outcome) := Authorize(s, tenant, req, cfg);
            var client, session := s.db.clients[(tenant, req.client)], s.cache.sessions[req.sso].value;
            var context := CodeContext(tenant, client.id, session.identity, req.scope, req.redirectUri, req.challenge,
                                       req.challengeMethod, Auth(session.amr, session.createdAt), s.now);
            && outcome.code == s.nextId
            && s1 == s.(nextId := s.nextId + 1,
                        cache := s.cache.(codes :=
                          s.cache.codes[s.nextId := Entry(context, s.now + client.authCodeTtl)]),
                        log := s.log + [CodeIssued(s.nextId, req.sso, context)])
  {
    AuthorizeExactly(s, tenant, req, cfg);
  }

  /**
   From cookie to tokens: a code just issued is exchanged by the same client, `d`
   seconds later, if and only if it is young enough by the client's and the
   tenant's measure and client, verifier and scopes fit. Nothing about the session
   or the identity is left to fit.
   */
  lemma IssuedCodeRedeemsExactly(s: State, tenant: Uuid, req: AuthorizeRequest, cfg: Config, d: nat,
                                 token: TokenRequest, verifier: string)
    requires Authorize(s, tenant, req, cfg).1.Authorized? && token.tenant == tenant && token.client == req.client
    ensures MayAuthorize(s, tenant, req, cfg)
    ensures var (s1, outcome) := Authorize(s, tenant, req, cfg);
            RedeemCode(Handle(s1, Wait(d)).0, token, outcome.code, Some(req.redirectUri), verifier).1.Tokens?
            <==> MayExchange(s, tenant, req, d, token, verifier)
  {
    var (s1, outcome) := Authorize(s, tenant, req, cfg);
    var s2 := s1.(now := s1.now + d);
    assert Handle(s1, Wait(d)).0 == s2;
    IssuedCode(s, tenant, req, cfg);
    RedeemExactly(s2, token, outcome.code, Some(req.redirectUri), verifier);
    hide Handle, Authorize, RedeemCode, Answers, AcceptsVerifier, GrantsSomething;
    if MayExchange(s, tenant, req, d, token, verifier) {
      assert ClientServes(s2, token, s.db.clients[(tenant, req.client)]);
    }
  }

  // ── Rotating a refresh token ─────────────────────────────────────────────

  ghost predicate MayRotate(s: State, req: TokenRequest, token: Uuid) {
    && token in s.db.refresh
    && var record := s.db.refresh[token];
       && record.tenant == req.tenant && !record.revoked && s.now <= record.expiresAt
       && (exists client ::
             && ClientServes(s, req, client) && client.id == record.client && "refresh_token" in client.grantTypes
             && Provenance.InPool(s.db.identities, record.identity, client.pool))
       && s.db.identities[record.identity].standing.Active?
       && GrantsSomething(s.db.identities[record.identity], IsEnrolled(s, record.identity), record.scopes, req.cfg)
       && req.signs
  }

  /** New tokens are issued exactly when the record, the client and the identity all still stand. */
  lemma RotateExactly(s: State, req: TokenRequest, token: Uuid)
    ensures Rotate(s, req, token).1.Tokens? <==> MayRotate(s, req, token)
  {
    if token in s.db.refresh {
      var record := s.db.refresh[token];
      if record.identity in s.db.identities {
        PermittedExactlyWhen(s.db.identities[record.identity], IsEnrolled(s, record.identity), record.scopes, req.cfg);
      }
      hide Scopes.Permitted, GrantsSomething, Revoke;
      var found := AuthenticateClient(s, req.tenant, req.client, req.secret);
      assert forall client :: ClientServes(s, req, client) <==> found == Some(client);
    }
  }

  // ── PKCE over whole runs ─────────────────────────────────────────────────

  /** Token requests compute the S256 digest with `digest`. */
  ghost predicate Computes(req: Request, digest: string -> string) {
    req.DoRedeemCode? ==> req.token.cfg.digest == digest
  }

  ghost predicate IsRedemption(f: Fact) { f.Minted? && f.mint.source.FromCode? }

  /** The code behind a redemption was issued with a challenge that the presented verifier answers. */
  ghost predicate Bound(f: Fact, log: seq<Fact>, digest: string -> string) {
    IsRedemption(f) ==>
      exists g :: g in log && g.CodeIssued? && g.code == f.mint.source.code && AcceptsVerifier(f.mint.source.verifier)
                  && Answers(f.mint.source.verifier, g.context.challenge, g.context.challengeMethod, true, digest)
  }

  ghost predicate AllBound(log: seq<Fact>, digest: string -> string) {
    forall f :: f in log ==> Bound(f, log, digest)
  }

  lemma GrowthBound(log: seq<Fact>, added: seq<Fact>, digest: string -> string)
    requires AllBound(log, digest) && forall f :: f in added ==> Bound(f, log, digest)
    ensures AllBound(log + added, digest)
  {
    forall f | f in log + added
      ensures Bound(f, log + added, digest)
    {
      assert Bound(f, log, digest);
    }
  }

  /** Requests other than a code exchange append no redemption. */
  lemma OthersBound(s: State, req: Request, digest: string -> string)
    requires AllBound(s.log, digest) && !req.DoRedeemCode?
    ensures AllBound(Handle(s, req).0.log, digest)
  {
    History.StepTells(s, req);
    var s' := Handle(s, req).0;
    hide Handle;
    var added := s'.log[|s.log|..];
    assert s'.log == s.log + added;
    forall f | f in added
      ensures Bound(f, s.log, digest)
    {
      var i :| 0 <= i < |added| && added[i] == f;
      assert f == s'.log[|s.log| + i];
    }
    GrowthBound(s.log, added, digest);
  }

  lemma RedeemBound(s: State, req: TokenRequest, code: Uuid, redirectUri: Option<string>, verifier: string)
    requires Provenance.Inv(s) && AllBound(s.log, req.cfg.digest)
    ensures AllBound(RedeemCode(s, req, code, redirectUri, verifier).0.log, req.cfg.digest)
  {
    var (s', outcome) := RedeemCode(s, req, code, redirectUri, verifier);
    RedeemExactly(s, req, code, redirectUri, verifier);
    if outcome.Tokens? {
      var context := s.cache.codes[code].value;
      var g :| g in s.log && g.CodeIssued? && g.code == code && g.context == context;
      RedeemedFact(s, req, code, redirectUri, verifier);
      hide RedeemCode;
      var fact := s'.log[|s.log|];
      assert Bound(fact, s.log, req.cfg.digest);
      GrowthBound(s.log, [fact], req.cfg.digest);
    }
  }

  lemma RedeemedFact(s: State, req: TokenRequest, code: Uuid, redirectUri: Option<string>, verifier: string)
    requires RedeemCode(s, req, code, redirectUri, verifier).1.Tokens?
    ensures var s' := RedeemCode(s, req, code, redirectUri, verifier).0;
            && |s'.log| == |s.log| + 1 && s'.log == s.log + [s'.log[|s.log|]]
            && s'.log[|s.log|].Minted? && s'.log[|s.log|].mint.source == FromCode(code, verifier)
  {
    var context := s.cache.codes[code].value;
    Provenance.ApprovedCodeMeans(s, req, code, context, redirectUri, verifier);
    hide ApproveCode;
  }

  lemma {:induction false} RunBound(s: State, reqs: seq<Request>, digest: string -> string)
    requires Provenance.Inv(s) && AllBound(s.log, digest)
    requires forall i :: 0 <= i < |reqs| ==> Computes(reqs[i], digest)
    ensures AllBound(Run(s, reqs).log, digest)
    decreases reqs
  {
    hide Provenance.Inv;
    if reqs != [] {
      var s1 := Handle(s, reqs[0]).0;
      Provenance.StepKeeps(s, reqs[0]);
      if reqs[0].DoRedeemCode? {
        RedeemBound(s, reqs[0].token, reqs[0].code, reqs[0].redirectUri, reqs[0].verifier);
      } else {
        OthersBound(s, reqs[0], digest);
      }
      RunBound(s1, reqs[1..], digest);
    }
  }

  /**
   In every run, whoever redeemed a code presented a well-formed verifier that
   answers the challenge the code was issued with: under S256 it hashes to the
   challenge, under the plain method it is the challenge.
   */
  lemma OnlyTheRightVerifierRedeems(s: State, reqs: seq<Request>, digest: string -> string, k: nat)
    requires IsInitial(s) && forall i :: 0 <= i < |reqs| ==> Computes(reqs[i], digest)
    requires k < |Run(s, reqs).log| && IsRedemption(Run(s, reqs).log[k])
    ensures Bound(Run(s, reqs).log[k], Run(s, reqs).log, digest)
  {
    RunBound(s, reqs, digest);
    assert Run(s, reqs).log[k] in Run(s, reqs).log;
  }
}
