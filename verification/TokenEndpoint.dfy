/**
 What the token endpoint answers and keeps, told in terms of the rows it depends on:
 when a client earns tokens of its own, which scopes an answer carries, what a saved
 refresh token holds, and when that token earns the next one.
 */
module TokenEndpoint {
  import opened Wrappers
  import opened Pkce
  import opened Credentials
  import opened Redemption
  import Logins
  import Provenance
  import Rotation
  import Scopes

  // ── A client for itself ──────────────────────────────────────────────────

  ghost predicate MayGrant(s: State, tenant: Uuid, name: string, secret: string, scope: Option<seq<string>>,
                           signs: bool)
  {
    && Logins.IsActiveClient(s, tenant, name)
    && var client := s.db.clients[(tenant, name)];
       && client.secret == Some(secret) && "client_credentials" in client.grantTypes
       && (scope.Some? ==> forall x :: x in scope.value ==> x in client.allowedScopes)
       && signs
  }

  /**
   A client earns tokens for itself if and only if it is active, presents its secret,
   has the grant type and asks for nothing it is not allowed. The token carries exactly
   what was asked for, or all that is allowed, cross-tenant scopes apart; nothing is
   saved, and a refusal changes nothing.
   */
  lemma ClientCredentialsExactly(s: State, tenant: Uuid, platform: bool, name: string, secret: string,
                                 scope: Option<seq<string>>, signs: bool)
    ensures var (s', outcome) := Handle(s, DoClientCredentials(tenant, platform, name, secret, scope, signs));
            && (outcome.Tokens? <==> MayGrant(s, tenant, name, secret, scope, signs))
            && (outcome.Tokens? ==>
                  var client := s.db.clients[(tenant, name)];
                  var asked := if scope.Some? then scope.value else client.allowedScopes;
                  && Scopes.IsStripped(outcome.scopes, asked, platform)
                  && outcome.refreshToken == None
                  && s' == s.(nextId := s.nextId + 2,
                              log := s.log + [Minted(Mint(FromClient, tenant, client.pool, client.id, None,
                                                          outcome.scopes, None, None, s.nextId + 1, s.now))]))
            && (!outcome.Tokens? ==>
                  && s' == s
                  && outcome == Refused(
                       if !Logins.IsActiveClient(s, tenant, name) || s.db.clients[(tenant, name)].secret != Some(secret)
                       then ClientRejected
                       else if !MayGrant(s, tenant, name, secret, scope, true) then Validation else Internal))
  {
    hide MintTokens, Scopes.Strip, Scopes.IsStripped;
    if Logins.IsActiveClient(s, tenant, name) {
      var client := s.db.clients[(tenant, name)];
      var asked := if scope.Some? then scope.value else client.allowedScopes;
      Scopes.StripSifts(asked, platform);
      ClientMint(s, tenant, platform, client, asked, signs);
    }
  }

  lemma ClientMint(s: State, tenant: Uuid, platform: bool, client: Client, scopes: seq<string>, signs: bool)
    ensures var carried := Scopes.Strip(scopes, platform);
            MintTokens(s, tenant, platform, client, Grant(FromClient, None, scopes, None, None), signs)
            == if !signs then (s, Refused(Internal))
               else (s.(nextId := s.nextId + 2,
                        log := s.log + [Minted(Mint(FromClient, tenant, client.pool, client.id, None, carried, None,
                                                    None, s.nextId + 1, s.now))]),
                     Tokens(carried, None))
  {
    hide Scopes.Strip;
  }

  // ── An identity's tokens ─────────────────────────────────────────────────

  /** A scope that this identity may hold and this tenant may mint. */
  ghost predicate IsGranted(s: State, req: TokenRequest, identity: Uuid, scope: string)
    requires identity in s.db.identities
  {
    && Scopes.MayHold(scope, s.db.identities[identity].permissions, req.cfg.requireAdminMfa, IsEnrolled(s, identity))
    && (req.tenantIsPlatform || !Scopes.IsPlatform(scope))
  }

  /** The record that a client with this lifetime for refresh tokens has saved. */
  ghost function SavedRecord(s: State, tenant: Uuid, client: Client, identity: Uuid, scopes: seq<string>,
                             auth: Option<Auth>, family: Uuid): RefreshRecord
  {
    RefreshRecord(tenant, client.id, identity, scopes, auth, s.now + client.refreshTokenTtl, false, family)
  }

  /**
   The answer carries exactly the granted scopes of the request; a refresh token with
   the same scopes is saved exactly at a client that allows it, over the records
   `kept`; and the mint is recorded.
   */
  ghost predicate Issues(s: State, s': State, outcome: Outcome, req: TokenRequest, g: Grant,
                         kept: map<Uuid, RefreshRecord>)
    requires (req.tenant, req.client) in s.db.clients && g.identity.Some? && g.identity.value in s.db.identities
  {
    var client, identity := s.db.clients[(req.tenant, req.client)], g.identity.value;
    var family := if g.family.Some? then g.family.value else s.nextId + 1;
    && outcome.Tokens?
    && Scopes.Sifted(outcome.scopes, g.scopes, x => IsGranted(s, req, identity, x))
    && outcome.refreshToken == (if client.allowRefreshTokens then Some(s.nextId) else None)
    && s'.db == s.db.(refresh :=
         if client.allowRefreshTokens
         then kept[s.nextId := SavedRecord(s, req.tenant, client, identity, outcome.scopes, g.auth, family)] else kept)
    && s'.log == s.log + [Minted(Mint(g.source, req.tenant, client.pool, client.id, g.identity, outcome.scopes, g.auth,
                                      outcome.refreshToken, family, s.now))]
    && s'.nextId == s.nextId + 2 && s'.now == s.now && s'.challenges == s.challenges
  }

  /** Narrowing and stripping together leave exactly the granted scopes. */
  lemma GrantedSifts(s: State, req: TokenRequest, identity: Uuid, requested: seq<string>)
    requires identity in s.db.identities
    requires Scopes.Permitted(requested, s.db.identities[identity].permissions, req.cfg.requireAdminMfa,
                              IsEnrolled(s, identity)).Success?
    ensures var narrowed := Scopes.Permitted(requested, s.db.identities[identity].permissions, req.cfg.requireAdminMfa,
                                             IsEnrolled(s, identity)).value;
            Scopes.Sifted(Scopes.Strip(narrowed, req.tenantIsPlatform), requested, x => IsGranted(s, req, identity, x))
  {
    var row, enrolled := s.db.identities[identity], IsEnrolled(s, identity);
    var narrowed := Scopes.Permitted(requested, row.permissions, req.cfg.requireAdminMfa, enrolled).value;
    Scopes.PermittedSifts(requested, row.permissions, req.cfg.requireAdminMfa, enrolled);
    Scopes.StripSifts(narrowed, req.tenantIsPlatform);
    hide Scopes.Permitted, Scopes.Strip, Scopes.Sifted, IsEnrolled;
    Scopes.SiftedTwice(Scopes.Strip(narrowed, req.tenantIsPlatform), narrowed, requested,
                       x => Scopes.MayHold(x, row.permissions, req.cfg.requireAdminMfa, enrolled),
                       x => req.tenantIsPlatform || !Scopes.IsPlatform(x), x => IsGranted(s, req, identity, x));
  }

  /** Minting for an identity whose request came down to these scopes issues them. */
  lemma MintIssues(s: State, s1: State, req: TokenRequest, g: Grant, requested: seq<string>)
    requires (req.tenant, req.client) in s.db.clients && g.identity.Some? && g.identity.value in s.db.identities
    requires s1 == s.(cache := s1.cache, db := s.db.(refresh := s1.db.refresh))
    requires MintTokens(s1, req.tenant, req.tenantIsPlatform, s.db.clients[(req.tenant, req.client)], g,
                        req.signs).1.Tokens?
    requires Scopes.Sifted(Scopes.Strip(g.scopes, req.tenantIsPlatform), requested,
                           x => IsGranted(s, req, g.identity.value, x))
    ensures var (s', outcome) := MintTokens(s1, req.tenant, req.tenantIsPlatform,
                                            s.db.clients[(req.tenant, req.client)], g, req.signs);
            Issues(s, s', outcome, req, g.(scopes := requested), s1.db.refresh) && s'.cache == s1.cache
  {
    hide Scopes.Strip, Scopes.Sifted, IsGranted;
  }

  /** What a code exchange answers and keeps. */
  lemma RedeemedExactly(s: State, req: TokenRequest, code: Uuid, redirectUri: Option<string>, verifier: string)
    requires RedeemCode(s, req, code, redirectUri, verifier).1.Tokens?
    ensures MayRedeem(s, req, code, redirectUri, verifier)
    ensures var (s', outcome) := RedeemCode(s, req, code, redirectUri, verifier);
            var context := s.cache.codes[code].value;
            && s'.cache == s.cache.(codes := s.cache.codes - {code})
            && Issues(s, s', outcome, req, Grant(FromCode(code, verifier), Some(context.identity), context.scopes,
                                                 Some(context.auth), None), s.db.refresh)
  {
    RedeemExactly(s, req, code, redirectUri, verifier);
    var context := s.cache.codes[code].value;
    var a := ApproveCode(s, req, code, context, redirectUri, verifier).value;
    ApprovedGrant(s, req, code, redirectUri, verifier);
    GrantedSifts(s, req, context.identity, context.scopes);
    hide ApproveCode, MayRedeem, Scopes.Permitted, IsGranted, IsEnrolled, MintTokens, Issues;
    MintIssues(s, s.(cache := s.cache.(codes := s.cache.codes - {code})), req, a.grant, context.scopes);
  }

  lemma ApprovedGrant(s: State, req: TokenRequest, code: Uuid, redirectUri: Option<string>, verifier: string)
    requires MayRedeem(s, req, code, redirectUri, verifier)
    ensures var context := s.cache.codes[code].value;
            var row := s.db.identities[context.identity];
            var narrowed := Scopes.Permitted(context.scopes, row.permissions, req.cfg.requireAdminMfa,
                                             IsEnrolled(s, context.identity));
            && narrowed.Success?
            && ApproveCode(s, req, code, context, redirectUri, verifier)
               == Success(Approval(s.db.clients[(req.tenant, req.client)],
                                   Grant(FromCode(code, verifier), Some(context.identity), narrowed.value,
                                         Some(context.auth), None)))
  {
    ApprovedExactly(s, req, code, redirectUri, verifier);
    hide Scopes.Permitted, GrantsSomething, Answers, AcceptsVerifier, IsEnrolled;
  }

  /** What a rotation answers and keeps. */
  lemma RotatedExactly(s: State, req: TokenRequest, token: Uuid)
    requires Rotate(s, req, token).1.Tokens?
    ensures MayRotate(s, req, token)
    ensures var (s', outcome) := Rotate(s, req, token);
            var record := s.db.refresh[token];
            && s'.cache == s.cache
            && Issues(s, s', outcome, req, Grant(FromRefresh(token), Some(record.identity), record.scopes, record.auth,
                                                 Some(record.family)),
                      s.db.refresh[token := record.(revoked := true)])
  {
    RotateExactly(s, req, token);
    var record := s.db.refresh[token];
    JudgedGrant(s, req, token);
    GrantedSifts(s, req, record.identity, record.scopes);
    RevokeOne(s.db.refresh, token);
    var a := Judge(s, req, token).approval;
    hide Judge, MayRotate, Scopes.Permitted, IsGranted, IsEnrolled, Revoke, MintTokens, Issues;
    MintIssues(s, s.(db := s.db.(refresh := Revoke(s.db.refresh, Token(token)))), req, a.grant, record.scopes);
  }

  lemma RevokeOne(records: map<Uuid, RefreshRecord>, token: Uuid)
    requires token in records
    ensures Revoke(records, Token(token)) == records[token := records[token].(revoked := true)]
  {
  }

  lemma JudgedGrant(s: State, req: TokenRequest, token: Uuid)
    requires MayRotate(s, req, token)
    ensures var record := s.db.refresh[token];
            var row := s.db.identities[record.identity];
            var narrowed := Scopes.Permitted(record.scopes, row.permissions, req.cfg.requireAdminMfa,
                                             IsEnrolled(s, record.identity));
            && narrowed.Success?
            && Judge(s, req, token)
               == Reissue(Approval(s.db.clients[(req.tenant, req.client)],
                                   Grant(FromRefresh(token), Some(record.identity), narrowed.value, record.auth,
                                         Some(record.family))))
  {
    PermittedExactlyWhen(s.db.identities[s.db.refresh[token].identity], IsEnrolled(s, s.db.refresh[token].identity),
                         s.db.refresh[token].scopes, req.cfg);
    hide Scopes.Permitted, GrantsSomething, IsEnrolled;
  }

  // ── A rotation that is refused ───────────────────────────────────────────

  /** The token is stored at this tenant, and the client authenticates. */
  ghost predicate IsRecognised(s: State, req: TokenRequest, token: Uuid) {
    && token in s.db.refresh && s.db.refresh[token].tenant == req.tenant
    && Logins.IsActiveClient(s, req.tenant, req.client)
    && (req.secret.Some? ==> s.db.clients[(req.tenant, req.client)].secret == req.secret)
  }

  /** It is this client's, and has been neither used nor revoked. */
  ghost predicate IsOwn(s: State, req: TokenRequest, token: Uuid)
    requires IsRecognised(s, req, token)
  {
    s.db.refresh[token].client == s.db.clients[(req.tenant, req.client)].id && !s.db.refresh[token].revoked
  }

  /** It has not expired, and the client may rotate it: from here on it is spent. */
  ghost predicate IsUsed(s: State, req: TokenRequest, token: Uuid) {
    && IsRecognised(s, req, token) && IsOwn(s, req, token) && s.now <= s.db.refresh[token].expiresAt
    && "refresh_token" in s.db.clients[(req.tenant, req.client)].grantTypes
  }

  /** Reuse, theft, or an identity that is stored but no longer active. */
  ghost predicate EndsFamily(s: State, req: TokenRequest, token: Uuid) {
    && IsRecognised(s, req, token)
    && (!IsOwn(s, req, token)
        || (&& IsUsed(s, req, token)
            && var pool, identity := s.db.clients[(req.tenant, req.client)].pool, s.db.refresh[token].identity;
               Provenance.InPool(s.db.identities, identity, pool) && s.db.identities[identity].standing == Inactive))
  }

  /** The first thing wrong with a rotation that earns no tokens. */
  ghost function RotateError(s: State, req: TokenRequest, token: Uuid): Error {
    if token !in s.db.refresh || s.db.refresh[token].tenant != req.tenant then InvalidCredentials
    else if !IsRecognised(s, req, token) then ClientRejected
    else if !IsOwn(s, req, token) || s.db.refresh[token].expiresAt < s.now then InvalidCredentials
    else if !IsUsed(s, req, token) then Validation
    else
      var record, client := s.db.refresh[token], s.db.clients[(req.tenant, req.client)];
      StandingError(s, client.pool, record.identity, record.scopes, req.cfg)
  }

  /**
   A refused rotation revokes the whole family exactly on reuse, theft or an inactive
   identity, revokes the token itself exactly when it was used, and changes nothing else;
   it names the first thing wrong.
   */
  lemma RefusedRotationExactly(s: State, req: TokenRequest, token: Uuid)
    requires !Rotate(s, req, token).1.Tokens?
    ensures var (s', outcome) := Rotate(s, req, token);
            && s' == s.(db := s.db.(refresh := s'.db.refresh)) && s'.db.refresh.Keys == s.db.refresh.Keys
            && (forall t :: t in s.db.refresh ==>
                  var r := s.db.refresh[t];
                  s'.db.refresh[t] == r.(revoked := r.revoked || (IsUsed(s, req, token) && t == token)
                                                    || (EndsFamily(s, req, token)
                                                        && r.family == s.db.refresh[token].family)))
            && outcome == Refused(RotateError(s, req, token))
  {
    JudgedExactly(s, req, token);
    hide MintTokens, EndsFamily, IsUsed, RotateError;
    if Judge(s, req, token).Reissue? {
      RefusedMint(s, req, token);
    }
    hide Judge;
  }

  lemma JudgedExactly(s: State, req: TokenRequest, token: Uuid)
    ensures var verdict := Judge(s, req, token);
            && (verdict.EndFamily? <==> EndsFamily(s, req, token))
            && (verdict.Retire? || verdict.Reissue? ==> IsUsed(s, req, token))
            && (IsUsed(s, req, token) ==> !verdict.Ignore?)
            && (!verdict.Ignore? ==> token in s.db.refresh)
            && RotateError(s, req, token) == if verdict.Reissue? then Internal else verdict.error
  {
    if token in s.db.refresh && s.db.refresh[token].identity in s.db.identities {
      var record := s.db.refresh[token];
      PermittedExactlyWhen(s.db.identities[record.identity], IsEnrolled(s, record.identity), record.scopes, req.cfg);
    }
    hide Scopes.Permitted, IsEnrolled, GrantsSomething;
  }

  lemma RefusedMint(s: State, req: TokenRequest, token: Uuid)
    requires !Rotate(s, req, token).1.Tokens? && Judge(s, req, token).Reissue?
    ensures Rotate(s, req, token)
            == (s.(db := s.db.(refresh := Revoke(s.db.refresh, Token(token)))), Refused(Internal))
  {
    hide Judge;
  }

  // ── From one refresh token to the next ───────────────────────────────────

  ghost predicate IsTokenRequest(req: Request) { req.DoRedeemCode? || req.DoRotate? }

  /** The refresh token that a code exchange or a rotation answers with, and what is saved of it. */
  ghost predicate Hands(s: State, req: Request, token: Uuid, record: RefreshRecord) {
    && IsTokenRequest(req) && Handle(s, req).1.Tokens? && Handle(s, req).1.refreshToken == Some(token)
    && (req.token.tenant, req.token.client) in s.db.clients
    && var client, s' := s.db.clients[(req.token.tenant, req.token.client)], Handle(s, req).0;
       && record.tenant == req.token.tenant && record.client == client.id && !record.revoked
       && record.expiresAt == s.now + client.refreshTokenTtl && record.scopes == Handle(s, req).1.scopes
       && Logins.Stands(s, client.pool, record.identity)
       && token in s'.db.refresh && s'.db.refresh[token] == record && token < s'.nextId
       && s'.now == s.now && s'.db.identities == s.db.identities && s'.db.clients == s.db.clients
       && s'.db.factors == s.db.factors
  }

  lemma Handed(s: State, req: Request) returns (record: RefreshRecord)
    requires IsTokenRequest(req) && Handle(s, req).1.Tokens? && Handle(s, req).1.refreshToken.Some?
    ensures Hands(s, req, Handle(s, req).1.refreshToken.value, record)
  {
    record := Handle(s, req).0.db.refresh[Handle(s, req).1.refreshToken.value];
    match req {
      case DoRedeemCode(token, code, redirectUri, verifier) => RedeemedExactly(s, token, code, redirectUri, verifier);
      case DoRotate(token, refreshToken) => RotatedExactly(s, token, refreshToken);
      case _ =>
    }
    hide RedeemCode, Rotate, Scopes.Sifted, IsGranted, GrantsSomething, Answers, AcceptsVerifier;
  }

  /** What the saved token needs at the moment it is presented. */
  ghost predicate StillFits(s: State, req: TokenRequest, token: Uuid, record: RefreshRecord) {
    && token in s.db.refresh && !s.db.refresh[token].revoked && s.now <= record.expiresAt
    && req.tenant == record.tenant && Logins.IsActiveClient(s, req.tenant, req.client)
    && var client := s.db.clients[(req.tenant, req.client)];
       && (req.secret.Some? ==> client.secret == req.secret) && client.id == record.client
       && "refresh_token" in client.grantTypes && Logins.Stands(s, client.pool, record.identity)
       && GrantsSomething(s.db.identities[record.identity], IsEnrolled(s, record.identity), record.scopes, req.cfg)
       && req.signs
  }

  /**
   From one refresh token to the next: after any run, a token handed out earns the next
   one if and only if it has been neither revoked nor deleted, is no older than the
   client's lifetime was, the client and the identity stand, a scope it was issued with
   survives, and the key signs.
   */
  lemma SavedTokenRotatesExactly(s: State, req: Request, reqs: seq<Request>, next: TokenRequest)
    returns (record: RefreshRecord)
    requires Rotation.Inv(s) && IsTokenRequest(req)
    requires Handle(s, req).1.Tokens? && Handle(s, req).1.refreshToken.Some?
    ensures var token := Handle(s, req).1.refreshToken.value;
            var s2 := Run(Handle(s, req).0, reqs);
            && Hands(s, req, token, record)
            && (Rotate(s2, next, token).1.Tokens? <==> StillFits(s2, next, token, record))
  {
    hide Run, Rotation.Inv;
    var s1 := Handle(s, req).0;
    var token := Handle(s, req).1.refreshToken.value;
    record := Handed(s, req);
    hide Handle;
    var s2 := Run(s1, reqs);
    Rotation.StepKeeps(s, req);
    Rotation.RowStays(s1, reqs, token, record);
    RotateExactly(s2, next, token);
    FitsExactly(s2, next, token, record);
    hide Rotate, MayRotate, StillFits;
  }

  lemma FitsExactly(s: State, req: TokenRequest, token: Uuid, record: RefreshRecord)
    requires Rotation.IsRow(s, token, record)
    ensures MayRotate(s, req, token) <==> StillFits(s, req, token, record)
  {
    hide GrantsSomething, IsEnrolled;
    if StillFits(s, req, token, record) {
      assert ClientServes(s, req, s.db.clients[(req.tenant, req.client)]);
    }
  }

  /**
   Presented by the same client after `d` seconds in which nothing else happened, it
   earns the next one if and only if `d` is within the client's lifetime, the secret and
   the grant type fit, a scope survives, and the key signs.
   */
  lemma FreshTokenRotatesExactly(s: State, req: Request, d: nat, next: TokenRequest) returns (record: RefreshRecord)
    requires IsTokenRequest(req) && Handle(s, req).1.Tokens? && Handle(s, req).1.refreshToken.Some?
    requires next.tenant == req.token.tenant && next.client == req.token.client
    ensures var token := Handle(s, req).1.refreshToken.value;
            var s2 := Handle(Handle(s, req).0, Wait(d)).0;
            && Hands(s, req, token, record)
            && var client := s.db.clients[(req.token.tenant, req.token.client)];
               (Rotate(s2, next, token).1.Tokens? <==>
                  && d <= client.refreshTokenTtl && (next.secret.Some? ==> client.secret == next.secret)
                  && "refresh_token" in client.grantTypes
                  && GrantsSomething(s.db.identities[record.identity], IsEnrolled(s, record.identity), record.scopes,
                                     next.cfg)
                  && next.signs)
  {
    var s1 := Handle(s, req).0;
    var token := Handle(s, req).1.refreshToken.value;
    record := Handed(s, req);
    var s2 := s1.(now := s1.now + d);
    assert Handle(s1, Wait(d)).0 == s2;
    RotateExactly(s2, next, token);
    FitsExactly(s2, next, token, record);
    hide Handle, Rotate, MayRotate, GrantsSomething;
  }
}
