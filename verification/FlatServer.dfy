/**
 The credential chain run over one flat Redis. A request reads only the keys that
 it names, by their strings, and writes by commands; nothing else of the typed
 maps exists. In every run each request gets the answer that the chain over typed
 maps gives, and leaves everything as that leaves it.
 */
module FlatServer {
  import opened Wrappers
  import opened Redis
  import opened Credentials
  import opened Pkce
  import opened FlatStore
  import Scopes

  /** The state of the chain with the flat map in place of the typed ones. */
  datatype FlatState = FlatState(
    now: Time, nextId: Uuid, flat: Flat, db: Tables, challenges: map<Uuid, Challenge>, log: seq<Fact>)

  // ── What a request reads ─────────────────────────────────────────────────

  function EpochOf(challenges: map<Uuid, Challenge>, tenant: Uuid, jti: Uuid): seq<Slot> {
    if jti in challenges then [Epoch(tenant, challenges[jti].identity)] else []
  }

  /** The keys a request reads; `session` is what an authorize request finds under its cookie. */
  function Needed(challenges: map<Uuid, Challenge>, req: Request, session: Option<Entry<Blob>>): seq<Slot> {
    match req
    case DoLogin(tenant, _, identity, _, _) => [Epoch(tenant, identity)]
    case DoLoginMfa(tenant, _, jti, _, _, _) => [Used(jti), Tries(jti)] + EpochOf(challenges, tenant, jti)
    case DoAuthorize(tenant, authorize, _) =>
      [Sso(authorize.sso)]
      + (if session.Some? && session.value.value.SsoBlob?
         then [Epoch(tenant, session.value.value.session.identity)] else [])
    case DoRedeemCode(_, code, _, _) => [Slot.Code(code)]
    case DoChangePassword(_, _, identity, _, _, _, _) => [SelfTries(identity)]
    case DoReset(_, reset, _, _) => [Slot.Reset(reset)]
    case DoResetMfa(_, jti, _, _, _, _) => [Used(jti), Tries(jti)]
    case _ => []
  }

  /** What an authorize request finds under its cookie. */
  function Peek(flat: Flat, req: Request, uuid: Naming): Option<Entry<Blob>> {
    if req.DoAuthorize? then At(flat, Name(Sso(req.authorize.sso), uuid)) else None
  }

  function PeekTyped(c: Cache, req: Request): Option<Entry<Blob>> {
    if req.DoAuthorize? then Lookup(c, Sso(req.authorize.sso)) else None
  }

  /** A cache with one more slot filled, if there is a value of its type. */
  function Load(c: Cache, slot: Slot, e: Option<Entry<Blob>>): Cache {
    if e.None? then c
    else
      var Entry(value, expiry) := e.value;
      match slot
      case Epoch(tenant, identity) =>
        if value.Number? then c.(epochs := c.epochs[(tenant, identity) := Entry(value.count, expiry)]) else c
      case Sso(id) => if value.SsoBlob? then c.(sessions := c.sessions[id := Entry(value.session, expiry)]) else c
      case Code(id) => if value.CodeBlob? then c.(codes := c.codes[id := Entry(value.context, expiry)]) else c
      case Used(jti) => if value.FlagBlob? then c.(spent := c.spent[jti := Entry(value.flag, expiry)]) else c
      case Tries(jti) => if value.Number? then c.(attempts := c.attempts[jti := Entry(value.count, expiry)]) else c
      case SelfTries(identity) =>
        if value.Number? then c.(selfAttempts := c.selfAttempts[identity := Entry(value.count, expiry)]) else c
      case Reset(token) =>
        if value.ResetBlob? then c.(resets := c.resets[token := Entry(value.reset, expiry)]) else c
  }

  const NOTHING: Cache := Cache(map[], map[], map[], map[], map[], map[], map[])

  /** Reads the slots by their names and nothing else. */
  function Fetch(flat: Flat, slots: seq<Slot>, uuid: Naming): Cache
    decreases |slots|
  {
    if slots == [] then NOTHING
    else Load(Fetch(flat, slots[1..], uuid), slots[0], At(flat, Name(slots[0], uuid)))
  }

  /** A step over the flat map: read the needed keys, handle the request on them alone, send the commands. */
  function FlatHandle(fs: FlatState, req: Request, uuid: Naming): (FlatState, Outcome) {
    var slots := Needed(fs.challenges, req, Peek(fs.flat, req, uuid));
    var s := State(fs.now, fs.nextId, Fetch(fs.flat, slots, uuid), fs.db, fs.challenges, fs.log);
    var (s', outcome) := Handle(s, req);
    (FlatState(s'.now, s'.nextId, ApplyAllFlat(fs.flat, Commands(s, req), s.now, uuid), s'.db, s'.challenges, s'.log),
     outcome)
  }

  // ── Fetching ─────────────────────────────────────────────────────────────

  /** A value has the type of its slot. */
  ghost predicate Fits(slot: Slot, e: Option<Entry<Blob>>) {
    e.Some? ==>
      match slot
      case Epoch(_, _) => e.value.value.Number?
      case Sso(_) => e.value.value.SsoBlob?
      case Code(_) => e.value.value.CodeBlob?
      case Used(_) => e.value.value.FlagBlob?
      case Tries(_) => e.value.value.Number?
      case SelfTries(_) => e.value.value.Number?
      case Reset(_) => e.value.value.ResetBlob?
  }

  lemma LookupFits(c: Cache, slot: Slot)
    ensures Fits(slot, Lookup(c, slot))
  {
  }

  lemma LoadFills(c: Cache, slot: Slot, e: Option<Entry<Blob>>)
    requires Fits(slot, e) && e.Some?
    ensures Lookup(Load(c, slot, e), slot) == e
  {
    match slot
    case Epoch(_, _) =>
    case Sso(_) =>
    case Code(_) =>
    case Used(_) =>
    case Tries(_) =>
    case SelfTries(_) =>
    case Reset(_) =>
  }

  lemma LoadSpares(c: Cache, slot: Slot, e: Option<Entry<Blob>>, other: Slot)
    requires other != slot
    ensures Lookup(Load(c, slot, e), other) == Lookup(c, other)
  {
  }

  /** Of a represented cache, exactly the named slots are fetched. */
  lemma {:induction false} Fetched(flat: Flat, c: Cache, slots: seq<Slot>, uuid: Naming, slot: Slot)
    requires Represents(flat, c, uuid)
    ensures Lookup(Fetch(flat, slots, uuid), slot) == if slot in slots then Lookup(c, slot) else None
    decreases |slots|
  {
    hide Name, Load, Lookup, At;
    if slots == [] {
      EmptyLookup(slot);
    } else {
      var tail := Fetch(flat, slots[1..], uuid);
      var e := At(flat, Name(slots[0], uuid));
      Fetched(flat, c, slots[1..], uuid, slot);
      LookupFits(c, slots[0]);
      if slot != slots[0] {
        LoadSpares(tail, slots[0], e, slot);
      } else if e.Some? {
        LoadFills(tail, slot, e);
      } else {
        LoadNothing(tail, slot);
      }
    }
  }

  lemma EmptyLookup(slot: Slot)
    ensures Lookup(NOTHING, slot) == None
  {
  }

  lemma LoadNothing(c: Cache, slot: Slot)
    ensures Load(c, slot, None) == c
  {
  }

  // ── A request depends on nothing else ────────────────────────────────────

  /** The states are equal but for their caches. */
  ghost predicate SameRest(s: State, s': State) { s' == s.(cache := s'.cache) }

  /** With the cache `c` the request is answered, leaves the rest and sends commands as it does in `s`. */
  ghost predicate SameAnswer(s: State, c: Cache, req: Request) {
    var s' := s.(cache := c);
    && Handle(s', req).1 == Handle(s, req).1 && SameRest(Handle(s, req).0, Handle(s', req).0)
    && Commands(s', req) == Commands(s, req)
  }

  ghost predicate Agree(c: Cache, c': Cache, slots: seq<Slot>) {
    forall slot :: slot in slots ==> Lookup(c', slot) == Lookup(c, slot)
  }

  lemma CountsAgree<K>(m: map<K, Entry<nat>>, m': map<K, Entry<nat>>, k: K, now: Time)
    requires Counter(m', k) == Counter(m, k)
    ensures Count(m', k, now) == Count(m, k, now)
  {
  }

  lemma EpochsAgree(c: Cache, c': Cache, tenant: Uuid, identity: Uuid, now: Time)
    requires Lookup(c', Epoch(tenant, identity)) == Lookup(c, Epoch(tenant, identity))
    ensures Count(c'.epochs, (tenant, identity), now) == Count(c.epochs, (tenant, identity), now)
  {
    CountsAgree(c.epochs, c'.epochs, (tenant, identity), now);
  }

  lemma DatabaseOnly(s: State, c: Cache, tenant: Uuid, client: string, secret: Option<string>, pool: Uuid,
                     identity: Uuid, password: string)
    ensures var s' := s.(cache := c);
            && FindClient(s', tenant, client) == FindClient(s, tenant, client)
            && AuthenticateClient(s', tenant, client, secret) == AuthenticateClient(s, tenant, client, secret)
            && FindIdentity(s', pool, identity) == FindIdentity(s, pool, identity)
            && PasswordMatches(s', pool, identity, password) == PasswordMatches(s, pool, identity, password)
            && IsEnrolled(s', identity) == IsEnrolled(s, identity)
  {
  }

  lemma LoginLocal(s: State, c: Cache, req: Request)
    requires req.DoLogin?
    requires Lookup(c, Epoch(req.tenant, req.identity)) == Lookup(s.cache, Epoch(req.tenant, req.identity))
    ensures SameAnswer(s, c, req)
  {
    EpochsAgree(s.cache, c, req.tenant, req.identity, s.now);
    var found := FindClient(s, req.tenant, req.client);
    DatabaseOnly(s, c, req.tenant, req.client, None, if found.Some? then found.value.pool else 0, req.identity,
                 req.password);
    hide FindClient, PasswordMatches, IsEnrolled, Lookup;
  }

  lemma ScreenLocal(s: State, c: Cache, tenant: Uuid, expectedPool: Option<Uuid>, jti: Uuid, option: MfaOption,
                    purpose: Purpose, cfg: Config)
    requires Lookup(c, Used(jti)) == Lookup(s.cache, Used(jti))
    requires Lookup(c, Tries(jti)) == Lookup(s.cache, Tries(jti))
    ensures Screen(s.(cache := c), tenant, expectedPool, jti, option, purpose, cfg)
         == Screen(s, tenant, expectedPool, jti, option, purpose, cfg)
  {
    CountsAgree(s.cache.attempts, c.attempts, jti, s.now);
    assert IsLive(c.spent, jti, s.now) == IsLive(s.cache.spent, jti, s.now);
    hide Lookup, Count, IsLive;
  }

  lemma ConsumeLocal(s: State, c: Cache, tenant: Uuid, expectedPool: Option<Uuid>, jti: Uuid, option: MfaOption,
                     code: string, purpose: Purpose, cfg: Config)
    requires Lookup(c, Used(jti)) == Lookup(s.cache, Used(jti))
    requires Lookup(c, Tries(jti)) == Lookup(s.cache, Tries(jti))
    ensures var s' := s.(cache := c);
            var (t, consumed) := ConsumeChallenge(s, tenant, expectedPool, jti, option, code, purpose, cfg);
            var (t', consumed') := ConsumeChallenge(s', tenant, expectedPool, jti, option, code, purpose, cfg);
            && consumed' == consumed && SameRest(t, t')
            && ConsumeCommands(s', tenant, expectedPool, jti, option, code, purpose, cfg)
               == ConsumeCommands(s, tenant, expectedPool, jti, option, code, purpose, cfg)
  {
    ScreenLocal(s, c, tenant, expectedPool, jti, option, purpose, cfg);
    hide Screen, VerifyFactor, Lookup, CountAttempt, SpendChallenge;
    CountLocal(s, c, jti, cfg);
    match Screen(s, tenant, expectedPool, jti, option, purpose, cfg)
    case Unheard(_) =>
    case Counted(_) =>
    case Admitted(challenge) =>
      var verdict := VerifyFactor(s.db.factors, challenge.identity, option, code, s.now, cfg);
      if verdict.Success? {
        var counted, counted' := CountAttempt(s, jti, cfg), CountAttempt(s.(cache := c), jti, cfg);
        SpendLocal(AcceptFactor(Record(counted, CodeEvaluated(jti)), challenge.identity, verdict.value),
                   AcceptFactor(Record(counted', CodeEvaluated(jti)), challenge.identity, verdict.value),
                   challenge, cfg);
      }
  }

  lemma CountLocal(s: State, c: Cache, jti: Uuid, cfg: Config)
    ensures SameRest(CountAttempt(s, jti, cfg), CountAttempt(s.(cache := c), jti, cfg))
  {
  }

  lemma SpendLocal(s: State, s': State, challenge: Challenge, cfg: Config)
    requires SameRest(s, s')
    ensures SameRest(SpendChallenge(s, challenge, cfg), SpendChallenge(s', challenge, cfg))
  {
  }

  lemma OpenLocal(s: State, s': State, tenant: Uuid, pool: Uuid, identity: Uuid, amr: seq<string>, cfg: Config)
    requires SameRest(s, s')
    requires Count(s'.cache.epochs, (tenant, identity), s.now) == Count(s.cache.epochs, (tenant, identity), s.now)
    ensures var (t, outcome) := OpenSession(s, tenant, pool, identity, amr, cfg);
            var (t', outcome') := OpenSession(s', tenant, pool, identity, amr, cfg);
            outcome' == outcome && SameRest(t, t')
  {
  }

  lemma OpenCommandsLocal(s: State, c: Cache, tenant: Uuid, pool: Uuid, identity: Uuid, amr: seq<string>, cfg: Config)
    requires Count(c.epochs, (tenant, identity), s.now) == Count(s.cache.epochs, (tenant, identity), s.now)
    ensures OpenCommands(s.(cache := c), tenant, pool, identity, amr, cfg)
         == OpenCommands(s, tenant, pool, identity, amr, cfg)
  {
  }

  lemma LoginMfaLocal(s: State, c: Cache, req: Request)
    requires req.DoLoginMfa? && Agree(s.cache, c, Needed(s.challenges, req, None))
    ensures SameAnswer(s, c, req)
  {
    var DoLoginMfa(tenant, client, jti, option, code, cfg) := req;
    var s' := s.(cache := c);
    var slots := Needed(s.challenges, req, None);
    assert slots[0] == Used(jti) && slots[1] == Tries(jti);
    assert jti in s.challenges ==> slots[2] == Epoch(tenant, s.challenges[jti].identity);
    DatabaseOnly(s, c, tenant, client, None, 0, 0, "");
    hide Lookup, FindClient, ConsumeChallenge, ConsumeCommands, OpenSession, OpenCommands, ApplyAllTyped, AmrFor, Count;
    var found := FindClient(s, tenant, client);
    if found.Some? {
      var pool := found.value.pool;
      ConsumeLocal(s, c, tenant, Some(pool), jti, option, code, ForLogin, cfg);
      ConsumeSends(s, tenant, Some(pool), jti, option, code, ForLogin, cfg);
      ConsumeSends(s', tenant, Some(pool), jti, option, code, ForLogin, cfg);
      var (t, consumed) := ConsumeChallenge(s, tenant, Some(pool), jti, option, code, ForLogin, cfg);
      var (t', _) := ConsumeChallenge(s', tenant, Some(pool), jti, option, code, ForLogin, cfg);
      if consumed.Success? {
        EpochsAgree(s.cache, c, tenant, consumed.value.identity, s.now);
        OpenCommandsLocal(s, c, tenant, pool, consumed.value.identity, ["pwd", AmrFor(option), "mfa"], cfg);
        OpenLocal(t, t', tenant, pool, consumed.value.identity, ["pwd", AmrFor(option), "mfa"], cfg);
      }
    }
  }

  lemma ValidateLocal(s: State, c: Cache, tenant: Uuid, pool: Uuid, sso: Uuid, maxAge: Option<nat>)
    requires Lookup(c, Sso(sso)) == Lookup(s.cache, Sso(sso))
    requires sso in s.cache.sessions ==>
               var k := Epoch(tenant, s.cache.sessions[sso].value.identity); Lookup(c, k) == Lookup(s.cache, k)
    ensures ValidateSession(s.(cache := c), tenant, pool, sso, maxAge) == ValidateSession(s, tenant, pool, sso, maxAge)
  {
    assert Read(c.sessions, sso, s.now) == Read(s.cache.sessions, sso, s.now);
    if sso in s.cache.sessions {
      var identity := s.cache.sessions[sso].value.identity;
      EpochsAgree(s.cache, c, tenant, identity, s.now);
      DatabaseOnly(s, c, 0, "", None, pool, identity, "");
    }
    hide FindIdentity, Count, Lookup;
  }

  lemma AuthorizeLocal(s: State, c: Cache, req: Request)
    requires req.DoAuthorize? && Agree(s.cache, c, Needed(s.challenges, req, PeekTyped(s.cache, req)))
    ensures SameAnswer(s, c, req)
  {
    var DoAuthorize(tenant, authorize, cfg) := req;
    var sso := authorize.sso;
    var slots := Needed(s.challenges, req, PeekTyped(s.cache, req));
    assert slots[0] == Sso(sso);
    assert sso in s.cache.sessions ==> slots[1] == Epoch(tenant, s.cache.sessions[sso].value.identity);
    DatabaseOnly(s, c, tenant, authorize.client, None, 0, 0, "");
    var found := FindClient(s, tenant, authorize.client);
    if found.Some? {
      ValidateLocal(s, c, tenant, found.value.pool, sso, authorize.maxAge);
      ApproveLocal(s, c, tenant, found.value, authorize, cfg);
    }
    hide Lookup, FindClient, ApproveAuthorize, ValidateSession;
  }

  lemma ApproveLocal(s: State, c: Cache, tenant: Uuid, client: Client, req: AuthorizeRequest, cfg: Config)
    requires ValidateSession(s.(cache := c), tenant, client.pool, req.sso, req.maxAge)
          == ValidateSession(s, tenant, client.pool, req.sso, req.maxAge)
    ensures ApproveAuthorize(s.(cache := c), tenant, client, req, cfg) == ApproveAuthorize(s, tenant, client, req, cfg)
  {
    hide AcceptsChallenge;
  }

  lemma MintLocal(s: State, s': State, tenant: Uuid, platform: bool, client: Client, grant: Grant, signs: bool)
    requires SameRest(s, s')
    ensures var (t, outcome) := MintTokens(s, tenant, platform, client, grant, signs);
            var (t', outcome') := MintTokens(s', tenant, platform, client, grant, signs);
            outcome' == outcome && SameRest(t, t')
  {
  }

  lemma ApproveCodeLocal(s: State, c: Cache, req: TokenRequest, code: Uuid, context: CodeContext,
                         redirectUri: Option<string>, verifier: string)
    ensures ApproveCode(s.(cache := c), req, code, context, redirectUri, verifier)
         == ApproveCode(s, req, code, context, redirectUri, verifier)
  {
    var found := AuthenticateClient(s, req.tenant, req.client, req.secret);
    DatabaseOnly(s, c, req.tenant, req.client, req.secret, if found.Some? then found.value.pool else 0,
                 context.identity, "");
    hide AuthenticateClient, FindIdentity, IsEnrolled, Scopes.Permitted, Answers, AcceptsVerifier;
  }

  lemma RedeemLocal(s: State, c: Cache, req: Request)
    requires req.DoRedeemCode? && Lookup(c, Slot.Code(req.code)) == Lookup(s.cache, Slot.Code(req.code))
    ensures SameAnswer(s, c, req)
  {
    var DoRedeemCode(token, code, redirectUri, verifier) := req;
    var s' := s.(cache := c);
    assert Read(c.codes, code, s.now) == Read(s.cache.codes, code, s.now);
    hide ApproveCode, MintTokens, Lookup;
    if IsLive(s.cache.codes, code, s.now) {
      var context := s.cache.codes[code].value;
      ApproveCodeLocal(s, c, token, code, context, redirectUri, verifier);
      var a := ApproveCode(s, token, code, context, redirectUri, verifier);
      if a.Success? {
        MintLocal(s.(cache := s.cache.(codes := s.cache.codes - {code})), s'.(cache := c.(codes := c.codes - {code})),
                  token.tenant, token.tenantIsPlatform, a.value.client, a.value.grant, token.signs);
      }
    }
  }

  lemma PasswordLocal(s: State, s': State, tenant: Uuid, pool: Uuid, identity: Uuid, password: string,
                      reset: Option<Uuid>, cfg: Config)
    requires SameRest(s, s')
    ensures var (t, outcome) := SetPassword(s, tenant, pool, identity, password, reset, cfg);
            var (t', outcome') := SetPassword(s', tenant, pool, identity, password, reset, cfg);
            outcome' == outcome && SameRest(t, t')
  {
    assert s' == s.(cache := s'.cache);
    DatabaseOnly(s, s'.cache, 0, "", None, pool, identity, "");
    hide FindIdentity;
  }

  /** Two states after a request, and two answers to it. */
  ghost predicate SameStep(step: (State, Outcome), step': (State, Outcome)) {
    step'.1 == step.1 && SameRest(step.0, step'.0)
  }

  lemma ChangePasswordSteps(s: State, c: Cache, tenant: Uuid, pool: Uuid, identity: Uuid, current: string,
                            password: string, mfa: Option<SecondFactor>, cfg: Config)
    requires Count(c.selfAttempts, identity, s.now) == Count(s.cache.selfAttempts, identity, s.now)
    ensures SameStep(ChangePassword(s, tenant, pool, identity, current, password, mfa, cfg),
                     ChangePassword(s.(cache := c), tenant, pool, identity, current, password, mfa, cfg))
  {
    var s' := s.(cache := c);
    DatabaseOnly(s, c, 0, "", None, pool, identity, current);
    hide SetPassword, VerifyFactor, PasswordMatches, IsEnrolled, Count;
    PasswordLocal(s, s', tenant, pool, identity, password, None, cfg);
    if mfa.Some? {
      var verdict := VerifyFactor(s.db.factors, identity, mfa.value.option, mfa.value.code, s.now, cfg);
      if verdict.Success? {
        PasswordLocal(AcceptFactor(EvaluateSelf(s, identity, cfg), identity, verdict.value),
                      AcceptFactor(EvaluateSelf(s', identity, cfg), identity, verdict.value),
                      tenant, pool, identity, password, None, cfg);
      }
    }
  }

  lemma ChangePasswordLocal(s: State, c: Cache, req: Request)
    requires req.DoChangePassword? && Lookup(c, SelfTries(req.identity)) == Lookup(s.cache, SelfTries(req.identity))
    ensures SameAnswer(s, c, req)
  {
    var DoChangePassword(tenant, pool, identity, current, password, mfa, cfg) := req;
    CountsAgree(s.cache.selfAttempts, c.selfAttempts, identity, s.now);
    DatabaseOnly(s, c, 0, "", None, pool, identity, current);
    hide ChangePassword, PasswordMatches, IsEnrolled, Lookup, Count, PasswordCommands;
    ChangePasswordSteps(s, c, tenant, pool, identity, current, password, mfa, cfg);
  }

  lemma ResetSteps(s: State, c: Cache, tenant: Uuid, token: Uuid, password: string, cfg: Config)
    requires Read(c.resets, token, s.now) == Read(s.cache.resets, token, s.now)
    ensures SameStep(Credentials.Reset(s, tenant, token, password, cfg),
                     Credentials.Reset(s.(cache := c), tenant, token, password, cfg))
  {
    var found := Read(s.cache.resets, token, s.now);
    if found.Some? {
      var context := found.value;
      var t := s.(cache := s.cache.(resets := s.cache.resets - {token}), log := s.log + [ResetSpent(token)]);
      var t' := s.(cache := c.(resets := c.resets - {token}), log := s.log + [ResetSpent(token)]);
      assert t' == t.(cache := t'.cache);
      DatabaseOnly(t, t'.cache, 0, "", None, context.pool, context.identity, "");
      hide SetPassword, IsEnrolled, Read;
      PasswordLocal(t, t', tenant, context.pool, context.identity, password, Some(token), cfg);
    }
  }

  lemma ResetLocal(s: State, c: Cache, req: Request)
    requires req.DoReset? && Lookup(c, Slot.Reset(req.reset)) == Lookup(s.cache, Slot.Reset(req.reset))
    ensures SameAnswer(s, c, req)
  {
    assert Read(c.resets, req.reset, s.now) == Read(s.cache.resets, req.reset, s.now);
    assert req.reset in c.resets <==> req.reset in s.cache.resets;
    assert req.reset in c.resets ==> c.resets[req.reset].value == s.cache.resets[req.reset].value;
    hide Credentials.Reset, Lookup, PasswordCommands, Read;
    ResetSteps(s, c, req.tenant, req.reset, req.newPassword, req.cfg);
  }

  lemma ResetMfaLocal(s: State, c: Cache, req: Request)
    requires req.DoResetMfa? && Agree(s.cache, c, [Used(req.jti), Tries(req.jti)])
    ensures SameAnswer(s, c, req)
  {
    var DoResetMfa(tenant, jti, option, code, password, cfg) := req;
    var s' := s.(cache := c);
    assert Used(jti) in [Used(jti), Tries(jti)] && Tries(jti) in [Used(jti), Tries(jti)];
    hide Lookup, ConsumeChallenge, ConsumeCommands, SetPassword, PasswordCommands;
    ConsumeLocal(s, c, tenant, None, jti, option, code, ForReset, cfg);
    var (t, consumed) := ConsumeChallenge(s, tenant, None, jti, option, code, ForReset, cfg);
    var (t', _) := ConsumeChallenge(s', tenant, None, jti, option, code, ForReset, cfg);
    if consumed.Success? {
      var d := consumed.value;
      PasswordLocal(t, t', tenant, d.pool, d.identity, password, d.origin, cfg);
    }
  }

  lemma RotateLocal(s: State, c: Cache, req: Request)
    requires req.DoRotate?
    ensures SameAnswer(s, c, req)
  {
    var DoRotate(token, refreshToken) := req;
    JudgeLocal(s, c, token, refreshToken);
    hide Judge, MintTokens, Revoke;
    var verdict := Judge(s, token, refreshToken);
    if verdict.Reissue? {
      var records := Revoke(s.db.refresh, Token(refreshToken));
      MintLocal(s.(db := s.db.(refresh := records)), s.(cache := c, db := s.db.(refresh := records)), token.tenant,
                token.tenantIsPlatform, verdict.approval.client, verdict.approval.grant, token.signs);
    }
  }

  lemma JudgeLocal(s: State, c: Cache, req: TokenRequest, token: Uuid)
    ensures Judge(s.(cache := c), req, token) == Judge(s, req, token)
  {
    if token in s.db.refresh {
      var found := AuthenticateClient(s, req.tenant, req.client, req.secret);
      DatabaseOnly(s, c, req.tenant, req.client, req.secret, if found.Some? then found.value.pool else 0,
                   s.db.refresh[token].identity, "");
    }
    hide AuthenticateClient, FindIdentity, IsEnrolled, Scopes.Permitted;
  }

  lemma ClientCredentialsLocal(s: State, c: Cache, req: Request)
    requires req.DoClientCredentials?
    ensures SameAnswer(s, c, req)
  {
    var DoClientCredentials(tenant, platform, name, secret, scope, signs) := req;
    DatabaseOnly(s, c, tenant, name, Some(secret), 0, 0, "");
    hide AuthenticateClient, MintTokens;
    var found := AuthenticateClient(s, tenant, name, Some(secret));
    if found.Some? {
      var scopes := if scope.Some? then scope.value else found.value.allowedScopes;
      MintLocal(s, s.(cache := c), tenant, platform, found.value, Grant(FromClient, None, scopes, None, None), signs);
    }
  }

  lemma OthersLocal(s: State, c: Cache, req: Request)
    requires req.Wait? || req.Administer? || req.DoRequestReset? || req.DoRevokeSessions? || req.Prune?
    ensures SameAnswer(s, c, req)
  {
  }

  lemma ManageLocal(s: State, c: Cache, req: Request)
    requires req.DoManageFactor?
    ensures SameAnswer(s, c, req)
  {
    hide ClaimCode;
  }

  /** Whatever else the cache holds, the request is answered from the slots it needs. */
  lemma RequestIsLocal(s: State, c: Cache, req: Request)
    requires Agree(s.cache, c, Needed(s.challenges, req, PeekTyped(s.cache, req)))
    ensures SameAnswer(s, c, req)
  {
    hide SameAnswer, Lookup;
    var slots := Needed(s.challenges, req, PeekTyped(s.cache, req));
    assert slots != [] ==> slots[0] in slots;
    match req
    case DoLogin(_, _, _, _, _) => LoginLocal(s, c, req);
    case DoLoginMfa(_, _, _, _, _, _) => LoginMfaLocal(s, c, req);
    case DoAuthorize(_, _, _) => AuthorizeLocal(s, c, req);
    case DoClientCredentials(_, _, _, _, _, _) => ClientCredentialsLocal(s, c, req);
    case DoRedeemCode(_, _, _, _) => RedeemLocal(s, c, req);
    case DoRotate(_, _) => RotateLocal(s, c, req);
    case DoChangePassword(_, _, _, _, _, _, _) => ChangePasswordLocal(s, c, req);
    case DoReset(_, _, _, _) => ResetLocal(s, c, req);
    case DoResetMfa(_, _, _, _, _, _) => ResetMfaLocal(s, c, req);
    case DoManageFactor(_, _, _) => ManageLocal(s, c, req);
    case _ => OthersLocal(s, c, req);
  }

  // ── The simulation ───────────────────────────────────────────────────────

  /** The flat state stands for the typed one. */
  ghost predicate StandsFor(fs: FlatState, s: State, uuid: Naming) {
    && fs == FlatState(s.now, s.nextId, fs.flat, s.db, s.challenges, s.log)
    && Represents(fs.flat, s.cache, uuid)
  }

  /** Each request gets the same answer, and the states stand for each other again. */
  lemma StepSimulates(fs: FlatState, s: State, req: Request, uuid: Naming)
    requires IsNaming(uuid) && StandsFor(fs, s, uuid)
    ensures FlatHandle(fs, req, uuid).1 == Handle(s, req).1
    ensures StandsFor(FlatHandle(fs, req, uuid).0, Handle(s, req).0, uuid)
  {
    hide IsNaming, Name, Lookup, At, Handle, Commands, Needed, Fetch, ApplyAllFlat, ApplyAllTyped;
    assert Peek(fs.flat, req, uuid) == PeekTyped(s.cache, req);
    var slots := Needed(s.challenges, req, PeekTyped(s.cache, req));
    var c := Fetch(fs.flat, slots, uuid);
    forall slot | slot in slots ensures Lookup(c, slot) == Lookup(s.cache, slot) {
      Fetched(fs.flat, s.cache, slots, uuid, slot);
    }
    RequestIsLocal(s, c, req);
    CommandsSimulate(fs.flat, s.cache, Commands(s, req), s.now, uuid);
    RequestSends(s, req);
  }

  function FlatRun(fs: FlatState, reqs: seq<Request>, uuid: Naming): FlatState
    decreases |reqs|
  {
    if reqs == [] then fs else FlatRun(FlatHandle(fs, reqs[0], uuid).0, reqs[1..], uuid)
  }

  /** The answers that the requests of a run get, over the flat map and over the typed ones. */
  function FlatAnswers(fs: FlatState, reqs: seq<Request>, uuid: Naming): seq<Outcome>
    decreases |reqs|
  {
    if reqs == [] then []
    else [FlatHandle(fs, reqs[0], uuid).1] + FlatAnswers(FlatHandle(fs, reqs[0], uuid).0, reqs[1..], uuid)
  }

  function TypedAnswers(s: State, reqs: seq<Request>): seq<Outcome>
    decreases |reqs|
  {
    if reqs == [] then [] else [Handle(s, reqs[0]).1] + TypedAnswers(Handle(s, reqs[0]).0, reqs[1..])
  }

  lemma {:induction false} RunSimulates(fs: FlatState, s: State, reqs: seq<Request>, uuid: Naming)
    requires IsNaming(uuid) && StandsFor(fs, s, uuid)
    ensures FlatAnswers(fs, reqs, uuid) == TypedAnswers(s, reqs)
    ensures StandsFor(FlatRun(fs, reqs, uuid), Run(s, reqs), uuid)
    decreases |reqs|
  {
    hide IsNaming, StandsFor, Handle, FlatHandle;
    if reqs != [] {
      StepSimulates(fs, s, reqs[0], uuid);
      RunSimulates(FlatHandle(fs, reqs[0], uuid).0, Handle(s, reqs[0]).0, reqs[1..], uuid);
    }
  }

  /**
   From an initial state and in every run, the chain over one flat map, which reads
   and writes by key strings alone, answers every request as the chain over typed
   maps does, keeps the same tables and history, and holds under each slot's name
   what the slot's family holds.
   */
  lemma FlatStoreSimulates(s: State, reqs: seq<Request>, uuid: Naming)
    requires IsInitial(s) && IsNaming(uuid)
    ensures var fs := FlatState(s.now, s.nextId, map[], s.db, s.challenges, s.log);
            var fs', s' := FlatRun(fs, reqs, uuid), Run(s, reqs);
            && FlatAnswers(fs, reqs, uuid) == TypedAnswers(s, reqs)
            && fs'.now == s'.now && fs'.db == s'.db && fs'.challenges == s'.challenges && fs'.log == s'.log
            && forall slot :: At(fs'.flat, Name(slot, uuid)) == Lookup(s'.cache, slot)
  {
    InitialIsEmpty(s, uuid);
    hide IsNaming, Name, Lookup, At, FlatRun, Run, TypedAnswers, FlatAnswers;
    RunSimulates(FlatState(s.now, s.nextId, map[], s.db, s.challenges, s.log), s, reqs, uuid);
  }

  lemma InitialIsEmpty(s: State, uuid: Naming)
    requires IsInitial(s)
    ensures Represents(map[], s.cache, uuid)
  {
    hide Name;
  }
}
