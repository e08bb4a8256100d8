/**
 One flat Redis for the credential chain. `Credentials.Cache` keeps one typed map
 per family of keys; here each of its slots is one string key of a single map, and
 every request writes to that map by the SETEX, DEL, INCR and EXPIRE commands that
 the services issue. Each command does to the flat map what it does to the typed
 ones.
 */
module FlatStore {
  import opened Wrappers
  import opened Redis
  import opened Credentials
  import Moves
  import RedisKeys

  // ── Slots and their names ────────────────────────────────────────────────

  datatype Slot =
    | Epoch(tenant: Uuid, identity: Uuid)
    | Sso(id: Uuid)
    | Code(id: Uuid)
    | Used(jti: Uuid)
    | Tries(jti: Uuid)
    | SelfTries(identity: Uuid)
    | Reset(token: Uuid)

  /** What a value serialises; counters are numbers. */
  datatype Blob =
    | SsoBlob(session: Session)
    | CodeBlob(context: CodeContext)
    | FlagBlob(flag: bool)
    | ResetBlob(reset: ResetContext)
    | Number(count: nat)

  type Flat = map<string, Entry<Blob>>

  /** How identifiers are printed: without a colon, and differently if they differ. */
  type Naming = Uuid -> string

  ghost predicate IsNaming(uuid: Naming) {
    (forall n :: RedisKeys.Plain(uuid(n))) && (forall m, n :: uuid(m) == uuid(n) ==> m == n)
  }

  function Dashes(n: Uuid): string { seq(n, i => '-') }

  /** There is such a naming. */
  lemma NamingExists()
    ensures IsNaming(Dashes)
  {
    forall m, n | Dashes(m) == Dashes(n) ensures m == n {
      assert |Dashes(m)| == m && |Dashes(n)| == n;
    }
  }

  function KeyOf(slot: Slot, uuid: Naming): RedisKeys.Key {
    match slot
    case Epoch(tenant, identity) =>
      RedisKeys.Transient(RedisKeys.SsoEpoch, RedisKeys.EpochKey(uuid(tenant), uuid(identity)))
    case Sso(id) => RedisKeys.Transient(RedisKeys.SsoToken, uuid(id))
    case Code(id) => RedisKeys.Transient(RedisKeys.AuthCode, uuid(id))
    case Used(jti) => RedisKeys.Transient(RedisKeys.MfaUsed, uuid(jti))
    case Tries(jti) => RedisKeys.Transient(RedisKeys.MfaAttempts, uuid(jti))
    case SelfTries(identity) => RedisKeys.Transient(RedisKeys.MfaAttempts, RedisKeys.SelfAttemptsKey(uuid(identity)))
    case Reset(token) => RedisKeys.Transient(RedisKeys.PasswordReset, uuid(token))
  }

  function Name(slot: Slot, uuid: Naming): string { RedisKeys.Print(KeyOf(slot, uuid)) }

  lemma KeyOfInjective(a: Slot, b: Slot, uuid: Naming)
    requires IsNaming(uuid) && KeyOf(a, uuid) == KeyOf(b, uuid)
    ensures a == b
  {
    if a.Epoch? && b.Epoch? {
      RedisKeys.EpochKeyInjective(uuid(a.tenant), uuid(a.identity), uuid(b.tenant), uuid(b.identity));
    } else if a.SelfTries? && b.Tries? {
      RedisKeys.SelfAttemptsApart(uuid(a.identity), uuid(b.jti));
    } else if a.Tries? && b.SelfTries? {
      RedisKeys.SelfAttemptsApart(uuid(b.identity), uuid(a.jti));
    } else if a.SelfTries? && b.SelfTries? {
      RedisKeys.SplitUnique("self", uuid(a.identity), "self", uuid(b.identity));
    }
  }

  lemma NameInjective(a: Slot, b: Slot, uuid: Naming)
    requires IsNaming(uuid) && Name(a, uuid) == Name(b, uuid)
    ensures a == b
  {
    hide RedisKeys.Print, KeyOf;
    SlotIsKey(a, uuid);
    SlotIsKey(b, uuid);
    RedisKeys.PrintInjective(KeyOf(a, uuid), KeyOf(b, uuid));
    KeyOfInjective(a, b, uuid);
  }

  lemma SlotIsKey(slot: Slot, uuid: Naming)
    ensures RedisKeys.IsKey(KeyOf(slot, uuid))
  {
  }

  // ── The two stores ───────────────────────────────────────────────────────

  function Lookup(c: Cache, slot: Slot): Option<Entry<Blob>> {
    match slot
    case Epoch(tenant, identity) => Counter(c.epochs, (tenant, identity))
    case Sso(id) => if id in c.sessions then Some(Entry(SsoBlob(c.sessions[id].value), c.sessions[id].expiry)) else None
    case Code(id) => if id in c.codes then Some(Entry(CodeBlob(c.codes[id].value), c.codes[id].expiry)) else None
    case Used(jti) => if jti in c.spent then Some(Entry(FlagBlob(c.spent[jti].value), c.spent[jti].expiry)) else None
    case Tries(jti) => Counter(c.attempts, jti)
    case SelfTries(identity) => Counter(c.selfAttempts, identity)
    case Reset(token) =>
      if token in c.resets then Some(Entry(ResetBlob(c.resets[token].value), c.resets[token].expiry)) else None
  }

  function Counter<K>(m: map<K, Entry<nat>>, k: K): Option<Entry<Blob>> {
    if k in m then Some(Entry(Number(m[k].value), m[k].expiry)) else None
  }

  function At(flat: Flat, key: string): Option<Entry<Blob>> { if key in flat then Some(flat[key]) else None }

  /** The flat map holds, under each slot's name, what the typed map of its family holds. */
  ghost predicate Represents(flat: Flat, c: Cache, uuid: Naming) {
    forall slot :: At(flat, Name(slot, uuid)) == Lookup(c, slot)
  }

  // ── Commands ─────────────────────────────────────────────────────────────

  datatype Command =
    | Put(slot: Slot, value: Blob, ttl: nat)
    | Delete(slot: Slot)
    | Incr(slot: Slot, ttl: nat)
    | Expire(slot: Slot, ttl: nat)

  /** Values go into slots of their own type, and only counters are incremented or kept alive. */
  predicate IsTyped(cmd: Command) {
    match cmd
    case Put(slot, value, _) =>
      || (slot.Sso? && value.SsoBlob?) || (slot.Code? && value.CodeBlob?)
      || (slot.Used? && value.FlagBlob?) || (slot.Reset? && value.ResetBlob?)
    case Delete(slot) => slot.Code? || slot.Reset?
    case Incr(slot, _) => slot.Epoch? || slot.Tries? || slot.SelfTries?
    case Expire(slot, _) => slot.Epoch?
  }

  function ApplyTyped(c: Cache, cmd: Command, now: Time): Cache
    requires IsTyped(cmd)
  {
    match cmd
    case Put(slot, value, ttl) =>
      (match slot
       case Sso(id) => c.(sessions := SetEx(c.sessions, id, value.session, now, ttl))
       case Code(id) => c.(codes := SetEx(c.codes, id, value.context, now, ttl))
       case Used(jti) => c.(spent := SetEx(c.spent, jti, value.flag, now, ttl))
       case Reset(token) => c.(resets := SetEx(c.resets, token, value.reset, now, ttl)))
    case Delete(slot) =>
      if slot.Code? then c.(codes := c.codes - {slot.id}) else c.(resets := c.resets - {slot.token})
    case Incr(slot, ttl) =>
      (match slot
       case Epoch(tenant, identity) => c.(epochs := Increment(c.epochs, (tenant, identity), now, ttl))
       case Tries(jti) => c.(attempts := Increment(c.attempts, jti, now, ttl))
       case SelfTries(identity) => c.(selfAttempts := Increment(c.selfAttempts, identity, now, ttl)))
    case Expire(slot, ttl) => c.(epochs := Touch(c.epochs, (slot.tenant, slot.identity), now, ttl))
  }

  /** INCR and, for the creating call, EXPIRE; a key that holds no number is an error and stays. */
  function IncrementFlat(flat: Flat, key: string, now: Time, ttl: nat): Flat {
    if IsLive(flat, key, now) && !flat[key].value.Number? then flat
    else if IsLive(flat, key, now) then
      var count := flat[key].value.count + 1;
      flat[key := Entry(Number(count), if count == 1 then now + ttl else flat[key].expiry)]
    else flat[key := Entry(Number(1), now + ttl)]
  }

  function ApplyFlat(flat: Flat, cmd: Command, now: Time, uuid: Naming): Flat {
    ApplyAt(flat, Name(cmd.slot, uuid), cmd, now)
  }

  function ApplyAt(flat: Flat, key: string, cmd: Command, now: Time): Flat {
    match cmd
    case Put(_, value, ttl) => SetEx(flat, key, value, now, ttl)
    case Delete(_) => flat - {key}
    case Incr(_, ttl) => IncrementFlat(flat, key, now, ttl)
    case Expire(_, ttl) => Touch(flat, key, now, ttl)
  }

  lemma OtherSlotsStay(c: Cache, cmd: Command, now: Time, slot: Slot)
    requires IsTyped(cmd) && slot != cmd.slot
    ensures Lookup(ApplyTyped(c, cmd, now), slot) == Lookup(c, slot)
  {
  }

  lemma OtherKeysStay(flat: Flat, key: string, cmd: Command, now: Time, other: string)
    requires other != key
    ensures At(ApplyAt(flat, key, cmd, now), other) == At(flat, other)
  {
  }

  lemma DeleteFollows(flat: Flat, key: string, c: Cache, cmd: Command, now: Time)
    requires IsTyped(cmd) && cmd.Delete?
    ensures At(ApplyAt(flat, key, cmd, now), key) == Lookup(ApplyTyped(c, cmd, now), cmd.slot) == None
  {
  }

  lemma PutFlat(flat: Flat, key: string, cmd: Command, now: Time)
    requires cmd.Put?
    ensures At(ApplyAt(flat, key, cmd, now), key) == Some(Entry(cmd.value, now + cmd.ttl))
  {
  }

  lemma PutTyped(c: Cache, cmd: Command, now: Time)
    requires IsTyped(cmd) && cmd.Put?
    ensures Lookup(ApplyTyped(c, cmd, now), cmd.slot) == Some(Entry(cmd.value, now + cmd.ttl))
  {
    match cmd.slot
    case Sso(_) =>
    case Code(_) =>
    case Used(_) =>
    case Reset(_) =>
  }

  lemma IncrFollows<K>(flat: Flat, key: string, m: map<K, Entry<nat>>, k: K, now: Time, ttl: nat)
    requires At(flat, key) == Counter(m, k)
    ensures At(IncrementFlat(flat, key, now, ttl), key) == Counter(Increment(m, k, now, ttl), k)
    ensures At(Touch(flat, key, now, ttl), key) == Counter(Touch(m, k, now, ttl), k)
  {
  }

  lemma OwnSlotFollows(flat: Flat, key: string, c: Cache, cmd: Command, now: Time)
    requires IsTyped(cmd) && At(flat, key) == Lookup(c, cmd.slot)
    ensures At(ApplyAt(flat, key, cmd, now), key) == Lookup(ApplyTyped(c, cmd, now), cmd.slot)
  {
    if cmd.Put? {
      PutFlat(flat, key, cmd, now);
      PutTyped(c, cmd, now);
    } else if cmd.Delete? {
      DeleteFollows(flat, key, c, cmd, now);
    } else {
      hide At, Counter, IncrementFlat, Increment, Touch;
      match cmd.slot
      case Epoch(tenant, identity) => IncrFollows(flat, key, c.epochs, (tenant, identity), now, cmd.ttl);
      case Tries(jti) => IncrFollows(flat, key, c.attempts, jti, now, cmd.ttl);
      case SelfTries(identity) => IncrFollows(flat, key, c.selfAttempts, identity, now, cmd.ttl);
    }
  }

  /** Each command does to the flat map what it does to the typed ones. */
  lemma CommandSimulates(flat: Flat, c: Cache, cmd: Command, now: Time, uuid: Naming)
    requires IsNaming(uuid) && IsTyped(cmd) && Represents(flat, c, uuid)
    ensures Represents(ApplyFlat(flat, cmd, now, uuid), ApplyTyped(c, cmd, now), uuid)
  {
    hide IsNaming, Name, ApplyAt, ApplyTyped, Lookup, At;
    var key := Name(cmd.slot, uuid);
    forall slot
      ensures At(ApplyFlat(flat, cmd, now, uuid), Name(slot, uuid)) == Lookup(ApplyTyped(c, cmd, now), slot)
    {
      if slot == cmd.slot {
        OwnSlotFollows(flat, key, c, cmd, now);
      } else {
        if Name(slot, uuid) == Name(cmd.slot, uuid) {
          NameInjective(slot, cmd.slot, uuid);
        }
        OtherSlotsStay(c, cmd, now, slot);
        OtherKeysStay(flat, key, cmd, now, Name(slot, uuid));
      }
    }
  }

  predicate AllTyped(cmds: seq<Command>) { forall cmd :: cmd in cmds ==> IsTyped(cmd) }

  function ApplyAllTyped(c: Cache, cmds: seq<Command>, now: Time): Cache
    requires AllTyped(cmds)
    decreases |cmds|
  {
    if cmds == [] then c else ApplyAllTyped(ApplyTyped(c, cmds[0], now), cmds[1..], now)
  }

  function ApplyAllFlat(flat: Flat, cmds: seq<Command>, now: Time, uuid: Naming): Flat
    decreases |cmds|
  {
    if cmds == [] then flat else ApplyAllFlat(ApplyFlat(flat, cmds[0], now, uuid), cmds[1..], now, uuid)
  }

  lemma {:induction false} CommandsSimulate(flat: Flat, c: Cache, cmds: seq<Command>, now: Time, uuid: Naming)
    requires IsNaming(uuid) && AllTyped(cmds) && Represents(flat, c, uuid)
    ensures Represents(ApplyAllFlat(flat, cmds, now, uuid), ApplyAllTyped(c, cmds, now), uuid)
    decreases |cmds|
  {
    hide IsNaming, Represents, ApplyFlat, ApplyTyped;
    if cmds != [] {
      CommandSimulates(flat, c, cmds[0], now, uuid);
      CommandsSimulate(ApplyFlat(flat, cmds[0], now, uuid), ApplyTyped(c, cmds[0], now), cmds[1..], now, uuid);
    }
  }

  lemma {:induction false} ApplyAppend(c: Cache, a: seq<Command>, b: seq<Command>, now: Time)
    requires AllTyped(a) && AllTyped(b)
    ensures AllTyped(a + b) && ApplyAllTyped(c, a + b, now) == ApplyAllTyped(ApplyAllTyped(c, a, now), b, now)
    decreases |a|
  {
    hide ApplyTyped, IsTyped;
    if a == [] {
      assert a + b == b;
    } else {
      ApplyAppend(ApplyTyped(c, a[0], now), a[1..], b, now);
      assert (a + b)[1..] == a[1..] + b;
    }
  }

  lemma ApplyOne(c: Cache, cmd: Command, now: Time)
    requires IsTyped(cmd)
    ensures ApplyAllTyped(c, [cmd], now) == ApplyTyped(c, cmd, now)
  {
    hide ApplyTyped, IsTyped;
    assert [cmd][1..] == [];
    assert ApplyAllTyped(ApplyTyped(c, cmd, now), [], now) == ApplyTyped(c, cmd, now);
  }

  // ── What each request sends ──────────────────────────────────────────────

  /** Keeps the epoch alive, then stores the session. */
  function OpenCommands(s: State, tenant: Uuid, pool: Uuid, identity: Uuid, amr: seq<string>, cfg: Config)
    : (cmds: seq<Command>)
    ensures AllTyped(cmds)
  {
    var session := Session(tenant, pool, identity, amr, Count(s.cache.epochs, (tenant, identity), s.now), s.now);
    [Expire(Epoch(tenant, identity), EpochTtl(cfg))] + [Put(Sso(s.nextId), SsoBlob(session), cfg.cookieLifetime)]
  }

  /** Moves the epoch on and keeps it alive. */
  function BumpCommands(tenant: Uuid, identity: Uuid, cfg: Config): (cmds: seq<Command>)
    ensures AllTyped(cmds)
  {
    [Incr(Epoch(tenant, identity), EpochTtl(cfg))] + [Expire(Epoch(tenant, identity), EpochTtl(cfg))]
  }

  function ConsumeCommands(s: State, tenant: Uuid, expectedPool: Option<Uuid>, jti: Uuid, option: MfaOption,
                           code: string, purpose: Purpose, cfg: Config): (cmds: seq<Command>)
    ensures AllTyped(cmds)
  {
    var screening := Screen(s, tenant, expectedPool, jti, option, purpose, cfg);
    if screening.Unheard? then []
    else
      [Incr(Tries(jti), cfg.mfaLifetime)]
      + (if && screening.Admitted?
            && VerifyFactor(s.db.factors, screening.challenge.identity, option, code, s.now, cfg).Success?
         then [Put(Used(screening.challenge.jti), FlagBlob(true), cfg.mfaLifetime)] else [])
  }

  function PasswordCommands(outcome: Outcome, tenant: Uuid, identity: Uuid, cfg: Config): (cmds: seq<Command>)
    ensures AllTyped(cmds)
  {
    if outcome.Done? then BumpCommands(tenant, identity, cfg) else []
  }

  function Commands(s: State, req: Request): (cmds: seq<Command>)
    ensures AllTyped(cmds)
  {
    var outcome := Handle(s, req).1;
    match req
    case DoLogin(tenant, client, identity, _, cfg) =>
      if outcome.LoggedIn? && FindClient(s, tenant, client).Some?
      then OpenCommands(s, tenant, FindClient(s, tenant, client).value.pool, identity, ["pwd"], cfg)
      else []
    case DoLoginMfa(tenant, client, jti, option, code, cfg) =>
      (match FindClient(s, tenant, client)
       case None => []
       case Some(c) =>
         var consumed := ConsumeChallenge(s, tenant, Some(c.pool), jti, option, code, ForLogin, cfg);
         ConsumeCommands(s, tenant, Some(c.pool), jti, option, code, ForLogin, cfg)
         + (if consumed.1.Success?
            then OpenCommands(s, tenant, c.pool, consumed.1.value.identity, ["pwd", AmrFor(option), "mfa"], cfg)
            else []))
    case DoAuthorize(tenant, authorize, cfg) =>
      if outcome.Authorized? && FindClient(s, tenant, authorize.client).Some?
         && ApproveAuthorize(s, tenant, FindClient(s, tenant, authorize.client).value, authorize, cfg).Success?
      then
        var client := FindClient(s, tenant, authorize.client).value;
        [Put(Code(s.nextId), CodeBlob(ApproveAuthorize(s, tenant, client, authorize, cfg).value), client.authCodeTtl)]
      else []
    case DoRedeemCode(_, code, _, _) => [Delete(Code(code))]
    case DoChangePassword(tenant, pool, identity, password, _, mfa, cfg) =>
      (if PasswordMatches(s, pool, identity, password) && IsEnrolled(s, identity) && mfa.Some?
       then [Incr(SelfTries(identity), cfg.mfaLifetime)] else [])
      + PasswordCommands(outcome, tenant, identity, cfg)
    case DoRequestReset(tenant, pool, identity, cfg) =>
      [Put(Reset(s.nextId), ResetBlob(ResetContext(tenant, pool, identity)), cfg.resetLifetime)]
    case DoReset(tenant, reset, _, cfg) =>
      [Delete(Reset(reset))]
      + (if reset in s.cache.resets
         then PasswordCommands(outcome, tenant, s.cache.resets[reset].value.identity, cfg) else [])
    case DoResetMfa(tenant, jti, option, code, _, cfg) =>
      ConsumeCommands(s, tenant, None, jti, option, code, ForReset, cfg)
      + (if jti in s.challenges then PasswordCommands(outcome, tenant, s.challenges[jti].identity, cfg) else [])
    case DoRevokeSessions(tenant, identity, cfg) => BumpCommands(tenant, identity, cfg)
    case _ => []
  }

  // ── The commands do what the request does ────────────────────────────────

  lemma ApplyTwo(c: Cache, a: Command, b: Command, now: Time)
    requires IsTyped(a) && IsTyped(b)
    ensures ApplyAllTyped(c, [a] + [b], now) == ApplyTyped(ApplyTyped(c, a, now), b, now)
  {
    hide ApplyTyped, IsTyped;
    ApplyAppend(c, [a], [b], now);
    ApplyOne(c, a, now);
    ApplyOne(ApplyTyped(c, a, now), b, now);
  }

  lemma OpenSends(s: State, tenant: Uuid, pool: Uuid, identity: Uuid, amr: seq<string>, cfg: Config)
    ensures ApplyAllTyped(s.cache, OpenCommands(s, tenant, pool, identity, amr, cfg), s.now)
            == OpenSession(s, tenant, pool, identity, amr, cfg).0.cache
  {
    var cmds := OpenCommands(s, tenant, pool, identity, amr, cfg);
    ApplyTwo(s.cache, cmds[0], cmds[1], s.now);
    assert cmds == [cmds[0]] + [cmds[1]];
  }

  lemma BumpSends(s: State, tenant: Uuid, identity: Uuid, cfg: Config)
    ensures ApplyAllTyped(s.cache, BumpCommands(tenant, identity, cfg), s.now)
            == RevokeAllSessions(s, tenant, identity, cfg).cache
  {
    var cmds := BumpCommands(tenant, identity, cfg);
    ApplyTwo(s.cache, cmds[0], cmds[1], s.now);
    assert cmds == [cmds[0]] + [cmds[1]];
  }

  lemma ConsumeSends(s: State, tenant: Uuid, expectedPool: Option<Uuid>, jti: Uuid, option: MfaOption, code: string,
                     purpose: Purpose, cfg: Config)
    ensures var (s', consumed) := ConsumeChallenge(s, tenant, expectedPool, jti, option, code, purpose, cfg);
            && ApplyAllTyped(s.cache, ConsumeCommands(s, tenant, expectedPool, jti, option, code, purpose, cfg), s.now)
               == s'.cache
            && s'.now == s.now && s'.nextId == s.nextId && s'.cache.epochs == s.cache.epochs
            && (consumed.Success? ==> jti in s.challenges && consumed.value == s.challenges[jti])
  {
    Moves.AdmittedIsIssued(s, tenant, expectedPool, jti, option, purpose, cfg);
    hide Screen, VerifyFactor;
    var screening := Screen(s, tenant, expectedPool, jti, option, purpose, cfg);
    var incr := Incr(Tries(jti), cfg.mfaLifetime);
    ApplyOne(s.cache, incr, s.now);
    assert [incr] + [] == [incr];
    if screening.Admitted? {
      ApplyTwo(s.cache, incr, Put(Used(screening.challenge.jti), FlagBlob(true), cfg.mfaLifetime), s.now);
    }
  }

  lemma PasswordSends(s: State, tenant: Uuid, pool: Uuid, identity: Uuid, password: string, reset: Option<Uuid>,
                      cfg: Config)
    ensures var (s', outcome) := SetPassword(s, tenant, pool, identity, password, reset, cfg);
            ApplyAllTyped(s.cache, PasswordCommands(outcome, tenant, identity, cfg), s.now) == s'.cache
  {
    hide FindIdentity, BumpCommands;
    BumpSends(s, tenant, identity, cfg);
  }

  lemma LoginSends(s: State, req: Request)
    requires req.DoLogin?
    ensures ApplyAllTyped(s.cache, Commands(s, req), s.now) == Handle(s, req).0.cache
  {
    hide OpenCommands, FindClient, PasswordMatches, IsEnrolled;
    var found := FindClient(s, req.tenant, req.client);
    if found.Some? {
      OpenSends(s, req.tenant, found.value.pool, req.identity, ["pwd"], req.cfg);
    }
  }

  lemma LoginMfaSends(s: State, req: Request)
    requires req.DoLoginMfa?
    ensures ApplyAllTyped(s.cache, Commands(s, req), s.now) == Handle(s, req).0.cache
  {
    hide ConsumeCommands, ConsumeChallenge, FindClient;
    var DoLoginMfa(tenant, client, jti, option, code, cfg) := req;
    var found := FindClient(s, tenant, client);
    if found.Some? {
      var pool := found.value.pool;
      var cmds := ConsumeCommands(s, tenant, Some(pool), jti, option, code, ForLogin, cfg);
      var (s1, consumed) := ConsumeChallenge(s, tenant, Some(pool), jti, option, code, ForLogin, cfg);
      ConsumeSends(s, tenant, Some(pool), jti, option, code, ForLogin, cfg);
      assert cmds + [] == cmds;
      if consumed.Success? {
        var amr := ["pwd", AmrFor(option), "mfa"];
        OpenSends(s1, tenant, pool, consumed.value.identity, amr, cfg);
        assert OpenCommands(s1, tenant, pool, consumed.value.identity, amr, cfg)
            == OpenCommands(s, tenant, pool, consumed.value.identity, amr, cfg);
        hide OpenCommands;
        ApplyAppend(s.cache, cmds, OpenCommands(s, tenant, pool, consumed.value.identity, amr, cfg), s.now);
      }
    }
  }

  lemma AuthorizeSends(s: State, req: Request)
    requires req.DoAuthorize?
    ensures ApplyAllTyped(s.cache, Commands(s, req), s.now) == Handle(s, req).0.cache
  {
    hide ApproveAuthorize, FindClient;
    var found := FindClient(s, req.tenant, req.authorize.client);
    if found.Some? {
      var approved := ApproveAuthorize(s, req.tenant, found.value, req.authorize, req.cfg);
      if approved.Success? {
        ApplyOne(s.cache, Put(Code(s.nextId), CodeBlob(approved.value), found.value.authCodeTtl), s.now);
      }
    }
  }

  lemma ChangePasswordSends(s: State, req: Request)
    requires req.DoChangePassword?
    ensures ApplyAllTyped(s.cache, Commands(s, req), s.now) == Handle(s, req).0.cache
  {
    hide SetPassword, VerifyFactor, PasswordMatches, IsEnrolled, PasswordCommands;
    var DoChangePassword(tenant, pool, identity, current, password, mfa, cfg) := req;
    var outcome := Handle(s, req).1;
    NoPasswordCommands(outcome, tenant, identity, cfg);
    var rest := PasswordCommands(outcome, tenant, identity, cfg);
    var incr := Incr(SelfTries(identity), cfg.mfaLifetime);
    assert [] + rest == rest;
    if PasswordMatches(s, pool, identity, current) {
      if !IsEnrolled(s, identity) {
        PasswordSends(s, tenant, pool, identity, password, None, cfg);
      } else if mfa.Some? {
        var evaluated := EvaluateSelf(s, identity, cfg);
        ApplyOne(s.cache, incr, s.now);
        ApplyAppend(s.cache, [incr], rest, s.now);
        var verdict := VerifyFactor(s.db.factors, identity, mfa.value.option, mfa.value.code, s.now, cfg);
        if verdict.Success? {
          PasswordSends(AcceptFactor(evaluated, identity, verdict.value), tenant, pool, identity, password, None, cfg);
        }
      }
    }
  }

  lemma NoPasswordCommands(outcome: Outcome, tenant: Uuid, identity: Uuid, cfg: Config)
    ensures !outcome.Done? ==> PasswordCommands(outcome, tenant, identity, cfg) == []
  {
  }

  lemma ResetSends(s: State, req: Request)
    requires req.DoReset?
    ensures ApplyAllTyped(s.cache, Commands(s, req), s.now) == Handle(s, req).0.cache
  {
    hide SetPassword, IsEnrolled, PasswordCommands;
    var DoReset(tenant, token, password, cfg) := req;
    var outcome := Handle(s, req).1;
    var delete := Delete(Reset(token));
    ApplyOne(s.cache, delete, s.now);
    assert [delete] + [] == [delete];
    if token in s.cache.resets {
      var context := s.cache.resets[token].value;
      var rest := PasswordCommands(outcome, tenant, context.identity, cfg);
      NoPasswordCommands(outcome, tenant, context.identity, cfg);
      ApplyAppend(s.cache, [delete], rest, s.now);
      var s1 := s.(cache := s.cache.(resets := s.cache.resets - {token}), log := s.log + [ResetSpent(token)]);
      PasswordSends(s1, tenant, context.pool, context.identity, password, Some(token), cfg);
    }
  }

  lemma ResetMfaSends(s: State, req: Request)
    requires req.DoResetMfa?
    ensures ApplyAllTyped(s.cache, Commands(s, req), s.now) == Handle(s, req).0.cache
  {
    hide ConsumeCommands, ConsumeChallenge, SetPassword, PasswordCommands;
    var DoResetMfa(tenant, jti, option, code, password, cfg) := req;
    var outcome := Handle(s, req).1;
    var cmds := ConsumeCommands(s, tenant, None, jti, option, code, ForReset, cfg);
    var (s1, consumed) := ConsumeChallenge(s, tenant, None, jti, option, code, ForReset, cfg);
    ConsumeSends(s, tenant, None, jti, option, code, ForReset, cfg);
    assert cmds + [] == cmds;
    if jti in s.challenges {
      var rest := PasswordCommands(outcome, tenant, s.challenges[jti].identity, cfg);
      NoPasswordCommands(outcome, tenant, s.challenges[jti].identity, cfg);
      ApplyAppend(s.cache, cmds, rest, s.now);
      if consumed.Success? {
        var c := consumed.value;
        PasswordSends(s1, tenant, c.pool, c.identity, password, c.origin, cfg);
      }
    }
  }

  lemma OthersSend(s: State, req: Request)
    requires || req.Wait? || req.Administer? || req.DoClientCredentials? || req.DoRotate? || req.DoRequestReset?
             || req.DoRevokeSessions? || req.DoManageFactor? || req.Prune? || req.DoRedeemCode?
    ensures ApplyAllTyped(s.cache, Commands(s, req), s.now) == Handle(s, req).0.cache
  {
    match req
    case DoRequestReset(tenant, pool, identity, cfg) =>
      var context := ResetContext(tenant, pool, identity);
      ApplyOne(s.cache, Put(Reset(s.nextId), ResetBlob(context), cfg.resetLifetime), s.now);
    case DoRevokeSessions(tenant, identity, cfg) => BumpSends(s, tenant, identity, cfg);
    case DoRedeemCode(_, code, _, _) =>
      ApplyOne(s.cache, Delete(Code(code)), s.now);
      RedeemTakes(s, req);
    case DoManageFactor(identity, op, cfg) => Moves.ManageFrame(s, identity, op, cfg);
    case DoRotate(_, _) => CacheUntouched(s, req);
    case DoClientCredentials(_, _, _, _, _, _) => CacheUntouched(s, req);
    case _ =>
  }

  lemma MintKeepsCache(s: State, tenant: Uuid, platform: bool, client: Client, grant: Grant, signs: bool)
    ensures MintTokens(s, tenant, platform, client, grant, signs).0.cache == s.cache
  {
  }

  lemma CacheUntouched(s: State, req: Request)
    requires req.DoClientCredentials? || req.DoRotate?
    ensures Handle(s, req).0.cache == s.cache
  {
    hide MintTokens, Judge, AuthenticateClient, Revoke;
    match req
    case DoClientCredentials(tenant, platform, name, secret, scope, signs) =>
      var found := AuthenticateClient(s, tenant, name, Some(secret));
      if found.Some? {
        var scopes := if scope.Some? then scope.value else found.value.allowedScopes;
        MintKeepsCache(s, tenant, platform, found.value, Grant(FromClient, None, scopes, None, None), signs);
      }
    case DoRotate(token, refreshToken) =>
      var verdict := Judge(s, token, refreshToken);
      if verdict.Reissue? {
        MintKeepsCache(s.(db := s.db.(refresh := Revoke(s.db.refresh, Token(refreshToken)))), token.tenant,
                       token.tenantIsPlatform, verdict.approval.client, verdict.approval.grant, token.signs);
      }
  }

  lemma RedeemTakes(s: State, req: Request)
    requires req.DoRedeemCode?
    ensures Handle(s, req).0.cache == s.cache.(codes := s.cache.codes - {req.code})
  {
    hide MintTokens, ApproveCode;
    var DoRedeemCode(token, code, redirectUri, verifier) := req;
    if IsLive(s.cache.codes, code, s.now) {
      var a := ApproveCode(s, token, code, s.cache.codes[code].value, redirectUri, verifier);
      if a.Success? {
        MintKeepsCache(s.(cache := s.cache.(codes := s.cache.codes - {code})), token.tenant, token.tenantIsPlatform,
                       a.value.client, a.value.grant, token.signs);
      }
    }
  }

  lemma RequestSends(s: State, req: Request)
    ensures ApplyAllTyped(s.cache, Commands(s, req), s.now) == Handle(s, req).0.cache
  {
    hide Handle, Commands;
    if req.DoLogin? {
      LoginSends(s, req);
    } else if req.DoLoginMfa? {
      LoginMfaSends(s, req);
    } else if req.DoAuthorize? {
      AuthorizeSends(s, req);
    } else if req.DoChangePassword? {
      ChangePasswordSends(s, req);
    } else if req.DoReset? {
      ResetSends(s, req);
    } else if req.DoResetMfa? {
      ResetMfaSends(s, req);
    } else {
      OthersSend(s, req);
    }
  }

  // ── The store as an object ───────────────────────────────────────────────

  /** The transient-token cache: every value and counter under one flat key space. */
  class TokenCache {
    var now: Time
    var entries: Flat

    method SetValue(key: string, value: Blob, ttl: nat)
      modifies this`entries
      ensures entries == SetEx(old(entries), key, value, now, ttl)
    {
      entries := entries[key := Entry(value, now + ttl)];
    }

    method GetValue(key: string) returns (r: Option<Blob>)
      ensures r == Read(entries, key, now)
    {
      if key in entries && now < entries[key].expiry {
        return Some(entries[key].value);
      }
      return None;
    }

    /** GETDEL: the second of two callers finds nothing. */
    method GetAndDelete(key: string) returns (r: Option<Blob>)
      modifies this`entries
      ensures r == Read(old(entries), key, now)
      ensures entries == old(entries) - {key} && Read(entries, key, now) == None
    {
      r := GetValue(key);
      entries := entries - {key};
    }

    /** INCR, then EXPIRE only if this call created the counter, so retries cannot extend it. */
    method IncrementValue(key: string, ttl: nat) returns (count: Option<nat>)
      modifies this`entries
      ensures entries == IncrementFlat(old(entries), key, now, ttl)
      ensures count.None? <==> IsLive(old(entries), key, now) && !old(entries)[key].value.Number?
      ensures count.Some? ==> Read(entries, key, now) == Some(Number(count.value)) || entries[key].expiry <= now
    {
      var n := 1;
      var expiry := now + ttl;
      if key in entries && now < entries[key].expiry {
        if !entries[key].value.Number? {
          return None;
        }
        n := entries[key].value.count + 1;
        expiry := if n == 1 then now + ttl else entries[key].expiry;
      }
      entries := entries[key := Entry(Number(n), expiry)];
      return Some(n);
    }

    /** EXPIRE: changes nothing when the key is absent. */
    method TouchValue(key: string, ttl: nat)
      modifies this`entries
      ensures entries == Touch(old(entries), key, now, ttl)
    {
      if IsLive(entries, key, now) {
        entries := entries[key := Entry(entries[key].value, now + ttl)];
      }
    }

    /** Sends a request's commands one by one. */
    method Execute(cmds: seq<Command>, uuid: Naming)
      modifies this`entries
      ensures entries == ApplyAllFlat(old(entries), cmds, now, uuid)
    {
      hide Name, IncrementFlat;
      for i := 0 to |cmds|
        invariant ApplyAllFlat(entries, cmds[i..], now, uuid) == ApplyAllFlat(old(entries), cmds, now, uuid)
      {
        assert cmds[i..][0] == cmds[i] && cmds[i..][1..] == cmds[i + 1..];
        var key := Name(cmds[i].slot, uuid);
        match cmds[i]
        case Put(_, value, ttl) => SetValue(key, value, ttl);
        case Delete(_) => var _ := GetAndDelete(key);
        case Incr(_, ttl) => var _ := IncrementValue(key, ttl);
        case Expire(_, ttl) => TouchValue(key, ttl);
      }
    }
  }
}
