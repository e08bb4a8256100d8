/**
 Session revocation by epoch. A revoked session never validates again, although
 the counter that revokes it itself expires: as long as the counter always
 outlives the sessions stamped with it, an expired counter implies that every
 session it spoke for has expired too. Only requests that refresh the counter of
 the session's own tenant and identity bear on it.
 */
module Epochs {
  import opened Wrappers
  import opened Redis
  import opened Credentials
  import Moves
  import Rotation
  import SecondFactors

  type EpochKey = (Uuid, Uuid)

  ghost function KeyOf(session: Session): EpochKey { (session.tenant, session.identity) }

  // ── Which requests refresh a counter ─────────────────────────────────────

  /** The counter a request refreshes, and the configuration it does so under. */
  datatype Refresh = Refresh(key: EpochKey, cfg: Config)

  /** A request refreshes a counter when it opens a session for, or revokes, that tenant and identity. */
  ghost function RefreshOf(s: State, req: Request): Option<Refresh> {
    var outcome := Handle(s, req).1;
    match req
    case DoLogin(tenant, _, identity, _, cfg) =>
      if outcome.LoggedIn? then Some(Refresh((tenant, identity), cfg)) else None
    case DoLoginMfa(tenant, _, jti, _, _, cfg) =>
      if outcome.LoggedIn? && jti in s.challenges
      then Some(Refresh((tenant, s.challenges[jti].identity), cfg)) else None
    case DoChangePassword(tenant, _, identity, _, _, _, cfg) =>
      if outcome.Done? then Some(Refresh((tenant, identity), cfg)) else None
    case DoReset(tenant, reset, _, cfg) =>
      if outcome.Done? && reset in s.cache.resets
      then Some(Refresh((tenant, s.cache.resets[reset].value.identity), cfg)) else None
    case DoResetMfa(tenant, jti, _, _, _, cfg) =>
      if outcome.Done? && jti in s.challenges then Some(Refresh((tenant, s.challenges[jti].identity), cfg)) else None
    case DoRevokeSessions(tenant, identity, cfg) => Some(Refresh((tenant, identity), cfg))
    case _ => None
  }

  ghost predicate Refreshes(s: State, req: Request, k: EpochKey) {
    RefreshOf(s, req).Some? && RefreshOf(s, req).value.key == k
  }

  /** Sessions and counters are as before, at the same time or later. */
  ghost predicate Quiet(s: State, s': State) {
    && s'.cache.sessions == s.cache.sessions && s'.cache.epochs == s.cache.epochs
    && s.now <= s'.now && s.nextId <= s'.nextId
  }

  /** One session was opened for `k` with the current epoch, and the counter touched. */
  ghost predicate Opens(s: State, s': State, k: EpochKey, cfg: Config) {
    && s'.now == s.now && s'.nextId == s.nextId + 1
    && s'.cache.epochs == Touch(s.cache.epochs, k, s.now, EpochTtl(cfg))
    && s.nextId in s'.cache.sessions && s'.cache.sessions == s.cache.sessions[s.nextId := s'.cache.sessions[s.nextId]]
    && s'.cache.sessions[s.nextId].expiry == s.now + cfg.cookieLifetime
    && KeyOf(s'.cache.sessions[s.nextId].value) == k
    && s'.cache.sessions[s.nextId].value.epoch == Count(s.cache.epochs, k, s.now)
  }

  /** The counter of `k` was bumped and touched. */
  ghost predicate Bumps(s: State, s': State, k: EpochKey, cfg: Config) {
    && s'.now == s.now && s.nextId <= s'.nextId && s'.cache.sessions == s.cache.sessions
    && s'.cache.epochs == Touch(Increment(s.cache.epochs, k, s.now, EpochTtl(cfg)), k, s.now, EpochTtl(cfg))
  }

  /** What a request does to sessions and counters. */
  ghost predicate Shaped(s: State, s': State, r: Option<Refresh>) {
    match r
    case None => Quiet(s, s')
    case Some(Refresh(k, cfg)) => Opens(s, s', k, cfg) || Bumps(s, s', k, cfg)
  }

  // ── Every request has that shape ─────────────────────────────────────────

  lemma LoginShape(s: State, req: Request)
    requires req.DoLogin?
    ensures Shaped(s, Handle(s, req).0, RefreshOf(s, req))
  {
    hide PasswordMatches, FindClient;
  }

  lemma ConsumeIsQuiet(s: State, tenant: Uuid, expectedPool: Option<Uuid>, jti: Uuid, option: MfaOption,
                       code: string, purpose: Purpose, cfg: Config)
    ensures var (s', consumed) := ConsumeChallenge(s, tenant, expectedPool, jti, option, code, purpose, cfg);
            && s'.cache.sessions == s.cache.sessions && s'.cache.epochs == s.cache.epochs
            && s'.now == s.now && s'.nextId == s.nextId
            && (consumed.Success? ==> jti in s.challenges && consumed.value == s.challenges[jti])
  {
    hide VerifyFactor, Screen;
    Moves.AdmittedIsIssued(s, tenant, expectedPool, jti, option, purpose, cfg);
  }

  lemma LoginMfaShape(s: State, req: Request)
    requires req.DoLoginMfa?
    ensures Shaped(s, Handle(s, req).0, RefreshOf(s, req))
  {
    hide ConsumeChallenge, FindClient;
    var found := FindClient(s, req.tenant, req.client);
    if found.Some? {
      ConsumeIsQuiet(s, req.tenant, Some(found.value.pool), req.jti, req.option, req.otp, ForLogin, req.cfg);
    }
  }

  lemma SetPasswordShape(s: State, tenant: Uuid, pool: Uuid, identity: Uuid, password: string, reset: Option<Uuid>,
                         cfg: Config)
    ensures var (s', outcome) := SetPassword(s, tenant, pool, identity, password, reset, cfg);
            if outcome.Done? then Bumps(s, s', (tenant, identity), cfg) else outcome.Refused? && s' == s
  {
    hide FindIdentity;
  }

  lemma ChangePasswordShape(s: State, req: Request)
    requires req.DoChangePassword?
    ensures Shaped(s, Handle(s, req).0, RefreshOf(s, req))
  {
    hide SetPassword, VerifyFactor, PasswordMatches, IsEnrolled;
    var DoChangePassword(tenant, pool, identity, current, password, mfa, cfg) := req;
    if !IsEnrolled(s, identity) {
      SetPasswordShape(s, tenant, pool, identity, password, None, cfg);
    } else if mfa.Some? && PasswordMatches(s, pool, identity, current) {
      var verdict := VerifyFactor(s.db.factors, identity, mfa.value.option, mfa.value.code, s.now, cfg);
      if verdict.Success? {
        var accepted := AcceptFactor(EvaluateSelf(s, identity, cfg), identity, verdict.value);
        SetPasswordShape(accepted, tenant, pool, identity, password, None, cfg);
      }
    }
  }

  lemma ResetShape(s: State, req: Request)
    requires req.DoReset?
    ensures Shaped(s, Handle(s, req).0, RefreshOf(s, req))
  {
    hide SetPassword;
    var DoReset(tenant, token, password, cfg) := req;
    if IsLive(s.cache.resets, token, s.now) {
      var context := s.cache.resets[token].value;
      var s1 := s.(cache := s.cache.(resets := s.cache.resets - {token}), log := s.log + [ResetSpent(token)]);
      SetPasswordShape(s1, tenant, context.pool, context.identity, password, Some(token), cfg);
    }
  }

  lemma ResetMfaShape(s: State, req: Request)
    requires req.DoResetMfa?
    ensures Shaped(s, Handle(s, req).0, RefreshOf(s, req))
  {
    hide ConsumeChallenge, SetPassword;
    var DoResetMfa(tenant, jti, option, otp, password, cfg) := req;
    var (s1, consumed) := ConsumeChallenge(s, tenant, None, jti, option, otp, ForReset, cfg);
    ConsumeIsQuiet(s, tenant, None, jti, option, otp, ForReset, cfg);
    if consumed.Success? {
      var c := consumed.value;
      SetPasswordShape(s1, tenant, c.pool, c.identity, password, c.origin, cfg);
    }
  }

  lemma OthersAreQuiet(s: State, req: Request)
    requires || req.Wait? || req.Administer? || req.DoAuthorize? || req.DoRequestReset? || req.DoManageFactor?
             || req.Prune?
    ensures Quiet(s, Handle(s, req).0)
  {
    hide ApproveAuthorize, ClaimCode;
  }

  lemma StepShape(s: State, req: Request)
    ensures Shaped(s, Handle(s, req).0, RefreshOf(s, req))
  {
    if req.DoLogin? {
      LoginShape(s, req);
    } else if req.DoLoginMfa? {
      LoginMfaShape(s, req);
    } else if req.DoChangePassword? {
      ChangePasswordShape(s, req);
    } else if req.DoReset? {
      ResetShape(s, req);
    } else if req.DoResetMfa? {
      ResetMfaShape(s, req);
    } else if req.DoClientCredentials? || req.DoRedeemCode? || req.DoRotate? {
      Moves.TokenRequestFrame(s, req);
    } else if !req.DoRevokeSessions? {
      OthersAreQuiet(s, req);
    }
  }

  // ── Backing ──────────────────────────────────────────────────────────────

  /** While the session lives, its counter is at `level` or above and outlives it. */
  ghost predicate Backed(s: State, sso: Uuid, level: nat) {
    && sso in s.cache.sessions && sso < s.nextId
    && var entry := s.cache.sessions[sso];
       var k := KeyOf(entry.value);
       || entry.expiry <= s.now
       || level == 0
       || (k in s.cache.epochs && level <= s.cache.epochs[k].value && entry.expiry <= s.cache.epochs[k].expiry)
  }

  /** The session is revoked: its counter stays above its epoch for as long as it lives. */
  ghost predicate Revoked(s: State, sso: Uuid) {
    sso in s.cache.sessions && Backed(s, sso, s.cache.sessions[sso].value.epoch + 1)
  }

  /** Should the request refresh the counter of `k`, the counter then lasts to `expiry` at least. */
  ghost predicate Spares(s: State, req: Request, k: EpochKey, expiry: Time) {
    Refreshes(s, req, k) ==> expiry <= s.now + EpochTtl(RefreshOf(s, req).value.cfg)
  }

  /** Every request of the run that opens a session for `k`, or revokes it, spares what expires at `expiry`. */
  ghost predicate AllSpare(s: State, reqs: seq<Request>, k: EpochKey, expiry: Time)
    decreases reqs
  {
    reqs == [] || (Spares(s, reqs[0], k, expiry) && AllSpare(Handle(s, reqs[0]).0, reqs[1..], k, expiry))
  }

  /** One step keeps a session's backing exactly when it spares the session. */
  lemma BackingStep(s: State, req: Request, sso: Uuid, level: nat)
    requires Backed(s, sso, level)
    ensures var s' := Handle(s, req).0;
            var entry := s.cache.sessions[sso];
            && sso in s'.cache.sessions && s'.cache.sessions[sso] == entry
            && (Spares(s, req, KeyOf(entry.value), entry.expiry) ==> Backed(s', sso, level))
            && (Backed(s', sso, level) && 0 < level ==> Spares(s, req, KeyOf(entry.value), entry.expiry))
  {
    hide Handle, RefreshOf;
    StepShape(s, req);
    ShapedBacking(s, Handle(s, req).0, RefreshOf(s, req), sso, level);
  }

  lemma ShapedBacking(s: State, s': State, r: Option<Refresh>, sso: Uuid, level: nat)
    requires Backed(s, sso, level) && Shaped(s, s', r)
    ensures var entry := s.cache.sessions[sso];
            var spares := r.Some? && r.value.key == KeyOf(entry.value) ==>
                            entry.expiry <= s.now + EpochTtl(r.value.cfg);
            && sso in s'.cache.sessions && s'.cache.sessions[sso] == entry
            && (spares ==> Backed(s', sso, level))
            && (Backed(s', sso, level) && 0 < level ==> spares)
  {
    assert sso in s.cache.sessions && sso < s.nextId;
    hide Backed, Opens, Bumps;
    match r
    case None => UntouchedBacking(s, s', sso, level);
    case Some(Refresh(k, cfg)) =>
      if k == KeyOf(s.cache.sessions[sso].value) {
        RefreshedBacking(s, s', sso, level, cfg);
      } else {
        OtherOpens(s, s', k, cfg, sso);
        UntouchedBacking(s, s', sso, level);
      }
  }

  /** The session and its counter are as before. */
  lemma UntouchedBacking(s: State, s': State, sso: Uuid, level: nat)
    requires Backed(s, sso, level) && s.now <= s'.now && s.nextId <= s'.nextId
    requires sso in s'.cache.sessions && s'.cache.sessions[sso] == s.cache.sessions[sso]
    requires var k := KeyOf(s.cache.sessions[sso].value);
             (k in s.cache.epochs ==> k in s'.cache.epochs && s'.cache.epochs[k] == s.cache.epochs[k])
    ensures Backed(s', sso, level)
  {
  }

  lemma OtherOpens(s: State, s': State, k: EpochKey, cfg: Config, sso: Uuid)
    requires Opens(s, s', k, cfg) || Bumps(s, s', k, cfg)
    requires sso in s.cache.sessions && sso < s.nextId
    ensures sso in s'.cache.sessions && s'.cache.sessions[sso] == s.cache.sessions[sso]
    ensures s.now <= s'.now && s.nextId <= s'.nextId
    ensures forall other :: other in s.cache.epochs && other != k ==>
              other in s'.cache.epochs && s'.cache.epochs[other] == s.cache.epochs[other]
  {
  }

  /** The session's own counter is refreshed under `cfg`. */
  lemma RefreshedBacking(s: State, s': State, sso: Uuid, level: nat, cfg: Config)
    requires Backed(s, sso, level)
    requires var k := KeyOf(s.cache.sessions[sso].value); Opens(s, s', k, cfg) || Bumps(s, s', k, cfg)
    ensures sso in s'.cache.sessions && s'.cache.sessions[sso] == s.cache.sessions[sso]
    ensures s.cache.sessions[sso].expiry <= s.now + EpochTtl(cfg) ==> Backed(s', sso, level)
    ensures Backed(s', sso, level) && 0 < level ==> s.cache.sessions[sso].expiry <= s.now + EpochTtl(cfg)
  {
  }

  lemma {:induction false} BackingKept(s: State, reqs: seq<Request>, sso: Uuid, level: nat)
    requires Backed(s, sso, level)
    requires AllSpare(s, reqs, KeyOf(s.cache.sessions[sso].value), s.cache.sessions[sso].expiry)
    ensures Backed(Run(s, reqs), sso, level) && Run(s, reqs).cache.sessions[sso] == s.cache.sessions[sso]
    decreases reqs
  {
    if reqs != [] {
      BackingStep(s, reqs[0], sso, level);
      BackingKept(Handle(s, reqs[0]).0, reqs[1..], sso, level);
    }
  }

  /** A session is backed at its epoch from the moment it is opened. */
  lemma OpeningBacks(s: State, s': State, k: EpochKey, cfg: Config)
    requires Opens(s, s', k, cfg)
    ensures Backed(s', s.nextId, s'.cache.sessions[s.nextId].value.epoch)
  {
  }

  /** The epoch of a backed session is no later than its counter, for as long as the session lives. */
  lemma BackedIsCurrent(s: State, sso: Uuid)
    requires sso in s.cache.sessions && Backed(s, sso, s.cache.sessions[sso].value.epoch)
    ensures IsCurrent(s, sso)
  {
  }

  ghost predicate IsCurrent(s: State, sso: Uuid) {
    && sso in s.cache.sessions
    && var entry := s.cache.sessions[sso];
       entry.expiry <= s.now || entry.value.epoch <= Count(s.cache.epochs, KeyOf(entry.value), s.now)
  }

  /** From its opening on, a session that every request of the run spares has a current epoch. */
  lemma SparedStaysCurrent(s: State, s1: State, k: EpochKey, cfg: Config, reqs: seq<Request>)
    requires Opens(s, s1, k, cfg) && AllSpare(s1, reqs, k, s.now + cfg.cookieLifetime)
    ensures IsCurrent(Run(s1, reqs), s.nextId)
  {
    OpeningBacks(s, s1, k, cfg);
    BackingKept(s1, reqs, s.nextId, s1.cache.sessions[s.nextId].value.epoch);
    BackedIsCurrent(Run(s1, reqs), s.nextId);
  }

  /** Revocation takes hold of a session exactly when its epoch is current and the counter lasts to its end. */
  lemma RevokeRevokes(s: State, sso: Uuid, cfg: Config)
    requires sso in s.cache.sessions && sso < s.nextId
    ensures var entry := s.cache.sessions[sso];
            Revoked(RevokeAllSessions(s, entry.value.tenant, entry.value.identity, cfg), sso)
            <==> IsCurrent(s, sso) && entry.expiry <= s.now + EpochTtl(cfg)
  {
  }

  // ── What the epoch check refuses ─────────────────────────────────────────

  /** The session has expired, or its epoch is behind the counter. */
  ghost predicate Refuses(s: State, sso: Uuid)
    requires sso in s.cache.sessions
  {
    var entry := s.cache.sessions[sso];
    entry.expiry <= s.now || entry.value.epoch < Count(s.cache.epochs, KeyOf(entry.value), s.now)
  }

  /** A refused session validates nowhere; any other validates for its identity while that is active. */
  lemma RefusedExactly(s: State, tenant: Uuid, pool: Uuid, sso: Uuid)
    requires sso in s.cache.sessions
    ensures Refuses(s, sso) ==> forall maxAge :: ValidateSession(s, tenant, pool, sso, maxAge).Failure?
    ensures var session := s.cache.sessions[sso].value;
            ValidateSession(s, tenant, pool, sso, None).Success? <==>
              && !Refuses(s, sso) && session.tenant == tenant && session.pool == pool
              && FindIdentity(s, pool, session.identity).Some?
              && FindIdentity(s, pool, session.identity).value.standing.Active?
  {
    hide FindIdentity;
  }

  ghost function Later(s: State, seconds: nat): State { s.(now := s.now + seconds) }

  ghost predicate RefusedForever(s: State, sso: Uuid)
    requires sso in s.cache.sessions
  {
    forall d: nat :: Refuses(Later(s, d), sso)
  }

  /** A session is refused however long one waits exactly when it is revoked. */
  lemma RevokedExactly(s: State, sso: Uuid)
    requires sso in s.cache.sessions && sso < s.nextId
    ensures RefusedForever(s, sso) <==> Revoked(s, sso)
  {
    if RefusedForever(s, sso) {
      var k := KeyOf(s.cache.sessions[sso].value);
      assert Refuses(Later(s, 0), sso);
      if k in s.cache.epochs && s.now <= s.cache.epochs[k].expiry {
        assert Refuses(Later(s, s.cache.epochs[k].expiry - s.now), sso);
      }
    }
  }

  /** At every point of the run, the session is refused however long one waits there. */
  ghost predicate RefusedThroughout(s: State, reqs: seq<Request>, sso: Uuid)
    requires sso in s.cache.sessions
    decreases reqs
  {
    && RefusedForever(s, sso)
    && (reqs == [] || (var s' := Handle(s, reqs[0]).0;
                       sso in s'.cache.sessions && RefusedThroughout(s', reqs[1..], sso)))
  }

  lemma {:induction false} RefusedThroughoutExactly(s: State, reqs: seq<Request>, sso: Uuid)
    requires Revoked(s, sso)
    ensures RefusedThroughout(s, reqs, sso)
            <==> AllSpare(s, reqs, KeyOf(s.cache.sessions[sso].value), s.cache.sessions[sso].expiry)
    decreases reqs
  {
    RevokedExactly(s, sso);
    if reqs != [] {
      var s' := Handle(s, reqs[0]).0;
      BackingStep(s, reqs[0], sso, s.cache.sessions[sso].value.epoch + 1);
      StepShape(s, reqs[0]);
      assert sso < s'.nextId;
      RevokedExactly(s', sso);
      if Revoked(s', sso) {
        RefusedThroughoutExactly(s', reqs[1..], sso);
      }
    }
  }

  /**
   A session of the identity is refused from its revocation on, at every point of
   any run and however long one waits there, if and only if its epoch was current,
   the counter then lasted to the session's end, and so it did after every later
   request that opened a session for, or revoked, the same tenant and identity.
   */
  lemma RevocationHoldsExactly(s: State, sso: Uuid, cfg: Config, after: seq<Request>)
    requires sso in s.cache.sessions && sso < s.nextId
    ensures var entry := s.cache.sessions[sso];
            var revoked := RevokeAllSessions(s, entry.value.tenant, entry.value.identity, cfg);
            RefusedThroughout(revoked, after, sso) <==>
              && IsCurrent(s, sso) && entry.expiry <= s.now + EpochTtl(cfg)
              && AllSpare(revoked, after, KeyOf(entry.value), entry.expiry)
  {
    var session := s.cache.sessions[sso].value;
    var revoked := RevokeAllSessions(s, session.tenant, session.identity, cfg);
    RevokeRevokes(s, sso, cfg);
    RevokedExactly(revoked, sso);
    if Revoked(revoked, sso) {
      RefusedThroughoutExactly(revoked, after, sso);
    }
  }

  // ── The last refresh decides ─────────────────────────────────────────────

  ghost predicate NoneRefreshes(s: State, reqs: seq<Request>, k: EpochKey)
    decreases reqs
  {
    reqs == [] || (!Refreshes(s, reqs[0], k) && NoneRefreshes(Handle(s, reqs[0]).0, reqs[1..], k))
  }

  ghost predicate EndsBy(s: State, k: EpochKey, deadline: Time) {
    k in s.cache.epochs ==> s.cache.epochs[k].expiry <= deadline
  }

  lemma RefreshSetsDeadline(s: State, req: Request, k: EpochKey)
    requires Refreshes(s, req, k)
    ensures EndsBy(Handle(s, req).0, k, s.now + EpochTtl(RefreshOf(s, req).value.cfg))
  {
    hide Handle, RefreshOf;
    StepShape(s, req);
  }

  lemma SessionStays(s: State, req: Request, sso: Uuid)
    requires sso in s.cache.sessions && sso < s.nextId
    ensures var s' := Handle(s, req).0;
            sso in s'.cache.sessions && s'.cache.sessions[sso] == s.cache.sessions[sso] && sso < s'.nextId
  {
    BackingStep(s, req, sso, 0);
    StepShape(s, req);
  }

  lemma {:induction false} DeadlineStays(s: State, reqs: seq<Request>, sso: Uuid, k: EpochKey, deadline: Time)
    requires sso in s.cache.sessions && sso < s.nextId && NoneRefreshes(s, reqs, k) && EndsBy(s, k, deadline)
    ensures var s' := Run(s, reqs);
            && EndsBy(s', k, deadline)
            && sso in s'.cache.sessions && s'.cache.sessions[sso] == s.cache.sessions[sso]
    decreases reqs
  {
    hide Handle, RefreshOf;
    if reqs != [] {
      StepShape(s, reqs[0]);
      SessionStays(s, reqs[0], sso);
      DeadlineStays(Handle(s, reqs[0]).0, reqs[1..], sso, k, deadline);
    }
  }

  /**
   If the last request of a run to refresh the counter leaves it too short for a
   session, then for as long as the session lives some wait makes the epoch check
   pass it, however often the session was revoked before.
   */
  lemma LastRefreshDecides(s: State, req: Request, reqs: seq<Request>, sso: Uuid)
    requires sso in s.cache.sessions && sso < s.nextId
    requires var k := KeyOf(s.cache.sessions[sso].value);
             && Refreshes(s, req, k) && NoneRefreshes(Handle(s, req).0, reqs, k)
             && !Spares(s, req, k, s.cache.sessions[sso].expiry)
    requires Run(Handle(s, req).0, reqs).now < s.cache.sessions[sso].expiry
    ensures var s' := Run(Handle(s, req).0, reqs);
            sso in s'.cache.sessions && !RefusedForever(s', sso)
  {
    hide Handle, RefreshOf, Run;
    var entry := s.cache.sessions[sso];
    var k := KeyOf(entry.value);
    var deadline := s.now + EpochTtl(RefreshOf(s, req).value.cfg);
    var s' := Run(Handle(s, req).0, reqs);
    RefreshSetsDeadline(s, req, k);
    SessionStays(s, req, sso);
    DeadlineStays(Handle(s, req).0, reqs, sso, k, deadline);
    var d := if s'.now <= deadline then deadline - s'.now else 0;
    assert !Refuses(Later(s', d), sso);
  }

  // ── Lifetimes that always suffice ────────────────────────────────────────

  /** `bound` caps the session lifetime and is covered by the counter lifetime. */
  ghost predicate Covers(cfg: Config, bound: nat) {
    cfg.cookieLifetime <= bound <= EpochTtl(cfg)
  }

  /** `bound` covers every request of the run that refreshes the counter of `k`. */
  ghost predicate AllCovered(s: State, reqs: seq<Request>, k: EpochKey, bound: nat)
    decreases reqs
  {
    reqs == [] || (&& (Refreshes(s, reqs[0], k) ==> Covers(RefreshOf(s, reqs[0]).value.cfg, bound))
                   && AllCovered(Handle(s, reqs[0]).0, reqs[1..], k, bound))
  }

  ghost predicate Inv(s: State, k: EpochKey, bound: nat) {
    && (forall sso :: sso in s.cache.sessions ==> sso < s.nextId)
    && (forall sso :: sso in s.cache.sessions && KeyOf(s.cache.sessions[sso].value) == k ==>
          && s.cache.sessions[sso].expiry <= s.now + bound
          && Backed(s, sso, s.cache.sessions[sso].value.epoch))
  }

  lemma StepKeeps(s: State, req: Request, k: EpochKey, bound: nat)
    requires Inv(s, k, bound) && (Refreshes(s, req, k) ==> Covers(RefreshOf(s, req).value.cfg, bound))
    ensures Inv(Handle(s, req).0, k, bound)
  {
    hide Handle, RefreshOf;
    StepShape(s, req);
    var s' := Handle(s, req).0;
    forall sso | sso in s'.cache.sessions && KeyOf(s'.cache.sessions[sso].value) == k
      ensures s'.cache.sessions[sso].expiry <= s'.now + bound && Backed(s', sso, s'.cache.sessions[sso].value.epoch)
    {
      if sso in s.cache.sessions {
        BackingStep(s, req, sso, s.cache.sessions[sso].value.epoch);
      } else {
        OpeningBacks(s, s', k, RefreshOf(s, req).value.cfg);
      }
    }
  }

  lemma {:induction false} RunKeeps(s: State, reqs: seq<Request>, k: EpochKey, bound: nat)
    requires Inv(s, k, bound) && AllCovered(s, reqs, k, bound)
    ensures Inv(Run(s, reqs), k, bound)
    decreases reqs
  {
    if reqs != [] {
      StepKeeps(s, reqs[0], k, bound);
      RunKeeps(Handle(s, reqs[0]).0, reqs[1..], k, bound);
    }
  }

  /** Covered requests spare every session there is. */
  lemma {:induction false} CoveredSpare(s: State, reqs: seq<Request>, k: EpochKey, bound: nat, sso: Uuid)
    requires Inv(s, k, bound) && AllCovered(s, reqs, k, bound)
    requires sso in s.cache.sessions && KeyOf(s.cache.sessions[sso].value) == k
    ensures AllSpare(s, reqs, k, s.cache.sessions[sso].expiry)
    decreases reqs
  {
    if reqs != [] {
      StepKeeps(s, reqs[0], k, bound);
      SessionStays(s, reqs[0], sso);
      CoveredSpare(Handle(s, reqs[0]).0, reqs[1..], k, bound, sso);
    }
  }

  /**
   After `revoke_all_sessions`, no session opened earlier for that identity is
   accepted at any point of any run, however long one waits there.

   `bound` is any duration that every cookie lifetime used for this tenant and
   identity stays within and every such counter lifetime covers; what other
   tenants and identities use is of no concern.
   */
  lemma RevocationIsFinal(s: State, before: seq<Request>, tenant: Uuid, identity: Uuid, cfg: Config,
                          after: seq<Request>, bound: nat, sso: Uuid)
    requires IsInitial(s) && AllCovered(s, before, (tenant, identity), bound) && Covers(cfg, bound)
    requires var s1 := Run(s, before);
             && AllCovered(RevokeAllSessions(s1, tenant, identity, cfg), after, (tenant, identity), bound)
             && sso in s1.cache.sessions && KeyOf(s1.cache.sessions[sso].value) == (tenant, identity)
    ensures RefusedThroughout(RevokeAllSessions(Run(s, before), tenant, identity, cfg), after, sso)
  {
    hide RefreshOf, RevokeAllSessions;
    var s1 := Run(s, before);
    var k := (tenant, identity);
    RunKeeps(s, before, k, bound);
    BackedIsCurrent(s1, sso);
    var revoke := DoRevokeSessions(tenant, identity, cfg);
    RevokeIsARefresh(s1, tenant, identity, cfg);
    StepKeeps(s1, revoke, k, bound);
    SessionStays(s1, revoke, sso);
    CoveredSpare(Handle(s1, revoke).0, after, k, bound, sso);
    RevocationHoldsExactly(s1, sso, cfg, after);
  }

  lemma RevokeIsARefresh(s: State, tenant: Uuid, identity: Uuid, cfg: Config)
    ensures var revoke := DoRevokeSessions(tenant, identity, cfg);
            && RefreshOf(s, revoke) == Some(Refresh((tenant, identity), cfg))
            && Handle(s, revoke).0 == RevokeAllSessions(s, tenant, identity, cfg)
  {
  }

  /** A request of this tenant is made under this cookie lifetime. */
  ghost predicate KeepsLifetime(req: Request, tenant: Uuid, lifetime: nat) {
    match req
    case DoLogin(t, _, _, _, cfg) => t == tenant ==> cfg.cookieLifetime == lifetime
    case DoLoginMfa(t, _, _, _, _, cfg) => t == tenant ==> cfg.cookieLifetime == lifetime
    case DoChangePassword(t, _, _, _, _, _, cfg) => t == tenant ==> cfg.cookieLifetime == lifetime
    case DoReset(t, _, _, cfg) => t == tenant ==> cfg.cookieLifetime == lifetime
    case DoResetMfa(t, _, _, _, _, cfg) => t == tenant ==> cfg.cookieLifetime == lifetime
    case DoRevokeSessions(t, _, cfg) => t == tenant ==> cfg.cookieLifetime == lifetime
    case _ => true
  }

  lemma {:induction false} LifetimeCovers(s: State, reqs: seq<Request>, k: EpochKey, lifetime: nat)
    requires forall i :: 0 <= i < |reqs| ==> KeepsLifetime(reqs[i], k.0, lifetime)
    ensures AllCovered(s, reqs, k, lifetime)
    decreases reqs
  {
    if reqs != [] {
      assert KeepsLifetime(reqs[0], k.0, lifetime);
      LifetimeCovers(Handle(s, reqs[0]).0, reqs[1..], k, lifetime);
    }
  }

  /** In particular, revocation is final at every tenant whose own cookie lifetime stays fixed. */
  lemma FixedLifetimeRevocationIsFinal(s: State, before: seq<Request>, tenant: Uuid, identity: Uuid, cfg: Config,
                                       after: seq<Request>, sso: Uuid)
    requires IsInitial(s)
    requires forall req :: req in before + after ==> KeepsLifetime(req, tenant, cfg.cookieLifetime)
    requires var sessions := Run(s, before).cache.sessions;
             sso in sessions && KeyOf(sessions[sso].value) == (tenant, identity)
    ensures var s1 := RevokeAllSessions(Run(s, before), tenant, identity, cfg);
            && RefusedThroughout(s1, after, sso)
            && forall t, pool, maxAge :: ValidateSession(Run(s1, after), t, pool, sso, maxAge).Failure?
  {
    hide Run, RefreshOf, RefusedThroughout, ValidateSession;
    forall i | 0 <= i < |before| ensures KeepsLifetime(before[i], tenant, cfg.cookieLifetime) {
      assert before[i] in before + after;
    }
    forall i | 0 <= i < |after| ensures KeepsLifetime(after[i], tenant, cfg.cookieLifetime) {
      assert after[i] in before + after;
    }
    LifetimeCovers(s, before, (tenant, identity), cfg.cookieLifetime);
    LifetimeCovers(RevokeAllSessions(Run(s, before), tenant, identity, cfg), after, (tenant, identity),
                   cfg.cookieLifetime);
    RevocationIsFinal(s, before, tenant, identity, cfg, after, cfg.cookieLifetime, sso);
    var s1 := RevokeAllSessions(Run(s, before), tenant, identity, cfg);
    var s2 := Run(s1, after);
    RefusedAtTheEnd(s1, after, sso);
    assert Refuses(Later(s2, 0), sso);
    forall t, pool, maxAge ensures ValidateSession(s2, t, pool, sso, maxAge).Failure? {
      RefusedExactly(s2, t, pool, sso);
    }
  }

  lemma {:induction false} RefusedAtTheEnd(s: State, reqs: seq<Request>, sso: Uuid)
    requires sso in s.cache.sessions && RefusedThroughout(s, reqs, sso)
    ensures sso in Run(s, reqs).cache.sessions && RefusedForever(Run(s, reqs), sso)
    decreases reqs
  {
    if reqs != [] {
      RefusedAtTheEnd(Handle(s, reqs[0]).0, reqs[1..], sso);
    }
  }

  /** Nor is any refresh record saved earlier for that identity accepted again. */
  lemma RevokedRecordsAreFinal(s: State, before: seq<Request>, tenant: Uuid, identity: Uuid, cfg: Config,
                               after: seq<Request>, token: Uuid, req: TokenRequest)
    requires IsInitial(s)
    requires var records := Run(s, before).db.refresh;
             token in records && records[token].tenant == tenant && records[token].identity == identity
    ensures var s2 := Run(RevokeAllSessions(Run(s, before), tenant, identity, cfg), after);
            !Rotate(s2, req, token).1.Tokens?
  {
    Rotation.RunKeeps(s, before);
    var s1 := Run(s, before);
    Rotation.StepKeeps(s1, DoRevokeSessions(tenant, identity, cfg));
    var s2 := RevokeAllSessions(s1, tenant, identity, cfg);
    assert s2 == Handle(s1, DoRevokeSessions(tenant, identity, cfg)).0;
    Rotation.RevokedStaysRevoked(s2, after, token);
  }

  // ── A run that shortens the lifetime ─────────────────────────────────────

  lemma RunFour(s: State, a: Request, b: Request, c: Request, d: Request)
    ensures Run(s, [a, b, c, d]) == Handle(Handle(Handle(Handle(s, a).0, b).0, c).0, d).0
  {
    hide Handle;
    assert [a, b, c, d][1..] == [b, c, d] && [b, c, d][1..] == [c, d] && [c, d][1..] == [d] && [d][1..] == [];
    var s1 := Handle(s, a).0;
    var s2 := Handle(s1, b).0;
    var s3 := Handle(s2, c).0;
    assert Run(s3, [d]) == Run(Handle(s3, d).0, []);
    assert Run(s2, [c, d]) == Run(s3, [d]);
    assert Run(s1, [b, c, d]) == Run(s2, [c, d]);
  }

  /** A state in which identity 0 can log in at tenant 0 with a password alone. */
  ghost function OneUser(): State {
    var row := Identity(0, 0, false, Active, Some("password"), {});
    var client := Client(0, 0, true, None, {}, [], {}, false, 0, 0);
    State(0, 0, Cache(map[], map[], map[], map[], map[], map[], map[]),
          Tables(map[0 := row], map[(0, "app") := client], map[], SecondFactors.Store(0, map[], map[])), map[], [])
  }

  lemma LoginThenRevoke(cfg: Config)
    ensures var s1 := Handle(OneUser(), DoLogin(0, "app", 0, "password", cfg)).0;
            var s2 := Handle(s1, DoRevokeSessions(0, 0, cfg)).0;
            && s2.cache.sessions == map[0 := Entry(Session(0, 0, 0, ["pwd"], 0, 0), cfg.cookieLifetime)]
            && s2.cache.epochs == map[(0, 0) := Entry(1, EpochTtl(cfg))]
            && s2.db.identities == OneUser().db.identities && s2.db.clients == OneUser().db.clients
            && s2.db.factors == OneUser().db.factors && s2.now == 0 && s2.nextId == 1
  {
  }

  lemma LoginAgain(s: State, cfg: Config)
    requires s.db.identities == OneUser().db.identities && s.db.clients == OneUser().db.clients
    requires s.db.factors == OneUser().db.factors && IsLive(s.cache.epochs, (0, 0), s.now)
    ensures var s' := Handle(s, DoLogin(0, "app", 0, "password", cfg)).0;
            && s'.cache.sessions == s.cache.sessions[s.nextId := s'.cache.sessions[s.nextId]]
            && s'.cache.epochs == Touch(s.cache.epochs, (0, 0), s.now, EpochTtl(cfg))
            && s'.db == s.db && s'.now == s.now
  {
  }

  /**
   A login under a cookie lifetime whose counter falls short of an earlier one
   brings a session back that was revoked, and revoked for its full lifetime.
   */
  lemma LaterLoginRedeems(long: Config, short: Config) returns (s: State, reqs: seq<Request>)
    requires EpochTtl(short) < long.cookieLifetime
    ensures IsInitial(s)
    ensures reqs == [DoLogin(0, "app", 0, "password", long), DoRevokeSessions(0, 0, long),
                     DoLogin(0, "app", 0, "password", short), Wait(EpochTtl(short))]
    ensures Revoked(Run(s, reqs[..2]), 0)
    ensures ValidateSession(Run(s, reqs), 0, 0, 0, None).Success?
  {
    s := OneUser();
    var login, revoke := DoLogin(0, "app", 0, "password", long), DoRevokeSessions(0, 0, long);
    var again, wait := DoLogin(0, "app", 0, "password", short), Wait(EpochTtl(short));
    reqs := [login, revoke, again, wait];
    RunFour(s, login, revoke, again, wait);
    hide Handle;
    LoginThenRevoke(long);
    var s1 := Handle(s, login).0;
    var s2 := Handle(s1, revoke).0;
    assert reqs[..2][1..] == [revoke] && [revoke][1..] == [];
    assert Run(s1, [revoke]) == Run(s2, []);
    LoginAgain(s2, short);
    var s3 := Handle(s2, again).0;
    WaitPasses(s3, EpochTtl(short));
    RefusedExactly(Later(s3, EpochTtl(short)), 0, 0, 0);
    hide ValidateSession;
  }

  lemma WaitPasses(s: State, seconds: nat)
    ensures Handle(s, Wait(seconds)).0 == Later(s, seconds)
  {
  }
}
