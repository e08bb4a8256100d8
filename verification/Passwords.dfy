/**
 What the password flows write and when. Each is told in terms of the columns it
 depends on; and after each of them the new password, and no other, logs the
 identity in.
 */
module Passwords {
  import opened Wrappers
  import opened Redis
  import opened Credentials
  import opened Logins
  import Moves

  /** The identity is stored in the pool and not deleted. */
  ghost predicate IsStored(s: State, pool: Uuid, identity: Uuid) {
    && identity in s.db.identities && s.db.identities[identity].pool == pool
    && s.db.identities[identity].standing != Deleted
  }

  /** The password column of this identity is written; no other column and no other row is. */
  ghost predicate WritesPassword(before: map<Uuid, Identity>, after: map<Uuid, Identity>, identity: Uuid,
                                 password: string)
  {
    && after.Keys == before.Keys && identity in after
    && after[identity].password == Some(password)
    && (forall i :: i in after ==>
          && after[i].tenant == before[i].tenant && after[i].pool == before[i].pool
          && after[i].machine == before[i].machine && after[i].standing == before[i].standing
          && after[i].permissions == before[i].permissions
          && (i != identity ==> after[i].password == before[i].password))
  }

  /** Every refresh record of the identity at this tenant is revoked, and no other record changes. */
  ghost predicate RevokesRecords(before: map<Uuid, RefreshRecord>, after: map<Uuid, RefreshRecord>, tenant: Uuid,
                                 identity: Uuid)
  {
    && after.Keys == before.Keys
    && forall t :: t in after ==>
         after[t] == before[t].(revoked := before[t].revoked
                                           || (before[t].tenant == tenant && before[t].identity == identity))
  }

  /** The epoch moves on by one and is kept for its lifetime from now. */
  ghost predicate MovesEpoch(s: State, s': State, tenant: Uuid, identity: Uuid, cfg: Config) {
    s'.cache.epochs
    == s.cache.epochs[(tenant, identity) := Entry(EpochAt(s, tenant, identity) + 1, s.now + EpochLifetime(cfg))]
  }

  /** The password is written and every session and refresh record of the identity is revoked. */
  ghost predicate Rewritten(s: State, s': State, tenant: Uuid, identity: Uuid, password: string, cfg: Config) {
    && WritesPassword(s.db.identities, s'.db.identities, identity, password)
    && RevokesRecords(s.db.refresh, s'.db.refresh, tenant, identity) && MovesEpoch(s, s', tenant, identity, cfg)
    && s'.db.clients == s.db.clients && s'.cache.sessions == s.cache.sessions && s'.cache.codes == s.cache.codes
    && s'.challenges == s.challenges && s'.now == s.now && s'.nextId == s.nextId
  }

  lemma RevokedExactly(s: State, tenant: Uuid, identity: Uuid, cfg: Config)
    ensures var s' := Handle(s, DoRevokeSessions(tenant, identity, cfg)).0;
            && RevokesRecords(s.db.refresh, s'.db.refresh, tenant, identity) && MovesEpoch(s, s', tenant, identity, cfg)
            && s' == s.(db := s.db.(refresh := s'.db.refresh), cache := s.cache.(epochs := s'.cache.epochs))
  {
  }

  /**
   A password is written if and only if it has eight characters at least and the
   identity is stored; then it is what the identity's row holds, nothing else of any
   row changes, and everything of the identity is revoked. A refusal changes nothing.
   */
  lemma WrittenExactly(s: State, tenant: Uuid, pool: Uuid, identity: Uuid, password: string, reset: Option<Uuid>,
                       cfg: Config)
    ensures var (s', outcome) := SetPassword(s, tenant, pool, identity, password, reset, cfg);
            && (outcome.Done? <==> 8 <= |password| && IsStored(s, pool, identity))
            && (outcome.Done? ==>
                  Rewritten(s, s', tenant, identity, password, cfg) && s'.log == s.log + [PasswordSet(identity, reset)]
                  && s'.db.factors == s.db.factors && s'.cache.selfAttempts == s.cache.selfAttempts
                  && s'.cache.attempts == s.cache.attempts && s'.cache.spent == s.cache.spent
                  && s'.cache.resets == s.cache.resets)
            && (!outcome.Done? ==> s' == s && outcome == Refused(if |password| < 8 then Validation else NotFound))
  {
    RevokedExactly(s, tenant, identity, cfg);
    hide RevokesRecords, MovesEpoch;
    if 8 <= |password| && IsStored(s, pool, identity) {
      var row := s.db.identities[identity];
      var s1 := s.(db := s.db.(identities := s.db.identities[identity := row.(password := Some(password))]),
                   log := s.log + [PasswordSet(identity, reset)]);
      RevokedExactly(s1, tenant, identity, cfg);
      SameEpochMove(s, s1, RevokeAllSessions(s1, tenant, identity, cfg), tenant, identity, cfg);
    }
  }

  lemma SameEpochMove(s: State, s1: State, s': State, tenant: Uuid, identity: Uuid, cfg: Config)
    requires s1.cache == s.cache && s1.now == s.now && MovesEpoch(s1, s', tenant, identity, cfg)
    ensures MovesEpoch(s, s', tenant, identity, cfg)
  {
  }

  // ── Changing one's own password ──────────────────────────────────────────

  /** The counter that bounds codes at password changes. */
  ghost predicate HasAttemptsLeft(s: State, identity: Uuid, cfg: Config) {
    Tally(s.cache.selfAttempts, identity, s.now) < cfg.mfaMaxAttempts
  }

  ghost predicate MayChange(s: State, pool: Uuid, identity: Uuid, current: string, password: string,
                            mfa: Option<SecondFactor>, cfg: Config)
  {
    && KnowsPassword(s, pool, identity, current) && 8 <= |password|
    && (HasFactor(s, identity) ==>
          && mfa.Some? && HasAttemptsLeft(s, identity, cfg)
          && CodeFits(s, identity, mfa.value.option, mfa.value.code, cfg))
  }

  /**
   An identity changes its password if and only if it is active, presents the password
   stored, chooses one of eight characters at least and, when a factor is verified,
   presents a code that the factor accepts while attempts are left. An attempt counts
   exactly when the password was right, a factor is verified and a code presented.
   */
  lemma ChangedExactly(s: State, tenant: Uuid, pool: Uuid, identity: Uuid, current: string, password: string,
                       mfa: Option<SecondFactor>, cfg: Config)
    ensures var (s', outcome) := Handle(s, DoChangePassword(tenant, pool, identity, current, password, mfa, cfg));
            var counts := KnowsPassword(s, pool, identity, current) && HasFactor(s, identity) && mfa.Some?;
            && (outcome.Done? <==> MayChange(s, pool, identity, current, password, mfa, cfg))
            && (outcome.Done? ==>
                  && Rewritten(s, s', tenant, identity, password, cfg)
                  && (HasFactor(s, identity) ==>
                        Spends(s, s'.db.factors, identity, mfa.value.option, mfa.value.code, cfg))
                  && (!HasFactor(s, identity) ==> s'.db.factors == s.db.factors))
            && (!outcome.Done? ==>
                  && outcome.Refused? && s'.db.identities == s.db.identities && s'.db.refresh == s.db.refresh
                  && s'.cache.epochs == s.cache.epochs && s'.cache.sessions == s.cache.sessions)
            && (if counts
                then CountedOnce(s.cache.selfAttempts, s'.cache.selfAttempts, identity, s.now, cfg.mfaLifetime)
                else s'.cache.selfAttempts == s.cache.selfAttempts)
            && (!KnowsPassword(s, pool, identity, current) ==> s' == s && outcome == Refused(InvalidCredentials))
            && (KnowsPassword(s, pool, identity, current) && HasFactor(s, identity) && mfa.None? ==>
                  s' == s && outcome == Refused(MfaCodeRequired))
            && (counts && !HasAttemptsLeft(s, identity, cfg) ==>
                  outcome == Refused(TooManyAttempts) && s'.db == s.db)
  {
    KnownExactly(s, pool, identity, current);
    if KnowsPassword(s, pool, identity, current) && HasFactor(s, identity) && mfa.Some? {
      FactoredChangeExactly(s, tenant, pool, identity, current, password, mfa.value, cfg);
      hide ChangePassword, CodeFits, Spends, Rewritten, CountedOnce, KnowsPassword, HasFactor;
    } else {
      WrittenExactly(s, tenant, pool, identity, password, None, cfg);
      hide SetPassword, VerifyFactor, CodeFits, Spends, Rewritten, CountedOnce, PasswordMatches;
    }
  }

  /** The same, where a factor is verified and a code presented. */
  lemma FactoredChangeExactly(s: State, tenant: Uuid, pool: Uuid, identity: Uuid, current: string, password: string,
                              mfa: SecondFactor, cfg: Config)
    requires KnowsPassword(s, pool, identity, current) && HasFactor(s, identity)
    ensures var (s', outcome) := ChangePassword(s, tenant, pool, identity, current, password, Some(mfa), cfg);
            && (outcome.Done? <==>
                  && 8 <= |password| && HasAttemptsLeft(s, identity, cfg)
                  && CodeFits(s, identity, mfa.option, mfa.code, cfg))
            && (outcome.Done? ==>
                  && Rewritten(s, s', tenant, identity, password, cfg)
                  && Spends(s, s'.db.factors, identity, mfa.option, mfa.code, cfg))
            && (!outcome.Done? ==>
                  && outcome.Refused? && s'.db.identities == s.db.identities && s'.db.refresh == s.db.refresh
                  && s'.cache.epochs == s.cache.epochs && s'.cache.sessions == s.cache.sessions)
            && CountedOnce(s.cache.selfAttempts, s'.cache.selfAttempts, identity, s.now, cfg.mfaLifetime)
            && (!HasAttemptsLeft(s, identity, cfg) ==> outcome == Refused(TooManyAttempts) && s'.db == s.db)
  {
    KnownExactly(s, pool, identity, current);
    SelfCountedExactly(s, identity, cfg);
    VerifiedExactly(s, identity, mfa.option, mfa.code, cfg);
    var verdict := VerifyFactor(s.db.factors, identity, mfa.option, mfa.code, s.now, cfg);
    if verdict.Success? {
      var accepted := AcceptFactor(EvaluateSelf(s, identity, cfg), identity, verdict.value);
      WrittenExactly(accepted, tenant, pool, identity, password, None, cfg);
      AcceptedRewrites(s, accepted, SetPassword(accepted, tenant, pool, identity, password, None, cfg).0, tenant,
                       identity, password, cfg);
      assert IsStored(accepted, pool, identity) == IsStored(s, pool, identity);
    }
    hide SetPassword, VerifyFactor, CodeFits, Spends, Rewritten, CountedOnce, PasswordMatches;
  }

  lemma KnownExactly(s: State, pool: Uuid, identity: Uuid, password: string)
    ensures PasswordMatches(s, pool, identity, password) <==> KnowsPassword(s, pool, identity, password)
    ensures KnowsPassword(s, pool, identity, password) ==> IsStored(s, pool, identity)
    ensures IsEnrolled(s, identity) == HasFactor(s, identity)
  {
  }

  lemma SelfCountedExactly(s: State, identity: Uuid, cfg: Config)
    ensures CountedOnce(s.cache.selfAttempts, CountSelfAttempt(s, identity, cfg).cache.selfAttempts, identity, s.now,
                        cfg.mfaLifetime)
    ensures Count(s.cache.selfAttempts, identity, s.now) == Tally(s.cache.selfAttempts, identity, s.now)
  {
  }

  /** Rewriting does not look at attempts, factors or history. */
  lemma AcceptedRewrites(s: State, s1: State, s': State, tenant: Uuid, identity: Uuid, password: string, cfg: Config)
    requires s1 == s.(cache := s.cache.(selfAttempts := s1.cache.selfAttempts), db := s.db.(factors := s1.db.factors),
                      log := s1.log)
    ensures Rewritten(s1, s', tenant, identity, password, cfg) ==> Rewritten(s, s', tenant, identity, password, cfg)
  {
  }

  // ── Resetting it ─────────────────────────────────────────────────────────

  /** A reset token is stored for its lifetime, and nothing else changes. */
  lemma RequestedExactly(s: State, tenant: Uuid, pool: Uuid, identity: Uuid, cfg: Config)
    ensures var (s', outcome) := Handle(s, DoRequestReset(tenant, pool, identity, cfg));
            && outcome == ResetIssued(s.nextId)
            && s' == s.(nextId := s.nextId + 1, cache := s.cache.(resets := s.cache.resets[
                 s.nextId := Entry(ResetContext(tenant, pool, identity), s.now + cfg.resetLifetime)]))
  {
  }

  /** The reset token is stored, has not expired and was issued at this tenant. */
  ghost predicate IsResetToken(s: State, tenant: Uuid, token: Uuid) {
    && token in s.cache.resets && s.now < s.cache.resets[token].expiry
    && s.cache.resets[token].value.tenant == tenant
  }

  /**
   A reset token sets the password at once if and only if it is good, no factor of its
   identity is verified, the password is long enough and the identity is stored; it
   leads to a challenge if and only if it is good and a factor is verified. It is gone
   in any case.
   */
  lemma ResetExactly(s: State, tenant: Uuid, token: Uuid, password: string, cfg: Config)
    ensures var (s', outcome) := Handle(s, DoReset(tenant, token, password, cfg));
            var good := IsResetToken(s, tenant, token);
            && s'.cache.resets == s.cache.resets - {token}
            && (outcome.Done? <==>
                  && good && 8 <= |password| && !HasFactor(s, s.cache.resets[token].value.identity)
                  && IsStored(s, s.cache.resets[token].value.pool, s.cache.resets[token].value.identity))
            && (outcome.MfaRequired? <==> good && HasFactor(s, s.cache.resets[token].value.identity))
            && (outcome.Done? ==>
                  && Rewritten(s, s', tenant, s.cache.resets[token].value.identity, password, cfg)
                  && s'.db.factors == s.db.factors)
            && (outcome.MfaRequired? ==>
                  var context := s.cache.resets[token].value;
                  && s'.db == s.db
                  && Challenged(s, s', outcome.jti, tenant, context.pool, context.identity, ForReset, Some(token), cfg))
            && (!outcome.Done? && !outcome.MfaRequired? ==>
                  && outcome.Refused? && s'.db == s.db && s'.challenges == s.challenges
                  && s'.cache == s.cache.(resets := s'.cache.resets) && (!good ==> outcome.error == InvalidResetToken))
  {
    if token in s.cache.resets {
      var context := s.cache.resets[token].value;
      var s1 := Moves.Unlock(s, token);
      KnownExactly(s, context.pool, context.identity, "");
      WrittenExactly(s1, tenant, context.pool, context.identity, password, Some(token), cfg);
      UnlockedRewrites(s, s1, SetPassword(s1, tenant, context.pool, context.identity, password, Some(token), cfg).0,
                       tenant, context.identity, password, cfg);
      assert IsStored(s1, context.pool, context.identity) == IsStored(s, context.pool, context.identity);
      hide SetPassword, Rewritten;
    }
  }

  lemma UnlockedRewrites(s: State, s1: State, s': State, tenant: Uuid, identity: Uuid, password: string, cfg: Config)
    requires s1 == s.(cache := s.cache.(resets := s1.cache.resets), log := s1.log)
    ensures Rewritten(s1, s', tenant, identity, password, cfg) ==> Rewritten(s, s', tenant, identity, password, cfg)
  {
  }

  /**
   A reset challenge sets the password if and only if it is consumed and the password
   is long enough; a challenge consumed with too short a password is consumed.
   */
  lemma CompletedExactly(s: State, tenant: Uuid, jti: Uuid, option: MfaOption, code: string, password: string,
                         cfg: Config)
    ensures var (s', outcome) := Handle(s, DoResetMfa(tenant, jti, option, code, password, cfg));
            var consumed := MayConsume(s, tenant, None, jti, option, code, ForReset, cfg);
            && (outcome.Done? <==> consumed && 8 <= |password|)
            && (outcome.Done? ==> Rewritten(s, s', tenant, s.challenges[jti].identity, password, cfg))
            && (consumed ==>
                  && s'.cache.spent == s.cache.spent[s.challenges[jti].jti := Entry(true, s.now + cfg.mfaLifetime)]
                  && Spends(s, s'.db.factors, s.challenges[jti].identity, option, code, cfg))
            && (!consumed ==> s'.cache.spent == s.cache.spent && s'.db.factors == s.db.factors)
            && (if IsHeard(s, tenant, None, jti, ForReset, cfg)
                then CountedOnce(s.cache.attempts, s'.cache.attempts, jti, s.now, cfg.mfaLifetime)
                else s' == s && outcome == Refused(InvalidMfaToken))
            && (!outcome.Done? ==>
                  && outcome.Refused? && s'.db.identities == s.db.identities && s'.db.refresh == s.db.refresh
                  && s'.cache.epochs == s.cache.epochs && s'.cache.sessions == s.cache.sessions)
  {
    ConsumedExactly(s, tenant, None, jti, option, code, ForReset, cfg);
    var (s1, r) := ConsumeChallenge(s, tenant, None, jti, option, code, ForReset, cfg);
    if r.Success? {
      var c := r.value;
      WrittenExactly(s1, tenant, c.pool, c.identity, password, c.origin, cfg);
      ConsumedRewrites(s, s1, SetPassword(s1, tenant, c.pool, c.identity, password, c.origin, cfg).0, tenant,
                       c.identity, password, cfg);
      StandsIsStored(s, s1, c.pool, c.identity);
    }
    hide ConsumeChallenge, SetPassword, Rewritten, CountedOnce, Spends, CodeFits, IsHeard, Tally, Stands, IsStored;
  }

  lemma StandsIsStored(s: State, s1: State, pool: Uuid, identity: Uuid)
    requires s1.db.identities == s.db.identities
    ensures Stands(s, pool, identity) ==> IsStored(s1, pool, identity)
  {
  }

  lemma ConsumedRewrites(s: State, s1: State, s': State, tenant: Uuid, identity: Uuid, password: string, cfg: Config)
    requires OnlyChallenge(s, s1)
    ensures Rewritten(s1, s', tenant, identity, password, cfg) ==> Rewritten(s, s', tenant, identity, password, cfg)
  {
  }

  // ── Logging in with it ───────────────────────────────────────────────────

  /** Whose password a request sets. */
  ghost function Target(s: State, req: Request): Uuid {
    match req
    case DoChangePassword(_, _, identity, _, _, _, _) => identity
    case DoReset(_, reset, _, _) => if reset in s.cache.resets then s.cache.resets[reset].value.identity else 0
    case DoResetMfa(_, jti, _, _, _, _) => if jti in s.challenges then s.challenges[jti].identity else 0
    case _ => 0
  }

  lemma FlowWrites(s: State, req: Request)
    requires (req.DoChangePassword? || req.DoReset? || req.DoResetMfa?) && Handle(s, req).1.Done?
    ensures WritesPassword(s.db.identities, Handle(s, req).0.db.identities, Target(s, req), req.newPassword)
  {
    match req {
      case DoChangePassword(t, pool, identity, current, password, mfa, c) =>
        ChangedExactly(s, t, pool, identity, current, password, mfa, c);
      case DoReset(t, token, password, c) => ResetExactly(s, t, token, password, c);
      case DoResetMfa(t, jti, option, code, password, c) =>
        CompletedExactly(s, t, jti, option, code, password, c);
        ConsumableIsIssued(s, t, jti, option, code, c);
      case _ =>
    }
    hide Handle, WritesPassword;
  }

  /**
   After any of the three flows has set a password, that password logs the identity in
   at every active client of its pool while it is active, and every other one is
   refused there.
   */
  lemma OnlyTheNewPasswordLogsIn(s: State, req: Request, tenant: Uuid, name: string, presented: string, cfg: Config)
    requires (req.DoChangePassword? || req.DoReset? || req.DoResetMfa?) && Handle(s, req).1.Done?
    requires var s' := Handle(s, req).0;
             && IsActiveClient(s', tenant, name)
             && Stands(s', s'.db.clients[(tenant, name)].pool, Target(s, req))
    ensures var answer := Handle(Handle(s, req).0, DoLogin(tenant, name, Target(s, req), presented, cfg)).1;
            if presented == req.newPassword then answer.LoggedIn? || answer.MfaRequired?
            else answer == Refused(InvalidCredentials)
  {
    LoginExactly(Handle(s, req).0, tenant, name, Target(s, req), presented, cfg);
    FlowWrites(s, req);
    hide Handle, Target;
  }

  lemma ConsumableIsIssued(s: State, tenant: Uuid, jti: Uuid, option: MfaOption, code: string, cfg: Config)
    ensures MayConsume(s, tenant, None, jti, option, code, ForReset, cfg) ==> jti in s.challenges
  {
  }
}
