/**
 Passwords over whole runs: what each password written in a run was earned with, and
 how many codes a change of one's own password lets be tried.
 */
module PasswordHistory {
  import opened Wrappers
  import opened Redis
  import opened Credentials
  import opened Logins
  import Challenges
  import History
  import Moves
  import Passwords

  // ── What a password is earned with ───────────────────────────────────────

  ghost predicate IsFactor(f: Fact, identity: Uuid) { f.FactorAccepted? && f.identity == identity }

  /** With the current password and, of an enrolled identity, a code that its factor accepted just before. */
  ghost predicate EarnedByChange(met: State, req: Request, before: seq<Fact>, f: Fact)
    requires f.PasswordSet?
  {
    && req.DoChangePassword? && f == PasswordSet(req.identity, None)
    && KnowsPassword(met, req.pool, req.identity, req.password)
    && (HasFactor(met, req.identity) ==> before != [] && IsFactor(before[|before| - 1], req.identity))
  }

  /** With a reset token of the identity, just spent, where no factor is verified. */
  ghost predicate EarnedByToken(met: State, req: Request, before: seq<Fact>, f: Fact)
    requires f.PasswordSet?
  {
    && req.DoReset? && f.reset == Some(req.reset) && Passwords.IsResetToken(met, req.tenant, req.reset)
    && met.cache.resets[req.reset].value.identity == f.identity && !HasFactor(met, f.identity)
    && before != [] && before[|before| - 1] == ResetSpent(req.reset)
  }

  /** With a reset challenge, just spent on a code that the identity's factor accepted. */
  ghost predicate EarnedByChallenge(met: State, req: Request, before: seq<Fact>, f: Fact)
    requires f.PasswordSet?
  {
    && req.DoResetMfa? && MayConsume(met, req.tenant, None, req.jti, req.option, req.otp, ForReset, req.cfg)
    && var c := met.challenges[req.jti];
       && f == PasswordSet(c.identity, c.origin) && c.origin.Some?
       && 2 <= |before| && before[|before| - 1].ChallengeSpent? && before[|before| - 1].challenge == c
       && IsFactor(before[|before| - 2], c.identity)
  }

  ghost predicate Earned(met: State, req: Request, before: seq<Fact>, f: Fact)
    requires f.PasswordSet?
  {
    EarnedByChange(met, req, before, f) || EarnedByToken(met, req, before, f) || EarnedByChallenge(met, req, before, f)
  }

  /** Exactly the reset challenges name the reset token that they were minted for. */
  ghost predicate Originates(challenges: map<Uuid, Challenge>) {
    forall j :: j in challenges ==> (challenges[j].purpose.ForReset? <==> challenges[j].origin.Some?)
  }

  lemma MoveOriginates(s: State, m: Moves.Move)
    requires Moves.Enabled(s, m) && Originates(s.challenges)
    ensures Originates(Moves.Apply(s, m).challenges)
  {
    hide VerifyFactor, ManageFactor;
    if m.Manage? {
      Moves.ManageFrame(s, m.identity, m.op, m.cfg);
    }
  }

  lemma {:induction false} PathOriginates(s: State, moves: seq<Moves.Move>, s': State)
    requires Moves.Leads(s, moves, s') && Originates(s.challenges)
    ensures Originates(s'.challenges)
    decreases |moves|
  {
    hide Moves.Enabled, Moves.Apply, Originates;
    if moves != [] {
      MoveOriginates(s, moves[0]);
      PathOriginates(Moves.Apply(s, moves[0]), moves[1..], s');
    }
  }

  lemma {:induction false} RunOriginates(s: State, reqs: seq<Request>)
    requires Originates(s.challenges)
    ensures Originates(Run(s, reqs).challenges)
    decreases reqs
  {
    hide Handle, Originates;
    if reqs != [] {
      var moves := Moves.PathOf(s, reqs[0]);
      PathOriginates(s, moves, Handle(s, reqs[0]).0);
      RunOriginates(Handle(s, reqs[0]).0, reqs[1..]);
    }
  }

  lemma ChangeEarns(met: State, req: Request, q: nat)
    requires req.DoChangePassword?
    requires var log := Handle(met, req).0.log; |met.log| <= q < |log| && log[q].PasswordSet?
    ensures var log := Handle(met, req).0.log; EarnedByChange(met, req, log[..q], log[q])
  {
    Passwords.KnownExactly(met, req.pool, req.identity, req.password);
    hide VerifyFactor, FindIdentity, PasswordMatches, IsEnrolled, KnowsPassword, HasFactor;
  }

  lemma TokenEarns(met: State, req: Request, q: nat)
    requires req.DoReset?
    requires var log := Handle(met, req).0.log; |met.log| <= q < |log| && log[q].PasswordSet?
    ensures var log := Handle(met, req).0.log; EarnedByToken(met, req, log[..q], log[q])
  {
    hide FindIdentity;
  }

  lemma ConsumedEnds(s: State, tenant: Uuid, jti: Uuid, option: MfaOption, code: string, cfg: Config)
    ensures var (s', r) := ConsumeChallenge(s, tenant, None, jti, option, code, ForReset, cfg);
            && (forall q :: |s.log| <= q < |s'.log| ==> !s'.log[q].PasswordSet?) && |s.log| <= |s'.log|
            && (r.Success? ==>
                  && |s.log| + 2 <= |s'.log| && s'.log[|s'.log| - 1].ChallengeSpent?
                  && s'.log[|s'.log| - 1].challenge == r.value && IsFactor(s'.log[|s'.log| - 2], r.value.identity))
  {
    hide Screen, VerifyFactor;
  }

  lemma ChallengeEarns(met: State, req: Request, q: nat)
    requires req.DoResetMfa? && Originates(met.challenges)
    requires var log := Handle(met, req).0.log; |met.log| <= q < |log| && log[q].PasswordSet?
    ensures var log := Handle(met, req).0.log; EarnedByChallenge(met, req, log[..q], log[q])
  {
    var (s1, r) := ConsumeChallenge(met, req.tenant, None, req.jti, req.option, req.otp, ForReset, req.cfg);
    ConsumedExactly(met, req.tenant, None, req.jti, req.option, req.otp, ForReset, req.cfg);
    ConsumedEnds(met, req.tenant, req.jti, req.option, req.otp, req.cfg);
    ResetPurpose(met, req.tenant, req.jti, req.option, req.otp, req.cfg);
    if r.Success? {
      WriteLogs(s1, req.tenant, r.value.pool, r.value.identity, req.newPassword, r.value.origin, req.cfg);
    }
    hide ConsumeChallenge, MayConsume, OnlyChallenge, CountedOnce, Spends, Fails, IsHeard, SetPassword;
  }

  lemma WriteLogs(s: State, tenant: Uuid, pool: Uuid, identity: Uuid, password: string, reset: Option<Uuid>,
                  cfg: Config)
    ensures var log := SetPassword(s, tenant, pool, identity, password, reset, cfg).0.log;
            log == s.log || log == s.log + [PasswordSet(identity, reset)]
  {
    hide FindIdentity;
  }

  lemma ResetPurpose(s: State, tenant: Uuid, jti: Uuid, option: MfaOption, code: string, cfg: Config)
    ensures MayConsume(s, tenant, None, jti, option, code, ForReset, cfg) ==>
              jti in s.challenges && s.challenges[jti].purpose.ForReset?
  {
  }

  /**
   In every run, each password was written by a change that presented the password then
   stored, by a reset token of an identity without a factor, or by a reset challenge; and
   whenever the identity was enrolled, a code of its own had been accepted just before.
   */
  lemma PasswordsAreEarned(s: State, reqs: seq<Request>, q: nat) returns (i: nat)
    requires IsInitial(s) && q < |Run(s, reqs).log| && Run(s, reqs).log[q].PasswordSet?
    ensures History.ToldBy(s, reqs, i, q)
    ensures Earned(Run(s, reqs[..i]), reqs[i], Run(s, reqs).log[..q], Run(s, reqs).log[q])
  {
    hide Handle, Earned, Originates;
    i := History.Trace(s, reqs, q);
    var met, log := Run(s, reqs[..i]), Run(s, reqs).log;
    assert Originates(s.challenges) by { InitialOriginates(s); }
    RunOriginates(s, reqs[..i]);
    var left := Handle(met, reqs[i]).0.log;
    assert History.Told(left[q], reqs[i]);
    assert left[..q] == log[..q] && left[q] == log[q];
    StepEarns(met, reqs[i], q);
  }

  lemma InitialOriginates(s: State)
    requires IsInitial(s)
    ensures Originates(s.challenges)
  {
  }

  lemma StepEarns(met: State, req: Request, q: nat)
    requires Originates(met.challenges)
    requires var log := Handle(met, req).0.log;
             |met.log| <= q < |log| && log[q].PasswordSet? && History.Told(log[q], req)
    ensures var log := Handle(met, req).0.log; Earned(met, req, log[..q], log[q])
  {
    hide Handle, Originates, EarnedByChange, EarnedByToken, EarnedByChallenge;
    if req.DoChangePassword? {
      ChangeEarns(met, req, q);
    } else if req.DoReset? {
      TokenEarns(met, req, q);
    } else {
      ChallengeEarns(met, req, q);
    }
  }

  // ── How many codes a change lets be tried ────────────────────────────────

  /** How many codes were looked at for password changes of this identity. */
  ghost function Tried(log: seq<Fact>, identity: Uuid): nat { multiset(log)[SelfEvaluated(identity)] }

  /** The request leaves the identity's counter alone and has no code of it looked at. */
  ghost predicate Spares(s: State, s': State, identity: Uuid) {
    && Tried(s'.log, identity) == Tried(s.log, identity) && s.now <= s'.now
    && (identity in s'.cache.selfAttempts <==> identity in s.cache.selfAttempts)
    && (identity in s.cache.selfAttempts ==>
          s'.cache.selfAttempts[identity] == s.cache.selfAttempts[identity])
  }

  /** An attempt is counted, and its code looked at only while the count is within the limit. */
  ghost predicate Tries(s: State, s': State, identity: Uuid, cfg: Config) {
    && CountedOnce(s.cache.selfAttempts, s'.cache.selfAttempts, identity, s.now, cfg.mfaLifetime) && s'.now == s.now
    && Tried(s'.log, identity)
       == Tried(s.log, identity) + (if Tally(s.cache.selfAttempts, identity, s.now) < cfg.mfaMaxAttempts then 1 else 0)
  }

  lemma ConsumeFrame(s: State, tenant: Uuid, expectedPool: Option<Uuid>, jti: Uuid, option: MfaOption, code: string,
                     purpose: Purpose, cfg: Config)
    ensures OnlyChallenge(s, ConsumeChallenge(s, tenant, expectedPool, jti, option, code, purpose, cfg).0)
  {
    ConsumedExactly(s, tenant, expectedPool, jti, option, code, purpose, cfg);
    hide *;
  }

  lemma LoginMfaKeepsCounters(s: State, req: Request)
    requires req.DoLoginMfa?
    ensures Handle(s, req).0.cache.selfAttempts == s.cache.selfAttempts && Handle(s, req).0.now == s.now
  {
    if FindClient(s, req.tenant, req.client).Some? {
      ConsumeFrame(s, req.tenant, Some(FindClient(s, req.tenant, req.client).value.pool), req.jti, req.option, req.otp,
                   ForLogin, req.cfg);
    }
    hide ConsumeChallenge, FindClient;
  }

  lemma ResetMfaKeepsCounters(s: State, req: Request)
    requires req.DoResetMfa?
    ensures Handle(s, req).0.cache.selfAttempts == s.cache.selfAttempts && Handle(s, req).0.now == s.now
  {
    ConsumeFrame(s, req.tenant, None, req.jti, req.option, req.otp, ForReset, req.cfg);
    hide ConsumeChallenge, FindIdentity;
  }

  lemma OtherKeepsCounters(s: State, req: Request)
    requires !req.DoChangePassword?
    ensures Handle(s, req).0.cache.selfAttempts == s.cache.selfAttempts && s.now <= Handle(s, req).0.now
  {
    if req.DoLoginMfa? {
      LoginMfaKeepsCounters(s, req);
    } else if req.DoResetMfa? {
      ResetMfaKeepsCounters(s, req);
    } else if req.DoClientCredentials? || req.DoRedeemCode? || req.DoRotate? {
      Moves.TokenRequestFrame(s, req);
    } else if req.DoManageFactor? {
      Moves.ManageFrame(s, req.identity, req.op, req.cfg);
      hide ManageFactor;
    } else {
      hide FindClient, FindIdentity, PasswordMatches, IsEnrolled, ApproveAuthorize, Revoke, Pruned;
    }
  }

  /** Facts that are not this one do not change how often it is found. */
  lemma Unfound(log: seq<Fact>, log': seq<Fact>, f: Fact)
    requires |log| <= |log'| && log'[..|log|] == log
    requires forall i :: |log| <= i < |log'| ==> log'[i] != f
    ensures multiset(log')[f] == multiset(log)[f]
  {
    var added := log'[|log|..];
    assert log' == log + added;
    assert f !in added;
  }

  lemma OtherSpares(s: State, req: Request, identity: Uuid)
    requires !req.DoChangePassword?
    ensures Spares(s, Handle(s, req).0, identity)
  {
    OtherKeepsCounters(s, req);
    History.StepTells(s, req);
    hide Handle;
    Unfound(s.log, Handle(s, req).0.log, SelfEvaluated(identity));
  }

  /** No counter moves, and no code is looked at. */
  lemma WriteSpares(s: State, tenant: Uuid, pool: Uuid, owner: Uuid, password: string, cfg: Config, identity: Uuid)
    ensures var s' := SetPassword(s, tenant, pool, owner, password, None, cfg).0;
            && s'.cache.selfAttempts == s.cache.selfAttempts && s'.now == s.now
            && Tried(s'.log, identity) == Tried(s.log, identity)
  {
    hide FindIdentity;
  }

  /** A code that is presented at a change is counted, and looked at while attempts are left. */
  lemma FactoredTries(s: State, owner: Uuid, cfg: Config) returns (tried: State)
    ensures tried == (if Count(s.cache.selfAttempts, owner, s.now) + 1 > cfg.mfaMaxAttempts
                      then CountSelfAttempt(s, owner, cfg) else EvaluateSelf(s, owner, cfg))
    ensures Tries(s, tried, owner, cfg) && forall i :: i != owner ==> Spares(s, tried, i)
  {
    tried := if Count(s.cache.selfAttempts, owner, s.now) + 1 > cfg.mfaMaxAttempts
             then CountSelfAttempt(s, owner, cfg) else EvaluateSelf(s, owner, cfg);
    Passwords.SelfCountedExactly(s, owner, cfg);
  }

  lemma FactoredChangeTries(s: State, req: Request, identity: Uuid)
    requires req.DoChangePassword? && req.mfa.Some?
    requires PasswordMatches(s, req.pool, req.identity, req.password) && IsEnrolled(s, req.identity)
    ensures var s' := Handle(s, req).0;
            if identity == req.identity then Tries(s, s', identity, req.cfg) else Spares(s, s', identity)
  {
    var DoChangePassword(tenant, pool, owner, current, password, mfa, cfg) := req;
    hide VerifyFactor, PasswordMatches, IsEnrolled, SetPassword, Tries, Spares, CountSelfAttempt, EvaluateSelf, Tried;
    var tried := FactoredTries(s, owner, cfg);
    var verdict := VerifyFactor(s.db.factors, owner, mfa.value.option, mfa.value.code, s.now, cfg);
    if Count(s.cache.selfAttempts, owner, s.now) + 1 <= cfg.mfaMaxAttempts && verdict.Success? {
      var accepted := AcceptFactor(tried, owner, verdict.value);
      AcceptedTried(tried, owner, verdict.value, identity);
      WriteSpares(accepted, tenant, pool, owner, password, cfg, identity);
      StillTries(s, tried, Handle(s, req).0, owner, identity, cfg);
    }
  }

  lemma AcceptedTried(s: State, owner: Uuid, a: Acceptance, identity: Uuid)
    ensures Tried(AcceptFactor(s, owner, a).log, identity) == Tried(s.log, identity)
  {
  }

  /** A change of a password spares the counter of the identity, or counts an attempt and tries a code. */
  lemma ChangeTries(s: State, req: Request, identity: Uuid)
    requires req.DoChangePassword?
    ensures var s' := Handle(s, req).0;
            Spares(s, s', identity) || (req.identity == identity && Tries(s, s', identity, req.cfg))
  {
    if PasswordMatches(s, req.pool, req.identity, req.password) && IsEnrolled(s, req.identity) && req.mfa.Some? {
      FactoredChangeTries(s, req, identity);
      hide Handle;
    } else {
      WriteSpares(s, req.tenant, req.pool, req.identity, req.newPassword, req.cfg, identity);
      hide VerifyFactor, PasswordMatches, IsEnrolled, SetPassword, Tries, CountSelfAttempt, EvaluateSelf;
    }
  }

  lemma StillTries(s: State, tried: State, s': State, owner: Uuid, identity: Uuid, cfg: Config)
    requires Tries(s, tried, owner, cfg) && (identity != owner ==> Spares(s, tried, identity))
    requires s'.cache.selfAttempts == tried.cache.selfAttempts && s'.now == tried.now
    requires Tried(s'.log, identity) == Tried(tried.log, identity)
    ensures if identity == owner then Tries(s, s', owner, cfg) else Spares(s, s', identity)
  {
  }

  /** The windows that the counter has been through since `start`, when it was not running. */
  ghost predicate Bounded(s: State, identity: Uuid, p: Challenges.Policy, start: Time, base: nat) {
    && start <= s.now && base <= Tried(s.log, identity)
    && (if Tried(s.log, identity) == base && !IsLive(s.cache.selfAttempts, identity, s.now) then true
        else identity in s.cache.selfAttempts && exists n: nat :: InWindow(s, identity, p, start, base, n))
  }

  ghost predicate InWindow(s: State, identity: Uuid, p: Challenges.Policy, start: Time, base: nat, n: nat)
    requires identity in s.cache.selfAttempts && base <= Tried(s.log, identity)
  {
    Challenges.Window(p, n, start, s.now + 1, s.cache.selfAttempts[identity], Tried(s.log, identity) - base)
  }

  /** Changes of this identity's password are made within the policy. */
  ghost predicate Within(req: Request, identity: Uuid, p: Challenges.Policy) {
    req.DoChangePassword? && req.identity == identity ==>
      p.lifetime <= req.cfg.mfaLifetime && req.cfg.mfaMaxAttempts <= p.maxAttempts
  }

  lemma SparedBounded(s: State, s': State, identity: Uuid, p: Challenges.Policy, start: Time, base: nat)
    requires Bounded(s, identity, p, start, base) && Spares(s, s', identity)
    ensures Bounded(s', identity, p, start, base)
  {
    if identity in s.cache.selfAttempts && exists n: nat :: InWindow(s, identity, p, start, base, n) {
      var n: nat :| InWindow(s, identity, p, start, base, n);
      assert InWindow(s', identity, p, start, base, n);
    }
  }

  lemma TriedBounded(s: State, s': State, identity: Uuid, cfg: Config, p: Challenges.Policy, start: Time, base: nat)
    requires Bounded(s, identity, p, start, base) && Tries(s, s', identity, cfg)
    requires p.lifetime <= cfg.mfaLifetime && cfg.mfaMaxAttempts <= p.maxAttempts
    ensures Bounded(s', identity, p, start, base)
  {
    var tried := Tried(s.log, identity) - base;
    var n: nat := 1;
    if tried == 0 && !IsLive(s.cache.selfAttempts, identity, s.now) {
      Challenges.FirstWindow(p, s.now, cfg.mfaLifetime, s.now + 1);
    } else {
      n :| InWindow(s, identity, p, start, base, n);
      var counter := s.cache.selfAttempts[identity];
      if IsLive(s.cache.selfAttempts, identity, s.now) {
        Challenges.SameWindow(p, n, start, s.now + 1, counter, tried);
      } else {
        Challenges.NextWindow(p, n, start, s.now + 1, counter, tried, s.now, cfg.mfaLifetime);
        n := n + 1;
      }
    }
    assert InWindow(s', identity, p, start, base, n);
  }

  lemma {:induction false} RunBounded(s: State, reqs: seq<Request>, identity: Uuid, p: Challenges.Policy, start: Time,
                                      base: nat)
    requires Bounded(s, identity, p, start, base)
    requires forall i :: 0 <= i < |reqs| ==> Within(reqs[i], identity, p)
    ensures Bounded(Run(s, reqs), identity, p, start, base)
    decreases reqs
  {
    hide Handle, Bounded, Spares, Tries;
    if reqs != [] {
      var s1 := Handle(s, reqs[0]).0;
      if reqs[0].DoChangePassword? {
        ChangeTries(s, reqs[0], identity);
      } else {
        OtherSpares(s, reqs[0], identity);
      }
      if Spares(s, s1, identity) {
        SparedBounded(s, s1, identity, p, start, base);
      } else {
        TriedBounded(s, s1, identity, reqs[0].cfg, p, start, base);
      }
      RunBounded(s1, reqs[1..], identity, p, start, base);
    }
  }

  /**
   From any state in which the identity's counter is not running, more than `n` times the
   allowed number of codes are looked at for its password changes only once `n` counter
   lifetimes have passed: each window of the counter lets no more than the limit through.
   */
  lemma TriesAreBounded(s: State, reqs: seq<Request>, identity: Uuid, p: Challenges.Policy, n: nat)
    requires !IsLive(s.cache.selfAttempts, identity, s.now)
    requires forall i :: 0 <= i < |reqs| ==> Within(reqs[i], identity, p)
    requires Tried(s.log, identity) + n * p.maxAttempts < Tried(Run(s, reqs).log, identity)
    ensures s.now + n * p.lifetime <= Run(s, reqs).now && 0 < p.maxAttempts
  {
    hide Challenges.Window, Run, Tried;
    var s', base := Run(s, reqs), Tried(s.log, identity);
    RunBounded(s, reqs, identity, p, s.now, base);
    assert 0 <= n * p.maxAttempts;
    var k: nat :| InWindow(s', identity, p, s.now, base, k);
    Challenges.WindowBounds(p, k, s.now, s'.now + 1, s'.cache.selfAttempts[identity],
                            Tried(s'.log, identity) - base, n);
  }

  // ── The bound is met ─────────────────────────────────────────────────────

  /** A change of password, with the right one, on a backup code that no unused row has. */
  ghost predicate IsGuess(s: State, g: Request) {
    && g.DoChangePassword? && g.mfa.Some? && g.mfa.value.option.BackupCode?
    && KnowsPassword(s, g.pool, g.identity, g.password) && HasFactor(s, g.identity)
    && !CodeFits(s, g.identity, BackupCode, g.mfa.value.code, g.cfg)
  }

  /** The counter stands at `used` at most, and lasts no longer than one started now would. */
  ghost predicate HasUsed(s: State, g: Request, used: nat)
    requires g.DoChangePassword?
  {
    && Tally(s.cache.selfAttempts, g.identity, s.now) <= used
    && (g.identity in s.cache.selfAttempts ==>
          s.cache.selfAttempts[g.identity].expiry <= s.now + g.cfg.mfaLifetime)
  }

  lemma SameGuess(s: State, s': State, g: Request)
    requires IsGuess(s, g) && s'.db == s.db
    ensures IsGuess(s', g)
  {
    if r :| IsUnusedRow(s', g.identity, g.mfa.value.code, g.cfg, r) {
      assert IsUnusedRow(s, g.identity, g.mfa.value.code, g.cfg, r);
    }
  }

  lemma GuessTries(s: State, g: Request, used: nat)
    requires IsGuess(s, g) && HasUsed(s, g, used) && used < g.cfg.mfaMaxAttempts
    ensures var s' := Handle(s, g).0;
            && IsGuess(s', g) && HasUsed(s', g, used + 1) && s'.now == s.now
            && Tried(s'.log, g.identity) == Tried(s.log, g.identity) + 1
  {
    Passwords.KnownExactly(s, g.pool, g.identity, g.password);
    FactoredChangeTries(s, g, g.identity);
    VerifiedExactly(s, g.identity, BackupCode, g.mfa.value.code, g.cfg);
    assert Handle(s, g).0.db == s.db by {
      hide VerifyFactor, PasswordMatches, IsEnrolled, SetPassword, CodeFits;
    }
    SameGuess(s, Handle(s, g).0, g);
    hide Handle, Tried, IsGuess, CodeFits;
  }

  ghost function Repeat(g: Request, m: nat): seq<Request> {
    if m == 0 then [] else [g] + Repeat(g, m - 1)
  }

  /** Uses up `n` windows, waiting for each to end, and then one more. */
  ghost function Windows(g: Request, n: nat): seq<Request>
    requires g.DoChangePassword?
  {
    if n == 0 then Repeat(g, g.cfg.mfaMaxAttempts)
    else Repeat(g, g.cfg.mfaMaxAttempts) + [Wait(g.cfg.mfaLifetime)] + Windows(g, n - 1)
  }

  lemma {:induction false} WindowTries(s: State, g: Request, used: nat, m: nat)
    requires IsGuess(s, g) && HasUsed(s, g, used) && used + m <= g.cfg.mfaMaxAttempts
    ensures var s' := Run(s, Repeat(g, m));
            && IsGuess(s', g) && HasUsed(s', g, used + m) && s'.now == s.now
            && Tried(s'.log, g.identity) == Tried(s.log, g.identity) + m
    decreases m
  {
    hide Handle, IsGuess, HasUsed, Tried;
    if m > 0 {
      GuessTries(s, g, used);
      WindowTries(Handle(s, g).0, g, used + 1, m - 1);
      History.RunOne(s, g);
      History.RunAppend(s, [g], Repeat(g, m - 1));
    }
  }

  lemma WindowEnds(s: State, g: Request, used: nat)
    requires IsGuess(s, g) && HasUsed(s, g, used)
    ensures var s' := Handle(s, Wait(g.cfg.mfaLifetime)).0;
            && s'.now == s.now + g.cfg.mfaLifetime && s'.log == s.log
            && IsGuess(s', g) && HasUsed(s', g, 0)
  {
    SameGuess(s, Handle(s, Wait(g.cfg.mfaLifetime)).0, g);
    hide IsGuess;
  }

  lemma {:induction false} WindowsTry(s: State, g: Request, n: nat)
    requires g.DoChangePassword? && IsGuess(s, g) && HasUsed(s, g, 0)
    ensures var s' := Run(s, Windows(g, n));
            && s'.now == s.now + n * g.cfg.mfaLifetime
            && Tried(s'.log, g.identity) == Tried(s.log, g.identity) + (n + 1) * g.cfg.mfaMaxAttempts
    decreases n
  {
    hide Handle, IsGuess, HasUsed, Tried;
    var round, wait := Repeat(g, g.cfg.mfaMaxAttempts), Wait(g.cfg.mfaLifetime);
    WindowTries(s, g, 0, g.cfg.mfaMaxAttempts);
    if n > 0 {
      var s1 := Run(s, round);
      WindowEnds(s1, g, g.cfg.mfaMaxAttempts);
      WindowsTry(Handle(s1, wait).0, g, n - 1);
      History.RunAppend(s, round, [wait]);
      History.RunOne(s1, wait);
      History.RunAppend(s, round + [wait], Windows(g, n - 1));
      assert n * g.cfg.mfaLifetime == g.cfg.mfaLifetime + (n - 1) * g.cfg.mfaLifetime;
      assert (n + 1) * g.cfg.mfaMaxAttempts == g.cfg.mfaMaxAttempts + n * g.cfg.mfaMaxAttempts;
    }
  }

  /** Changes of this identity's password are made under this configuration's limits, and `elapsed` seconds pass. */
  ghost predicate Passes(s: State, reqs: seq<Request>, identity: Uuid, cfg: Config, elapsed: nat) {
    && Run(s, reqs).now == s.now + elapsed
    && forall i :: 0 <= i < |reqs| && reqs[i].DoChangePassword? && reqs[i].identity == identity ==>
         reqs[i].cfg.mfaLifetime == cfg.mfaLifetime && reqs[i].cfg.mfaMaxAttempts == cfg.mfaMaxAttempts
  }

  lemma {:induction false} WindowsPass(g: Request, n: nat, elapsed: nat)
    requires g.DoChangePassword?
    ensures forall r :: r in Windows(g, n) + [Wait(elapsed)] ==> r == g || r.Wait?
    decreases n
  {
    OnlyRepeats(g, g.cfg.mfaMaxAttempts);
    if n > 0 {
      WindowsPass(g, n - 1, elapsed);
    }
  }

  lemma {:induction false} OnlyRepeats(g: Request, m: nat)
    ensures forall r :: r in Repeat(g, m) ==> r == g
    decreases m
  {
    if m > 0 {
      OnlyRepeats(g, m - 1);
    }
  }

  /**
   How many codes can be tried by changes of one's own password, exactly. Where the
   counter is not running, more than `n` times the limit within `elapsed` seconds is
   possible if and only if attempts are allowed and `n` counter lifetimes fit.
   */
  lemma TriesExactly(s: State, g: Request, n: nat, elapsed: nat)
    requires IsGuess(s, g) && !IsLive(s.cache.selfAttempts, g.identity, s.now)
    ensures (exists reqs ::
               && Passes(s, reqs, g.identity, g.cfg, elapsed)
               && Tried(s.log, g.identity) + n * g.cfg.mfaMaxAttempts < Tried(Run(s, reqs).log, g.identity))
            <==> 0 < g.cfg.mfaMaxAttempts && n * g.cfg.mfaLifetime <= elapsed
  {
    var cfg := g.cfg;
    var p := Challenges.Policy(cfg.mfaLifetime, cfg.mfaMaxAttempts, 0);
    forall reqs | Passes(s, reqs, g.identity, cfg, elapsed)
                  && Tried(s.log, g.identity) + n * cfg.mfaMaxAttempts < Tried(Run(s, reqs).log, g.identity)
      ensures 0 < cfg.mfaMaxAttempts && n * cfg.mfaLifetime <= elapsed
    {
      hide Run, Tried, IsGuess;
      TriesAreBounded(s, reqs, g.identity, p, n);
    }
    if 0 < cfg.mfaMaxAttempts && n * cfg.mfaLifetime <= elapsed {
      TriesAreMet(s, g, n, elapsed);
    }
  }

  lemma TriesAreMet(s: State, g: Request, n: nat, elapsed: nat)
    requires g.DoChangePassword? && IsGuess(s, g) && !IsLive(s.cache.selfAttempts, g.identity, s.now)
    requires 0 < g.cfg.mfaMaxAttempts && n * g.cfg.mfaLifetime <= elapsed
    ensures exists reqs :: Passes(s, reqs, g.identity, g.cfg, elapsed)
              && Tried(s.log, g.identity) + n * g.cfg.mfaMaxAttempts < Tried(Run(s, reqs).log, g.identity)
  {
    hide Tried, Run, IsGuess;
    var rest := elapsed - n * g.cfg.mfaLifetime;
    var reqs := Windows(g, n) + [Wait(rest)];
    var s1 := Run(s, Windows(g, n));
    WindowsTry(s, g, n);
    WindowsPass(g, n, rest);
    History.RunAppend(s, Windows(g, n), [Wait(rest)]);
    History.RunOne(s1, Wait(rest));
    hide Windows;
    assert (n + 1) * g.cfg.mfaMaxAttempts == n * g.cfg.mfaMaxAttempts + g.cfg.mfaMaxAttempts;
    forall i | 0 <= i < |reqs| ensures reqs[i] == g || reqs[i].Wait? {
      assert reqs[i] in reqs;
    }
    assert Passes(s, reqs, g.identity, g.cfg, elapsed);
  }
}
