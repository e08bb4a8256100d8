/**
 The bounds of `Challenges` are met: runs that reach them exist for every
 configuration that admits them, so each bound holds exactly.
 */
module ChallengeReuse {
  import opened Wrappers
  import opened Redis
  import opened Credentials
  import opened Challenges
  import History
  import Moves
  import PasswordResets
  import SecondFactors

  // ── Wrong codes, window after window ─────────────────────────────────────

  const WRONG := "wrong"

  /** A reset challenge that is still accepted, of an active identity without a backup code `WRONG`. */
  ghost predicate IsOpen(s: State, c: Challenge, cfg: Config) {
    && Issued(s, c) && c.purpose.ForReset? && s.now < c.exp + cfg.jwtSlack && c.jti !in s.cache.spent
    && FindIdentity(s, c.pool, c.identity).Some? && FindIdentity(s, c.pool, c.identity).value.standing.Active?
    && SecondFactors.Redeemable(s.db.factors, c.identity, cfg.backupHash(WRONG)) == {}
  }

  /** The counter stands at `used` at most, and lasts no longer than one attempted now would. */
  ghost predicate HasUsed(s: State, c: Challenge, cfg: Config, used: nat) {
    && Count(s.cache.attempts, c.jti, s.now) <= used
    && (c.jti in s.cache.attempts ==> s.cache.attempts[c.jti].expiry <= s.now + cfg.mfaLifetime)
  }

  ghost function Attempt(c: Challenge, cfg: Config): Request {
    DoResetMfa(c.tenant, c.jti, BackupCode, WRONG, "", cfg)
  }

  ghost function Attempts(c: Challenge, cfg: Config, m: nat): seq<Request> {
    if m == 0 then [] else [Attempt(c, cfg)] + Attempts(c, cfg, m - 1)
  }

  /** Uses up `n` windows, waiting for each to end, and attempts once more. */
  ghost function Excess(c: Challenge, cfg: Config, n: nat): seq<Request> {
    if n == 0 then [Attempt(c, cfg)]
    else Attempts(c, cfg, cfg.mfaMaxAttempts) + [Wait(cfg.mfaLifetime)] + Excess(c, cfg, n - 1)
  }

  lemma AttemptIsEvaluated(s: State, c: Challenge, cfg: Config)
    requires IsOpen(s, c, cfg) && Count(s.cache.attempts, c.jti, s.now) + 1 <= cfg.mfaMaxAttempts
    ensures Handle(s, Attempt(c, cfg)).0 == Record(CountAttempt(s, c.jti, cfg), CodeEvaluated(c.jti))
  {
    hide FindIdentity;
  }

  lemma AttemptUses(s: State, c: Challenge, cfg: Config, used: nat)
    requires IsOpen(s, c, cfg) && HasUsed(s, c, cfg, used) && used + 1 <= cfg.mfaMaxAttempts
    ensures var s' := Handle(s, Attempt(c, cfg)).0;
            && IsOpen(s', c, cfg) && HasUsed(s', c, cfg, used + 1) && s'.now == s.now
            && Evaluations(s'.log, c.jti) == Evaluations(s.log, c.jti) + 1
  {
    hide Handle;
    AttemptIsEvaluated(s, c, cfg);
    var fact := AttemptCounted(c.jti, s.now, s.now + cfg.mfaLifetime);
    TallyAppend(s.log, fact, c.jti);
    TallyAppend(s.log + [fact], CodeEvaluated(c.jti), c.jti);
  }

  lemma {:induction false} AttemptsUse(s: State, c: Challenge, cfg: Config, used: nat, m: nat)
    requires IsOpen(s, c, cfg) && HasUsed(s, c, cfg, used) && used + m <= cfg.mfaMaxAttempts
    ensures var s' := Run(s, Attempts(c, cfg, m));
            && IsOpen(s', c, cfg) && HasUsed(s', c, cfg, used + m) && s'.now == s.now
            && Evaluations(s'.log, c.jti) == Evaluations(s.log, c.jti) + m
    decreases m
  {
    hide IsOpen, HasUsed, Handle, Attempt;
    if m > 0 {
      var s1 := Handle(s, Attempt(c, cfg)).0;
      AttemptUses(s, c, cfg, used);
      AttemptsUse(s1, c, cfg, used + 1, m - 1);
      History.RunOne(s, Attempt(c, cfg));
      History.RunAppend(s, [Attempt(c, cfg)], Attempts(c, cfg, m - 1));
    }
  }

  lemma WaitFrees(s: State, c: Challenge, cfg: Config, used: nat)
    requires IsOpen(s, c, cfg) && HasUsed(s, c, cfg, used) && s.now + cfg.mfaLifetime < c.exp + cfg.jwtSlack
    ensures var s' := Handle(s, Wait(cfg.mfaLifetime)).0;
            && IsOpen(s', c, cfg) && HasUsed(s', c, cfg, 0) && s'.now == s.now + cfg.mfaLifetime && s'.log == s.log
  {
  }

  /** As long as the challenge is accepted `n` lifetimes from now, `n` windows and one more attempt fit in. */
  lemma {:induction false} ExcessExceeds(s: State, c: Challenge, cfg: Config, n: nat)
    requires IsOpen(s, c, cfg) && HasUsed(s, c, cfg, 0) && 1 <= cfg.mfaMaxAttempts
    requires s.now + n * cfg.mfaLifetime < c.exp + cfg.jwtSlack
    ensures Evaluations(Run(s, Excess(c, cfg, n)).log, c.jti)
            == Evaluations(s.log, c.jti) + n * cfg.mfaMaxAttempts + 1
    decreases n
  {
    hide IsOpen, HasUsed, Handle, Attempt;
    if n == 0 {
      AttemptUses(s, c, cfg, 0);
      History.RunOne(s, Attempt(c, cfg));
    } else {
      assert n * cfg.mfaLifetime == (n - 1) * cfg.mfaLifetime + cfg.mfaLifetime;
      assert 0 <= (n - 1) * cfg.mfaLifetime;
      assert n * cfg.mfaMaxAttempts == (n - 1) * cfg.mfaMaxAttempts + cfg.mfaMaxAttempts;
      var burst := Attempts(c, cfg, cfg.mfaMaxAttempts);
      var s1 := Run(s, burst);
      var s2 := Handle(s1, Wait(cfg.mfaLifetime)).0;
      AttemptsUse(s, c, cfg, 0, cfg.mfaMaxAttempts);
      WaitFrees(s1, c, cfg, cfg.mfaMaxAttempts);
      History.RunOne(s1, Wait(cfg.mfaLifetime));
      History.RunAppend(s, burst, [Wait(cfg.mfaLifetime)]);
      History.RunAppend(s, burst + [Wait(cfg.mfaLifetime)], Excess(c, cfg, n - 1));
      ExcessExceeds(s2, c, cfg, n - 1);
    }
  }

  // ── One challenge, two passwords ─────────────────────────────────────────

  ghost predicate IsAccepted(s: State, c: Challenge, option: MfaOption, code: string, cfg: Config) {
    && Screen(s, c.tenant, None, c.jti, option, ForReset, cfg) == Admitted(c)
    && VerifyFactor(s.db.factors, c.identity, option, code, s.now, cfg).Success?
  }

  ghost function Complete(c: Challenge, option: MfaOption, code: string, password: string, cfg: Config): Request {
    DoResetMfa(c.tenant, c.jti, option, code, password, cfg)
  }

  /** An accepted reset attempt with an acceptable password sets the password. */
  lemma CompleteSets(s: State, c: Challenge, option: MfaOption, code: string, password: string, cfg: Config)
    requires IsAccepted(s, c, option, code, cfg) && |password| >= 8
    ensures var s' := Handle(s, Complete(c, option, code, password, cfg)).0;
            var a := VerifyFactor(s.db.factors, c.identity, option, code, s.now, cfg).value;
            && s'.log == s.log + [AttemptCounted(c.jti, s.now, s.now + cfg.mfaLifetime), CodeEvaluated(c.jti),
                                  FactorAccepted(c.identity, a.accepted),
                                  ChallengeSpent(c, s.now, s.now + cfg.mfaLifetime), PasswordSet(c.identity, c.origin)]
            && s'.now == s.now && s'.challenges == s.challenges && s'.db.factors == a.store
            && s'.cache.spent == SetEx(s.cache.spent, c.jti, true, s.now, cfg.mfaLifetime)
            && s'.cache.attempts == Increment(s.cache.attempts, c.jti, s.now, cfg.mfaLifetime)
            && FindIdentity(s', c.pool, c.identity).Some? && FindIdentity(s', c.pool, c.identity).value.standing.Active?
  {
    hide VerifyFactor;
  }

  /**
   A challenge consumed now is admitted again `d` seconds later exactly when the
   consumed marker has expired and the JWT check still accepts the challenge.
   */
  lemma AdmittedAgainExactly(s: State, c: Challenge, option: MfaOption, code: string, password: string, cfg: Config,
                             d: nat)
    requires IsAccepted(s, c, option, code, cfg) && |password| >= 8
    requires c.jti in s.cache.attempts ==> s.cache.attempts[c.jti].expiry <= s.now + cfg.mfaLifetime
    ensures var s' := Handle(s, Complete(c, option, code, password, cfg)).0;
            Screen(s'.(now := s.now + d), c.tenant, None, c.jti, option, ForReset, cfg) == Admitted(c)
            <==> cfg.mfaLifetime <= d && s.now + d < c.exp + cfg.jwtSlack
  {
    hide Handle, VerifyFactor;
    CompleteSets(s, c, option, code, password, cfg);
  }

  /** Completes the reset, waits out the challenge lifetime and completes it again with another code. */
  ghost function TwicePath(c: Challenge, option: MfaOption, code: string, other: string, password: string, cfg: Config)
    : seq<Request>
  {
    [Complete(c, option, code, password, cfg)] + [Wait(cfg.mfaLifetime)] + [Complete(c, option, other, password, cfg)]
  }

  /** The factor, having accepted `code` now, accepts `other` one lifetime later. */
  ghost predicate AcceptsNext(s: State, c: Challenge, option: MfaOption, code: string, other: string, cfg: Config) {
    var first := VerifyFactor(s.db.factors, c.identity, option, code, s.now, cfg);
    && first.Success?
    && VerifyFactor(first.value.store, c.identity, option, other, s.now + cfg.mfaLifetime, cfg).Success?
  }

  /** Ten facts after the first `n`: the challenge is spent and a password set, and both once more. */
  ghost predicate SetsTwice(log: seq<Fact>, n: nat, c: Challenge) {
    && |log| == n + 10 && IsReuse(log, n + 3, n + 8) && log[n + 3].challenge == c
    && log[n + 4] == log[n + 9] == PasswordSet(c.identity, c.origin)
  }

  /** A challenge consumed within the slack of its issue is consumed again, and a second password set. */
  lemma ReuseWithinSlack(s: State, c: Challenge, option: MfaOption, code: string, other: string, password: string,
                         cfg: Config)
    requires IsAccepted(s, c, option, code, cfg) && |password| >= 8 && AcceptsNext(s, c, option, code, other, cfg)
    requires c.jti in s.cache.attempts ==> s.cache.attempts[c.jti].expiry <= s.now + cfg.mfaLifetime
    requires s.now + cfg.mfaLifetime < c.exp + cfg.jwtSlack
    ensures SetsTwice(Run(s, TwicePath(c, option, code, other, password, cfg)).log, |s.log|, c)
  {
    hide Handle, VerifyFactor, Screen;
    var a, b := Complete(c, option, code, password, cfg), Complete(c, option, other, password, cfg);
    var wait := Wait(cfg.mfaLifetime);
    var s1 := Handle(s, a).0;
    var s2 := s1.(now := s.now + cfg.mfaLifetime);
    CompleteSets(s, c, option, code, password, cfg);
    AdmittedAgainExactly(s, c, option, code, password, cfg, cfg.mfaLifetime);
    CompleteSets(s2, c, option, other, password, cfg);
    RunThree(s, a, wait, b);
    WaitPasses(s1, cfg.mfaLifetime);
  }

  lemma WaitPasses(s: State, seconds: nat)
    ensures Handle(s, Wait(seconds)).0 == s.(now := s.now + seconds)
  {
  }

  lemma RunThree(s: State, a: Request, b: Request, c: Request)
    ensures Run(s, [a] + [b] + [c]) == Handle(Handle(Handle(s, a).0, b).0, c).0
  {
    hide Handle;
    History.RunAppend(s, [a] + [b], [c]);
    History.RunAppend(s, [a], [b]);
    History.RunOne(s, a);
    History.RunOne(Handle(s, a).0, b);
    History.RunOne(Handle(Handle(s, a).0, b).0, c);
  }

  // ── A challenge to start from ────────────────────────────────────────────

  /** A configuration with these limits. */
  ghost function ConfigOf(p: Policy): Config {
    Config(3600, p.lifetime, p.maxAttempts, 3600, 60, false, false, p.slack, (verifier: string) => verifier,
           (secret: Uuid) => ((step: int) => "code"), (code: string) => code)
  }

  /** One active identity, and nobody enrolled yet. */
  ghost function OneIdentity(): State {
    State(0, 0, Cache(map[], map[], map[], map[], map[], map[], map[]),
          Tables(map[0 := Identity(0, 0, false, Active, None, {})], map[], map[], SecondFactors.Store(0, map[], map[])),
          map[], [])
  }

  ghost function EnrolPath(cfg: Config): seq<Request> {
    [DoManageFactor(0, StartEnrolment(0), cfg)] + [DoManageFactor(0, ConfirmEnrolment("code", ["a", "b"]), cfg)]
  }

  ghost function ResetPath(cfg: Config): seq<Request> { [DoRequestReset(0, 0, 0, cfg)] + [DoReset(0, 0, "", cfg)] }

  ghost function Opened(cfg: Config): Challenge { Challenge(1, 0, 0, 0, ForReset, 0, cfg.mfaLifetime, Some(0)) }

  /** Identity 0 has enrolled and holds the backup codes "a" and "b". */
  ghost predicate IsEnrolledWithCodes(s: State) {
    && s == OneIdentity().(db := OneIdentity().db.(factors := s.db.factors), log := s.log)
    && IsEnrolled(s, 0) && s.db.factors.backups
       == map[1 := SecondFactors.BackupRow(0, "a", false), 2 := SecondFactors.BackupRow(0, "b", false)]
    && |s.log| == 2 && s.log[0].FactorEnrolled? && s.log[1].FactorAccepted?
  }

  lemma InsertTwo(st: SecondFactors.Store, owner: Uuid, a: string, b: string)
    ensures SecondFactors.InsertBackups(st, owner, [a, b])
            == st.(nextId := st.nextId + 2,
                   backups := st.backups[st.nextId := SecondFactors.BackupRow(owner, a, false)]
                                        [st.nextId + 1 := SecondFactors.BackupRow(owner, b, false)])
  {
    assert [a, b][1..] == [b] && [b][1..] == [];
    var st1 := st.(nextId := st.nextId + 1,
                   backups := st.backups[st.nextId := SecondFactors.BackupRow(owner, a, false)]);
    var st2 := st1.(nextId := st1.nextId + 1,
                    backups := st1.backups[st1.nextId := SecondFactors.BackupRow(owner, b, false)]);
    assert SecondFactors.InsertBackups(st1, owner, [b]) == SecondFactors.InsertBackups(st2, owner, []);
  }

  lemma EnrolmentConfirmed(p: Policy)
    ensures var cfg := ConfigOf(p);
            var s1 := Handle(OneIdentity(), DoManageFactor(0, StartEnrolment(0), cfg)).0;
            IsEnrolledWithCodes(Handle(s1, DoManageFactor(0, ConfirmEnrolment("code", ["a", "b"]), cfg)).0)
  {
    var cfg := ConfigOf(p);
    var s1 := Handle(OneIdentity(), DoManageFactor(0, StartEnrolment(0), cfg)).0;
    var st := s1.db.factors;
    assert st == SecondFactors.Store(1, map[0 := SecondFactors.Enrolment(0, 0, false, None)], map[]);
    SecondFactors.MatchIsEarliest(cfg.shows(0), "code", 0);
    assert SecondFactors.InWindow(0, 0);
    var step := SecondFactors.MatchStep(cfg.shows(0), "code", 0).value;
    var claimed := SecondFactors.ClaimStep(st, 0, 0, step);
    var verified := SecondFactors.MarkVerified(claimed, 0, 0);
    InsertTwo(SecondFactors.DeleteBackups(verified, 0), 0, "a", "b");
  }

  /** A reset has just been requested and its challenge issued, at time 0 and with no attempt yet. */
  ghost predicate IsPrepared(s: State, c: Challenge) {
    && s.now == 0 && s.challenges == map[c.jti := c] && s.cache.attempts == map[] && s.cache.spent == map[]
    && s.db.identities == OneIdentity().db.identities
    && s.db.factors.backups
       == map[1 := SecondFactors.BackupRow(0, "a", false), 2 := SecondFactors.BackupRow(0, "b", false)]
    && |s.log| == 4 && s.log[0].FactorEnrolled? && s.log[1].FactorAccepted? && s.log[2].ResetSpent?
    && s.log[3].ChallengeIssued?
  }

  lemma ChallengePrepared(s: State, cfg: Config)
    requires IsEnrolledWithCodes(s) && cfg.resetLifetime == 3600
    ensures IsPrepared(Handle(Handle(s, DoRequestReset(0, 0, 0, cfg)).0, DoReset(0, 0, "", cfg)).0, Opened(cfg))
  {
    var s1 := Handle(s, DoRequestReset(0, 0, 0, cfg)).0;
    assert Read(s1.cache.resets, 0, 0) == Some(ResetContext(0, 0, 0));
    assert s1.nextId == 1;
  }

  ghost function Preparation(p: Policy): seq<Request> { EnrolPath(ConfigOf(p)) + ResetPath(ConfigOf(p)) }

  lemma PreparationPrepares(p: Policy)
    ensures IsInitial(OneIdentity()) && AllFixed(Preparation(p), 0, p)
    ensures IsPrepared(Run(OneIdentity(), Preparation(p)), Opened(ConfigOf(p)))
  {
    var cfg := ConfigOf(p);
    assert AllFixed(Preparation(p), 0, p);
    hide Handle, IsPrepared, IsEnrolledWithCodes, ConfigOf;
    var start, confirm :=
      DoManageFactor(0, StartEnrolment(0), cfg), DoManageFactor(0, ConfirmEnrolment("code", ["a", "b"]), cfg);
    var request, redeem := DoRequestReset(0, 0, 0, cfg), DoReset(0, 0, "", cfg);
    var s2 := Run(OneIdentity(), EnrolPath(cfg));
    RunTwo(OneIdentity(), start, confirm);
    RunTwo(s2, request, redeem);
    History.RunAppend(OneIdentity(), EnrolPath(cfg), ResetPath(cfg));
    EnrolmentConfirmed(p);
    ConfigResets(p);
    ChallengePrepared(s2, cfg);
  }

  lemma ConfigResets(p: Policy)
    ensures ConfigOf(p).resetLifetime == 3600
  {
  }

  lemma RunTwo(s: State, a: Request, b: Request)
    ensures Run(s, [a] + [b]) == Handle(Handle(s, a).0, b).0
  {
    hide Handle;
    History.RunAppend(s, [a], [b]);
    History.RunOne(s, a);
    History.RunOne(Handle(s, a).0, b);
  }

  // ── Exactly which limits are broken ──────────────────────────────────────

  /** The run, with the tenant's configuration fixed, evaluates more than `n` times the allowed codes. */
  ghost predicate Exceeds(s: State, reqs: seq<Request>, jti: Uuid, p: Policy, n: nat) {
    var s' := Run(s, reqs);
    && IsInitial(s) && jti in s'.challenges && AllFixed(reqs, s'.challenges[jti].tenant, p)
    && n * p.maxAttempts < Evaluations(s'.log, jti)
  }

  ghost predicate CanExceed(p: Policy, n: nat) {
    exists s, reqs, jti :: Exceeds(s, reqs, jti, p, n)
  }

  lemma {:induction false} AttemptsAreFixed(c: Challenge, p: Policy, m: nat)
    ensures AllFixed(Attempts(c, ConfigOf(p), m), c.tenant, p)
    decreases m
  {
    if m > 0 {
      AttemptsAreFixed(c, p, m - 1);
    }
  }

  lemma {:induction false} ExcessIsFixed(c: Challenge, p: Policy, n: nat)
    ensures AllFixed(Excess(c, ConfigOf(p), n), c.tenant, p)
    decreases n
  {
    if n > 0 {
      ExcessIsFixed(c, p, n - 1);
      AttemptsAreFixed(c, p, p.maxAttempts);
    }
  }

  lemma PreparedIsOpen(s: State, p: Policy)
    requires IsPrepared(s, Opened(ConfigOf(p))) && 0 < p.lifetime + p.slack
    ensures IsOpen(s, Opened(ConfigOf(p)), ConfigOf(p)) && HasUsed(s, Opened(ConfigOf(p)), ConfigOf(p), 0)
    ensures Evaluations(s.log, 1) == 0
  {
  }

  lemma {:induction false} ChallengesStay(s: State, reqs: seq<Request>, c: Challenge)
    requires Ledger(s) && Issued(s, c)
    ensures Issued(Run(s, reqs), c)
    decreases reqs
  {
    hide Ledger, Issued;
    if reqs != [] {
      var moves := Moves.PathOf(s, reqs[0]);
      PathKeeps(s, moves, Handle(s, reqs[0]).0);
      ChallengesStayAlong(s, moves, Handle(s, reqs[0]).0, c);
      ChallengesStay(Handle(s, reqs[0]).0, reqs[1..], c);
    }
  }

  lemma ChallengeStays(s: State, m: Moves.Move, c: Challenge)
    requires Ledger(s) && Moves.Enabled(s, m) && Issued(s, c)
    ensures Issued(Moves.Apply(s, m), c)
  {
    if !m.Issue? && !m.Count? && !m.Evaluate? && !m.Spend? {
      IdleMove(s, m);
    }
  }

  lemma {:induction false} ChallengesStayAlong(s: State, moves: seq<Moves.Move>, s': State, c: Challenge)
    requires Ledger(s) && Moves.Leads(s, moves, s') && Issued(s, c)
    ensures Issued(s', c)
    decreases |moves|
  {
    hide Ledger, Issued;
    if moves != [] {
      MoveKeeps(s, moves[0]);
      ChallengeStays(s, moves[0], c);
      ChallengesStayAlong(Moves.Apply(s, moves[0]), moves[1..], s', c);
    }
  }

  lemma ExcessIsReached(p: Policy, n: nat)
    requires 1 <= p.maxAttempts && n * p.lifetime < p.lifetime + p.slack
    ensures Exceeds(OneIdentity(), Preparation(p) + Excess(Opened(ConfigOf(p)), ConfigOf(p), n), 1, p, n)
  {
    hide Run, IsPrepared, Ledger, Evaluations, IsOpen, HasUsed, Excess, OneIdentity;
    var cfg := ConfigOf(p);
    var c := Opened(cfg);
    var s := Run(OneIdentity(), Preparation(p));
    PreparationPrepares(p);
    InitialLedger(OneIdentity());
    RunKeeps(OneIdentity(), Preparation(p));
    assert 0 <= n * p.lifetime;
    PreparedIsOpen(s, p);
    PreparedAtZero(s, c);
    ExcessExceeds(s, c, cfg, n);
    ExcessIsFixed(c, p, n);
    History.RunAppend(OneIdentity(), Preparation(p), Excess(c, cfg, n));
    ChallengesStay(s, Excess(c, cfg, n), c);
  }

  lemma PreparedAtZero(s: State, c: Challenge)
    requires IsPrepared(s, c)
    ensures s.now == 0 && |s.log| == 4 && Issued(s, c) && s.cache.attempts == map[]
  {
  }

  /**
   With a tenant's configuration fixed, some run evaluates more than `n` times the
   allowed number of codes against one challenge if and only if `n` lifetimes are
   shorter than one lifetime and the slack together.
   */
  lemma LimitExceededExactly(p: Policy, n: nat)
    ensures CanExceed(p, n) <==> 1 <= p.maxAttempts && n * p.lifetime < p.lifetime + p.slack
  {
    if CanExceed(p, n) {
      var s, reqs, jti :| Exceeds(s, reqs, jti, p, n);
      ExcessIsWithinSlack(s, reqs, p, jti, n);
    }
    if 1 <= p.maxAttempts && n * p.lifetime < p.lifetime + p.slack {
      ExcessIsReached(p, n);
    }
  }

  /** The run, with the tenant's configuration fixed, spends one challenge twice. */
  ghost predicate Reuses(s: State, reqs: seq<Request>, i: nat, j: nat, p: Policy) {
    var log := Run(s, reqs).log;
    IsInitial(s) && IsReuse(log, i, j) && AllFixed(reqs, log[i].challenge.tenant, p)
  }

  ghost predicate CanReuse(p: Policy) {
    exists s, reqs, i: nat, j: nat :: Reuses(s, reqs, i, j, p)
  }

  /** The run, with that configuration fixed at every tenant, sets two passwords with one reset token. */
  ghost predicate ResetsTwice(s: State, reqs: seq<Request>, i: nat, j: nat, p: Policy) {
    var log := Run(s, reqs).log;
    && IsInitial(s) && i < j < |log| && log[i].PasswordSet? && log[j].PasswordSet?
    && log[i].reset.Some? && log[i].reset == log[j].reset && forall tenant :: AllFixed(reqs, tenant, p)
  }

  ghost predicate CanResetTwice(p: Policy) {
    exists s, reqs, i: nat, j: nat :: ResetsTwice(s, reqs, i, j, p)
  }

  lemma PreparedIsAccepted(s: State, p: Policy, q: Policy)
    requires IsPrepared(s, Opened(ConfigOf(p))) && q.lifetime < p.lifetime + q.slack && 1 <= q.maxAttempts
    ensures IsAccepted(s, Opened(ConfigOf(p)), BackupCode, "a", ConfigOf(q))
    ensures AcceptsNext(s, Opened(ConfigOf(p)), BackupCode, "a", "b", ConfigOf(q))
  {
    var st := s.db.factors;
    assert 1 in SecondFactors.Redeemable(st, 0, "a");
    assert 2 in SecondFactors.Redeemable(SecondFactors.ConsumeBackup(st, 0, "a"), 0, "b");
  }

  /** The challenge is issued under the limits `p` and consumed twice under `q`. */
  ghost function ReusePath(p: Policy, q: Policy): seq<Request> {
    Preparation(p) + TwicePath(Opened(ConfigOf(p)), BackupCode, "a", "b", "password", ConfigOf(q))
  }

  lemma ReusePathIsFixed(p: Policy, tenant: Uuid)
    ensures AllFixed(ReusePath(p, p), tenant, p)
  {
    ConfigLimits(p);
    hide ConfigOf;
  }

  /**
   If a marker of the present lifetime ends before the challenge does, the challenge
   is consumed twice: at 7 and 12 in the log, with a password set right after each.
   Lowering the lifetime between issue and use is enough, even without slack.
   */
  lemma LoweredLifetimeReuses(p: Policy, q: Policy)
    requires q.lifetime < p.lifetime + q.slack && 1 <= q.maxAttempts
    ensures IsInitial(OneIdentity())
    ensures var log := Run(OneIdentity(), ReusePath(p, q)).log;
            var c := Opened(ConfigOf(p));
            && |log| == 14 && IsReuse(log, 7, 12) && log[7].challenge == c
            && log[8] == log[13] == PasswordSet(c.identity, c.origin)
  {
    hide Run, IsAccepted, AcceptsNext, OneIdentity, ConfigOf, Preparation, IsPrepared, TwicePath;
    var c := Opened(ConfigOf(p));
    var s := Run(OneIdentity(), Preparation(p));
    PreparationPrepares(p);
    PreparedAtZero(s, c);
    PreparedIsAccepted(s, p, q);
    ConfigLimits(p);
    ConfigLimits(q);
    ReuseWithinSlack(s, c, BackupCode, "a", "b", "password", ConfigOf(q));
    History.RunAppend(OneIdentity(), Preparation(p), TwicePath(c, BackupCode, "a", "b", "password", ConfigOf(q)));
  }

  lemma ReuseIsReached(p: Policy)
    requires 0 < p.slack && 1 <= p.maxAttempts
    ensures Reuses(OneIdentity(), ReusePath(p, p), 7, 12, p) && ResetsTwice(OneIdentity(), ReusePath(p, p), 8, 13, p)
  {
    hide Run, ConfigOf, ReusePath, AllFixed;
    LoweredLifetimeReuses(p, p);
    forall tenant ensures AllFixed(ReusePath(p, p), tenant, p) {
      ReusePathIsFixed(p, tenant);
    }
  }

  lemma ConfigLimits(p: Policy)
    ensures var cfg := ConfigOf(p);
            cfg.mfaLifetime == p.lifetime && cfg.mfaMaxAttempts == p.maxAttempts && cfg.jwtSlack == p.slack
  {
  }

  /** A challenge that is spent at all is spent under a positive attempt limit. */
  lemma SpendingNeedsAttempts(s: State, reqs: seq<Request>, i: nat, p: Policy)
    requires IsInitial(s)
    requires var log := Run(s, reqs).log;
             i < |log| && log[i].ChallengeSpent? && AllFixed(reqs, log[i].challenge.tenant, p)
    ensures 1 <= p.maxAttempts
  {
    hide Run;
    var s' := Run(s, reqs);
    var c := s'.log[i].challenge;
    InitialLedger(s);
    RunKeeps(s, reqs);
    assert Kept(s'.log[i], s') && Issued(s', c);
    assert CodeEvaluated(c.jti) in s'.log;
    ExcessIsWithinSlack(s, reqs, p, c.jti, 0);
  }

  /**
   With a tenant's configuration fixed, some run consumes one challenge twice, and
   some run sets two passwords with one reset token, if and only if the JWT check
   has slack and attempts are allowed at all.
   */
  lemma ReusedExactly(p: Policy)
    ensures CanReuse(p) <==> 0 < p.slack && 1 <= p.maxAttempts
    ensures CanResetTwice(p) <==> 0 < p.slack && 1 <= p.maxAttempts
  {
    hide Run, IsInitial;
    if CanReuse(p) {
      var s, reqs, i: nat, j: nat :| Reuses(s, reqs, i, j, p);
      ReuseIsWithinSlack(s, reqs, p, i, j);
      SpendingNeedsAttempts(s, reqs, i, p);
    }
    if CanResetTwice(p) {
      var s, reqs, i: nat, j: nat :| ResetsTwice(s, reqs, i, j, p);
      PasswordResets.SecondPasswordNeedsReuse(s, reqs, i, j);
      assert Reuses(s, reqs, i - 1, j - 1, p);
    }
    if 0 < p.slack && 1 <= p.maxAttempts {
      ReuseIsReached(p);
    }
  }
}
