/**
 How often a second-factor challenge is attempted and consumed. The attempt
 counter and the consumed marker both expire: they are kept for the challenge
 lifetime of the request that sets them, while the signed challenge is accepted
 up to its own `exp` and, by the slack of the JWT check, some seconds beyond. How
 often the limits start afresh before the signature takes over is counted here
 exactly, for every configuration and every run; other tenants play no part.
 */
module Challenges {
  import opened Wrappers
  import opened Redis
  import opened Credentials
  import opened Moves

  // ── The ledger ───────────────────────────────────────────────────────────

  /** What the stores remember of a fact. */
  ghost predicate Kept(f: Fact, s: State) {
    match f
    case AttemptCounted(jti, at, _) =>
      jti in s.cache.attempts && jti in s.challenges && s.challenges[jti].issuedAt <= at
    case CodeEvaluated(jti) => jti in s.cache.attempts
    case ChallengeSpent(c, at, until) =>
      && c.jti in s.challenges && s.challenges[c.jti] == c && c.issuedAt <= at
      && c.jti in s.cache.spent && until <= s.cache.spent[c.jti].expiry && CodeEvaluated(c.jti) in s.log
    case _ => true
  }

  /** A challenge is not spent again while its consumed marker lasts. */
  ghost predicate Apart(f: Fact, g: Fact) {
    f.ChallengeSpent? && g.ChallengeSpent? && f.challenge.jti == g.challenge.jti ==> f.until <= g.at
  }

  ghost predicate AllApart(log: seq<Fact>) {
    forall i, j :: 0 <= i < j < |log| ==> Apart(log[i], log[j])
  }

  ghost predicate Ledger(s: State) {
    && (forall j :: j in s.challenges ==>
          j < s.nextId && s.challenges[j].jti == j && s.challenges[j].issuedAt <= s.now)
    && (forall j :: j in s.cache.attempts ==> j in s.challenges && 1 <= s.cache.attempts[j].value)
    && (forall f :: f in s.log ==> Kept(f, s))
    && AllApart(s.log)
  }

  lemma ApartAppend(log: seq<Fact>, fact: Fact)
    requires AllApart(log) && forall f :: f in log ==> Apart(f, fact)
    ensures AllApart(log + [fact])
  {
  }

  /** A fact that is no spending is appended. */
  lemma AppendKeeps(s: State, s': State, fact: Fact)
    requires AllApart(s.log) && !fact.ChallengeSpent? && s'.log == s.log + [fact]
    requires forall f :: f in s.log ==> Kept(f, s')
    requires Kept(fact, s')
    ensures AllApart(s'.log) && forall f :: f in s'.log ==> Kept(f, s')
  {
    ApartAppend(s.log, fact);
  }

  lemma CountKeeps(s: State, jti: Uuid, cfg: Config)
    requires Ledger(s) && jti in s.challenges
    ensures Ledger(CountAttempt(s, jti, cfg))
  {
    var s' := CountAttempt(s, jti, cfg);
    AppendKeeps(s, s', AttemptCounted(jti, s.now, s.now + cfg.mfaLifetime));
  }

  lemma EvaluateKeeps(s: State, jti: Uuid, cfg: Config)
    requires Ledger(s) && jti in s.challenges
    ensures Ledger(Record(CountAttempt(s, jti, cfg), CodeEvaluated(jti)))
  {
    CountKeeps(s, jti, cfg);
    var counted := CountAttempt(s, jti, cfg);
    AppendKeeps(counted, Record(counted, CodeEvaluated(jti)), CodeEvaluated(jti));
  }

  lemma SpendKeeps(s: State, jti: Uuid, cfg: Config)
    requires Ledger(s) && jti in s.challenges && !IsLive(s.cache.spent, jti, s.now) && CodeEvaluated(jti) in s.log
    ensures Ledger(SpendChallenge(s, s.challenges[jti], cfg))
  {
    var fact := ChallengeSpent(s.challenges[jti], s.now, s.now + cfg.mfaLifetime);
    ApartAppend(s.log, fact);
  }

  /** Neither challenges nor their counters and markers change, nor is anything recorded of them. */
  ghost predicate Idle(s: State, s': State) {
    && s'.challenges == s.challenges && s'.cache.attempts == s.cache.attempts && s'.cache.spent == s.cache.spent
    && s.now <= s'.now && s.nextId <= s'.nextId
    && (s'.log == s.log || (|s'.log| == |s.log| + 1 && s'.log[..|s.log|] == s.log && !IsTally(s'.log[|s.log|])))
  }

  ghost predicate IsTally(f: Fact) { f.AttemptCounted? || f.CodeEvaluated? || f.ChallengeSpent? }

  lemma IdleMove(s: State, m: Move)
    requires Enabled(s, m) && !m.Issue? && !m.Count? && !m.Evaluate? && !m.Spend?
    ensures Idle(s, Apply(s, m))
  {
    hide ManageFactor, VerifyFactor;
    if m.Manage? {
      ManageFrame(s, m.identity, m.op, m.cfg);
    }
  }

  lemma IdleKeeps(s: State, s': State)
    requires Ledger(s) && Idle(s, s')
    ensures Ledger(s')
  {
    if s'.log != s.log {
      assert s'.log == s.log + [s'.log[|s.log|]];
      AppendKeeps(s, s', s'.log[|s.log|]);
    }
  }

  lemma IssueKeeps(s: State, m: Move)
    requires Ledger(s) && m.Issue? && Enabled(s, m)
    ensures Ledger(Apply(s, m))
  {
    var s' := Apply(s, m);
    AppendKeeps(s, s', ChallengeIssued(s'.challenges[s.nextId]));
  }

  lemma MoveKeeps(s: State, m: Move)
    requires Ledger(s) && Enabled(s, m)
    ensures Ledger(Apply(s, m))
  {
    hide Ledger;
    match m
    case Issue(_, _, _, _, _, _) => IssueKeeps(s, m);
    case Count(_, jti, cfg) => CountKeeps(s, jti, cfg);
    case Evaluate(_, jti, cfg) => EvaluateKeeps(s, jti, cfg);
    case Spend(_, jti, cfg) => SpendKeeps(s, jti, cfg);
    case _ =>
      IdleMove(s, m);
      IdleKeeps(s, Apply(s, m));
  }

  // ── Windows ──────────────────────────────────────────────────────────────

  /** How many codes were evaluated against the challenge `jti`. */
  ghost function Evaluations(log: seq<Fact>, jti: Uuid): nat { multiset(log)[CodeEvaluated(jti)] }

  /** When the first attempt at the challenge `jti` was counted. */
  ghost function FirstAttempt(log: seq<Fact>, jti: Uuid): Option<Time>
    decreases |log|
  {
    if log == [] then None
    else
      var first := FirstAttempt(log[..|log| - 1], jti);
      var last := log[|log| - 1];
      if first.None? && last.AttemptCounted? && last.jti == jti then Some(last.at) else first
  }

  /** The least lifetime, the largest attempt limit and the largest slack in use. */
  datatype Policy = Policy(lifetime: nat, maxAttempts: nat, slack: nat)

  ghost predicate Respects(cfg: Config, p: Policy) {
    p.lifetime <= cfg.mfaLifetime && cfg.mfaMaxAttempts <= p.maxAttempts && cfg.jwtSlack <= p.slack
  }

  /**
   `counter` is in its `n`-th window since the first attempt. Every window opened
   before `deadline` and lasts the lifetime at least, and each has seen at most the
   allowed number of evaluations.
   */
  ghost predicate Window(p: Policy, n: nat, first: Time, deadline: Time, counter: Entry<nat>, evaluations: nat) {
    && 1 <= n && first + (n - 1) * p.lifetime < deadline
    && first + n * p.lifetime <= counter.expiry
    && evaluations <= (n - 1) * p.maxAttempts + counter.value
    && evaluations <= n * p.maxAttempts
  }

  lemma FirstWindow(p: Policy, now: Time, ttl: nat, deadline: Time)
    requires now < deadline && p.lifetime <= ttl
    ensures Window(p, 1, now, deadline, Entry(1, now + ttl), 0)
    ensures 1 <= p.maxAttempts ==> Window(p, 1, now, deadline, Entry(1, now + ttl), 1)
  {
  }

  lemma SameWindow(p: Policy, n: nat, first: Time, deadline: Time, counter: Entry<nat>, evaluations: nat)
    requires Window(p, n, first, deadline, counter, evaluations)
    ensures Window(p, n, first, deadline, Entry(counter.value + 1, counter.expiry), evaluations)
    ensures counter.value + 1 <= p.maxAttempts ==>
              Window(p, n, first, deadline, Entry(counter.value + 1, counter.expiry), evaluations + 1)
  {
    assert (n - 1) * p.maxAttempts + p.maxAttempts == n * p.maxAttempts;
  }

  lemma NextWindow(p: Policy, n: nat, first: Time, deadline: Time, counter: Entry<nat>, evaluations: nat, now: Time,
                   ttl: nat)
    requires Window(p, n, first, deadline, counter, evaluations)
    requires counter.expiry <= now < deadline && p.lifetime <= ttl
    ensures Window(p, n + 1, first, deadline, Entry(1, now + ttl), evaluations)
    ensures 1 <= p.maxAttempts ==> Window(p, n + 1, first, deadline, Entry(1, now + ttl), evaluations + 1)
  {
    assert (n + 1) * p.lifetime == n * p.lifetime + p.lifetime;
    assert (n + 1) * p.maxAttempts == n * p.maxAttempts + p.maxAttempts;
  }

  lemma Scale(a: nat, b: nat, c: nat)
    requires a <= b
    ensures a * c <= b * c
  {
    assert b * c == a * c + (b - a) * c;
  }

  /** More than `n` windows' worth of evaluations needs more than `n` windows. */
  lemma WindowBounds(p: Policy, k: nat, first: Time, deadline: Time, counter: Entry<nat>, evaluations: nat, n: nat)
    requires Window(p, k, first, deadline, counter, evaluations) && n * p.maxAttempts < evaluations
    ensures first + n * p.lifetime < deadline && 0 < p.maxAttempts
  {
    if k <= n {
      Scale(k, n, p.maxAttempts);
      assert false;
    }
    Scale(n, k - 1, p.lifetime);
  }

  ghost predicate InWindow(s: State, c: Challenge, p: Policy, n: nat) {
    && c.jti in s.cache.attempts && FirstAttempt(s.log, c.jti).Some?
    && Window(p, n, FirstAttempt(s.log, c.jti).value, c.exp + p.slack, s.cache.attempts[c.jti],
              Evaluations(s.log, c.jti))
  }

  ghost predicate SpentInTime(log: seq<Fact>, c: Challenge, p: Policy) {
    forall f :: f in log && f.ChallengeSpent? && f.challenge == c ==>
      f.at < c.exp + p.slack && f.at + p.lifetime <= f.until
  }

  ghost predicate Issued(s: State, c: Challenge) { c.jti in s.challenges && s.challenges[c.jti] == c }

  ghost predicate Tallied(s: State, c: Challenge, p: Policy) {
    && SpentInTime(s.log, c, p)
    && (c.jti in s.cache.attempts ==> exists n: nat :: InWindow(s, c, p, n))
  }

  ghost predicate Inv(s: State, c: Challenge, p: Policy) {
    Ledger(s) && (Issued(s, c) ==> Tallied(s, c, p))
  }

  lemma TallyAppend(log: seq<Fact>, fact: Fact, jti: Uuid)
    ensures Evaluations(log + [fact], jti) == Evaluations(log, jti) + (if fact == CodeEvaluated(jti) then 1 else 0)
    ensures var first := FirstAttempt(log, jti);
            FirstAttempt(log + [fact], jti)
            == if first.None? && fact.AttemptCounted? && fact.jti == jti then Some(fact.at) else first
  {
    assert (log + [fact])[..|log|] == log;
  }

  /** An unattempted challenge has no evaluation and no first attempt. */
  lemma {:induction false} Unattempted(log: seq<Fact>, jti: Uuid)
    requires forall f :: f in log ==> !(f.AttemptCounted? && f.jti == jti) && f != CodeEvaluated(jti)
    ensures FirstAttempt(log, jti) == None && Evaluations(log, jti) == 0
    decreases |log|
  {
    if log != [] {
      Unattempted(log[..|log| - 1], jti);
      assert log == log[..|log| - 1] + [log[|log| - 1]];
    }
  }

  /** The challenge's window, its counter apart, after an attempt that is evaluated or only counted. */
  lemma CountWindow(s: State, c: Challenge, cfg: Config, p: Policy) returns (n: nat, first: Time)
    requires Ledger(s) && Issued(s, c) && Tallied(s, c, p)
    requires Heard(s, c.tenant, c.jti, cfg) && Respects(cfg, p)
    ensures FirstAttempt(CountAttempt(s, c.jti, cfg).log, c.jti) == Some(first)
    ensures var counter := CountAttempt(s, c.jti, cfg).cache.attempts[c.jti];
            var evaluations := Evaluations(s.log, c.jti);
            && Window(p, n, first, c.exp + p.slack, counter, evaluations)
            && (counter.value <= p.maxAttempts ==>
                  Window(p, n, first, c.exp + p.slack, counter, evaluations + 1))
  {
    TallyAppend(s.log, AttemptCounted(c.jti, s.now, s.now + cfg.mfaLifetime), c.jti);
    hide Window;
    if c.jti !in s.cache.attempts {
      forall f | f in s.log ensures !(f.AttemptCounted? && f.jti == c.jti) && f != CodeEvaluated(c.jti) {
        assert Kept(f, s);
      }
      Unattempted(s.log, c.jti);
      n, first := 1, s.now;
      FirstWindow(p, s.now, cfg.mfaLifetime, c.exp + p.slack);
    } else {
      n :| InWindow(s, c, p, n);
      first := FirstAttempt(s.log, c.jti).value;
      var counter := s.cache.attempts[c.jti];
      if IsLive(s.cache.attempts, c.jti, s.now) {
        SameWindow(p, n, first, c.exp + p.slack, counter, Evaluations(s.log, c.jti));
      } else {
        NextWindow(p, n, first, c.exp + p.slack, counter, Evaluations(s.log, c.jti), s.now, cfg.mfaLifetime);
        n := n + 1;
      }
    }
  }

  lemma IdleTally(s: State, s': State, c: Challenge, p: Policy)
    requires Inv(s, c, p) && Idle(s, s')
    ensures Inv(s', c, p)
  {
    IdleKeeps(s, s');
    if Issued(s', c) && s'.log != s.log {
      assert s'.log == s.log + [s'.log[|s.log|]];
      TallyAppend(s.log, s'.log[|s.log|], c.jti);
      if c.jti in s.cache.attempts {
        var n: nat :| InWindow(s, c, p, n);
        assert InWindow(s', c, p, n);
      }
    } else if Issued(s', c) && c.jti in s.cache.attempts {
      var n: nat :| InWindow(s, c, p, n);
      assert InWindow(s', c, p, n);
    }
  }

  /** Facts and counters of another challenge leave this one's tally alone. */
  lemma OtherTally(s: State, s': State, fact: Fact, c: Challenge, p: Policy)
    requires Tallied(s, c, p) && s'.log == s.log + [fact]
    requires c.jti in s'.cache.attempts ==>
               c.jti in s.cache.attempts && s'.cache.attempts[c.jti] == s.cache.attempts[c.jti]
    requires fact.AttemptCounted? || fact.CodeEvaluated? ==> fact.jti != c.jti
    requires fact.ChallengeSpent? && fact.challenge == c ==>
               fact.at < c.exp + p.slack && fact.at + p.lifetime <= fact.until
    ensures Tallied(s', c, p)
  {
    TallyAppend(s.log, fact, c.jti);
    if c.jti in s'.cache.attempts {
      var n: nat :| InWindow(s, c, p, n);
      assert InWindow(s', c, p, n);
    }
  }

  /** A request that deals with challenges of this tenant does so within the policy. */
  ghost predicate Within(ruling: Option<(Uuid, Config)>, tenant: Uuid, p: Policy) {
    ruling.Some? && ruling.value.0 == tenant ==> Respects(ruling.value.1, p)
  }

  /** An attempt at another challenge. */
  lemma OtherCountTally(s: State, m: Move, c: Challenge, p: Policy)
    requires (m.Count? || m.Evaluate?) && Enabled(s, m) && Tallied(s, c, p) && m.jti != c.jti
    ensures Tallied(Apply(s, m), c, p)
  {
    hide Tallied, Heard;
    var counted := CountAttempt(s, m.jti, m.cfg);
    var fact := AttemptCounted(m.jti, s.now, s.now + m.cfg.mfaLifetime);
    OtherTally(s, counted, fact, c, p);
    OtherTally(counted, Record(counted, CodeEvaluated(m.jti)), CodeEvaluated(m.jti), c, p);
  }

  lemma OwnCountTally(s: State, m: Move, c: Challenge, p: Policy)
    requires Ledger(s) && Issued(s, c) && Tallied(s, c, p) && (m.Count? || m.Evaluate?) && Enabled(s, m)
    requires m.jti == c.jti && Respects(m.cfg, p)
    ensures Tallied(Apply(s, m), c, p)
  {
    hide Window, FirstAttempt, Evaluations, Ledger;
    var n, first := CountWindow(s, c, m.cfg, p);
    var counted := CountAttempt(s, m.jti, m.cfg);
    TallyAppend(s.log, AttemptCounted(c.jti, s.now, s.now + m.cfg.mfaLifetime), c.jti);
    TallyAppend(counted.log, CodeEvaluated(c.jti), c.jti);
    assert InWindow(Apply(s, m), c, p, n);
  }

  lemma IssueTally(s: State, m: Move, c: Challenge, p: Policy)
    requires Inv(s, c, p) && m.Issue? && Enabled(s, m)
    requires Issued(Apply(s, m), c)
    ensures Tallied(Apply(s, m), c, p)
  {
    var s' := Apply(s, m);
    if Issued(s, c) {
      OtherTally(s, s', ChallengeIssued(s'.challenges[s.nextId]), c, p);
    } else {
      assert s'.log == s.log + [ChallengeIssued(s'.challenges[s.nextId])];
      forall f | f in s.log && f.ChallengeSpent? ensures f.challenge != c {
        assert Kept(f, s);
      }
    }
  }

  lemma MoveTally(s: State, m: Move, c: Challenge, p: Policy)
    requires Inv(s, c, p) && Enabled(s, m)
    requires m.Count? || m.Evaluate? || m.Spend? ==> Within(Some((m.tenant, m.cfg)), c.tenant, p)
    ensures Inv(Apply(s, m), c, p)
  {
    hide Ledger, Tallied;
    MoveKeeps(s, m);
    var s' := Apply(s, m);
    if Issued(s', c) {
      match m
      case Issue(_, _, _, _, _, _) => IssueTally(s, m, c, p);
      case Count(_, jti, _) => if jti == c.jti { OwnCountTally(s, m, c, p); } else { OtherCountTally(s, m, c, p); }
      case Evaluate(_, jti, _) => if jti == c.jti { OwnCountTally(s, m, c, p); } else { OtherCountTally(s, m, c, p); }
      case Spend(_, jti, cfg) =>
        OtherTally(s, s', ChallengeSpent(s.challenges[jti], s.now, s.now + cfg.mfaLifetime), c, p);
      case _ =>
        IdleMove(s, m);
        IdleTally(s, s', c, p);
    }
  }

  lemma {:induction false} PathTally(s: State, moves: seq<Move>, s': State, ruling: Option<(Uuid, Config)>,
                                     c: Challenge, p: Policy)
    requires Inv(s, c, p) && Leads(s, moves, s') && AllObey(moves, ruling) && Within(ruling, c.tenant, p)
    ensures Inv(s', c, p)
    decreases |moves|
  {
    hide Enabled, Apply, Inv;
    if moves != [] {
      assert Obeys(moves[0], ruling);
      MoveTally(s, moves[0], c, p);
      PathTally(Apply(s, moves[0]), moves[1..], s', ruling, c, p);
    }
  }

  ghost predicate AllWithin(reqs: seq<Request>, tenant: Uuid, p: Policy) {
    forall i :: 0 <= i < |reqs| ==> Within(RulingOf(reqs[i]), tenant, p)
  }

  lemma {:induction false} RunTally(s: State, reqs: seq<Request>, c: Challenge, p: Policy)
    requires Inv(s, c, p) && AllWithin(reqs, c.tenant, p)
    ensures Inv(Run(s, reqs), c, p)
    decreases reqs
  {
    hide Inv;
    if reqs != [] {
      var moves := PathOf(s, reqs[0]);
      PathTally(s, moves, Handle(s, reqs[0]).0, RulingOf(reqs[0]), c, p);
      RunTally(Handle(s, reqs[0]).0, reqs[1..], c, p);
    }
  }

  // ── The theorems, for every configuration ────────────────────────────────

  lemma {:induction false} PathKeeps(s: State, moves: seq<Move>, s': State)
    requires Ledger(s) && Leads(s, moves, s')
    ensures Ledger(s')
    decreases |moves|
  {
    hide Enabled, Apply, Ledger;
    if moves != [] {
      MoveKeeps(s, moves[0]);
      PathKeeps(Apply(s, moves[0]), moves[1..], s');
    }
  }

  lemma {:induction false} RunKeeps(s: State, reqs: seq<Request>)
    requires Ledger(s)
    ensures Ledger(Run(s, reqs))
    decreases reqs
  {
    hide Ledger;
    if reqs != [] {
      var moves := PathOf(s, reqs[0]);
      PathKeeps(s, moves, Handle(s, reqs[0]).0);
      RunKeeps(Handle(s, reqs[0]).0, reqs[1..]);
    }
  }

  lemma InitialLedger(s: State)
    requires IsInitial(s)
    ensures Ledger(s) && s.challenges == map[]
  {
  }

  ghost predicate IsReuse(log: seq<Fact>, i: nat, j: nat) {
    && i < j < |log| && log[i].ChallengeSpent? && log[j].ChallengeSpent?
    && log[i].challenge.jti == log[j].challenge.jti
  }

  /** In no run at all is a challenge spent again before its consumed marker has expired. */
  lemma SpendsAreApart(s: State, reqs: seq<Request>, i: nat, j: nat)
    requires IsInitial(s) && IsReuse(Run(s, reqs).log, i, j)
    ensures var log := Run(s, reqs).log;
            log[i].challenge == log[j].challenge && log[i].until <= log[j].at
  {
    RunKeeps(s, reqs);
    var s' := Run(s, reqs);
    assert Apart(s'.log[i], s'.log[j]);
    assert Kept(s'.log[i], s') && Kept(s'.log[j], s');
  }

  /**
   A challenge spent twice was first spent so early that a marker of the least
   lifetime in use expires before the largest slack in use ends the challenge.
   */
  lemma ReuseIsEarly(s: State, reqs: seq<Request>, p: Policy, i: nat, j: nat)
    requires IsInitial(s) && IsReuse(Run(s, reqs).log, i, j)
    requires AllWithin(reqs, Run(s, reqs).log[i].challenge.tenant, p)
    ensures var log := Run(s, reqs).log;
            log[i].at + p.lifetime <= log[j].at < log[i].challenge.exp + p.slack
  {
    var s' := Run(s, reqs);
    var c := s'.log[i].challenge;
    RunTally(s, reqs, c, p);
    SpendsAreApart(s, reqs, i, j);
    assert Kept(s'.log[i], s') && s'.log[i] in s'.log && s'.log[j] in s'.log;
  }

  /**
   More than `n` times the allowed number of codes are evaluated against a
   challenge only if its first attempt came so early that `n` lifetimes later the
   challenge was still accepted.
   */
  lemma EvaluationsAreBounded(s: State, reqs: seq<Request>, p: Policy, jti: Uuid, n: nat)
    requires IsInitial(s) && n * p.maxAttempts < Evaluations(Run(s, reqs).log, jti)
    requires jti in Run(s, reqs).challenges ==> AllWithin(reqs, Run(s, reqs).challenges[jti].tenant, p)
    ensures jti in Run(s, reqs).challenges
    ensures var c := Run(s, reqs).challenges[jti];
            var first := FirstAttempt(Run(s, reqs).log, jti);
            first.Some? && c.issuedAt <= first.value && first.value + n * p.lifetime < c.exp + p.slack
    ensures 0 < p.maxAttempts
  {
    hide Window, Run, IsInitial, FirstAttempt;
    var s' := Run(s, reqs);
    InitialLedger(s);
    RunKeeps(s, reqs);
    assert 0 <= n * p.maxAttempts;
    assert CodeEvaluated(jti) in s'.log && Kept(CodeEvaluated(jti), s');
    var c := s'.challenges[jti];
    RunTally(s, reqs, c, p);
    FirstIsCounted(s'.log, jti);
    var k: nat :| InWindow(s', c, p, k);
    WindowBounds(p, k, FirstAttempt(s'.log, jti).value, c.exp + p.slack, s'.cache.attempts[jti],
                 Evaluations(s'.log, jti), n);
  }

  lemma {:induction false} FirstIsCounted(log: seq<Fact>, jti: Uuid)
    requires FirstAttempt(log, jti).Some?
    ensures exists f :: f in log && f.AttemptCounted? && f.jti == jti && f.at == FirstAttempt(log, jti).value
    decreases |log|
  {
    if FirstAttempt(log[..|log| - 1], jti).Some? {
      FirstIsCounted(log[..|log| - 1], jti);
    } else {
      assert log[|log| - 1] in log;
    }
  }

  // ── With the tenant's configuration fixed ────────────────────────────────

  ghost predicate Fixed(ruling: Option<(Uuid, Config)>, tenant: Uuid, p: Policy) {
    ruling.Some? && ruling.value.0 == tenant ==>
      var cfg := ruling.value.1;
      cfg.mfaLifetime == p.lifetime && cfg.mfaMaxAttempts == p.maxAttempts && cfg.jwtSlack == p.slack
  }

  ghost predicate AllFixed(reqs: seq<Request>, tenant: Uuid, p: Policy) {
    forall i :: 0 <= i < |reqs| ==> Fixed(RulingOf(reqs[i]), tenant, p)
  }

  /** Every challenge of the tenant is issued for the same lifetime. */
  ghost predicate Uniform(challenges: map<Uuid, Challenge>, tenant: Uuid, lifetime: nat) {
    forall j :: j in challenges && challenges[j].tenant == tenant ==>
      challenges[j].exp == challenges[j].issuedAt + lifetime
  }

  lemma {:induction false} PathUniform(s: State, moves: seq<Move>, s': State, ruling: Option<(Uuid, Config)>,
                                       tenant: Uuid, p: Policy)
    requires Leads(s, moves, s') && AllObey(moves, ruling) && Fixed(ruling, tenant, p)
    requires Uniform(s.challenges, tenant, p.lifetime)
    ensures Uniform(s'.challenges, tenant, p.lifetime)
    decreases |moves|
  {
    if moves != [] {
      var m := moves[0];
      assert Obeys(m, ruling);
      MoveUniform(s, m, tenant, p);
      PathUniform(Apply(s, m), moves[1..], s', ruling, tenant, p);
    }
  }

  lemma MoveUniform(s: State, m: Move, tenant: Uuid, p: Policy)
    requires Enabled(s, m) && Uniform(s.challenges, tenant, p.lifetime)
    requires m.Issue? && m.tenant == tenant ==> m.cfg.mfaLifetime == p.lifetime
    ensures Uniform(Apply(s, m).challenges, tenant, p.lifetime)
  {
    if !m.Issue? && !m.Count? && !m.Evaluate? && !m.Spend? {
      IdleMove(s, m);
    }
  }

  lemma {:induction false} RunUniform(s: State, reqs: seq<Request>, tenant: Uuid, p: Policy)
    requires AllFixed(reqs, tenant, p) && Uniform(s.challenges, tenant, p.lifetime)
    ensures Uniform(Run(s, reqs).challenges, tenant, p.lifetime)
    decreases reqs
  {
    hide Uniform;
    if reqs != [] {
      var moves := PathOf(s, reqs[0]);
      PathUniform(s, moves, Handle(s, reqs[0]).0, RulingOf(reqs[0]), tenant, p);
      RunUniform(Handle(s, reqs[0]).0, reqs[1..], tenant, p);
    }
  }

  /** A challenge spent twice was first spent less than the slack after its issue. */
  lemma ReuseIsWithinSlack(s: State, reqs: seq<Request>, p: Policy, i: nat, j: nat)
    requires IsInitial(s) && IsReuse(Run(s, reqs).log, i, j)
    requires AllFixed(reqs, Run(s, reqs).log[i].challenge.tenant, p)
    ensures var f := Run(s, reqs).log[i]; f.challenge.issuedAt <= f.at < f.challenge.issuedAt + p.slack
  {
    var s' := Run(s, reqs);
    var c := s'.log[i].challenge;
    ReuseIsEarly(s, reqs, p, i, j);
    RunUniform(s, reqs, c.tenant, p);
    RunKeeps(s, reqs);
    assert Kept(s'.log[i], s');
  }

  /**
   More than `n` times the attempt limit is reached only if `n` lifetimes after the
   first attempt the challenge was still accepted. For `n` of 1 the first attempt
   then came less than the slack after the issue, and whenever it came, `n`
   lifetimes are shorter than one lifetime and the slack together.
   */
  lemma ExcessIsWithinSlack(s: State, reqs: seq<Request>, p: Policy, jti: Uuid, n: nat)
    requires IsInitial(s) && n * p.maxAttempts < Evaluations(Run(s, reqs).log, jti)
    requires jti in Run(s, reqs).challenges ==> AllFixed(reqs, Run(s, reqs).challenges[jti].tenant, p)
    ensures jti in Run(s, reqs).challenges
    ensures var issuedAt := Run(s, reqs).challenges[jti].issuedAt;
            var first := FirstAttempt(Run(s, reqs).log, jti);
            first.Some? && issuedAt <= first.value && first.value + n * p.lifetime < issuedAt + p.lifetime + p.slack
    ensures 0 < p.maxAttempts && n * p.lifetime < p.lifetime + p.slack
  {
    hide Run, FirstAttempt, Evaluations;
    var s' := Run(s, reqs);
    EvaluationsAreBounded(s, reqs, p, jti, n);
    RunUniform(s, reqs, s'.challenges[jti].tenant, p);
  }

  /** Without slack, a fixed configuration's limits are kept: no reuse, and no attempt beyond the limit. */
  lemma WithoutSlack(s: State, reqs: seq<Request>, p: Policy, jti: Uuid)
    requires IsInitial(s) && p.slack == 0
    requires jti in Run(s, reqs).challenges ==> AllFixed(reqs, Run(s, reqs).challenges[jti].tenant, p)
    ensures Evaluations(Run(s, reqs).log, jti) <= p.maxAttempts
    ensures forall i: nat, j: nat :: IsReuse(Run(s, reqs).log, i, j) ==> Run(s, reqs).log[i].challenge.jti != jti
  {
    hide Run, FirstAttempt, Evaluations;
    var s' := Run(s, reqs);
    if p.maxAttempts < Evaluations(s'.log, jti) {
      ExcessIsWithinSlack(s, reqs, p, jti, 1);
      assert false;
    }
    forall i: nat, j: nat | IsReuse(s'.log, i, j) ensures s'.log[i].challenge.jti != jti {
      if s'.log[i].challenge.jti == jti {
        InitialLedger(s);
        RunKeeps(s, reqs);
        assert Kept(s'.log[i], s');
        ReuseIsWithinSlack(s, reqs, p, i, j);
        assert false;
      }
    }
  }
}
