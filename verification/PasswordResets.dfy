/**
 What a password-reset token leads to. A token is spent at most once; the fact
 that follows its spending is either the new password or the one challenge issued
 for it, so a token that sets two passwords does so through one challenge that was
 spent twice.
 */
module PasswordResets {
  import opened Wrappers
  import opened Credentials
  import opened Moves
  import Challenges

  /** The fact at `q` follows what must precede it. */
  ghost predicate Follows(log: seq<Fact>, q: nat)
    requires q < |log|
  {
    match log[q]
    case ChallengeIssued(c) => c.origin.Some? ==> Ends(log[..q], ResetSpent(c.origin.value))
    case ChallengeSpent(c, _, _) => ChallengeIssued(c) in log
    case PasswordSet(_, reset) =>
      reset.Some? ==> Ends(log[..q], ResetSpent(reset.value)) || EndsInSpend(log[..q], reset.value)
    case _ => true
  }

  ghost predicate SpentOnce(log: seq<Fact>) {
    forall i, j :: 0 <= i < j < |log| && log[i].ResetSpent? ==> log[i] != log[j]
  }

  ghost predicate Inv(s: State) {
    && (forall t :: t in s.cache.resets ==> t < s.nextId)
    && (forall f :: f in s.log && f.ResetSpent? ==> f.token < s.nextId && f.token !in s.cache.resets)
    && (forall j :: j in s.challenges ==> ChallengeIssued(s.challenges[j]) in s.log)
    && SpentOnce(s.log)
    && (forall q: nat :: q < |s.log| ==> Follows(s.log, q))
  }

  lemma FollowsAppend(log: seq<Fact>, fact: Fact)
    requires forall q: nat :: q < |log| ==> Follows(log, q)
    requires Follows(log + [fact], |log|)
    ensures forall q: nat :: q < |log + [fact]| ==> Follows(log + [fact], q)
  {
    forall q: nat | q < |log| ensures Follows(log + [fact], q) {
      assert Follows(log, q);
      assert (log + [fact])[..q] == log[..q];
    }
  }

  /** One fact other than a reset token's spending is appended. */
  lemma AppendKeeps(s: State, s': State, fact: Fact)
    requires Inv(s) && s'.log == s.log + [fact] && !fact.ResetSpent? && Follows(s'.log, |s.log|)
    requires s'.cache.resets.Keys <= s.cache.resets.Keys && s.nextId <= s'.nextId
    requires forall j :: j in s'.challenges ==>
               (j in s.challenges && s'.challenges[j] == s.challenges[j]) || ChallengeIssued(s'.challenges[j]) == fact
    ensures Inv(s')
  {
    FollowsAppend(s.log, fact);
  }

  lemma SameLogKeeps(s: State, s': State)
    requires Inv(s) && s'.log == s.log && s'.challenges == s.challenges && s.nextId <= s'.nextId
    requires forall t :: t in s'.cache.resets ==> t in s.cache.resets || s.nextId <= t < s'.nextId
    ensures Inv(s')
  {
  }

  lemma UnlockKeeps(s: State, token: Uuid)
    requires Inv(s) && token in s.cache.resets
    ensures Inv(Unlock(s, token))
  {
    FollowsAppend(s.log, ResetSpent(token));
  }

  /** A move that appends exactly one fact and adds no reset token. */
  lemma TellingMoveKeeps(s: State, m: Move, fact: Fact)
    requires Inv(s) && Enabled(s, m) && Apply(s, m).log == s.log + [fact]
    requires m.Quiet? || m.Issue? || m.Count? || m.Accept? || m.Spend? || m.Rewrite?
    ensures Inv(Apply(s, m))
  {
    var s' := Apply(s, m);
    assert s'.log[..|s.log|] == s.log;
    AppendKeeps(s, s', fact);
  }

  lemma MoveKeeps(s: State, m: Move)
    requires Inv(s) && Enabled(s, m)
    ensures Inv(Apply(s, m))
  {
    hide ManageFactor, VerifyFactor, Inv;
    var s' := Apply(s, m);
    match m
    case Quiet(to) =>
      if to.log == s.log {
        SameLogKeeps(s, to);
      } else {
        assert to.log == s.log + [to.log[|s.log|]];
        TellingMoveKeeps(s, m, to.log[|s.log|]);
      }
    case Evaluate(_, jti, cfg) =>
      var counted := CountAttempt(s, jti, cfg);
      AppendKeeps(s, counted, AttemptCounted(jti, s.now, s.now + cfg.mfaLifetime));
      AppendKeeps(counted, s', CodeEvaluated(jti));
    case OfferReset(_, _, _, _) => SameLogKeeps(s, s');
    case SpendReset(token) => UnlockKeeps(s, token);
    case Manage(identity, op, cfg) =>
      ManageFrame(s, identity, op, cfg);
      if s'.log == s.log {
        SameLogKeeps(s, s');
      } else {
        AppendKeeps(s, s', s'.log[|s.log|]);
      }
    case _ => TellingMoveKeeps(s, m, s'.log[|s.log|]);
  }

  lemma {:induction false} PathKeeps(s: State, moves: seq<Move>, s': State)
    requires Inv(s) && Leads(s, moves, s')
    ensures Inv(s')
    decreases |moves|
  {
    hide Enabled, Apply, Inv;
    if moves != [] {
      MoveKeeps(s, moves[0]);
      PathKeeps(Apply(s, moves[0]), moves[1..], s');
    }
  }

  lemma {:induction false} RunKeeps(s: State, reqs: seq<Request>)
    requires Inv(s)
    ensures Inv(Run(s, reqs))
    decreases reqs
  {
    hide Inv;
    if reqs != [] {
      var moves := PathOf(s, reqs[0]);
      PathKeeps(s, moves, Handle(s, reqs[0]).0);
      RunKeeps(Handle(s, reqs[0]).0, reqs[1..]);
    }
  }

  // ── The theorems ─────────────────────────────────────────────────────────

  /** Where the challenge was issued for the reset token: right after the token was spent. */
  lemma IssuedAfterSpending(log: seq<Fact>, q: nat) returns (k: nat)
    requires forall i: nat :: i < |log| ==> Follows(log, i)
    requires q < |log| && log[q].ChallengeSpent? && log[q].challenge.origin.Some?
    ensures 0 < k < |log| && log[k] == ChallengeIssued(log[q].challenge)
    ensures log[k - 1] == ResetSpent(log[q].challenge.origin.value)
  {
    assert Follows(log, q);
    k :| 0 <= k < |log| && log[k] == ChallengeIssued(log[q].challenge);
    assert Follows(log, k);
  }

  /** A reset token that sets two passwords does so through one challenge, spent both times. */
  lemma TwoPasswordsOneChallenge(log: seq<Fact>, i: nat, j: nat)
    requires SpentOnce(log) && forall q: nat :: q < |log| ==> Follows(log, q)
    requires i < j < |log| && log[i].PasswordSet? && log[j].PasswordSet?
    requires log[i].reset.Some? && log[i].reset == log[j].reset
    ensures 0 < i && Challenges.IsReuse(log, i - 1, j - 1) && log[i - 1].challenge == log[j - 1].challenge
    ensures log[i - 1].challenge.origin == log[i].reset
  {
    assert Follows(log, i) && Follows(log, j);
    var k, l := i, j;
    if log[i - 1].ChallengeSpent? {
      k := IssuedAfterSpending(log, i - 1);
    }
    if log[j - 1].ChallengeSpent? {
      l := IssuedAfterSpending(log, j - 1);
    }
    assert log[k - 1] == log[l - 1] == ResetSpent(log[i].reset.value);
    assert k == l;
  }

  /** No reset token is spent twice, and one that sets two passwords has its challenge spent before each. */
  lemma SecondPasswordNeedsReuse(s: State, reqs: seq<Request>, i: nat, j: nat)
    requires IsInitial(s) && i < j < |Run(s, reqs).log|
    ensures var log := Run(s, reqs).log;
            && (log[i].ResetSpent? ==> log[i] != log[j])
            && (log[i].PasswordSet? && log[j].PasswordSet? && log[i].reset.Some? && log[i].reset == log[j].reset ==>
                  && 0 < i && Challenges.IsReuse(log, i - 1, j - 1)
                  && log[i - 1].challenge.origin == log[i].reset)
  {
    RunKeeps(s, reqs);
    var log := Run(s, reqs).log;
    if log[i].PasswordSet? && log[j].PasswordSet? && log[i].reset.Some? && log[i].reset == log[j].reset {
      TwoPasswordsOneChallenge(log, i, j);
    }
  }

  /** With the tenant's configuration fixed, that challenge was first spent within the slack of its issue. */
  lemma SecondPasswordIsWithinSlack(s: State, reqs: seq<Request>, p: Challenges.Policy, i: nat, j: nat)
    requires IsInitial(s)
    requires var log := Run(s, reqs).log;
             && 0 < i < j < |log| && log[i].PasswordSet? && log[j].PasswordSet?
             && log[i].reset.Some? && log[i].reset == log[j].reset
             && (log[i - 1].ChallengeSpent? ==> Challenges.AllFixed(reqs, log[i - 1].challenge.tenant, p))
    ensures var f := Run(s, reqs).log[i - 1];
            f.ChallengeSpent? && f.challenge.issuedAt <= f.at < f.challenge.issuedAt + p.slack
  {
    SecondPasswordNeedsReuse(s, reqs, i, j);
    Challenges.ReuseIsWithinSlack(s, reqs, p, i - 1, j - 1);
  }
}
