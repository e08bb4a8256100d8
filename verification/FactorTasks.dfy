/**
 The two views of the second factor agree. A task of `SecondFactors`, which makes its
 store calls one by one, does what the credential chain takes for one atomic step,
 whenever no other task comes in between.
 */
module FactorTasks {
  import opened Wrappers
  import opened Credentials
  import SecondFactors

  /** The task begins and is then advanced five times, which is enough for any. */
  ghost function Alone(w: SecondFactors.World, t: SecondFactors.Task, codes: seq<string>): seq<SecondFactors.Action> {
    var a := SecondFactors.Advance(|w.tasks|, codes);
    [SecondFactors.Begin(t), a, a, a, a, a]
  }

  ghost function After(w: SecondFactors.World, t: SecondFactors.Task, codes: seq<string>,
                       shows: Uuid -> SecondFactors.Authenticator): SecondFactors.World
  {
    SecondFactors.Run(w, Alone(w, t, codes), shows)
  }

  /** The task has finished with this verdict and left this store; no other task has moved. */
  ghost predicate Ends(w: SecondFactors.World, w': SecondFactors.World, ok: bool, store: SecondFactors.Store) {
    && w'.tasks == w.tasks + [SecondFactors.Finished(ok)] && w'.store == store && w'.now == w.now
  }

  /** One task's own steps, nothing else happening. */
  ghost function Steps(w: SecondFactors.World, t: SecondFactors.Task, codes: seq<string>,
                       shows: Uuid -> SecondFactors.Authenticator, n: nat): (SecondFactors.Store, SecondFactors.Task)
    decreases n
  {
    if n == 0 then (w.store, t)
    else
      var (store, next, _) := SecondFactors.Call(w, t, codes, shows);
      Steps(w.(store := store), next, codes, shows, n - 1)
  }

  /** Advancing the last task is one of its own steps. */
  lemma Advances(w: SecondFactors.World, codes: seq<string>, shows: Uuid -> SecondFactors.Authenticator)
    requires w.tasks != []
    ensures var i := |w.tasks| - 1;
            var (store, next, facts) := SecondFactors.Call(w, w.tasks[i], codes, shows);
            SecondFactors.Next(w, SecondFactors.Advance(i, codes), shows)
            == w.(store := store, tasks := w.tasks[..i] + [next], log := w.log + facts)
  {
    var i := |w.tasks| - 1;
    var next := SecondFactors.Call(w, w.tasks[i], codes, shows).1;
    assert w.tasks[i := next] == w.tasks[..i] + [next];
  }

  ghost function Repeat(i: nat, codes: seq<string>, n: nat): seq<SecondFactors.Action> {
    if n == 0 then [] else [SecondFactors.Advance(i, codes)] + Repeat(i, codes, n - 1)
  }

  /** The log and the other tasks play no part in a task's steps. */
  lemma {:induction false} StepsIgnore(w: SecondFactors.World, w': SecondFactors.World, t: SecondFactors.Task,
                                       codes: seq<string>, shows: Uuid -> SecondFactors.Authenticator, n: nat)
    requires w'.store == w.store && w'.now == w.now
    ensures Steps(w, t, codes, shows, n) == Steps(w', t, codes, shows, n)
    decreases n
  {
    if n > 0 {
      var (store, next, _) := SecondFactors.Call(w, t, codes, shows);
      StepsIgnore(w.(store := store), w'.(store := store), next, codes, shows, n - 1);
    }
  }

  lemma {:induction false} RunsSteps(w: SecondFactors.World, codes: seq<string>,
                                     shows: Uuid -> SecondFactors.Authenticator, n: nat)
    requires w.tasks != []
    ensures var i := |w.tasks| - 1;
            var w' := SecondFactors.Run(w, Repeat(i, codes, n), shows);
            var (store, t) := Steps(w, w.tasks[i], codes, shows, n);
            w'.store == store && w'.tasks == w.tasks[..i] + [t] && w'.now == w.now
    decreases n
  {
    hide SecondFactors.Next, SecondFactors.Call;
    var i := |w.tasks| - 1;
    if n == 0 {
      assert w.tasks == w.tasks[..i] + [w.tasks[i]];
    } else {
      Advances(w, codes, shows);
      var w1 := SecondFactors.Next(w, SecondFactors.Advance(i, codes), shows);
      var (store, next, _) := SecondFactors.Call(w, w.tasks[i], codes, shows);
      RunsSteps(w1, codes, shows, n - 1);
      StepsIgnore(w.(store := store), w1, next, codes, shows, n - 1);
      assert Repeat(i, codes, n)[1..] == Repeat(i, codes, n - 1);
    }
  }

  lemma AloneSteps(w: SecondFactors.World, t: SecondFactors.Task, codes: seq<string>,
                   shows: Uuid -> SecondFactors.Authenticator)
    requires SecondFactors.IsEntry(t) && (t.Fetch? ==> t.begun == w.now)
    ensures var (store, last) := Steps(w, t, codes, shows, 5);
            var w' := After(w, t, codes, shows);
            w'.store == store && w'.tasks == w.tasks + [last] && w'.now == w.now
  {
    hide SecondFactors.Call;
    var i := |w.tasks|;
    var a, w1 := SecondFactors.Advance(i, codes), w.(tasks := w.tasks + [t]);
    assert SecondFactors.Next(w, SecondFactors.Begin(t), shows) == w1;
    hide SecondFactors.Next;
    assert Repeat(i, codes, 5) == [a, a, a, a, a] by { RepeatFive(i, codes); }
    assert Alone(w, t, codes)[1..] == Repeat(i, codes, 5);
    RunsSteps(w1, codes, shows, 5);
    assert w1.tasks[..i] == w.tasks;
    StepsIgnore(w, w1, t, codes, shows, 5);
    hide Steps, Repeat;
  }

  lemma RepeatFive(i: nat, codes: seq<string>)
    ensures var a := SecondFactors.Advance(i, codes); Repeat(i, codes, 5) == [a, a, a, a, a]
  {
    var a := SecondFactors.Advance(i, codes);
    assert Repeat(i, codes, 1) == [a] + Repeat(i, codes, 0);
    assert Repeat(i, codes, 2) == [a] + Repeat(i, codes, 1);
    assert Repeat(i, codes, 3) == [a] + Repeat(i, codes, 2);
    assert Repeat(i, codes, 4) == [a] + Repeat(i, codes, 3);
  }

  // ── Presenting a code ────────────────────────────────────────────────────

  /** The steps of a TOTP code from its match on; confirming takes two more. */
  lemma MatchSteps(w: SecondFactors.World, owner: Uuid, code: string, confirming: bool, codes: seq<string>, cfg: Config)
    requires owner in w.store.enrolments
    ensures var st, e := w.store, w.store.enrolments[owner];
            var claim := ClaimCode(st, owner, e, code, w.now, cfg);
            Steps(w, SecondFactors.Match(owner, e, code, confirming, w.now), codes, cfg.shows, 4)
            == if claim.Failure? then (st, SecondFactors.Finished(false))
               else if !confirming then (claim.value.store, SecondFactors.Finished(true))
               else (SecondFactors.ReplaceBackups(SecondFactors.MarkVerified(claim.value.store, owner, e.id), owner,
                                                  codes), SecondFactors.Finished(true))
  {
  }

  /** The task that presents a code. */
  ghost function Presents(owner: Uuid, option: MfaOption, code: string, now: Time, cfg: Config): SecondFactors.Task {
    if option.BackupCode? then SecondFactors.Spend(owner, cfg.backupHash(code))
    else SecondFactors.Fetch(owner, code, false, now)
  }

  /** Alone, it is accepted and leaves the store as the atomic step does. */
  lemma VerifiesAlone(w: SecondFactors.World, owner: Uuid, option: MfaOption, code: string, codes: seq<string>,
                      cfg: Config)
    requires option.Totp? || option.BackupCode?
    ensures var verdict := VerifyFactor(w.store, owner, option, code, w.now, cfg);
            Ends(w, After(w, Presents(owner, option, code, w.now, cfg), codes, cfg.shows), verdict.Success?,
                 if verdict.Success? then verdict.value.store else w.store)
  {
    var t := Presents(owner, option, code, w.now, cfg);
    AloneSteps(w, t, codes, cfg.shows);
    if option.Totp? && SecondFactors.HasVerified(w.store, owner) {
      MatchSteps(w, owner, code, false, codes, cfg);
    }
    hide After, ClaimCode;
  }

  // ── Managing the factor ──────────────────────────────────────────────────

  ghost function Manages(owner: Uuid, op: FactorOp, now: Time): SecondFactors.Task {
    match op
    case StartEnrolment(secret) => SecondFactors.Enrol(owner, secret)
    case ConfirmEnrolment(code, _) => SecondFactors.Fetch(owner, code, true, now)
    case RemoveEnrolment(id) => SecondFactors.Delete(owner, id)
    case RegenerateCodes(_) => SecondFactors.Regenerate(owner)
  }

  ghost function NewCodes(op: FactorOp): seq<string> {
    if op.ConfirmEnrolment? || op.RegenerateCodes? then op.hashes else []
  }

  lemma ConfirmSteps(s: State, w: SecondFactors.World, owner: Uuid, op: FactorOp, cfg: Config)
    requires w.store == s.db.factors && w.now == s.now && op.ConfirmEnrolment?
    ensures var (s', outcome) := ManageFactor(s, owner, op, cfg);
            Steps(w, Manages(owner, op, w.now), NewCodes(op), cfg.shows, 5)
            == (s'.db.factors, SecondFactors.Finished(outcome.Done?))
  {
    if owner in w.store.enrolments {
      MatchSteps(w, owner, op.code, true, NewCodes(op), cfg);
    }
    hide ClaimCode;
  }

  lemma OtherSteps(s: State, w: SecondFactors.World, owner: Uuid, op: FactorOp, cfg: Config)
    requires w.store == s.db.factors && w.now == s.now && !op.ConfirmEnrolment?
    ensures var (s', outcome) := ManageFactor(s, owner, op, cfg);
            Steps(w, Manages(owner, op, w.now), NewCodes(op), cfg.shows, 5)
            == (s'.db.factors, SecondFactors.Finished(outcome.Done?))
  {
  }

  /** Alone, enrolling, confirming, removing and regenerating end and leave the store as the atomic step does. */
  lemma ManagesAlone(s: State, w: SecondFactors.World, owner: Uuid, op: FactorOp, cfg: Config)
    requires w.store == s.db.factors && w.now == s.now
    ensures var (s', outcome) := Handle(s, DoManageFactor(owner, op, cfg));
            Ends(w, After(w, Manages(owner, op, w.now), NewCodes(op), cfg.shows), outcome.Done?, s'.db.factors)
  {
    assert Handle(s, DoManageFactor(owner, op, cfg)) == ManageFactor(s, owner, op, cfg);
    hide Handle, After, ManageFactor, Steps;
    AloneSteps(w, Manages(owner, op, w.now), NewCodes(op), cfg.shows);
    if op.ConfirmEnrolment? {
      ConfirmSteps(s, w, owner, op, cfg);
    } else {
      OtherSteps(s, w, owner, op, cfg);
    }
  }
}
