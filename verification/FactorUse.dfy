/**
 Second factors in the life of tokens: over every run of the credential chain,
 the codes accepted at login, reset, password change and enrolment are in order,
 in time and used once, and a token whose `amr` says "mfa" rests on one of them.
 */
module FactorUse {
  import opened Wrappers
  import opened Credentials
  import opened Moves
  import Provenance
  import Scopes
  import SecondFactors

  type Store = SecondFactors.Store

  /** Whose code it was, as far as the store still tells, and when. */
  ghost predicate Attributed(accepted: SecondFactors.Fact, identity: Uuid, st: Store) {
    match accepted
    case TotpAccepted(id, _, _, step, _, at, _) =>
      && SecondFactors.InWindow(step, at)
      && (forall o :: SecondFactors.IsEnrolment(st, o, id) ==> o == identity)
    case BackupAccepted(rows) =>
      rows != {} && forall r :: r in rows && r in st.backups ==> st.backups[r].owner == identity
  }

  ghost predicate Known(f: Fact, st: Store) {
    f.FactorAccepted? ==> SecondFactors.Remembered(f.accepted, st) && Attributed(f.accepted, f.identity, st)
  }

  ghost predicate Ordered(f: Fact, g: Fact) {
    f.FactorAccepted? && g.FactorAccepted? ==> SecondFactors.Ordered(f.accepted, g.accepted)
  }

  ghost predicate AllOrdered(log: seq<Fact>) {
    forall i, j :: 0 <= i < j < |log| ==> Ordered(log[i], log[j])
  }

  /** A challenge is spent right after a code of its identity was accepted. */
  ghost predicate AllPaidFor(log: seq<Fact>) {
    forall q: nat :: q < |log| && log[q].ChallengeSpent? ==>
      EndsInFactor(log[..q], log[q].challenge.identity, log[q].at)
  }

  ghost predicate Inv(s: State) {
    && SecondFactors.IdsBelow(s.db.factors)
    && (forall f :: f in s.log ==> Known(f, s.db.factors))
    && AllOrdered(s.log) && AllPaidFor(s.log)
  }

  // ── Store operations ─────────────────────────────────────────────────────

  /** Old enrolments and rows keep their owners, and what was remembered is still remembered. */
  ghost predicate Preserves(st: Store, st': Store) {
    && SecondFactors.Keeps(st, st')
    && (forall o: Uuid, id: Uuid :: SecondFactors.IsEnrolment(st', o, id) && id < st.nextId ==>
          SecondFactors.IsEnrolment(st, o, id))
    && (forall r :: r in st'.backups && r < st.nextId ==>
          r in st.backups && st.backups[r].owner == st'.backups[r].owner)
  }

  lemma PreservesTransitive(st: Store, st1: Store, st2: Store)
    requires Preserves(st, st1) && Preserves(st1, st2)
    ensures Preserves(st, st2)
  {
  }

  lemma KnownStays(f: Fact, st: Store, st': Store)
    requires Known(f, st) && Preserves(st, st')
    ensures Known(f, st')
  {
  }

  lemma {:induction false} InsertPreserves(st: Store, owner: Uuid, hashes: seq<string>)
    requires SecondFactors.IdsBelow(st)
    ensures Preserves(st, SecondFactors.InsertBackups(st, owner, hashes))
    decreases |hashes|
  {
    if hashes != [] {
      var row := SecondFactors.BackupRow(owner, hashes[0], false);
      var st1 := st.(nextId := st.nextId + 1, backups := st.backups[st.nextId := row]);
      assert Preserves(st, st1);
      InsertPreserves(st1, owner, hashes[1..]);
      PreservesTransitive(st, st1, SecondFactors.InsertBackups(st1, owner, hashes[1..]));
    }
  }

  lemma ReplacePreserves(st: Store, owner: Uuid, hashes: seq<string>)
    requires SecondFactors.IdsBelow(st)
    ensures Preserves(st, SecondFactors.ReplaceBackups(st, owner, hashes))
  {
    var swept := SecondFactors.DeleteBackups(st, owner);
    SecondFactors.DeleteBackupsKeeps(st, owner);
    InsertPreserves(swept, owner, hashes);
    PreservesTransitive(st, swept, SecondFactors.InsertBackups(swept, owner, hashes));
  }

  lemma ClaimPreserves(st: Store, owner: Uuid, id: Uuid, step: int)
    requires SecondFactors.IdsBelow(st)
    ensures Preserves(st, SecondFactors.ClaimStep(st, owner, id, step))
  {
    SecondFactors.ClaimKeeps(st, owner, id, step);
  }

  lemma ConsumePreserves(st: Store, owner: Uuid, hash: string)
    requires SecondFactors.IdsBelow(st)
    ensures Preserves(st, SecondFactors.ConsumeBackup(st, owner, hash))
  {
    SecondFactors.ConsumeKeeps(st, owner, hash);
  }

  /** A code just accepted is known to the store and comes after every code known before. */
  ghost predicate Newest(st: Store, identity: Uuid, a: Acceptance) {
    && Preserves(st, a.store) && Known(FactorAccepted(identity, a.accepted), a.store)
    && forall g :: SecondFactors.Remembered(g, st) ==> SecondFactors.Ordered(g, a.accepted)
  }

  lemma ClaimIsNewest(st: Store, owner: Uuid, code: string, now: Time, cfg: Config)
    requires SecondFactors.IdsBelow(st) && owner in st.enrolments
    requires ClaimCode(st, owner, st.enrolments[owner], code, now, cfg).Success?
    ensures Newest(st, owner, ClaimCode(st, owner, st.enrolments[owner], code, now, cfg).value)
  {
    var e := st.enrolments[owner];
    var step := SecondFactors.MatchStep(cfg.shows(e.secret), code, now).value;
    SecondFactors.MatchIsEarliest(cfg.shows(e.secret), code, now);
    ClaimPreserves(st, owner, e.id, step);
  }

  lemma VerifiedIsNewest(st: Store, owner: Uuid, option: MfaOption, code: string, now: Time, cfg: Config)
    requires SecondFactors.IdsBelow(st) && VerifyFactor(st, owner, option, code, now, cfg).Success?
    ensures Newest(st, owner, VerifyFactor(st, owner, option, code, now, cfg).value)
  {
    hide ClaimCode;
    if option.Totp? {
      ClaimIsNewest(st, owner, code, now, cfg);
    } else {
      ConsumePreserves(st, owner, cfg.backupHash(code));
    }
  }

  // ── Moves ────────────────────────────────────────────────────────────────

  lemma AppendKeeps(s: State, s': State, fact: Fact)
    requires Inv(s) && s'.log == s.log + [fact] && Preserves(s.db.factors, s'.db.factors)
    requires Known(fact, s'.db.factors) && forall f :: f in s.log ==> Ordered(f, fact)
    requires fact.ChallengeSpent? ==> EndsInFactor(s.log, fact.challenge.identity, fact.at)
    ensures Inv(s')
  {
    forall f | f in s.log ensures Known(f, s'.db.factors) {
      KnownStays(f, s.db.factors, s'.db.factors);
    }
    forall q: nat | q < |s'.log| && s'.log[q].ChallengeSpent?
      ensures EndsInFactor(s'.log[..q], s'.log[q].challenge.identity, s'.log[q].at)
    {
      assert s'.log[..q] == s.log[..q];
    }
    assert AllOrdered(s'.log);
  }

  lemma SamePreserves(st: Store)
    requires SecondFactors.IdsBelow(st)
    ensures Preserves(st, st)
  {
  }

  /** A fact that accepts no code is appended. */
  lemma TellKeeps(s: State, s': State, fact: Fact)
    requires Inv(s) && s'.log == s.log + [fact] && s'.db.factors == s.db.factors && !fact.FactorAccepted?
    requires fact.ChallengeSpent? ==> EndsInFactor(s.log, fact.challenge.identity, fact.at)
    ensures Inv(s')
  {
    SamePreserves(s.db.factors);
    AppendKeeps(s, s', fact);
  }

  lemma StoreKeeps(s: State, s': State)
    requires Inv(s) && s'.log == s.log && Preserves(s.db.factors, s'.db.factors)
    ensures Inv(s')
  {
    forall f | f in s.log ensures Known(f, s'.db.factors) {
      KnownStays(f, s.db.factors, s'.db.factors);
    }
  }

  /** A newly accepted code is appended, perhaps with further changes to the store. */
  lemma AcceptKeeps(s: State, s': State, identity: Uuid, a: Acceptance)
    requires Inv(s) && Newest(s.db.factors, identity, a) && Preserves(a.store, s'.db.factors)
    requires s'.log == s.log + [FactorAccepted(identity, a.accepted)]
    ensures Inv(s')
  {
    var fact := FactorAccepted(identity, a.accepted);
    PreservesTransitive(s.db.factors, a.store, s'.db.factors);
    KnownStays(fact, a.store, s'.db.factors);
    forall f | f in s.log ensures Ordered(f, fact) {
      assert Known(f, s.db.factors);
    }
    AppendKeeps(s, s', fact);
  }

  lemma ConfirmKeeps(s: State, owner: Uuid, code: string, hashes: seq<string>, cfg: Config)
    requires Inv(s)
    ensures Inv(ManageFactor(s, owner, ConfirmEnrolment(code, hashes), cfg).0)
  {
    hide ClaimCode, Inv;
    var st := s.db.factors;
    var s' := ManageFactor(s, owner, ConfirmEnrolment(code, hashes), cfg).0;
    if owner in st.enrolments && !st.enrolments[owner].verified {
      var verdict := ClaimCode(st, owner, st.enrolments[owner], code, s.now, cfg);
      if verdict.Success? {
        InvMeans(s);
        ClaimIsNewest(st, owner, code, s.now, cfg);
        var id := st.enrolments[owner].id;
        VerifyPreserves(verdict.value.store, owner, id);
        var verified := SecondFactors.MarkVerified(verdict.value.store, owner, id);
        ReplacePreserves(verified, owner, hashes);
        PreservesTransitive(verdict.value.store, verified, SecondFactors.ReplaceBackups(verified, owner, hashes));
        AcceptKeeps(s, s', owner, verdict.value);
      }
    }
  }

  lemma InvMeans(s: State)
    requires Inv(s)
    ensures SecondFactors.IdsBelow(s.db.factors)
  {
  }

  lemma VerifyPreserves(st: Store, owner: Uuid, id: Uuid)
    requires SecondFactors.IdsBelow(st)
    ensures Preserves(st, SecondFactors.MarkVerified(st, owner, id))
  {
    SecondFactors.VerifyKeeps(st, owner, id);
  }

  lemma DeletePreserves(st: Store, owner: Uuid, id: Uuid)
    requires SecondFactors.IdsBelow(st)
    ensures Preserves(st, SecondFactors.DeleteBackups(SecondFactors.DeleteEnrolment(st, owner, id), owner))
  {
    var removed := SecondFactors.DeleteEnrolment(st, owner, id);
    SecondFactors.DeleteKeeps(st, owner, id);
    assert Preserves(st, removed);
    SecondFactors.DeleteBackupsKeeps(removed, owner);
    assert Preserves(removed, SecondFactors.DeleteBackups(removed, owner));
    PreservesTransitive(st, removed, SecondFactors.DeleteBackups(removed, owner));
  }

  lemma CreatePreserves(st: Store, owner: Uuid, secret: Uuid)
    requires SecondFactors.IdsBelow(st)
    ensures Preserves(st, SecondFactors.CreateEnrolment(st, owner, secret))
  {
    SecondFactors.CreateKeeps(st, owner, secret);
  }

  lemma ManageKeeps(s: State, owner: Uuid, op: FactorOp, cfg: Config)
    requires Inv(s)
    ensures Inv(ManageFactor(s, owner, op, cfg).0)
  {
    hide Inv;
    InvMeans(s);
    var st := s.db.factors;
    var s' := ManageFactor(s, owner, op, cfg).0;
    SamePreserves(st);
    match op
    case ConfirmEnrolment(code, hashes) => ConfirmKeeps(s, owner, code, hashes, cfg);
    case StartEnrolment(secret) =>
      CreatePreserves(st, owner, secret);
      if s'.log == s.log {
        StoreKeeps(s, s');
      } else {
        AppendKeeps(s, s', FactorEnrolled(owner, st.nextId, secret));
      }
    case RemoveEnrolment(id) =>
      DeletePreserves(st, owner, id);
      StoreKeeps(s, s');
    case RegenerateCodes(hashes) =>
      ReplacePreserves(st, owner, hashes);
      StoreKeeps(s, s');
  }

  lemma MoveKeeps(s: State, m: Move)
    requires Inv(s) && Enabled(s, m)
    ensures Inv(Apply(s, m))
  {
    hide ManageFactor, VerifyFactor, Inv;
    InvMeans(s);
    SamePreserves(s.db.factors);
    var s' := Apply(s, m);
    match m
    case Quiet(to) =>
      if to.log == s.log {
        StoreKeeps(s, to);
      } else {
        assert to.log == s.log + [to.log[|s.log|]];
        TellKeeps(s, to, to.log[|s.log|]);
      }
    case Evaluate(_, jti, cfg) =>
      var counted := CountAttempt(s, jti, cfg);
      TellKeeps(s, counted, AttemptCounted(jti, s.now, s.now + cfg.mfaLifetime));
      TellKeeps(counted, s', CodeEvaluated(jti));
    case Accept(identity, option, code, cfg) =>
      var a := VerifyFactor(s.db.factors, identity, option, code, s.now, cfg).value;
      VerifiedIsNewest(s.db.factors, identity, option, code, s.now, cfg);
      SamePreserves(a.store);
      AcceptKeeps(s, s', identity, a);
    case OfferReset(_, _, _, _) => StoreKeeps(s, s');
    case Manage(identity, op, cfg) => ManageKeeps(s, identity, op, cfg);
    case _ => TellKeeps(s, s', s'.log[|s.log|]);
  }

  lemma {:induction false} PathKeeps(s: State, moves: seq<Move>, s': State)
    requires Inv(s) && Leads(s, moves, s')
    ensures Inv(s')
    decreases |moves|
  {
    hide Enabled, Apply, Inv;
    if moves != [] {
      MoveKeeps(s, moves[0]);
      PathKeeps(Apply(s, moves[0]), moves[1..], s');
    }
  }

  lemma {:induction false} RunKeeps(s: State, reqs: seq<Request>)
    requires Inv(s)
    ensures Inv(Run(s, reqs))
    decreases reqs
  {
    hide Inv;
    if reqs != [] {
      var moves := PathOf(s, reqs[0]);
      PathKeeps(s, moves, Handle(s, reqs[0]).0);
      RunKeeps(Handle(s, reqs[0]).0, reqs[1..]);
    }
  }

  // ── The theorems ─────────────────────────────────────────────────────────

  /** In every run, accepted TOTP steps of one enrolment increase and no backup row is accepted twice. */
  lemma AcceptancesAreOrdered(s: State, reqs: seq<Request>, i: nat, j: nat)
    requires IsInitial(s)
    requires var log := Run(s, reqs).log; i < j < |log| && log[i].FactorAccepted? && log[j].FactorAccepted?
    ensures var f, g := Run(s, reqs).log[i].accepted, Run(s, reqs).log[j].accepted;
            && (f.TotpAccepted? && g.TotpAccepted? && f.id == g.id ==> f.step < g.step)
            && (f.BackupAccepted? && g.BackupAccepted? ==> f.rows !! g.rows)
  {
    RunKeeps(s, reqs);
    assert Ordered(Run(s, reqs).log[i], Run(s, reqs).log[j]);
  }

  // ── Whose secret it was ──────────────────────────────────────────────────

  /** What authenticators show, where that is the same throughout. */
  type Display = Option<Uuid -> SecondFactors.Authenticator>

  ghost predicate IsShown(shows: Display, secret: Uuid, step: int, code: string) {
    shows.Some? ==> shows.value(secret)(step) == code
  }

  /** A TOTP code is what the secret of an earlier enrolment of the identity showed. */
  ghost predicate Witnessed(f: Fact, log: seq<Fact>, shows: Display) {
    f.FactorAccepted? && f.accepted.TotpAccepted? ==>
      && FactorEnrolled(f.identity, f.accepted.id, f.accepted.secret) in log
      && IsShown(shows, f.accepted.secret, f.accepted.step, f.accepted.code)
  }

  ghost predicate AllWitnessed(log: seq<Fact>, shows: Display) {
    forall q: nat :: q < |log| ==> Witnessed(log[q], log[..q], shows)
  }

  /** Every enrolment is on record. */
  ghost predicate Enrolments(st: Store, log: seq<Fact>) {
    forall o :: o in st.enrolments ==> FactorEnrolled(o, st.enrolments[o].id, st.enrolments[o].secret) in log
  }

  ghost predicate Shown(s: State, shows: Display) {
    AllWitnessed(s.log, shows) && Enrolments(s.db.factors, s.log)
  }

  /** No enrolment appears and none changes its id or secret. */
  ghost predicate SameSecrets(st: Store, st': Store) {
    forall o :: o in st'.enrolments ==>
      && o in st.enrolments && st'.enrolments[o].id == st.enrolments[o].id
      && st'.enrolments[o].secret == st.enrolments[o].secret
  }

  lemma {:induction false} InsertKeepsEnrolments(st: Store, owner: Uuid, hashes: seq<string>)
    ensures SecondFactors.InsertBackups(st, owner, hashes).enrolments == st.enrolments
    decreases |hashes|
  {
    if hashes != [] {
      var row := SecondFactors.BackupRow(owner, hashes[0], false);
      InsertKeepsEnrolments(st.(nextId := st.nextId + 1, backups := st.backups[st.nextId := row]), owner, hashes[1..]);
    }
  }

  lemma AppendShown(s: State, s': State, fact: Fact, shows: Display)
    requires Shown(s, shows) && s'.log == s.log + [fact] && Witnessed(fact, s.log, shows)
    requires Enrolments(s'.db.factors, s'.log)
    ensures Shown(s', shows)
  {
    forall q: nat | q < |s'.log| ensures Witnessed(s'.log[q], s'.log[..q], shows) {
      if q < |s.log| {
        assert Witnessed(s.log[q], s.log[..q], shows) && s'.log[..q] == s.log[..q];
      } else {
        assert s'.log[..q] == s.log;
      }
    }
  }

  lemma VerifiedIsShown(st: Store, owner: Uuid, option: MfaOption, code: string, now: Time, cfg: Config, log: seq<Fact>)
    requires Enrolments(st, log) && VerifyFactor(st, owner, option, code, now, cfg).Success?
    ensures var a := VerifyFactor(st, owner, option, code, now, cfg).value;
            Witnessed(FactorAccepted(owner, a.accepted), log, Some(cfg.shows)) && SameSecrets(st, a.store)
  {
    if option.Totp? {
      SecondFactors.MatchIsEarliest(cfg.shows(st.enrolments[owner].secret), code, now);
    }
  }

  /** The configuration's authenticators are those. */
  ghost predicate Agrees(cfg: Config, shows: Display) { shows.Some? ==> cfg.shows == shows.value }

  lemma ConfirmShown(s: State, owner: Uuid, code: string, hashes: seq<string>, cfg: Config, shows: Display)
    requires Shown(s, shows) && Agrees(cfg, shows)
    ensures Shown(ManageFactor(s, owner, ConfirmEnrolment(code, hashes), cfg).0, shows)
  {
    var st := s.db.factors;
    var s' := ManageFactor(s, owner, ConfirmEnrolment(code, hashes), cfg).0;
    if owner in st.enrolments && !st.enrolments[owner].verified {
      var e := st.enrolments[owner];
      var verdict := ClaimCode(st, owner, e, code, s.now, cfg);
      SecondFactors.MatchIsEarliest(cfg.shows(e.secret), code, s.now);
      if verdict.Success? {
        var verified := SecondFactors.MarkVerified(verdict.value.store, owner, e.id);
        InsertKeepsEnrolments(SecondFactors.DeleteBackups(verified, owner), owner, hashes);
        AppendShown(s, s', FactorAccepted(owner, verdict.value.accepted), shows);
      }
    }
  }

  lemma ManageShown(s: State, owner: Uuid, op: FactorOp, cfg: Config, shows: Display)
    requires Shown(s, shows) && Agrees(cfg, shows)
    ensures Shown(ManageFactor(s, owner, op, cfg).0, shows)
  {
    var st := s.db.factors;
    var s' := ManageFactor(s, owner, op, cfg).0;
    match op
    case StartEnrolment(secret) =>
      if s'.log != s.log {
        AppendShown(s, s', FactorEnrolled(owner, st.nextId, secret), shows);
      }
    case ConfirmEnrolment(code, hashes) => ConfirmShown(s, owner, code, hashes, cfg, shows);
    case RemoveEnrolment(id) =>
    case RegenerateCodes(hashes) =>
      InsertKeepsEnrolments(SecondFactors.DeleteBackups(st, owner), owner, hashes);
  }

  lemma MoveShown(s: State, m: Move, shows: Display)
    requires Shown(s, shows) && Enabled(s, m) && (m.Accept? || m.Manage? ==> Agrees(m.cfg, shows))
    ensures Shown(Apply(s, m), shows)
  {
    hide ManageFactor, VerifyFactor, AllWitnessed;
    var s' := Apply(s, m);
    match m
    case Quiet(to) =>
      if to.log != s.log {
        assert to.log == s.log + [to.log[|s.log|]];
        AppendShown(s, to, to.log[|s.log|], shows);
      }
    case Evaluate(_, jti, cfg) =>
      var counted := CountAttempt(s, jti, cfg);
      AppendShown(s, counted, AttemptCounted(jti, s.now, s.now + cfg.mfaLifetime), shows);
      AppendShown(counted, s', CodeEvaluated(jti), shows);
    case Accept(identity, option, code, cfg) =>
      var a := VerifyFactor(s.db.factors, identity, option, code, s.now, cfg).value;
      VerifiedIsShown(s.db.factors, identity, option, code, s.now, cfg, s.log);
      AppendShown(s, s', FactorAccepted(identity, a.accepted), shows);
    case OfferReset(_, _, _, _) =>
    case Manage(identity, op, cfg) => ManageShown(s, identity, op, cfg, shows);
    case _ => AppendShown(s, s', s'.log[|s.log|], shows);
  }

  lemma {:induction false} PathShown(s: State, moves: seq<Move>, s': State, cfg: Option<Config>,
                                     shows: Display)
    requires Shown(s, shows) && Leads(s, moves, s') && AllUse(moves, cfg) && (cfg.Some? ==> Agrees(cfg.value, shows))
    ensures Shown(s', shows)
    decreases |moves|
  {
    hide Enabled, Apply, Shown;
    if moves != [] {
      assert Uses(moves[0], cfg);
      MoveShown(s, moves[0], shows);
      PathShown(Apply(s, moves[0]), moves[1..], s', cfg, shows);
    }
  }

  /** If a display is given, authenticators show it throughout the run. */
  ghost predicate AllShow(reqs: seq<Request>, shows: Display) {
    forall i :: 0 <= i < |reqs| ==> VerifierOf(reqs[i]).Some? ==> Agrees(VerifierOf(reqs[i]).value, shows)
  }

  lemma {:induction false} RunShown(s: State, reqs: seq<Request>, shows: Display)
    requires Shown(s, shows) && AllShow(reqs, shows)
    ensures Shown(Run(s, reqs), shows)
    decreases reqs
  {
    hide Shown;
    if reqs != [] {
      var moves := PathOf(s, reqs[0]);
      PathShown(s, moves, Handle(s, reqs[0]).0, VerifierOf(reqs[0]), shows);
      RunShown(Handle(s, reqs[0]).0, reqs[1..], shows);
    }
  }

  // ── What "mfa" rests on ──────────────────────────────────────────────────

  /**
   The code accepted at `q` before the mint at `k` was the token's own identity's. A
   TOTP code belonged to the time of login and was what the secret of an earlier
   enrolment of that identity showed; a backup code's rows, as far as they are
   still stored, are that identity's and used.
   */
  ghost predicate RestsOn(s: State, k: nat, q: nat, shows: Display) {
    && q < k < |s.log| && s.log[k].Minted? && s.log[q].FactorAccepted?
    && s.log[k].mint.identity == Some(s.log[q].identity) && s.log[k].mint.auth.Some?
    && match s.log[q].accepted
       case TotpAccepted(id, secret, code, step, _, at, _) =>
         && at == s.log[k].mint.auth.value.time && 30 * (step - 1) <= at < 30 * (step + 2)
         && FactorEnrolled(s.log[q].identity, id, secret) in s.log[..q] && IsShown(shows, secret, step, code)
       case BackupAccepted(rows) =>
         && rows != {}
         && forall r :: r in rows && r in s.db.factors.backups ==>
              s.db.factors.backups[r].owner == s.log[q].identity && s.db.factors.backups[r].used
  }

  /** "mfa" in a token's `amr` means an accepted TOTP code, or consumed backup rows, of its identity. */
  lemma MfaRestsOnAFactor(s: State, reqs: seq<Request>, k: nat, shows: Display)
    requires IsInitial(s) && AllShow(reqs, shows)
    requires var log := Run(s, reqs).log;
             && k < |log| && log[k].Minted? && log[k].mint.identity.Some? && log[k].mint.auth.Some?
             && "mfa" in log[k].mint.auth.value.amr
    ensures exists q: nat :: RestsOn(Run(s, reqs), k, q, shows)
  {
    hide Run, Inv, Shown, Provenance.Inv, Provenance.Grounded;
    var s' := Run(s, reqs);
    InitialInv(s, shows);
    RunKeeps(s, reqs);
    RunShown(s, reqs, shows);
    Provenance.TokenProvenance(s, reqs, k);
    var root: nat, c: nat, o: nat :| Provenance.Grounded(s'.log, k, root, c, o);
    Provenance.RunKeeps(s, reqs);
    GroundedRests(s', k, root, c, o, shows);
  }

  lemma GroundedRests(s: State, k: nat, root: nat, c: nat, o: nat, shows: Display)
    requires Inv(s) && Shown(s, shows) && Provenance.Inv(s) && Provenance.Grounded(s.log, k, root, c, o)
    requires "mfa" in s.log[k].mint.auth.value.amr
    ensures 2 <= o && RestsOn(s, k, o - 2, shows)
  {
    hide Provenance.PasswordBehind, Scopes.Subsequence;
    Provenance.SoundAt(s.log, o);
    assert s.log[..o][o - 1] == s.log[o - 1];
    assert EndsInFactor(s.log[..o - 1], s.log[o - 1].challenge.identity, s.log[o - 1].at);
    assert s.log[..o - 1][o - 2] == s.log[o - 2];
    assert Known(s.log[o - 2], s.db.factors);
    assert Witnessed(s.log[o - 2], s.log[..o - 2], shows);
  }

  lemma InitialInv(s: State, shows: Display)
    requires IsInitial(s)
    ensures Inv(s) && Shown(s, shows)
  {
  }
}
