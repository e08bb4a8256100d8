/**
 What managing one's second factor and the scheduled job write, column by column: who
 may enrol, what confirming a code leaves behind, and which rows removal and pruning
 delete.
 */
module Enrolment {
  import opened Wrappers
  import opened Credentials
  import opened Logins
  import SecondFactors

  /** Only the factor store and the history change. */
  ghost predicate OnlyFactors(s: State, s': State) {
    s' == s.(db := s.db.(factors := s'.db.factors), log := s'.log)
  }

  // ── Starting ─────────────────────────────────────────────────────────────

  /** A new enrolment replaces an unverified one, starts unverified and unused, and leaves a verified one alone. */
  lemma StartedExactly(s: State, owner: Uuid, secret: Uuid, cfg: Config)
    ensures var (s', outcome) := Handle(s, DoManageFactor(owner, StartEnrolment(secret), cfg));
            if HasFactor(s, owner) then s' == s && outcome == Refused(MfaAlreadyEnrolled)
            else
              var st := s.db.factors;
              && outcome == Done && OnlyFactors(s, s')
              && s'.log == s.log + [FactorEnrolled(owner, st.nextId, secret)]
              && s'.db.factors.enrolments
                 == st.enrolments[owner := SecondFactors.Enrolment(st.nextId, secret, false, None)]
              && s'.db.factors.backups == st.backups && s'.db.factors.nextId == st.nextId + 1
  {
  }

  // ── Backup codes ─────────────────────────────────────────────────────────

  /** The owner has one unused row for each hash and no other; other owners' rows are as they were. */
  ghost predicate HasCodes(before: SecondFactors.Store, after: SecondFactors.Store, owner: Uuid, hashes: seq<string>) {
    && (forall r :: r in after.backups <==>
          || before.nextId <= r < before.nextId + |hashes|
          || (r in before.backups && before.backups[r].owner != owner))
    && (forall r :: r in after.backups ==>
          after.backups[r] == if before.nextId <= r < before.nextId + |hashes|
                              then SecondFactors.BackupRow(owner, hashes[r - before.nextId], false)
                              else before.backups[r])
  }

  lemma {:induction false} InsertedExactly(st: SecondFactors.Store, owner: Uuid, hashes: seq<string>)
    ensures var st', n := SecondFactors.InsertBackups(st, owner, hashes), st.nextId;
            && st'.enrolments == st.enrolments && st'.nextId == n + |hashes|
            && (forall r :: r in st'.backups <==> n <= r < n + |hashes| || r in st.backups)
            && (forall r :: r in st'.backups ==>
                  st'.backups[r] == if n <= r < n + |hashes|
                                    then SecondFactors.BackupRow(owner, hashes[r - n], false) else st.backups[r])
    decreases |hashes|
  {
    if hashes != [] {
      var row := SecondFactors.BackupRow(owner, hashes[0], false);
      InsertedExactly(st.(nextId := st.nextId + 1, backups := st.backups[st.nextId := row]), owner, hashes[1..]);
    }
  }

  lemma ReplacedExactly(st: SecondFactors.Store, owner: Uuid, hashes: seq<string>)
    ensures var st' := SecondFactors.ReplaceBackups(st, owner, hashes);
            HasCodes(st, st', owner, hashes) && st'.enrolments == st.enrolments && st'.nextId == st.nextId + |hashes|
  {
    InsertedExactly(SecondFactors.DeleteBackups(st, owner), owner, hashes);
  }

  // ── Confirming ───────────────────────────────────────────────────────────

  /** The enrolment exists, is not verified yet, and accepts the code. */
  ghost predicate MayConfirm(s: State, owner: Uuid, code: string, cfg: Config) {
    && owner in s.db.factors.enrolments && !s.db.factors.enrolments[owner].verified
    && exists k :: FitsStep(s, owner, code, cfg, k)
  }

  /** The enrolment is verified and its step used. */
  ghost predicate Confirms(s: State, st: SecondFactors.Store, owner: Uuid, code: string, cfg: Config)
    requires owner in s.db.factors.enrolments
  {
    exists k ::
      && FitsStep(s, owner, code, cfg, k)
      && st.enrolments == s.db.factors.enrolments[
           owner := s.db.factors.enrolments[owner].(verified := true, lastUsed := Some(k))]
  }

  /**
   A code confirms exactly an unverified enrolment that accepts it: the enrolment is then
   verified, the step used, and the owner's backup codes are exactly the new ones.
   */
  lemma ConfirmedExactly(s: State, owner: Uuid, code: string, hashes: seq<string>, cfg: Config)
    ensures var (s', outcome) := Handle(s, DoManageFactor(owner, ConfirmEnrolment(code, hashes), cfg));
            && OnlyFactors(s, s') && (outcome.Done? <==> MayConfirm(s, owner, code, cfg))
            && (outcome.Done? ==>
                  && Confirms(s, s'.db.factors, owner, code, cfg)
                  && HasCodes(s.db.factors, s'.db.factors, owner, hashes))
            && (!outcome.Done? ==>
                  && s' == s
                  && outcome == Refused(if owner !in s.db.factors.enrolments then MfaNotEnrolled
                                        else if HasFactor(s, owner) then MfaAlreadyEnrolled else InvalidMfaCode))
  {
    if owner in s.db.factors.enrolments && !s.db.factors.enrolments[owner].verified {
      var st, e := s.db.factors, s.db.factors.enrolments[owner];
      var claim := ClaimCode(st, owner, e, code, s.now, cfg);
      ClaimedExactly(s, owner, code, cfg);
      if claim.Success? {
        var k :| FitsStep(s, owner, code, cfg, k)
                 && claim.value.store == st.(enrolments := st.enrolments[owner := e.(lastUsed := Some(k))]);
        var verified := SecondFactors.MarkVerified(claim.value.store, owner, e.id);
        assert verified.enrolments == st.enrolments[owner := e.(verified := true, lastUsed := Some(k))];
        ReplacedExactly(verified, owner, hashes);
        SameCodes(st, verified, SecondFactors.ReplaceBackups(verified, owner, hashes), owner, hashes);
        hide SecondFactors.ReplaceBackups, SecondFactors.MarkVerified, HasCodes, FitsStep;
      }
    }
    hide ClaimCode;
  }

  lemma SameCodes(st: SecondFactors.Store, st1: SecondFactors.Store, st': SecondFactors.Store, owner: Uuid,
                  hashes: seq<string>)
    requires st1.backups == st.backups && st1.nextId == st.nextId
    ensures HasCodes(st1, st', owner, hashes) ==> HasCodes(st, st', owner, hashes)
  {
  }

  // ── Removing and regenerating ────────────────────────────────────────────

  /** Removal needs the enrolment's own identifier, and takes it and its owner's backup codes, nobody else's. */
  lemma RemovedExactly(s: State, owner: Uuid, enrolment: Uuid, cfg: Config)
    ensures var (s', outcome) := Handle(s, DoManageFactor(owner, RemoveEnrolment(enrolment), cfg));
            var st := s.db.factors;
            if owner in st.enrolments && st.enrolments[owner].id == enrolment
            then && outcome == Done && OnlyFactors(s, s') && s'.log == s.log
                 && s'.db.factors.enrolments == st.enrolments - {owner}
                 && HasCodes(st, s'.db.factors, owner, [])
            else s' == s && outcome == Refused(NotFound)
  {
  }

  /** New codes replace the old ones exactly while a factor is verified. */
  lemma RegeneratedExactly(s: State, owner: Uuid, hashes: seq<string>, cfg: Config)
    ensures var (s', outcome) := Handle(s, DoManageFactor(owner, RegenerateCodes(hashes), cfg));
            var st := s.db.factors;
            if HasFactor(s, owner)
            then && outcome == Done && OnlyFactors(s, s') && s'.log == s.log
                 && s'.db.factors.enrolments == st.enrolments && HasCodes(st, s'.db.factors, owner, hashes)
            else s' == s && outcome == Refused(MfaNotEnrolled)
  {
    ReplacedExactly(s.db.factors, owner, hashes);
    hide SecondFactors.ReplaceBackups, HasCodes;
  }

  // ── The scheduled job ────────────────────────────────────────────────────

  /** The job deletes exactly the expired and the revoked refresh rows. */
  lemma PrunedExactly(s: State)
    ensures var s' := Handle(s, Prune).0;
            && s' == s.(db := s.db.(refresh := s'.db.refresh))
            && (forall t :: t in s'.db.refresh <==>
                  t in s.db.refresh && s.now <= s.db.refresh[t].expiresAt && !s.db.refresh[t].revoked)
            && forall t :: t in s'.db.refresh ==> s'.db.refresh[t] == s.db.refresh[t]
  {
  }
}
