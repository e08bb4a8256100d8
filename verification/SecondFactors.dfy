/**
 TOTP codes and backup codes under any interleaving of store operations. Each
 request runs as a task whose every store call is a separate step; between two
 calls of one task any number of steps of other tasks may happen, and the clock
 may move. Only the conditional UPDATEs of the store are atomic.
 */
module SecondFactors {
  import opened Wrappers

  type Uuid = nat
  type Step = int

  const STEP_SECONDS: int := 30
  const SKEW_STEPS: int := 1

  // ── Matching a code (section 5.2 of RFC 6238) ────────────────────────────

  /** The steps whose codes are acceptable at time `at`. */
  predicate InWindow(k: Step, at: int) {
    0 <= k && STEP_SECONDS * (k - 1) <= at < STEP_SECONDS * (k + 2)
  }

  /** The code that a secret shows in each step. */
  type Authenticator = Step -> string

  ghost predicate IsEarliestMatch(r: Option<Step>, shows: Authenticator, code: string, at: int) {
    match r
    case None => forall k :: InWindow(k, at) ==> shows(k) != code
    case Some(k) => InWindow(k, at) && shows(k) == code && forall j :: InWindow(j, at) && j < k ==> shows(j) != code
  }

  /** `offset` steps away from `at`, when that is not before the epoch. */
  function StepAt(at: int, offset: int): Option<Step> {
    var t := at + offset * STEP_SECONDS;
    if t < 0 then None else Some(t / STEP_SECONDS)
  }

  function MatchFrom(shows: Authenticator, code: string, at: int, offset: int): Option<Step>
    decreases SKEW_STEPS + 1 - offset
  {
    if offset > SKEW_STEPS then None
    else
      var k := StepAt(at, offset);
      if k.Some? && shows(k.value) == code then k else MatchFrom(shows, code, at, offset + 1)
  }

  function MatchStep(shows: Authenticator, code: string, at: int): Option<Step> {
    MatchFrom(shows, code, at, -SKEW_STEPS)
  }

  lemma StepAtInWindow(at: int, offset: int)
    requires -SKEW_STEPS <= offset <= SKEW_STEPS && StepAt(at, offset).Some?
    ensures InWindow(StepAt(at, offset).value, at)
  {
  }

  lemma WindowIsReached(at: int, k: Step)
    requires InWindow(k, at)
    ensures var offset := k - at / STEP_SECONDS; -SKEW_STEPS <= offset <= SKEW_STEPS && StepAt(at, offset) == Some(k)
  {
  }

  /** Whether the step at this offset shows the code. */
  ghost predicate ShowsAt(shows: Authenticator, code: string, at: int, offset: int) {
    StepAt(at, offset).Some? && shows(StepAt(at, offset).value) == code
  }

  /** The result is the step of the first offset that shows the code. */
  ghost predicate IsFirst(r: Option<Step>, shows: Authenticator, code: string, at: int, offset: int) {
    match r
    case None => forall j :: offset <= j <= SKEW_STEPS ==> !ShowsAt(shows, code, at, j)
    case Some(k) =>
      exists o :: && offset <= o <= SKEW_STEPS && ShowsAt(shows, code, at, o) && StepAt(at, o) == r
                  && forall j :: offset <= j < o ==> !ShowsAt(shows, code, at, j)
  }

  lemma {:induction false} MatchIsFirst(shows: Authenticator, code: string, at: int, offset: int)
    ensures IsFirst(MatchFrom(shows, code, at, offset), shows, code, at, offset)
    decreases SKEW_STEPS + 1 - offset
  {
    hide StepAt;
    if offset <= SKEW_STEPS {
      if ShowsAt(shows, code, at, offset) {
        assert StepAt(at, offset) == MatchFrom(shows, code, at, offset);
      } else {
        MatchIsFirst(shows, code, at, offset + 1);
      }
    }
  }

  /** The match is the earliest step of the window that shows the code, and None exactly when none does. */
  lemma MatchIsEarliest(shows: Authenticator, code: string, at: int)
    ensures IsEarliestMatch(MatchStep(shows, code, at), shows, code, at)
  {
    var r := MatchStep(shows, code, at);
    hide MatchFrom;
    MatchIsFirst(shows, code, at, -SKEW_STEPS);
    forall k | InWindow(k, at)
      ensures StepAt(at, k - at / STEP_SECONDS) == Some(k) && -SKEW_STEPS <= k - at / STEP_SECONDS <= SKEW_STEPS
      ensures shows(k) == code ==> ShowsAt(shows, code, at, k - at / STEP_SECONDS)
    {
      WindowIsReached(at, k);
    }
    if r.Some? {
      var o :| && -SKEW_STEPS <= o <= SKEW_STEPS && ShowsAt(shows, code, at, o) && StepAt(at, o) == r
               && forall j :: -SKEW_STEPS <= j < o ==> !ShowsAt(shows, code, at, j);
      StepAtInWindow(at, o);
    }
  }

  /** The drift loop, with its early return. */
  method MatchedStep(shows: Authenticator, code: string, at: int) returns (r: Option<Step>)
    ensures r == MatchStep(shows, code, at)
    ensures IsEarliestMatch(r, shows, code, at)
  {
    MatchIsEarliest(shows, code, at);
    var offset := -SKEW_STEPS;
    while offset <= SKEW_STEPS
      invariant -SKEW_STEPS <= offset <= SKEW_STEPS + 1
      invariant MatchStep(shows, code, at) == MatchFrom(shows, code, at, offset)
    {
      var t := at + offset * STEP_SECONDS;
      if t >= 0 {
        if shows(t / STEP_SECONDS) == code {
          return Some(t / STEP_SECONDS);
        }
      }
      offset := offset + 1;
    }
    return None;
  }

  // ── The store ────────────────────────────────────────────────────────────

  /** The TOTP enrolment of an identity: a partial unique index allows one. */
  datatype Enrolment = Enrolment(id: Uuid, secret: Uuid, verified: bool, lastUsed: Option<Step>)

  datatype BackupRow = BackupRow(owner: Uuid, hash: string, used: bool)

  datatype Store = Store(nextId: Uuid, enrolments: map<Uuid, Enrolment>, backups: map<Uuid, BackupRow>)

  predicate IsEnrolment(st: Store, owner: Uuid, id: Uuid) {
    owner in st.enrolments && st.enrolments[owner].id == id
  }

  /** Whether the conditional UPDATE of `last_used_step` matches a row. */
  predicate CanClaim(st: Store, owner: Uuid, id: Uuid, step: Step) {
    IsEnrolment(st, owner, id)
    && (st.enrolments[owner].lastUsed.None? || st.enrolments[owner].lastUsed.value < step)
  }

  function ClaimStep(st: Store, owner: Uuid, id: Uuid, step: Step): Store {
    if CanClaim(st, owner, id, step)
    then st.(enrolments := st.enrolments[owner := st.enrolments[owner].(lastUsed := Some(step))])
    else st
  }

  /** The rows that an UPDATE of `used_at` for this code matches. */
  function Redeemable(st: Store, owner: Uuid, hash: string): set<Uuid> {
    set r | r in st.backups && st.backups[r].owner == owner && st.backups[r].hash == hash && !st.backups[r].used
  }

  function ConsumeBackup(st: Store, owner: Uuid, hash: string): Store {
    var rows := Redeemable(st, owner, hash);
    st.(backups := map r | r in st.backups :: if r in rows then st.backups[r].(used := true) else st.backups[r])
  }

  function DeleteBackups(st: Store, owner: Uuid): Store {
    st.(backups := map r | r in st.backups && st.backups[r].owner != owner :: st.backups[r])
  }

  function InsertBackups(st: Store, owner: Uuid, hashes: seq<string>): Store
    decreases |hashes|
  {
    if hashes == [] then st
    else InsertBackups(st.(nextId := st.nextId + 1,
                           backups := st.backups[st.nextId := BackupRow(owner, hashes[0], false)]),
                       owner, hashes[1..])
  }

  function ReplaceBackups(st: Store, owner: Uuid, hashes: seq<string>): Store {
    InsertBackups(DeleteBackups(st, owner), owner, hashes)
  }

  function MarkVerified(st: Store, owner: Uuid, id: Uuid): Store {
    if IsEnrolment(st, owner, id)
    then st.(enrolments := st.enrolments[owner := st.enrolments[owner].(verified := true)])
    else st
  }

  /** Replaces an unverified enrolment; a verified one stays and the insert is refused. */
  function CreateEnrolment(st: Store, owner: Uuid, secret: Uuid): Store {
    if owner in st.enrolments && st.enrolments[owner].verified then st
    else st.(nextId := st.nextId + 1, enrolments := st.enrolments[owner := Enrolment(st.nextId, secret, false, None)])
  }

  function DeleteEnrolment(st: Store, owner: Uuid, id: Uuid): Store {
    if IsEnrolment(st, owner, id) then st.(enrolments := st.enrolments - {owner}) else st
  }

  predicate HasVerified(st: Store, owner: Uuid) {
    owner in st.enrolments && st.enrolments[owner].verified
  }

  // ── Tasks ────────────────────────────────────────────────────────────────

  /** A request and how far it has got; each constructor is the point before one store call. */
  datatype Task =
    /** A code was presented at `begun`. */
    | Fetch(owner: Uuid, code: string, confirming: bool, begun: nat)
    | Match(owner: Uuid, enrolment: Enrolment, code: string, confirming: bool, begun: nat)
    | Claim(owner: Uuid, id: Uuid, secret: Uuid, code: string, step: Step, at: nat, confirming: bool, begun: nat)
    | Verify(owner: Uuid, id: Uuid)
    | Replace(owner: Uuid)
    | Spend(owner: Uuid, hash: string)
    | Enrol(owner: Uuid, secret: Uuid)
    | Delete(owner: Uuid, id: Uuid)
    | Sweep(owner: Uuid)
    | Erase(owner: Uuid)
    | Regenerate(owner: Uuid)
    | Finished(accepted: bool)

  datatype Fact =
    /** Presented at `begun`, matched at `at`, and its step claimed at `claimed`. */
    | TotpAccepted(id: Uuid, secret: Uuid, code: string, step: Step, begun: nat, at: nat, claimed: nat)
    | BackupAccepted(rows: set<Uuid>)

  datatype World = World(now: nat, store: Store, tasks: seq<Task>, log: seq<Fact>)

  /** Where a request may begin. */
  predicate IsEntry(t: Task) {
    t.Fetch? || t.Spend? || t.Enrol? || t.Delete? || t.Regenerate?
  }

  datatype Action =
    | Tick(seconds: nat)
    | Begin(task: Task)
    | Advance(i: nat, codes: seq<string>)

  /** One store call of a task; `codes` are backup-code hashes just generated. */
  function Call(w: World, t: Task, codes: seq<string>, shows: Uuid -> Authenticator): (Store, Task, seq<Fact>) {
    var st := w.store;
    match t
    case Fetch(owner, code, confirming, begun) =>
      if owner in st.enrolments && st.enrolments[owner].verified != confirming
      then (st, Match(owner, st.enrolments[owner], code, confirming, begun), [])
      else (st, Finished(false), [])
    case Match(owner, e, code, confirming, begun) =>
      (match MatchStep(shows(e.secret), code, w.now)
       case None => (st, Finished(false), [])
       case Some(step) => (st, Claim(owner, e.id, e.secret, code, step, w.now, confirming, begun), []))
    case Claim(owner, id, secret, code, step, at, confirming, begun) =>
      if CanClaim(st, owner, id, step)
      then (ClaimStep(st, owner, id, step), if confirming then Verify(owner, id) else Finished(true),
            [TotpAccepted(id, secret, code, step, begun, at, w.now)])
      else (st, Finished(false), [])
    case Verify(owner, id) =>
      (MarkVerified(st, owner, id), if IsEnrolment(st, owner, id) then Replace(owner) else Finished(false), [])
    case Replace(owner) => (ReplaceBackups(st, owner, codes), Finished(true), [])
    case Spend(owner, hash) =>
      var rows := Redeemable(st, owner, hash);
      if rows == {} then (st, Finished(false), [])
      else (ConsumeBackup(st, owner, hash), Finished(true), [BackupAccepted(rows)])
    case Enrol(owner, secret) => (CreateEnrolment(st, owner, secret), Finished(!HasVerified(st, owner)), [])
    case Delete(owner, id) =>
      (DeleteEnrolment(st, owner, id), if IsEnrolment(st, owner, id) then Sweep(owner) else Finished(false), [])
    case Sweep(owner) => (st, if HasVerified(st, owner) then Finished(true) else Erase(owner), [])
    case Erase(owner) => (DeleteBackups(st, owner), Finished(true), [])
    case Regenerate(owner) => (st, if HasVerified(st, owner) then Replace(owner) else Finished(false), [])
    case Finished(_) => (st, t, [])
  }

  function Next(w: World, a: Action, shows: Uuid -> Authenticator): World {
    match a
    case Tick(seconds) => w.(now := w.now + seconds)
    case Begin(task) =>
      if IsEntry(task) && (task.Fetch? ==> task.begun == w.now) then w.(tasks := w.tasks + [task]) else w
    case Advance(i, codes) =>
      if i >= |w.tasks| then w
      else
        var (store, task, facts) := Call(w, w.tasks[i], codes, shows);
        w.(store := store, tasks := w.tasks[i := task], log := w.log + facts)
  }

  function Run(w: World, actions: seq<Action>, shows: Uuid -> Authenticator): World
    decreases actions
  {
    if actions == [] then w else Run(Next(w, actions[0], shows), actions[1..], shows)
  }

  predicate IsInitial(w: World) {
    w.store.enrolments == map[] && w.store.backups == map[] && w.tasks == [] && w.log == []
  }

  // ── The invariant ────────────────────────────────────────────────────────

  ghost predicate IdsBelow(st: Store) {
    && (forall o :: o in st.enrolments ==> st.enrolments[o].id < st.nextId)
    && (forall o, p :: o in st.enrolments && p in st.enrolments && st.enrolments[o].id == st.enrolments[p].id ==>
          o == p)
    && (forall r :: r in st.backups ==> r < st.nextId)
  }

  /** What the store remembers of an accepted code. */
  ghost predicate Remembered(f: Fact, st: Store) {
    match f
    case TotpAccepted(id, _, _, step, _, _, _) =>
      && id < st.nextId
      && (forall o :: IsEnrolment(st, o, id) ==>
            st.enrolments[o].lastUsed.Some? && step <= st.enrolments[o].lastUsed.value)
    case BackupAccepted(rows) =>
      forall r :: r in rows ==> r < st.nextId && (r in st.backups ==> st.backups[r].used)
  }

  /** Two facts that may follow each other, in this order. */
  ghost predicate Ordered(f: Fact, g: Fact) {
    && (f.TotpAccepted? && g.TotpAccepted? && f.id == g.id ==> f.step < g.step)
    && (f.BackupAccepted? && g.BackupAccepted? ==> f.rows !! g.rows)
  }

  ghost predicate Matches(shows: Uuid -> Authenticator, secret: Uuid, code: string, step: Step, at: nat) {
    InWindow(step, at) && shows(secret)(step) == code
  }

  ghost predicate FactMatches(f: Fact, shows: Uuid -> Authenticator, now: nat) {
    f.TotpAccepted? ==> Matches(shows, f.secret, f.code, f.step, f.at) && f.begun <= f.at <= f.claimed <= now
  }

  ghost predicate TaskMatches(t: Task, st: Store, shows: Uuid -> Authenticator, now: nat) {
    && (t.Claim? ==> Matches(shows, t.secret, t.code, t.step, t.at) && t.begun <= t.at <= now && t.id < st.nextId)
    && (t.Match? ==> t.enrolment.id < st.nextId && t.begun <= now)
    && (t.Fetch? ==> t.begun <= now)
  }

  ghost predicate AllOrdered(log: seq<Fact>) {
    forall i, j :: 0 <= i < j < |log| ==> Ordered(log[i], log[j])
  }

  ghost predicate Inv(w: World, shows: Uuid -> Authenticator) {
    && IdsBelow(w.store)
    && AllOrdered(w.log)
    && (forall f :: f in w.log ==> Remembered(f, w.store))
    && (forall f :: f in w.log ==> FactMatches(f, shows, w.now))
    && (forall i :: 0 <= i < |w.tasks| ==> TaskMatches(w.tasks[i], w.store, shows, w.now))
  }

  // ── Each store operation keeps it ────────────────────────────────────────

  /** The store after an operation remembers whatever it remembered before. */
  ghost predicate Keeps(st: Store, st': Store) {
    && IdsBelow(st') && st.nextId <= st'.nextId
    && forall f :: Remembered(f, st) ==> Remembered(f, st')
  }

  lemma ClaimKeeps(st: Store, owner: Uuid, id: Uuid, step: Step)
    requires IdsBelow(st)
    ensures Keeps(st, ClaimStep(st, owner, id, step))
  {
  }

  lemma ConsumeKeeps(st: Store, owner: Uuid, hash: string)
    requires IdsBelow(st)
    ensures Keeps(st, ConsumeBackup(st, owner, hash))
  {
  }

  lemma DeleteBackupsKeeps(st: Store, owner: Uuid)
    requires IdsBelow(st)
    ensures Keeps(st, DeleteBackups(st, owner))
  {
  }

  lemma {:induction false} InsertKeeps(st: Store, owner: Uuid, hashes: seq<string>)
    requires IdsBelow(st)
    ensures Keeps(st, InsertBackups(st, owner, hashes))
    decreases |hashes|
  {
    if hashes != [] {
      var st1 := st.(nextId := st.nextId + 1, backups := st.backups[st.nextId := BackupRow(owner, hashes[0], false)]);
      assert Keeps(st, st1);
      InsertKeeps(st1, owner, hashes[1..]);
    }
  }

  lemma VerifyKeeps(st: Store, owner: Uuid, id: Uuid)
    requires IdsBelow(st)
    ensures Keeps(st, MarkVerified(st, owner, id))
  {
  }

  lemma CreateKeeps(st: Store, owner: Uuid, secret: Uuid)
    requires IdsBelow(st)
    ensures Keeps(st, CreateEnrolment(st, owner, secret))
  {
  }

  lemma DeleteKeeps(st: Store, owner: Uuid, id: Uuid)
    requires IdsBelow(st)
    ensures Keeps(st, DeleteEnrolment(st, owner, id))
  {
  }

  lemma CallKeeps(w: World, t: Task, codes: seq<string>, shows: Uuid -> Authenticator)
    requires IdsBelow(w.store)
    ensures Keeps(w.store, Call(w, t, codes, shows).0)
  {
    match t
    case Claim(owner, id, _, _, step, _, _, _) => ClaimKeeps(w.store, owner, id, step);
    case Verify(owner, id) => VerifyKeeps(w.store, owner, id);
    case Replace(owner) =>
      DeleteBackupsKeeps(w.store, owner);
      InsertKeeps(DeleteBackups(w.store, owner), owner, codes);
    case Spend(owner, hash) => ConsumeKeeps(w.store, owner, hash);
    case Enrol(owner, secret) => CreateKeeps(w.store, owner, secret);
    case Delete(owner, id) => DeleteKeeps(w.store, owner, id);
    case Erase(owner) => DeleteBackupsKeeps(w.store, owner);
    case _ =>
  }

  /** A fact just recorded is remembered, matches, and comes after every earlier fact. */
  lemma CallRecords(w: World, t: Task, codes: seq<string>, shows: Uuid -> Authenticator)
    requires Inv(w, shows) && TaskMatches(t, w.store, shows, w.now)
    ensures var (st, t', facts) := Call(w, t, codes, shows);
            && |facts| <= 1 && TaskMatches(t', st, shows, w.now)
            && forall f :: f in facts ==>
                 Remembered(f, st) && FactMatches(f, shows, w.now) && forall g :: g in w.log ==> Ordered(g, f)
  {
    match t
    case Match(_, e, code, _, _) => MatchIsEarliest(shows(e.secret), code, w.now);
    case _ =>
  }

  lemma AppendOrdered(log: seq<Fact>, facts: seq<Fact>)
    requires AllOrdered(log) && |facts| <= 1
    requires forall f, g :: f in facts && g in log ==> Ordered(g, f)
    ensures AllOrdered(log + facts)
  {
  }

  lemma StepKeeps(w: World, a: Action, shows: Uuid -> Authenticator)
    requires Inv(w, shows)
    ensures Inv(Next(w, a, shows), shows)
  {
    if a.Advance? && a.i < |w.tasks| {
      CallKeeps(w, w.tasks[a.i], a.codes, shows);
      CallRecords(w, w.tasks[a.i], a.codes, shows);
      AppendOrdered(w.log, Call(w, w.tasks[a.i], a.codes, shows).2);
    }
  }

  lemma {:induction false} RunKeeps(w: World, actions: seq<Action>, shows: Uuid -> Authenticator)
    requires Inv(w, shows)
    ensures Inv(Run(w, actions, shows), shows)
    decreases actions
  {
    if actions != [] {
      StepKeeps(w, actions[0], shows);
      RunKeeps(Next(w, actions[0], shows), actions[1..], shows);
    }
  }

  // ── The theorems ─────────────────────────────────────────────────────────

  /** Under any interleaving, the steps accepted for one enrolment strictly increase, its confirmation included. */
  lemma AcceptedStepsIncrease(w: World, actions: seq<Action>, shows: Uuid -> Authenticator, i: nat, j: nat)
    requires IsInitial(w)
    requires var log := Run(w, actions, shows).log;
             i < j < |log| && log[i].TotpAccepted? && log[j].TotpAccepted? && log[i].id == log[j].id
    ensures Run(w, actions, shows).log[i].step < Run(w, actions, shows).log[j].step
  {
    RunKeeps(w, actions, shows);
    var log := Run(w, actions, shows).log;
    assert Ordered(log[i], log[j]);
  }

  /**
   A step-k code is accepted only if it was matched at a time in [30(k-1), 30(k+2)),
   having been presented no later and its step being claimed no earlier.
   */
  lemma AcceptedInWindow(w: World, actions: seq<Action>, shows: Uuid -> Authenticator, i: nat)
    requires IsInitial(w)
    requires i < |Run(w, actions, shows).log| && Run(w, actions, shows).log[i].TotpAccepted?
    ensures var f := Run(w, actions, shows).log[i];
            && 30 * (f.step - 1) <= f.at < 30 * (f.step + 2) && shows(f.secret)(f.step) == f.code
            && f.begun <= f.at <= f.claimed <= Run(w, actions, shows).now
  {
    RunKeeps(w, actions, shows);
    assert Run(w, actions, shows).log[i] in Run(w, actions, shows).log;
  }

  /** Under any interleaving, each backup-code row is consumed at most once. */
  lemma BackupRowsAreSingleUse(w: World, actions: seq<Action>, shows: Uuid -> Authenticator, i: nat, j: nat, row: Uuid)
    requires IsInitial(w)
    requires var log := Run(w, actions, shows).log;
             i < |log| && j < |log| && log[i].BackupAccepted? && log[j].BackupAccepted?
             && row in log[i].rows && row in log[j].rows
    ensures i == j
  {
    RunKeeps(w, actions, shows);
    var log := Run(w, actions, shows).log;
    assert i < j ==> Ordered(log[i], log[j]);
    assert j < i ==> Ordered(log[j], log[i]);
  }

  lemma RunFour(w: World, b: Action, a: Action, shows: Uuid -> Authenticator)
    ensures Run(w, [b, a, a, a], shows) == Next(Next(Next(Next(w, b, shows), a, shows), a, shows), a, shows)
  {
    hide Next;
    assert [b, a, a, a][1..] == [a, a, a] && [a, a, a][1..] == [a, a] && [a, a][1..] == [a] && [a][1..] == [];
    var w1 := Next(w, b, shows);
    var w2 := Next(w1, a, shows);
    var w3 := Next(w2, a, shows);
    assert Run(w3, [a], shows) == Run(Next(w3, a, shows), [], shows);
    assert Run(w2, [a, a], shows) == Run(w3, [a], shows);
    assert Run(w1, [a, a, a], shows) == Run(w2, [a, a], shows);
  }

  lemma SoloMatch(w: World, i: nat, shows: Uuid -> Authenticator)
    requires i < |w.tasks| && w.tasks[i].Match? && !w.tasks[i].confirming
    ensures var w' := Next(Next(w, Advance(i, []), shows), Advance(i, []), shows);
            var e := w.tasks[i].enrolment;
            var k := MatchStep(shows(e.secret), w.tasks[i].code, w.now);
            && |w'.tasks| == |w.tasks|
            && (w'.tasks[i] == Finished(true) <==> k.Some? && CanClaim(w.store, w.tasks[i].owner, e.id, k.value))
  {
  }

  /**
   An undisturbed request with a code of the window succeeds exactly when the
   enrolment is verified and the matched step is later than any used before.
   */
  lemma UndisturbedLoginExactly(w: World, owner: Uuid, code: string, shows: Uuid -> Authenticator)
    ensures var i := |w.tasks|;
            var begin := Begin(Fetch(owner, code, false, w.now));
            var w' := Run(w, [begin, Advance(i, []), Advance(i, []), Advance(i, [])], shows);
            && |w'.tasks| == i + 1
            && (w'.tasks[i] == Finished(true) <==>
                  && HasVerified(w.store, owner)
                  && var e := w.store.enrolments[owner];
                     var k := MatchStep(shows(e.secret), code, w.now);
                     k.Some? && (e.lastUsed.None? || e.lastUsed.value < k.value))
  {
    hide MatchStep, Next;
    var i, fetch := |w.tasks|, Fetch(owner, code, false, w.now);
    var a := Advance(i, []);
    RunFour(w, Begin(fetch), a, shows);
    var w1 := w.(tasks := w.tasks + [fetch]);
    Begins(w, fetch, shows);
    if HasVerified(w.store, owner) {
      var w2 := w1.(tasks := w1.tasks[i := Match(owner, w.store.enrolments[owner], code, false, w.now)]);
      Fetches(w1, i, shows);
      SoloMatch(w2, i, shows);
    } else {
      Fetches(w1, i, shows);
      Idles(w1.(tasks := w1.tasks[i := Finished(false)]), i, shows);
    }
  }

  lemma Begins(w: World, t: Task, shows: Uuid -> Authenticator)
    requires t.Fetch? && t.begun == w.now
    ensures Next(w, Begin(t), shows) == w.(tasks := w.tasks + [t])
  {
  }

  lemma Fetches(w: World, i: nat, shows: Uuid -> Authenticator)
    requires i < |w.tasks| && w.tasks[i].Fetch? && !w.tasks[i].confirming
    ensures var t := w.tasks[i];
            var t' := if HasVerified(w.store, t.owner)
                      then Match(t.owner, w.store.enrolments[t.owner], t.code, false, t.begun) else Finished(false);
            Next(w, Advance(i, []), shows) == w.(tasks := w.tasks[i := t'])
  {
  }

  /** A finished task has nothing left to do. */
  lemma Idles(w: World, i: nat, shows: Uuid -> Authenticator)
    requires i < |w.tasks| && w.tasks[i].Finished?
    ensures Next(w, Advance(i, []), shows) == w
  {
    assert w.tasks[i := w.tasks[i]] == w.tasks;
  }

  // ── The store as an object ───────────────────────────────────────────────

  class MfaStore {
    var nextId: Uuid
    var enrolments: map<Uuid, Enrolment>
    var backups: map<Uuid, BackupRow>

    function Value(): Store
      reads this
    {
      Store(nextId, enrolments, backups)
    }

    /** UPDATE … SET last_used_step WHERE last_used_step IS NULL OR last_used_step < step. */
    method ClaimTotpStep(owner: Uuid, id: Uuid, step: Step) returns (claimed: bool)
      modifies this`enrolments
      ensures claimed == CanClaim(old(Value()), owner, id, step)
      ensures Value() == ClaimStep(old(Value()), owner, id, step)
    {
      claimed := false;
      if owner in enrolments && enrolments[owner].id == id {
        var row := enrolments[owner];
        if row.lastUsed.None? || row.lastUsed.value < step {
          enrolments := enrolments[owner := row.(lastUsed := Some(step))];
          claimed := true;
        }
      }
    }

    /** UPDATE … SET used_at WHERE … used_at IS NULL, reporting whether a row matched. */
    method ConsumeBackupCode(owner: Uuid, hash: string) returns (consumed: bool)
      modifies this`backups
      ensures consumed == (Redeemable(old(Value()), owner, hash) != {})
      ensures Value() == ConsumeBackup(old(Value()), owner, hash)
    {
      var rows := set r | r in backups && backups[r].owner == owner && backups[r].hash == hash && !backups[r].used;
      backups := map r | r in backups :: if r in rows then backups[r].(used := true) else backups[r];
      consumed := rows != {};
    }

    /** One transaction: delete the identity's rows, then insert the new ones. */
    method ReplaceBackupCodes(owner: Uuid, hashes: seq<string>)
      modifies this`backups, this`nextId
      ensures Value() == ReplaceBackups(old(Value()), owner, hashes)
    {
      backups := map r | r in backups && backups[r].owner != owner :: backups[r];
      ghost var swept := Value();
      for i := 0 to |hashes|
        invariant enrolments == old(enrolments)
        invariant InsertBackups(Value(), owner, hashes[i..]) == InsertBackups(swept, owner, hashes)
      {
        assert hashes[i..][1..] == hashes[i + 1..];
        backups := backups[nextId := BackupRow(owner, hashes[i], false)];
        nextId := nextId + 1;
      }
    }

    method CreateMethod(owner: Uuid, secret: Uuid) returns (r: Result<Uuid, ()>)
      modifies this`enrolments, this`nextId
      ensures Value() == CreateEnrolment(old(Value()), owner, secret)
      ensures r == if HasVerified(old(Value()), owner) then Failure(()) else Success(old(nextId))
    {
      if owner in enrolments && enrolments[owner].verified {
        return Failure(());
      }
      enrolments := enrolments[owner := Enrolment(nextId, secret, false, None)];
      nextId := nextId + 1;
      return Success(nextId - 1);
    }
  }
}
