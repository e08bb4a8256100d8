/**
 The semaphore that is to cap concurrent Argon2 hashes. Requests are tasks that
 take and return permits, in any interleaving of any number of them. No path waits
 for a permit while holding one, so there is no deadlock. The permit belongs to
 the request and the hash to a blocking thread: a request dropped while its hash
 runs gives the permit back at once and leaves the hash running, so the permits
 bound the running hashes exactly as far as no request is dropped there.
 */
module Argon2Gate {

  /** The points of a request that matter: waiting for a permit, hashing, other work, dropping the permit. */
  datatype Instr = Acquire | Hash | Other | Release

  /** The remaining steps of a request and whether it holds a permit. */
  datatype Task = Task(todo: seq<Instr>, holding: bool)

  /** `detached` counts the running hashes whose request is gone. */
  datatype Gate = Gate(permits: nat, free: nat, tasks: seq<Task>, detached: nat)

  // ── The requests ─────────────────────────────────────────────────────────

  const AUTHENTICATE: seq<Instr> := [Other, Acquire, Hash, Release]
  const CREATE_USER: seq<Instr> := [Acquire, Hash, Other, Release]
  const SET_PASSWORD: seq<Instr> := [Acquire, Hash, Other, Release]
  /** The verifying permit is scoped to a block that ends before the new hash is computed. */
  const CHANGE_PASSWORD: seq<Instr> := [Other, Acquire, Hash, Release] + SET_PASSWORD
  const CHANGE_OWN_PASSWORD: seq<Instr> := AUTHENTICATE + [Other] + SET_PASSWORD + [Other]

  /** Permits are never nested, hashing needs one, and none is left over. */
  predicate Disciplined(todo: seq<Instr>, holding: bool) {
    if todo == [] then !holding
    else match todo[0]
         case Acquire => !holding && Disciplined(todo[1..], true)
         case Hash => holding && Disciplined(todo[1..], holding)
         case Other => Disciplined(todo[1..], holding)
         case Release => holding && Disciplined(todo[1..], false)
  }

  lemma {:induction false} DisciplinedAppend(a: seq<Instr>, b: seq<Instr>, holding: bool)
    requires Disciplined(a, holding) && Disciplined(b, false)
    ensures Disciplined(a + b, holding)
  {
    if a == [] {
      assert a + b == b;
    } else {
      assert (a + b)[1..] == a[1..] + b;
      DisciplinedAppend(a[1..], b,
                        if a[0] == Acquire then true else if a[0] == Release then false else holding);
    }
  }

  lemma HashOnceDisciplined()
    ensures Disciplined(AUTHENTICATE, false) && Disciplined(SET_PASSWORD, false) && Disciplined([Other], false)
  {
  }

  /** Every request that hashes is disciplined. */
  lemma RequestsAreDisciplined()
    ensures Disciplined(AUTHENTICATE, false) && Disciplined(CREATE_USER, false) && Disciplined(SET_PASSWORD, false)
    ensures Disciplined(CHANGE_PASSWORD, false) && Disciplined(CHANGE_OWN_PASSWORD, false)
  {
    HashOnceDisciplined();
    DisciplinedAppend(AUTHENTICATE, SET_PASSWORD, false);
    DisciplinedAppend(AUTHENTICATE, [Other], false);
    DisciplinedAppend(AUTHENTICATE + [Other], SET_PASSWORD, false);
    DisciplinedAppend(AUTHENTICATE + [Other] + SET_PASSWORD, [Other], false);
  }

  // ── Steps ────────────────────────────────────────────────────────────────

  datatype Action =
    | Spawn(todo: seq<Instr>)
    | Advance(i: nat)
    /** The request returns an error; a hash it waited for is over. */
    | Fail(i: nat)
    /** The request's future is dropped, as when the caller disconnects. */
    | Drop(i: nat)
    /** A detached hash comes to its end. */
    | End

  /** A task can go on unless it is done or waits for a permit. */
  predicate CanAdvance(g: Gate, i: nat) {
    i < |g.tasks| && g.tasks[i].todo != [] && (g.tasks[i].todo[0].Acquire? ==> 0 < g.free)
  }

  /** The task is gone and its permit back. */
  function Remove(g: Gate, i: nat): Gate
    requires i < |g.tasks|
  {
    g.(free := g.free + if g.tasks[i].holding then 1 else 0, tasks := g.tasks[i := Task([], false)])
  }

  /** Whether the action drops a request whose hash is running. */
  predicate Abandons(g: Gate, a: Action) {
    a.Drop? && a.i < |g.tasks| && IsHashing(g.tasks[a.i])
  }

  function Next(g: Gate, a: Action): Gate {
    match a
    case Spawn(todo) => if Disciplined(todo, false) then g.(tasks := g.tasks + [Task(todo, false)]) else g
    case Fail(i) => if i >= |g.tasks| then g else Remove(g, i)
    case Drop(i) =>
      if i >= |g.tasks| then g
      else Remove(g, i).(detached := g.detached + if Abandons(g, a) then 1 else 0)
    case End => g.(detached := if g.detached == 0 then 0 else g.detached - 1)
    case Advance(i) =>
      if !CanAdvance(g, i) then g
      else
        var t := g.tasks[i];
        match t.todo[0]
        case Acquire => g.(free := g.free - 1, tasks := g.tasks[i := Task(t.todo[1..], true)])
        case Release => g.(free := g.free + 1, tasks := g.tasks[i := Task(t.todo[1..], false)])
        case _ => g.(tasks := g.tasks[i := Task(t.todo[1..], t.holding)])
  }

  function Run(g: Gate, actions: seq<Action>): Gate
    decreases actions
  {
    if actions == [] then g else Run(Next(g, actions[0]), actions[1..])
  }

  function Initial(permits: nat): Gate { Gate(permits, permits, [], 0) }

  // ── The invariant ────────────────────────────────────────────────────────

  function Holders(tasks: seq<Task>): nat {
    if tasks == [] then 0 else (if tasks[0].holding then 1 else 0) + Holders(tasks[1..])
  }

  /** A task whose hash is running. */
  predicate IsHashing(t: Task) { t.todo != [] && t.todo[0].Hash? }

  function Hashing(tasks: seq<Task>): nat {
    if tasks == [] then 0 else (if IsHashing(tasks[0]) then 1 else 0) + Hashing(tasks[1..])
  }

  ghost predicate Inv(g: Gate) {
    && g.free + Holders(g.tasks) == g.permits
    && forall i :: 0 <= i < |g.tasks| ==> Disciplined(g.tasks[i].todo, g.tasks[i].holding)
  }

  lemma {:induction false} HoldersUpdate(tasks: seq<Task>, i: nat, t: Task)
    requires i < |tasks|
    ensures Holders(tasks[i := t])
            == Holders(tasks) - (if tasks[i].holding then 1 else 0) + (if t.holding then 1 else 0)
  {
    if i == 0 {
      assert tasks[0 := t][1..] == tasks[1..];
    } else {
      HoldersUpdate(tasks[1..], i - 1, t);
      assert tasks[i := t][1..] == tasks[1..][i - 1 := t];
    }
  }

  lemma {:induction false} HoldersAppend(tasks: seq<Task>, t: Task)
    requires !t.holding
    ensures Holders(tasks + [t]) == Holders(tasks)
  {
    if tasks == [] {
      assert tasks + [t] == [t] && [t][1..] == [];
    } else {
      HoldersAppend(tasks[1..], t);
      assert (tasks + [t])[1..] == tasks[1..] + [t];
    }
  }

  lemma RemoveKeeps(g: Gate, i: nat)
    requires Inv(g) && i < |g.tasks|
    ensures Inv(Remove(g, i))
  {
    hide Holders;
    HoldersUpdate(g.tasks, i, Task([], false));
    assert Disciplined([], false);
  }

  lemma StepKeeps(g: Gate, a: Action)
    requires Inv(g)
    ensures Inv(Next(g, a)) && Next(g, a).permits == g.permits
  {
    hide Holders;
    match a
    case Spawn(todo) => HoldersAppend(g.tasks, Task(todo, false));
    case Fail(i) =>
      if i < |g.tasks| {
        RemoveKeeps(g, i);
      }
    case Drop(i) =>
      if i < |g.tasks| {
        RemoveKeeps(g, i);
      }
    case End =>
    case Advance(i) =>
      if CanAdvance(g, i) {
        HoldersUpdate(g.tasks, i, Next(g, a).tasks[i]);
      }
  }

  lemma {:induction false} RunKeeps(g: Gate, actions: seq<Action>)
    requires Inv(g)
    ensures Inv(Run(g, actions)) && Run(g, actions).permits == g.permits
    decreases actions
  {
    if actions != [] {
      StepKeeps(g, actions[0]);
      RunKeeps(Next(g, actions[0]), actions[1..]);
    }
  }

  // ── The theorems ─────────────────────────────────────────────────────────

  lemma {:induction false} HashingNeedsPermits(tasks: seq<Task>)
    requires forall i :: 0 <= i < |tasks| ==> Disciplined(tasks[i].todo, tasks[i].holding)
    ensures Hashing(tasks) <= Holders(tasks)
  {
    if tasks != [] {
      assert Disciplined(tasks[0].todo, tasks[0].holding);
      HashingNeedsPermits(tasks[1..]);
    }
  }

  /** Every hash that is running, whether or not its request is still there. */
  function Running(g: Gate): nat { Hashing(g.tasks) + g.detached }

  /** How many requests of the run were dropped while their hash was running. */
  function Abandoned(g: Gate, actions: seq<Action>): nat
    decreases actions
  {
    if actions == [] then 0
    else (if Abandons(g, actions[0]) then 1 else 0) + Abandoned(Next(g, actions[0]), actions[1..])
  }

  lemma {:induction false} DetachedByDrops(g: Gate, actions: seq<Action>)
    ensures Run(g, actions).detached <= g.detached + Abandoned(g, actions)
    decreases actions
  {
    if actions != [] {
      DetachedByDrops(Next(g, actions[0]), actions[1..]);
    }
  }

  /**
   In any interleaving the running hashes are at most the permits and the requests
   dropped during their hash; so at most the permits in a run that drops none there.
   */
  lemma {:induction false} HashesAreBounded(permits: nat, actions: seq<Action>)
    ensures Running(Run(Initial(permits), actions)) <= permits + Abandoned(Initial(permits), actions)
    ensures permits == 0 ==> Running(Run(Initial(permits), actions)) == 0
  {
    hide Run, Abandoned, Inv;
    InitialFits(permits);
    RunKeeps(Initial(permits), actions);
    DetachedByDrops(Initial(permits), actions);
    FitsBound(Run(Initial(permits), actions));
    if permits == 0 {
      NothingToAbandon(Initial(0), actions);
    }
  }

  lemma FitsBound(g: Gate)
    requires Inv(g)
    ensures Hashing(g.tasks) <= g.permits
  {
    HashingNeedsPermits(g.tasks);
  }

  lemma InitialFits(permits: nat)
    ensures Inv(Initial(permits))
  {
  }

  /** Without permits no hash starts, so none is left behind. */
  lemma {:induction false} NothingToAbandon(g: Gate, actions: seq<Action>)
    requires Inv(g) && g.permits == 0
    ensures Abandoned(g, actions) == 0
    decreases actions
  {
    if actions != [] {
      if Abandons(g, actions[0]) {
        NotHolding(g.tasks, actions[0].i);
      }
      StepKeeps(g, actions[0]);
      NothingToAbandon(Next(g, actions[0]), actions[1..]);
    }
  }

  lemma {:induction false} NotHolding(tasks: seq<Task>, i: nat)
    requires i < |tasks| && Holders(tasks) == 0
    ensures !tasks[i].holding
  {
    if i > 0 {
      NotHolding(tasks[1..], i - 1);
    }
  }

  // ── The bound is reached ─────────────────────────────────────────────────

  lemma {:induction false} HashingUpdate(tasks: seq<Task>, i: nat, t: Task)
    requires i < |tasks|
    ensures Hashing(tasks[i := t])
            == Hashing(tasks) - (if IsHashing(tasks[i]) then 1 else 0) + (if IsHashing(t) then 1 else 0)
  {
    if i == 0 {
      assert tasks[0 := t][1..] == tasks[1..];
    } else {
      HashingUpdate(tasks[1..], i - 1, t);
      assert tasks[i := t][1..] == tasks[1..][i - 1 := t];
    }
  }

  lemma {:induction false} HashingAppend(tasks: seq<Task>, t: Task)
    ensures Hashing(tasks + [t]) == Hashing(tasks) + if IsHashing(t) then 1 else 0
  {
    if tasks == [] {
      assert tasks + [t] == [t] && [t][1..] == [];
    } else {
      HashingAppend(tasks[1..], t);
      assert (tasks + [t])[1..] == tasks[1..] + [t];
    }
  }

  lemma {:induction false} RunAppend(g: Gate, a: seq<Action>, b: seq<Action>)
    ensures Run(g, a + b) == Run(Run(g, a), b)
    ensures Abandoned(g, a + b) == Abandoned(g, a) + Abandoned(Run(g, a), b)
    decreases a
  {
    if a == [] {
      assert [] + b == b;
    } else {
      RunAppend(Next(g, a[0]), a[1..], b);
      assert (a + b)[1..] == a[1..] + b;
    }
  }

  /** The request at `i` is spawned and takes a permit, so that its hash runs. */
  function Begin(i: nat): seq<Action> { [Spawn(SET_PASSWORD), Advance(i)] }

  lemma Begins(g: Gate)
    requires 0 < g.free
    ensures var i := |g.tasks|;
            Run(g, Begin(i)) == g.(free := g.free - 1, tasks := g.tasks + [Task(SET_PASSWORD[1..], true)])
    ensures Abandoned(g, Begin(|g.tasks|)) == 0
    ensures Hashing(Run(g, Begin(|g.tasks|)).tasks) == Hashing(g.tasks) + 1
  {
    HashOnceDisciplined();
    var i, t := |g.tasks|, Task(SET_PASSWORD[1..], true);
    var g1 := g.(tasks := g.tasks + [Task(SET_PASSWORD, false)]);
    assert Next(g, Begin(i)[0]) == g1;
    assert g1.tasks[i := t] == g.tasks + [t];
    assert Begin(i)[1..] == [Advance(i)] && [Advance(i)][1..] == [];
    assert Run(g1, [Advance(i)]) == Run(Next(g1, Advance(i)), []);
    assert Abandoned(g1, [Advance(i)]) == Abandoned(Next(g1, Advance(i)), []);
    HashingAppend(g.tasks, t);
  }

  /** `n` requests in a row begin their hash and stay. */
  function Fill(i: nat, n: nat): seq<Action>
    decreases n
  {
    if n == 0 then [] else Begin(i) + Fill(i + 1, n - 1)
  }

  lemma {:induction false} Fills(g: Gate, n: nat)
    requires n <= g.free
    ensures Running(Run(g, Fill(|g.tasks|, n))) == Running(g) + n
    ensures Abandoned(g, Fill(|g.tasks|, n)) == 0
    decreases n
  {
    if n > 0 {
      var g1 := Run(g, Begin(|g.tasks|));
      Begins(g);
      Fills(g1, n - 1);
      RunAppend(g, Begin(|g.tasks|), Fill(|g.tasks| + 1, n - 1));
    }
  }

  /** `n` requests in a row begin their hash and are dropped. */
  function Pile(i: nat, n: nat): seq<Action>
    decreases n
  {
    if n == 0 then [] else Begin(i) + [Drop(i)] + Pile(i + 1, n - 1)
  }

  lemma Drops(g: Gate)
    requires 0 < g.free
    ensures var g' := Run(g, Begin(|g.tasks|) + [Drop(|g.tasks|)]);
            g'.free == g.free && |g'.tasks| == |g.tasks| + 1 && Running(g') == Running(g) + 1
    ensures Abandoned(g, Begin(|g.tasks|) + [Drop(|g.tasks|)]) == 1
  {
    var i := |g.tasks|;
    var g1 := Run(g, Begin(i));
    Begins(g);
    RunAppend(g, Begin(i), [Drop(i)]);
    assert [Drop(i)][1..] == [];
    assert Run(g1, [Drop(i)]) == Run(Next(g1, Drop(i)), []);
    assert Abandoned(g1, [Drop(i)]) == 1 + Abandoned(Next(g1, Drop(i)), []);
    HashingUpdate(g1.tasks, i, Task([], false));
  }

  lemma {:induction false} Piles(g: Gate, n: nat)
    requires 0 < g.free
    ensures var g' := Run(g, Pile(|g.tasks|, n));
            g'.free == g.free && |g'.tasks| == |g.tasks| + n && Running(g') == Running(g) + n
    ensures Abandoned(g, Pile(|g.tasks|, n)) == n
    decreases n
  {
    if n > 0 {
      var first := Begin(|g.tasks|) + [Drop(|g.tasks|)];
      Drops(g);
      Piles(Run(g, first), n - 1);
      RunAppend(g, first, Pile(|g.tasks| + 1, n - 1));
    }
  }

  /** With at most `drops` requests dropped during their hash, `n` hashes run at once. */
  ghost predicate Reaches(permits: nat, actions: seq<Action>, drops: nat, n: nat) {
    Abandoned(Initial(permits), actions) <= drops && n <= Running(Run(Initial(permits), actions))
  }

  ghost predicate CanRun(permits: nat, drops: nat, n: nat) {
    exists actions :: Reaches(permits, actions, drops, n)
  }

  /**
   Exactly how many hashes can run at once: as many as there are permits and
   requests dropped during their hash together, if there is a permit at all. So
   without such drops the permits are the bound, and with them there is none.
   */
  lemma HashesRunExactly(permits: nat, drops: nat, n: nat)
    ensures CanRun(permits, drops, n) <==> n == 0 || (1 <= permits && n <= permits + drops)
  {
    hide Run, Abandoned, Pile, Fill, Running;
    if CanRun(permits, drops, n) {
      var actions :| Reaches(permits, actions, drops, n);
      HashesAreBounded(permits, actions);
    }
    if n == 0 {
      NothingRuns(permits);
      assert Reaches(permits, [], drops, 0);
    } else if 1 <= permits && n <= permits + drops {
      var d := if n <= drops then n else drops;
      NothingRuns(permits);
      Piles(Initial(permits), d);
      Fills(Run(Initial(permits), Pile(0, d)), n - d);
      RunAppend(Initial(permits), Pile(0, d), Fill(d, n - d));
      assert Reaches(permits, Pile(0, d) + Fill(d, n - d), drops, n);
    }
  }

  lemma NothingRuns(permits: nat)
    ensures Running(Initial(permits)) == 0 && Run(Initial(permits), []) == Initial(permits)
    ensures Abandoned(Initial(permits), []) == 0
  {
  }

  /** If someone holds a permit, someone can be found who does. */
  lemma {:induction false} SomeHolder(tasks: seq<Task>) returns (i: nat)
    requires 0 < Holders(tasks)
    ensures i < |tasks| && tasks[i].holding
  {
    if tasks[0].holding {
      i := 0;
    } else {
      i := SomeHolder(tasks[1..]);
      i := i + 1;
    }
  }

  /** With at least one permit, whenever a request is unfinished some request can go on. */
  lemma {:induction false} NeverDeadlocked(permits: nat, actions: seq<Action>, waiting: nat)
    requires 0 < permits
    requires var tasks := Run(Initial(permits), actions).tasks; waiting < |tasks| && tasks[waiting].todo != []
    ensures exists i: nat :: CanAdvance(Run(Initial(permits), actions), i)
  {
    RunKeeps(Initial(permits), actions);
    var g := Run(Initial(permits), actions);
    if 0 < g.free {
      assert CanAdvance(g, waiting);
    } else {
      var i := SomeHolder(g.tasks);
      assert Disciplined(g.tasks[i].todo, g.tasks[i].holding);
      assert CanAdvance(g, i);
    }
  }

  /** Nesting would deadlock: with one permit, a task that asks for a second while holding the first waits forever. */
  lemma NestingDeadlocks(rest: seq<Instr>)
    ensures var g := Gate(1, 0, [Task([Acquire] + rest, true)], 0);
            g.free + Holders(g.tasks) == g.permits && forall i: nat :: !CanAdvance(g, i)
    ensures !Disciplined([Acquire] + rest, true)
  {
  }
}
