// The dining philosophers of asn3/dine.c: any number of threads, one instruction at a time.
module Philosophers {

  // What the statements of dine and update_philosopher do to the semaphores.
  datatype Instr =
    | LockUpdate | LockPrint | UnlockPrint | UnlockUpdate
    | TakeFirst | TakeSecond | PutFirst | PutSecond
    | Dawdle

  // One eat-think cycle: update, take, update, take, update, update "Eat", dawdle, update, put,
  // update, put, update, update "Think", dawdle. An update is four instructions: it takes the
  // update lock, and within it print_status takes and returns the print lock.
  const CYCLE: nat := 38
  const EAT: nat := 18

  // The update that pc is in, or directly behind.
  function Base(pc: nat): nat {
    if pc < 5 then 0 else if pc < 10 then 5 else if pc < 14 then 10 else if pc < 19 then 14
    else if pc < 24 then 19 else if pc < 29 then 24 else if pc < 33 then 29 else 33
  }

  function At(pc: nat): Instr
    requires pc < CYCLE
  {
    var k := pc - Base(pc);
    if k == 0 then LockUpdate else if k == 1 then LockPrint
    else if k == 2 then UnlockPrint else if k == 3 then UnlockUpdate
    else if pc == 4 then TakeFirst else if pc == 9 then TakeSecond
    else if pc == 23 then PutFirst else if pc == 28 then PutSecond
    else Dawdle
  }

  predicate Updating(pc: nat) { 1 <= pc - Base(pc) <= 3 }

  predicate Printing(pc: nat) { pc - Base(pc) == 2 }

  predicate HoldsFirst(pc: nat) { 5 <= pc <= 23 }

  predicate HoldsSecond(pc: nat) { 10 <= pc <= 28 }

  // A philosopher: the next instruction, the cycles still to do, the meals had.
  datatype Phil = Phil(pc: nat, left: nat, eaten: nat)

  // The philosophers and the values of the semaphores.
  datatype Table = Table(phils: seq<Phil>, forks: seq<nat>, updateLock: nat, printLock: nat)

  function Right(i: nat, n: nat): (f: nat)
    requires i < n
    ensures f == if i + 1 == n then 0 else i + 1
  {
    if i + 1 < n then SmallMod(i + 1, n); (i + 1) % n else (i + 1) % n
  }

  lemma SmallMod(a: nat, n: nat)
    requires a < n
    ensures a % n == a
  {}

  // Even philosophers take their right fork first, odd ones their left, which has their own
  // number. They put them down in the same order.
  function First(i: nat, n: nat): nat
    requires i < n
  {
    if i % 2 == 0 then Right(i, n) else i
  }

  function Second(i: nat, n: nat): nat
    requires i < n
  {
    if i % 2 == 0 then i else Right(i, n)
  }

  predicate HoldsLeft(i: nat, pc: nat) { if i % 2 == 0 then HoldsSecond(pc) else HoldsFirst(pc) }

  predicate HoldsRight(i: nat, pc: nat) { if i % 2 == 0 then HoldsFirst(pc) else HoldsSecond(pc) }

  // main's set-up: every semaphore is 1, and nobody has started. A negative count means none.
  function Init(n: nat, cycles: int): Table {
    Table(seq(n, _ => Phil(0, if cycles > 0 then cycles else 0, 0)), seq(n, _ => 1), 1, 1)
  }

  ghost predicate Shape(t: Table) {
    && |t.forks| == |t.phils|
    && (forall i :: 0 <= i < |t.phils| ==> t.phils[i].pc < CYCLE && (t.phils[i].left == 0 ==> t.phils[i].pc == 0))
  }

  // Philosopher i is not done and, if the next instruction is a sem_wait, its semaphore is positive.
  ghost predicate Enabled(t: Table, i: nat)
    requires Shape(t)
  {
    i < |t.phils| && t.phils[i].left > 0
    && match At(t.phils[i].pc)
       case LockUpdate => t.updateLock > 0
       case LockPrint => t.printLock > 0
       case TakeFirst => t.forks[First(i, |t.phils|)] > 0
       case TakeSecond => t.forks[Second(i, |t.phils|)] > 0
       case _ => true
  }

  function Next(p: Phil): Phil
    requires p.left > 0
  {
    if p.pc + 1 == CYCLE then Phil(0, p.left - 1, p.eaten)
    else Phil(p.pc + 1, p.left, if p.pc == EAT then p.eaten + 1 else p.eaten)
  }

  ghost function Step(t: Table, i: nat): Table
    requires Shape(t) && Enabled(t, i)
  {
    var n := |t.phils|;
    var u := t.(phils := t.phils[i := Next(t.phils[i])]);
    var f, s := First(i, n), Second(i, n);
    match At(t.phils[i].pc)
    case LockUpdate => u.(updateLock := t.updateLock - 1)
    case LockPrint => u.(printLock := t.printLock - 1)
    case UnlockPrint => u.(printLock := t.printLock + 1)
    case UnlockUpdate => u.(updateLock := t.updateLock + 1)
    case TakeFirst => u.(forks := t.forks[f := t.forks[f] - 1])
    case TakeSecond => u.(forks := t.forks[s := t.forks[s] - 1])
    case PutFirst => u.(forks := t.forks[f := t.forks[f] + 1])
    case PutSecond => u.(forks := t.forks[s := t.forks[s] + 1])
    case Dawdle => u
  }

  // ----- the invariant -----

  ghost function Ind(b: bool): nat { if b then 1 else 0 }

  // The philosopher whose right fork f is.
  function Prev(f: nat, n: nat): (i: nat)
    requires f < n
    ensures i < n && Right(i, n) == f
  {
    if f == 0 then n - 1 else f - 1
  }

  ghost function Holders(t: Table, f: nat): nat
    requires f < |t.phils|
  {
    Ind(HoldsLeft(f, t.phils[f].pc)) + Ind(HoldsRight(Prev(f, |t.phils|), t.phils[Prev(f, |t.phils|)].pc))
  }

  // Each fork is on the table or held once.
  ghost predicate ForkInv(t: Table)
    requires Shape(t)
  {
    forall f :: 0 <= f < |t.phils| ==> t.forks[f] + Holders(t, f) == 1
  }

  // A lock is free, or held by exactly one philosopher; who prints also holds the update lock.
  ghost predicate LockInv(t: Table) {
    && (forall i, j :: 0 <= i < j < |t.phils| ==> !(Updating(t.phils[i].pc) && Updating(t.phils[j].pc)))
    && t.updateLock == Ind(NobodyUpdates(t.phils)) && t.printLock == Ind(NobodyPrints(t.phils))
  }

  ghost predicate NobodyUpdates(phils: seq<Phil>) { forall i :: 0 <= i < |phils| ==> !Updating(phils[i].pc) }

  ghost predicate NobodyPrints(phils: seq<Phil>) { forall i :: 0 <= i < |phils| ==> !Printing(phils[i].pc) }

  ghost predicate MealInv(t: Table, cycles: nat) {
    forall i :: 0 <= i < |t.phils| ==>
      t.phils[i].left <= cycles && t.phils[i].eaten == cycles - t.phils[i].left + Ind(t.phils[i].pc > EAT)
  }

  ghost predicate Inv(t: Table, cycles: nat) {
    |t.phils| >= 2 && Shape(t) && ForkInv(t) && LockInv(t) && MealInv(t, cycles)
  }

  lemma InitInv(n: nat, cycles: int)
    requires n >= 2
    ensures Inv(Init(n, cycles), if cycles > 0 then cycles else 0)
  {}

  // What one instruction does to what its philosopher holds.
  lemma NextHolds(p: Phil)
    requires p.pc < CYCLE && p.left > 0
    ensures Ind(HoldsFirst(Next(p).pc)) == Ind(HoldsFirst(p.pc))
            + Ind(At(p.pc) == TakeFirst) - Ind(At(p.pc) == PutFirst)
    ensures Ind(HoldsSecond(Next(p).pc)) == Ind(HoldsSecond(p.pc))
            + Ind(At(p.pc) == TakeSecond) - Ind(At(p.pc) == PutSecond)
  {}

  // What it does to the forks.
  lemma StepForks(t: Table, i: nat, f: nat)
    requires |t.phils| >= 2 && Shape(t) && Enabled(t, i) && f < |t.phils|
    ensures var n, a := |t.phils|, At(t.phils[i].pc);
            |Step(t, i).forks| == |t.forks| &&
            Step(t, i).forks[f] == t.forks[f]
              - Ind(a == TakeFirst && First(i, n) == f) + Ind(a == PutFirst && First(i, n) == f)
              - Ind(a == TakeSecond && Second(i, n) == f) + Ind(a == PutSecond && Second(i, n) == f)
  {}

  lemma StepFork(t: Table, i: nat, f: nat)
    requires |t.phils| >= 2 && Shape(t) && ForkInv(t) && Enabled(t, i) && f < |t.phils| && Shape(Step(t, i))
    ensures Step(t, i).forks[f] + Holders(Step(t, i), f) == 1
  {
    var n := |t.phils|;
    var u := Step(t, i);
    assert t.forks[f] + Holders(t, f) == 1;
    StepForks(t, i, f);
    NextHolds(t.phils[i]);
    assert u.phils == t.phils[i := Next(t.phils[i])];
    assert Right(Prev(f, n), n) == f && Prev(f, n) != f;
    if i != f && i != Prev(f, n) { assert First(i, n) != f && Second(i, n) != f; }
  }

  lemma NextLocks(p: Phil)
    requires p.pc < CYCLE && p.left > 0
    ensures Updating(Next(p).pc) <==> At(p.pc) == LockUpdate || (Updating(p.pc) && At(p.pc) != UnlockUpdate)
    ensures Printing(Next(p).pc) <==> At(p.pc) == LockPrint
    ensures Printing(p.pc) <==> At(p.pc) == UnlockPrint
    ensures At(p.pc) in {LockPrint, UnlockPrint, UnlockUpdate} <==> Updating(p.pc)
  {}

  lemma StepUpdate(t: Table, i: nat)
    requires Shape(t) && LockInv(t) && Enabled(t, i)
    ensures var u := Step(t, i);
            && u.updateLock == Ind(NobodyUpdates(u.phils))
            && forall j, k :: 0 <= j < k < |u.phils| ==> !(Updating(u.phils[j].pc) && Updating(u.phils[k].pc))
  {
    var u := Step(t, i);
    NextLocks(t.phils[i]);
    assert u.phils == t.phils[i := Next(t.phils[i])];
    if At(t.phils[i].pc) == LockUpdate {
      assert Updating(u.phils[i].pc);
    } else if At(t.phils[i].pc) == UnlockUpdate {
      assert Updating(t.phils[i].pc);
    } else if !NobodyUpdates(t.phils) {
      var j :| 0 <= j < |t.phils| && Updating(t.phils[j].pc);
      assert Updating(u.phils[j].pc);
    }
  }

  lemma StepPrint(t: Table, i: nat)
    requires Shape(t) && LockInv(t) && Enabled(t, i)
    ensures Step(t, i).printLock == Ind(NobodyPrints(Step(t, i).phils))
  {
    var u := Step(t, i);
    NextLocks(t.phils[i]);
    assert u.phils == t.phils[i := Next(t.phils[i])];
    forall j | 0 <= j < |t.phils| && Printing(t.phils[j].pc) ensures Updating(t.phils[j].pc) {}
    if At(t.phils[i].pc) == LockPrint {
      assert Printing(u.phils[i].pc);
    } else if At(t.phils[i].pc) == UnlockPrint {
      assert Updating(t.phils[i].pc);
    } else if !NobodyPrints(t.phils) {
      var j :| 0 <= j < |t.phils| && Printing(t.phils[j].pc);
      assert Printing(u.phils[j].pc);
    }
  }

  lemma StepShape(t: Table, cycles: nat, i: nat)
    requires Shape(t) && MealInv(t, cycles) && Enabled(t, i)
    ensures Shape(Step(t, i)) && MealInv(Step(t, i), cycles) && |Step(t, i).phils| == |t.phils|
  {
    assert Step(t, i).phils == t.phils[i := Next(t.phils[i])];
  }

  lemma StepKeeps(t: Table, cycles: nat, i: nat)
    requires Inv(t, cycles) && Enabled(t, i)
    ensures Inv(Step(t, i), cycles)
  {
    var u := Step(t, i);
    StepShape(t, cycles, i);
    forall f | 0 <= f < |u.phils| ensures u.forks[f] + Holders(u, f) == 1 { StepFork(t, i, f); }
    StepUpdate(t, i);
    StepPrint(t, i);
  }

  // Neighbours never eat together: the one's right fork is the other's left.
  lemma NeighboursExclude(t: Table, cycles: nat, i: nat)
    requires Inv(t, cycles) && i < |t.phils|
    ensures var j := Right(i, |t.phils|);
            !(HoldsRight(i, t.phils[i].pc) && HoldsLeft(j, t.phils[j].pc))
            && !(t.phils[i].pc == EAT && t.phils[j].pc == EAT)
  {
    var j := Right(i, |t.phils|);
    assert Prev(j, |t.phils|) == i;
    assert t.forks[j] + Holders(t, j) == 1;
  }

  // ----- no deadlock -----

  // Whoever holds the update lock can go on: the print lock is only ever taken inside.
  lemma UpdaterSteps(t: Table, cycles: nat, i: nat)
    requires Inv(t, cycles) && i < |t.phils| && Updating(t.phils[i].pc)
    ensures Enabled(t, i)
  {}

  ghost predicate Stuck(t: Table, i: nat)
    requires Shape(t)
  {
    i < |t.phils| && t.phils[i].left > 0 && !Enabled(t, i)
  }

  // With the update lock free, only forks can block; whoever waits for its first fork waits for
  // a neighbour that holds it.
  lemma Neighbour(t: Table, cycles: nat, i: nat, f: nat) returns (j: nat)
    requires Inv(t, cycles) && i < |t.phils| && f < |t.phils| && t.forks[f] == 0
    requires (f == First(i, |t.phils|) && !HoldsFirst(t.phils[i].pc))
             || (f == Second(i, |t.phils|) && !HoldsSecond(t.phils[i].pc))
    ensures j < |t.phils| && j != i && t.phils[j].left > 0
    ensures (f == j && HoldsLeft(j, t.phils[j].pc)) || (f == Right(j, |t.phils|) && HoldsRight(j, t.phils[j].pc))
  {
    assert t.forks[f] + Holders(t, f) == 1;
    j := if HoldsLeft(f, t.phils[f].pc) then f else Prev(f, |t.phils|);
  }

  // With the update lock free, whoever is stuck waits for a fork.
  lemma StuckAtFork(t: Table, cycles: nat, i: nat)
    requires Inv(t, cycles) && t.updateLock > 0 && Stuck(t, i)
    ensures (t.phils[i].pc == 4 && t.forks[First(i, |t.phils|)] == 0)
            || (t.phils[i].pc == 9 && t.forks[Second(i, |t.phils|)] == 0)
  {}

  // Two neighbours can both be between their forks only if it is the last and the first one.
  lemma BothBetween(i: nat, j: nat, n: nat)
    requires n >= 2 && i < n && j < n && i != j
    requires var f := Second(i, n); (f == j && HoldsLeft(j, 9)) || (f == Right(j, n) && HoldsRight(j, 9))
    ensures i == 0 && j == n - 1
  {}

  // Only philosopher 0 of an odd number can be stuck between its forks, and then the one on its
  // left is not: that is what the asymmetric order is for.
  lemma SecondForkSteps(t: Table, cycles: nat, i: nat) returns (j: nat)
    requires Inv(t, cycles) && t.updateLock > 0 && Stuck(t, i) && t.phils[i].pc == 9
    ensures Enabled(t, j)
  {
    var n := |t.phils|;
    StuckAtFork(t, cycles, i);
    j := Neighbour(t, cycles, i, Second(i, n));
    if Stuck(t, j) {
      StuckAtFork(t, cycles, j);
      BothBetween(i, j, n);
      var k := Neighbour(t, cycles, j, Second(j, n));
      if Stuck(t, k) {
        StuckAtFork(t, cycles, k);
        BothBetween(j, k, n);
      }
      j := k;
    }
  }

  // In every reachable state in which somebody is not done, somebody can step.
  lemma DeadlockFree(t: Table, cycles: nat, i: nat) returns (j: nat)
    requires Inv(t, cycles) && i < |t.phils| && t.phils[i].left > 0
    ensures Enabled(t, j)
  {
    if t.updateLock == 0 {
      j :| 0 <= j < |t.phils| && Updating(t.phils[j].pc);
      UpdaterSteps(t, cycles, j);
    } else if Enabled(t, i) {
      j := i;
    } else if t.phils[i].pc == 9 {
      j := SecondForkSteps(t, cycles, i);
    } else {
      StuckAtFork(t, cycles, i);
      j := Neighbour(t, cycles, i, First(i, |t.phils|));
      if !Enabled(t, j) {
        StuckAtFork(t, cycles, j);
        j := SecondForkSteps(t, cycles, j);
      }
    }
  }

  // ----- runs -----

  // A schedule names the philosopher that takes each step.
  ghost predicate Runs(t: Table, schedule: seq<nat>)
    decreases |schedule|
  {
    schedule != [] ==> Shape(t) && Enabled(t, schedule[0]) && Runs(Step(t, schedule[0]), schedule[1..])
  }

  ghost function After(t: Table, schedule: seq<nat>): Table
    requires Runs(t, schedule)
    decreases |schedule|
  {
    if schedule == [] then t else After(Step(t, schedule[0]), schedule[1..])
  }

  // Instructions still to be executed.
  function Work(phils: seq<Phil>): int {
    if phils == [] then 0 else phils[0].left * CYCLE - phils[0].pc + Work(phils[1..])
  }

  lemma {:induction false} WorkUpdate(phils: seq<Phil>, i: nat, p: Phil)
    requires i < |phils|
    ensures Work(phils[i := p]) - Work(phils) == (p.left * CYCLE - p.pc) - (phils[i].left * CYCLE - phils[i].pc)
  {
    if i > 0 {
      assert phils[i := p][1..] == phils[1..][i - 1 := p];
      WorkUpdate(phils[1..], i - 1, p);
    } else {
      assert phils[0 := p][1..] == phils[1..];
    }
  }

  // Every instruction of every interleaving is one unit of work, ...
  lemma StepWorks(t: Table, i: nat)
    requires Shape(t) && Enabled(t, i)
    ensures Work(Step(t, i).phils) == Work(t.phils) - 1
  {
    WorkUpdate(t.phils, i, Next(t.phils[i]));
  }

  lemma {:induction false} WorkBounds(phils: seq<Phil>)
    requires forall i :: 0 <= i < |phils| ==> phils[i].pc < CYCLE && (phils[i].left == 0 ==> phils[i].pc == 0)
    ensures Work(phils) >= 0
    ensures Work(phils) == 0 <==> forall i :: 0 <= i < |phils| ==> phils[i].left == 0
  {
    if phils != [] {
      assert forall i :: 0 <= i < |phils| - 1 ==> phils[1..][i] == phils[i + 1];
      WorkBounds(phils[1..]);
      assert phils[0].left > 0 ==> phils[0].left * CYCLE >= CYCLE;
    }
  }

  lemma {:induction false} InitWork(n: nat, cycles: nat)
    ensures Work(Init(n, cycles).phils) == n * cycles * CYCLE
  {
    if n > 0 {
      assert Init(n, cycles).phils[1..] == Init(n - 1, cycles).phils;
      InitWork(n - 1, cycles);
    }
  }

  lemma {:induction false} RunKeeps(t: Table, cycles: nat, schedule: seq<nat>)
    requires Inv(t, cycles) && Runs(t, schedule)
    ensures var u := After(t, schedule);
            Inv(u, cycles) && Work(u.phils) == Work(t.phils) - |schedule| && |u.phils| == |t.phils|
    decreases |schedule|
  {
    if schedule != [] {
      StepKeeps(t, cycles, schedule[0]);
      StepWorks(t, schedule[0]);
      RunKeeps(Step(t, schedule[0]), cycles, schedule[1..]);
    }
  }

  // ... so no run is longer than n * cycles * 38 steps, and a run that cannot be continued has
  // exactly that length: everybody has eaten `cycles` times and every semaphore is back at 1.
  lemma RunsEnd(n: nat, cycles: nat, schedule: seq<nat>)
    requires n >= 2 && Runs(Init(n, cycles), schedule)
    ensures |schedule| <= n * cycles * CYCLE
    ensures var t := After(Init(n, cycles), schedule);
            && Shape(t) && ((forall i :: !Enabled(t, i)) <==> |schedule| == n * cycles * CYCLE)
            && (|schedule| == n * cycles * CYCLE ==> AllDone(t, cycles))
  {
    InitInv(n, cycles);
    InitWork(n, cycles);
    WorkedOff(Init(n, cycles), cycles, schedule);
  }

  lemma WorkedOff(t: Table, cycles: nat, schedule: seq<nat>)
    requires Inv(t, cycles) && Runs(t, schedule)
    ensures |schedule| <= Work(t.phils)
    ensures var u := After(t, schedule);
            && Shape(u) && ((forall i :: !Enabled(u, i)) <==> |schedule| == Work(t.phils))
            && (|schedule| == Work(t.phils) ==> AllDone(u, cycles))
  {
    var u := After(t, schedule);
    RunKeeps(t, cycles, schedule);
    WorkBounds(u.phils);
    if Work(u.phils) > 0 {
      var i :| 0 <= i < |u.phils| && u.phils[i].left > 0;
      var j := DeadlockFree(u, cycles, i);
      assert Enabled(u, j);
    } else {
      DoneAtRest(u, cycles);
    }
  }

  ghost predicate AllDone(t: Table, cycles: nat) {
    && (forall i :: 0 <= i < |t.phils| ==> t.phils[i] == Phil(0, 0, cycles))
    && (forall f :: 0 <= f < |t.forks| ==> t.forks[f] == 1)
    && t.updateLock == 1 && t.printLock == 1
  }

  lemma DoneAtRest(t: Table, cycles: nat)
    requires Inv(t, cycles) && forall i :: 0 <= i < |t.phils| ==> t.phils[i].left == 0
    ensures AllDone(t, cycles) && forall i :: !Enabled(t, i)
  {}

  // ----- a single philosopher -----

  // Somebody is not done, and nobody can step.
  ghost predicate Deadlocked(t: Table) {
    && Shape(t) && (exists i :: 0 <= i < |t.phils| && t.phils[i].left > 0)
    && forall i :: 0 <= i < |t.phils| ==> !Enabled(t, i)
  }

  // The state of a table for one, whose two forks are the same.
  ghost function Lone(pc: nat, cycles: nat): Table {
    Table([Phil(pc, cycles, 0)], [Ind(pc < 5)], Ind(!Updating(pc)), Ind(!Printing(pc)))
  }

  function Zeros(k: nat): seq<nat> { seq(k, _ => 0) }

  lemma {:induction false} LoneRuns(pc: nat, cycles: nat)
    requires pc <= 9 && cycles > 0
    ensures Runs(Lone(pc, cycles), Zeros(9 - pc)) && After(Lone(pc, cycles), Zeros(9 - pc)) == Lone(9, cycles)
    decreases 9 - pc
  {
    if pc < 9 {
      assert Step(Lone(pc, cycles), 0) == Lone(pc + 1, cycles);
      assert Zeros(9 - pc)[1..] == Zeros(9 - (pc + 1));
      LoneRuns(pc + 1, cycles);
    }
  }

  // The protocol can deadlock exactly when there is only one philosopher.
  lemma DeadlockIff(n: nat, cycles: nat)
    requires n >= 1 && cycles >= 1
    ensures (exists schedule :: Runs(Init(n, cycles), schedule) && Deadlocked(After(Init(n, cycles), schedule)))
       <==> n == 1
  {
    if n == 1 {
      assert Init(n, cycles) == Lone(0, cycles);
      LoneRuns(0, cycles);
      var t := Lone(9, cycles);
      assert t.phils[0].left > 0 && At(t.phils[0].pc) == TakeSecond && t.forks[0] == 0;
      assert !Enabled(t, 0);
      assert Deadlocked(t);
    } else {
      forall schedule | Runs(Init(n, cycles), schedule) ensures !Deadlocked(After(Init(n, cycles), schedule)) {
        NeverDeadlocked(n, cycles, schedule);
      }
    }
  }

  lemma NeverDeadlocked(n: nat, cycles: nat, schedule: seq<nat>)
    requires n >= 2 && Runs(Init(n, cycles), schedule)
    ensures !Deadlocked(After(Init(n, cycles), schedule))
  {
    var t := After(Init(n, cycles), schedule);
    InitInv(n, cycles);
    RunKeeps(Init(n, cycles), cycles, schedule);
    if i :| 0 <= i < |t.phils| && t.phils[i].left > 0 { var j := DeadlockFree(t, cycles, i); }
  }

  // ----- the shared semaphores -----

  // The program's global state, one philosopher's instruction executed at a time.
  class Hall {
    const pc: array<nat>
    const left: array<nat>
    const eaten: array<nat>
    const forks: array<nat>
    var updateLock: nat
    var printLock: nat

    ghost predicate Valid()
      reads this
    {
      && pc.Length == left.Length == eaten.Length == forks.Length
      && pc != left && pc != eaten && pc != forks && left != eaten && left != forks && eaten != forks
    }

    ghost function Value(): Table
      requires Valid()
      reads this, pc, left, eaten, forks
    {
      Table(seq(pc.Length, i requires 0 <= i < pc.Length && Valid() reads this, pc, left, eaten =>
                  Phil(pc[i], left[i], eaten[i])),
            forks[..], updateLock, printLock)
    }

    // main, up to the creation of the threads
    constructor (n: nat, cycles: int)
      ensures Valid() && Value() == Init(n, cycles)
    {
      pc := new nat[n](_ => 0);
      left := new nat[n](_ => if cycles > 0 then cycles else 0);
      eaten := new nat[n](_ => 0);
      forks := new nat[n](_ => 1);
      updateLock, printLock := 1, 1;
    }

    // The next instruction of philosopher i, which can be executed.
    method Execute(i: nat)
      requires Valid() && Shape(Value()) && Enabled(Value(), i)
      modifies this, pc, left, eaten, forks
      ensures Valid() && Value() == Step(old(Value()), i)
    {
      var n := pc.Length;
      var leftFork, rightFork := i, (i + 1) % n;
      assert rightFork == Right(i, n);
      var first, second := if i % 2 == 0 then rightFork else leftFork, if i % 2 == 0 then leftFork else rightFork;
      match At(pc[i]) {
        case LockUpdate => updateLock := updateLock - 1;
        case LockPrint => printLock := printLock - 1;
        case UnlockPrint => printLock := printLock + 1;
        case UnlockUpdate => updateLock := updateLock + 1;
        case TakeFirst => forks[first] := forks[first] - 1;
        case TakeSecond => forks[second] := forks[second] - 1;
        case PutFirst => forks[first] := forks[first] + 1;
        case PutSecond => forks[second] := forks[second] + 1;
        case Dawdle =>
      }
      Advance(i);
    }

    method Advance(i: nat)
      requires Valid() && i < pc.Length && left[i] > 0
      modifies pc, left, eaten
      ensures Value() == old(Value()).(phils := old(Value()).phils[i := Next(old(Value()).phils[i])])
    {
      if pc[i] == EAT {
        eaten[i] := eaten[i] + 1;
      }
      pc[i] := pc[i] + 1;
      if pc[i] == CYCLE {
        pc[i] := 0;
        left[i] := left[i] - 1;
      }
    }
  }
}
