/**
 * Zombies and the records of their parents. A zombie whose parent has no record is collected by nobody. The first
 * section of a reap takes the zombie children out, but not their own, and the other two ways in which a record goes
 * do not look at children at all.
 */
module KernelZombies {
  import opened Common
  import opened Processes
  import opened Kernel
  import opened KernelSafety
  import opened KernelSteps
  import opened KernelExits
  import opened KernelReaps
  import opened KernelRuns
  import opened KernelFailures

  predicate IsZombie(t: Table, j: nat) {
    j < |t| && t[j].Some? && t[j].value.state == Zombie && t[j].value.parent.Some?
  }

  /** The parent of every zombie has a record. */
  ghost predicate Parented(t: Table) {
    forall j: nat :: IsZombie(t, j) ==> Present(t, t[j].value.parent.value)
  }

  predicate ZombieChild(t: Table, i: nat, j: nat) {
    i < |t| && t[i].Some? && IsZombie(t, j) && j != i && t[j].value.parent.value == t[i].value.pid
  }

  /** Taking the record out of slot `i` leaves a zombie child of it behind. */
  ghost predicate LeavesChild(t: Table, i: nat) {
    exists j: nat :: ZombieChild(t, i, j)
  }

  /** Reaping slot `i` takes out a zombie child that has a zombie child of its own. */
  ghost predicate LeavesGrandchild(t: Table, i: nat) {
    exists z: nat, j: nat :: ZombieChild(t, i, z) && ZombieChild(t, z, j) && j != i
  }

  /** A record is taken out by itself, when its status is collected or delivered. */
  lemma TakenParented(t: Table, i: nat)
    requires DistinctPids(t) && Parented(t) && i < |t| && t[i].Some?
    ensures Parented(t[i := None]) <==> !LeavesChild(t, i)
  {
    var t', p := t[i := None], t[i].value.pid;
    forall q, h: nat | Has(t, h, q) && q != p ensures Present(t', q) { assert Has(t', h, q); }
    forall h: nat ensures !Has(t', h, p) {
      if h < i { assert !Has(t, h, p); } else if i < h { assert !Has(t, h, p); }
    }
    if j: nat :| ZombieChild(t, i, j) {
      assert IsZombie(t', j);
    } else {
      forall j: nat | IsZombie(t', j) ensures Present(t', t'[j].value.parent.value) {
        assert IsZombie(t, j) && !ZombieChild(t, i, j);
      }
    }
  }

  /** A record is taken out with its zombie children, by a section of a reap. */
  lemma ReapedParented(t: Table, i: nat)
    requires DistinctPids(t) && Parented(t) && i < |t| && t[i].Some?
    ensures Parented(FullReap(t, i)) <==> !LeavesGrandchild(t, i)
  {
    var t', p := FullReap(t, i), t[i].value.pid;
    if z: nat, j: nat :| ZombieChild(t, i, z) && ZombieChild(t, z, j) && j != i {
      NotItself(t, i, z);
      assert IsZombie(t', j) && t'[j] == t[j];
      forall h: nat ensures !Has(t', h, t[z].value.pid) {
        if Has(t', h, t[z].value.pid) { SameSlot(t, h, z); }
      }
    } else {
      forall j: nat | IsZombie(t', j) ensures Present(t', t'[j].value.parent.value) {
        SurvivorParented(t, i, j);
      }
    }
  }

  lemma SameSlot(t: Table, h: nat, z: nat)
    requires DistinctPids(t) && z < |t| && t[z].Some? && Has(t, h, t[z].value.pid)
    ensures h == z
  {
    if h < z {
    } else if z < h {
    }
  }

  lemma NotItself(t: Table, i: nat, z: nat)
    requires DistinctPids(t) && ZombieChild(t, i, z)
    ensures t[z].value.pid != t[i].value.pid
  {
    if t[z].value.pid == t[i].value.pid { SameSlot(t, z, i); }
  }

  lemma SurvivorParented(t: Table, i: nat, j: nat)
    requires DistinctPids(t) && Parented(t) && i < |t| && t[i].Some? && IsZombie(FullReap(t, i), j)
    requires forall z: nat :: ZombieChild(t, i, z) && ZombieChild(t, z, j) ==> j == i
    ensures Present(FullReap(t, i), t[j].value.parent.value)
  {
    var t', q := FullReap(t, i), t[j].value.parent.value;
    assert IsZombie(t, j) && t'[j] == t[j] && j != i && q != t[i].value.pid;
    var z: nat :| Has(t, z, q);
    assert z != i;
    assert z == j || ZombieChild(t, z, j);
    assert !ZombieChild(t, i, z);
    assert Has(t', z, q);
  }

  // ---- Over the steps of the kernel ----

  lemma SameParented(t: Table, t': Table)
    requires Parented(t) && SamePids(t, t')
    requires forall j: nat :: IsZombie(t', j) ==> IsZombie(t, j) && t[j].value.parent == t'[j].value.parent
    ensures Parented(t')
  {
    forall j: nat | IsZombie(t', j) ensures Present(t', t'[j].value.parent.value) {
      SamePresent(t, t', t[j].value.parent.value);
    }
  }

  /** The records that a step takes out, if it takes out any. */
  function Taking(k: Kernel, a: Action): Option<nat> {
    match a
    case WaitPid(c, target, _) =>
      if At(k, c, AtUser) && k.cpus[c].mode.slot < |k.procs.table| && k.procs.table[k.cpus[c].mode.slot].Some? then
        (match WaitScan(k.procs.table, k.procs.table[k.cpus[c].mode.slot].value.pid, target, 0, false)
         case Collect(s, _, _) => Some(s)
         case _ => None)
      else None
    case Deliver(c) =>
      if c < |k.cpus| && k.cpus[c].mode.On? && k.cpus[c].mode.stage.AtDeliver? then Some(k.cpus[c].mode.slot) else None
    case _ => None
  }

  /** The slot that a section of a reap takes the record out of. */
  function Reaped(k: Kernel, a: Action): Option<nat> {
    match a
    case Die(c) =>
      if c < |k.cpus| && k.cpus[c].mode.On? && k.cpus[c].mode.stage.AtExitFree?
        && k.cpus[c].mode.slot < |k.procs.table| then
        (match k.procs.table[k.cpus[c].mode.slot]
         case Some(me) =>
           if StaysZombie(me.parent, LiveParent(k.procs.table, me.parent).Some?, me.adopted) then None
           else Some(k.cpus[c].mode.slot)
         case None => None)
      else None
    case Cascade(c) =>
      if c < |k.cpus| && k.cpus[c].mode.Reaping? && k.cpus[c].mode.todo != [] then
        var s := k.cpus[c].mode.todo[|k.cpus[c].mode.todo| - 1];
        if s < |k.procs.table| && k.procs.table[s].Some? then Some(s) else None
      else None
    case _ => None
  }

  ghost predicate Strands(k: Kernel, a: Action) {
    || (Taking(k, a).Some? && LeavesChild(k.procs.table, Taking(k, a).value))
    || (Reaped(k, a).Some? && LeavesGrandchild(k.procs.table, Reaped(k, a).value))
  }

  lemma DispatchParented(k: Kernel, a: Action)
    requires Sized(k) && Parented(k.procs.table) && Dispatching(a) && DispatchAction(k, a).Next?
    ensures Parented(DispatchAction(k, a).k.procs.table)
  {
    SameParented(k.procs.table, DispatchAction(k, a).k.procs.table);
  }

  lemma WakeParented(k: Kernel, a: Action)
    requires Sized(k) && Parented(k.procs.table) && Waking(a) && WakeAction(k, a).Next?
    ensures Parented(WakeAction(k, a).k.procs.table)
  {
    SameParented(k.procs.table, WakeAction(k, a).k.procs.table);
  }

  lemma WaitParented(k: Kernel, c: nat, target: nat, nohang: bool)
    requires Parented(k.procs.table) && DistinctPids(k.procs.table) && WaitStep(k, c, target, nohang).Next?
    ensures Parented(WaitStep(k, c, target, nohang).k.procs.table) <==> !Strands(k, WaitPid(c, target, nohang))
  {
    var taking := Taking(k, WaitPid(c, target, nohang));
    if taking.Some? {
      TakenParented(k.procs.table, taking.value);
    } else {
      SameParented(k.procs.table, WaitStep(k, c, target, nohang).k.procs.table);
    }
  }

  lemma BlockParented(k: Kernel, a: Action)
    requires Sized(k) && Parented(k.procs.table) && Blocking(a) && !a.WaitPid? && BlockAction(k, a).Next?
    ensures Parented(BlockAction(k, a).k.procs.table)
  {
    SameParented(k.procs.table, BlockAction(k, a).k.procs.table);
  }

  lemma CreatedParented(k: Kernel, parent: Option<nat>)
    requires Sized(k) && Parented(k.procs.table) && CreateStep(k, parent).Next?
    ensures Parented(CreateStep(k, parent).k.procs.table)
  {
    var t, t' := k.procs.table, CreateStep(k, parent).k.procs.table;
    forall j: nat | IsZombie(t', j) ensures Present(t', t'[j].value.parent.value) {
      assert IsZombie(t, j);
      var h: nat :| Has(t, h, t[j].value.parent.value);
      assert Has(t', h, t[j].value.parent.value);
    }
  }

  lemma DiesParented(k: Kernel, c: nat)
    requires Sized(k) && Parented(k.procs.table) && DistinctPids(k.procs.table) && DieStep(k, c).Next?
    ensures Parented(DieStep(k, c).k.procs.table) <==> !Strands(k, Die(c))
  {
    var t, t' := k.procs.table, DieStep(k, c).k.procs.table;
    if Reaped(k, Die(c)).Some? {
      ReapedParented(t, Reaped(k, Die(c)).value);
    } else {
      var i := k.cpus[c].mode.slot;
      assert Present(t, t[i].value.parent.value);
      forall j: nat | IsZombie(t', j) ensures Present(t', t'[j].value.parent.value) {
        SamePresent(t, t', t'[j].value.parent.value);
      }
    }
  }

  lemma DeliverParented(k: Kernel, c: nat)
    requires Parented(k.procs.table) && DistinctPids(k.procs.table) && DeliverStep(k, c).Next?
    ensures Parented(DeliverStep(k, c).k.procs.table) <==> !Strands(k, Deliver(c))
  {
    TakenParented(k.procs.table, k.cpus[c].mode.slot);
  }

  lemma LifeParented(k: Kernel, a: Action)
    requires Sized(k) && Parented(k.procs.table) && DistinctPids(k.procs.table) && Living(a) && LifeAction(k, a).Next?
    ensures Parented(LifeAction(k, a).k.procs.table) <==> !Strands(k, a)
  {
    match a
    case Fork(c) => CreatedParented(k, Some(k.cpus[c].mode.pid));
    case Spawn => CreatedParented(k, None);
    case SpawnFails => CreatedParented(k, None);
    case Die(c) => DiesParented(k, c);
    case Deliver(c) => DeliverParented(k, c);
    case _ =>
  }

  lemma CascadeParented(k: Kernel, c: nat)
    requires Parented(k.procs.table) && DistinctPids(k.procs.table) && CascadeStep(k, c).Next?
    ensures Parented(CascadeStep(k, c).k.procs.table) <==> !Strands(k, Cascade(c))
  {
    if Reaped(k, Cascade(c)).Some? { ReapedParented(k.procs.table, Reaped(k, Cascade(c)).value); }
  }

  /**
   * No zombie outlives its parent's record, if and only if no step takes out a record that has a zombie child by
   * collecting or delivering it, or one that has a zombie grandchild below a zombie child by reaping it.
   */
  lemma StepParented(k: Kernel, a: Action)
    requires Sized(k) && DistinctPids(k.procs.table) && Parented(k.procs.table) && Step(k, a).Next?
    ensures Parented(Step(k, a).k.procs.table) <==> !Strands(k, a)
  {
    if Dispatching(a) {
      DispatchParented(k, a);
    } else if a.WaitPid? {
      WaitParented(k, a.cpu, a.target, a.nohang);
    } else if Blocking(a) {
      BlockParented(k, a);
    } else if Living(a) {
      LifeParented(k, a);
    } else if a.Cascade? {
      CascadeParented(k, a.cpu);
    } else if Waking(a) {
      WakeParented(k, a);
    }
  }

  ghost predicate StaysParented(k: Kernel, steps: seq<Action>)
    requires Sized(k)
    decreases |steps|
  {
    && Parented(k.procs.table)
    && (steps != [] ==>
          (StepSized(k, steps[0]);
           match Step(k, steps[0])
           case Disabled => StaysParented(k, steps[1..])
           case Next(k') => StaysParented(k', steps[1..])
           case _ => true))
  }

  ghost predicate NeverStrands(k: Kernel, steps: seq<Action>)
    requires Sized(k)
    decreases |steps|
  {
    steps != [] ==>
      (StepSized(k, steps[0]);
       match Step(k, steps[0])
       case Disabled => NeverStrands(k, steps[1..])
       case Next(k') => !Strands(k, steps[0]) && NeverStrands(k', steps[1..])
       case _ => true)
  }

  /** Over every clean run. */
  lemma {:induction false} RunParented(k: Kernel, steps: seq<Action>)
    requires Inv(k) && Parented(k.procs.table) && Clean(k, steps)
    ensures StaysParented(k, steps) <==> NeverStrands(k, steps)
    decreases |steps|
  {
    if steps != [] {
      var a := steps[0];
      StepKeeps(k, a);
      if Step(k, a).Next? {
        StepParented(k, a);
        if !Strands(k, a) { RunParented(Step(k, a).k, steps[1..]); }
      } else if Step(k, a).Disabled? {
        RunParented(k, steps[1..]);
      }
    }
  }

  // ---- A run that strands a zombie ----

  /** Process 2 runs on CPU 0, its child 3 on CPU 1, and that one's child 4 on CPU 2. */
  ghost predicate Trio(k: Kernel) {
    && Sized(k) && |k.cpus| == 3 && |k.procs.table| == 3 && Runs(k, 0, 2, 0) && Runs(k, 1, 3, 1) && Runs(k, 2, 4, 2)
    && k.procs.table[0].value == NewProc(2, None).(state := Running)
    && k.procs.table[1].value == NewProc(3, Some(2)).(state := Running)
    && k.procs.table[2].value == NewProc(4, Some(3)).(state := Running)
  }

  /** Process 2 runs alone on the first of three CPUs. */
  ghost predicate One(k: Kernel) {
    && |k.cpus| == 3 && Vacant(k, 1, 1) && k.cpus[2] == Cpu(Free, None) && k.nextPid == 3 && |k.procs.table| == 1
    && Runs(k, 0, 2, 0) && k.procs.table[0].value == NewProc(2, None).(state := Running)
  }

  /** With its child 3 on the second. */
  ghost predicate Two(k: Kernel) {
    && |k.cpus| == 3 && Vacant(k, 2, 2) && k.nextPid == 4 && |k.procs.table| == 2
    && Runs(k, 0, 2, 0) && k.procs.table[0].value == NewProc(2, None).(state := Running)
    && Runs(k, 1, 3, 1) && k.procs.table[1].value == NewProc(3, Some(2)).(state := Running)
  }

  lemma FirstOfThree()
    ensures Vacant(Boot(3), 0, 0) && One(Started(Joined(Boot(3), None, 0), 0, 2, 0))
  {
  }

  lemma SecondOfThree(k: Kernel)
    requires One(k)
    ensures Two(Started(Joined(k, Some(2), 1), 1, 3, 1))
  {
  }

  lemma ThirdOfThree(k: Kernel)
    requires Two(k)
    ensures Trio(Started(Joined(k, Some(3), 2), 2, 4, 2))
  {
  }

  lemma ReachOne() returns (steps: seq<Action>, k: Kernel)
    ensures Run(Boot(3), steps) == Next(k) && One(k)
  {
    FirstOfThree();
    steps, k := JoinAndStart(Boot(3), [], Boot(3), Spawn, None, 0, 0);
  }

  lemma ReachTwo() returns (steps: seq<Action>, k: Kernel)
    ensures Run(Boot(3), steps) == Next(k) && Two(k)
  {
    steps, k := ReachOne();
    SecondOfThree(k);
    steps, k := JoinAndStart(Boot(3), steps, k, Fork(0), Some(2), 1, 1);
  }

  lemma ReachTrio() returns (steps: seq<Action>, k: Kernel)
    ensures Run(Boot(3), steps) == Next(k) && Trio(k)
  {
    steps, k := ReachTwo();
    ThirdOfThree(k);
    steps, k := JoinAndStart(Boot(3), steps, k, Fork(1), Some(3), 2, 2);
  }

  /** Process 4 is a zombie; 2 and 3 run. */
  ghost predicate Duo(k: Kernel) {
    && Sized(k) && |k.cpus| == 3 && |k.procs.table| == 3 && Runs(k, 0, 2, 0) && Runs(k, 1, 3, 1)
    && k.procs.table[0].value == NewProc(2, None).(state := Running)
    && k.procs.table[1].value == NewProc(3, Some(2)).(state := Running)
    && k.procs.table[2] == Some(NewProc(4, Some(3)).(state := Zombie, exitCode := Some(0)))
  }

  lemma YoungestDies(k: Kernel)
    requires Trio(k)
    ensures var k1 := Leaving(k, 2, 4, 2, 0); DieStep(k1, 2).Next? && Duo(DieStep(k1, 2).k)
  {
    FirstHas(Leaving(k, 2, 4, 2, 0).procs.table, 3, 1, 0);
  }

  /** Process 3 is a zombie too. */
  ghost predicate Solo(k: Kernel) {
    && Sized(k) && |k.cpus| == 3 && |k.procs.table| == 3 && Runs(k, 0, 2, 0)
    && k.procs.table[1] == Some(NewProc(3, Some(2)).(state := Zombie, exitCode := Some(0)))
    && k.procs.table[2] == Some(NewProc(4, Some(3)).(state := Zombie, exitCode := Some(0)))
    && k.procs.table[0].value.parent.None?
  }

  lemma MiddleDies(k: Kernel)
    requires Duo(k)
    ensures var k1 := Leaving(k, 1, 3, 1, 0); DieStep(k1, 1).Next? && Solo(DieStep(k1, 1).k)
  {
    FirstHas(Leaving(k, 1, 3, 1, 0).procs.table, 2, 0, 0);
  }

  lemma ReachDuo() returns (steps: seq<Action>, k: Kernel)
    ensures Run(Boot(3), steps) == Next(k) && Duo(k)
  {
    steps, k := ReachTrio();
    YoungestDies(k);
    var k1 := DieStep(Leaving(k, 2, 4, 2, 0), 2).k;
    steps := LeaveAndDie(Boot(3), steps, k, 2, 4, 2, 0, k1);
    k := k1;
  }

  lemma ReachSolo() returns (steps: seq<Action>, k: Kernel)
    ensures Run(Boot(3), steps) == Next(k) && Solo(k)
  {
    steps, k := ReachDuo();
    MiddleDies(k);
    var k1 := DieStep(Leaving(k, 1, 3, 1, 0), 1).k;
    steps := LeaveAndDie(Boot(3), steps, k, 1, 3, 1, 0, k1);
    k := k1;
  }

  lemma OldestCollects(k: Kernel)
    requires Solo(k)
    ensures var o := WaitStep(k, 0, 0, false); o.Next? && !Parented(o.k.procs.table)
  {
    var t := k.procs.table;
    assert WaitScan(t, 2, 0, 0, false) == WaitScan(t, 2, 0, 1, false) == Collect(1, 3, 0);
    var t' := t[1 := None];
    assert IsZombie(t', 2) && t'[2].value.parent.value == 3;
    assert forall h: nat :: !Has(t', h, 3);
  }

  /** A parent collects a child that had a zombie child itself: that one stays, and has no parent. */
  lemma StrandedZombie() returns (steps: seq<Action>, k: Kernel)
    ensures Run(Boot(3), steps) == Next(k) && !Parented(k.procs.table)
  {
    steps, k := ReachSolo();
    OldestCollects(k);
    Extend(Boot(3), steps, k, WaitPid(0, 0, false));
    steps, k := steps + [WaitPid(0, 0, false)], WaitStep(k, 0, 0, false).k;
  }
}
