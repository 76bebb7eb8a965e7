/**
 * What a spawn leaves when it fails after its record was placed: a runnable process that is never queued. Nothing
 * runs it, wakes it, waits for it or takes it out, and it has its slot for good.
 */
module KernelLeaks {
  import opened Common
  import opened Processes
  import opened Kernel
  import opened KernelSafety
  import opened KernelSteps
  import opened KernelExits
  import opened KernelReaps
  import opened KernelRuns
  import opened KernelFailures

  /** Slot `i` holds the record of `p` as the failed spawn left it. */
  ghost predicate Stuck(k: Kernel, i: nat, p: nat) {
    p in k.abandoned && i < |k.procs.table| && k.procs.table[i] == Some(NewProc(p, None))
  }

  /** Nothing knows of the record in slot `i`. */
  ghost predicate Forgotten(k: Kernel, i: nat, p: nat) {
    && i < |k.procs.table| && k.procs.table[i] == Some(NewProc(p, None))
    && (forall d :: 0 <= d < |k.cpus| ==> k.cpus[d].mode != Popped(p) && k.cpus[d].current != Some(i))
    && (forall d :: 0 <= d < |k.cpus| && k.cpus[d].mode.On? ==> k.cpus[d].mode.slot != i)
  }

  lemma NoTicket(k: Kernel, i: nat, p: nat)
    requires Inv(k) && Stuck(k, i, p)
    ensures Tickets(k, p) == 0
  {
    assert Balanced(k, p);
    CountIs(AsRunnable, p, k.procs.table, i);
  }

  lemma StuckForgotten(k: Kernel, i: nat, p: nat)
    requires Inv(k) && Stuck(k, i, p)
    ensures Forgotten(k, i, p)
  {
    NoTicket(k, i, p);
    forall d | 0 <= d < |k.cpus|
      ensures k.cpus[d].mode != Popped(p) && k.cpus[d].current != Some(i)
              && (k.cpus[d].mode.On? ==> k.cpus[d].mode.slot != i)
    {
      HoldsAt(k, d);
      if k.cpus[d].mode == Popped(p) { CpuCountAtLeast(AsPopped, p, k.cpus, d); }
    }
  }

  /** Not queued or about to be, not registered or about to be woken, owned by no CPU and on none. */
  lemma StuckAlone(k: Kernel, i: nat, p: nat)
    requires Inv(k) && Stuck(k, i, p)
    ensures Tickets(k, p) == 0 && Outstanding(k, p) == 0 && k.procs.owner[i].None?
    ensures forall d :: 0 <= d < |k.cpus| && k.cpus[d].mode.On? ==> k.cpus[d].mode.slot != i
  {
    NoTicket(k, i, p);
    StuckForgotten(k, i, p);
    OwnershipExclusive(k, 0, i);
    if Outstanding(k, p) > 0 {
      var j := WaiterPresent(k, p);
      FindIs(k.procs.table, p, i);
      FindIs(k.procs.table, p, j);
      WaitingOnce(k, p);
      CountIs(AsBlocked, p, k.procs.table, i);
      var c := CpuCountPositive(AsWaiting, p, k.cpus);
      HoldsAt(k, c);
      FindIs(k.procs.table, p, k.cpus[c].mode.slot);
    }
  }

  // ---- No step touches it ----

  lemma DispatchLeaves(k: Kernel, a: Action, i: nat, p: nat)
    requires Sized(k) && Forgotten(k, i, p) && Dispatching(a) && DispatchAction(k, a).Next?
    ensures i < |DispatchAction(k, a).k.procs.table| && DispatchAction(k, a).k.procs.table[i] == k.procs.table[i]
  {}

  lemma BlockLeaves(k: Kernel, a: Action, i: nat, p: nat)
    requires Sized(k) && Forgotten(k, i, p) && Blocking(a) && BlockAction(k, a).Next?
    ensures i < |BlockAction(k, a).k.procs.table| && BlockAction(k, a).k.procs.table[i] == k.procs.table[i]
  {}

  lemma WakeLeaves(k: Kernel, a: Action, i: nat, p: nat)
    requires Sized(k) && Forgotten(k, i, p) && Waking(a) && WakeAction(k, a).Next?
    ensures i < |WakeAction(k, a).k.procs.table| && WakeAction(k, a).k.procs.table[i] == k.procs.table[i]
  {}

  lemma CreateLeaves(k: Kernel, parent: Option<nat>, i: nat)
    requires Sized(k) && i < |k.procs.table| && k.procs.table[i].Some? && CreateStep(k, parent).Next?
    ensures i < |CreateStep(k, parent).k.procs.table| && CreateStep(k, parent).k.procs.table[i] == k.procs.table[i]
  {}

  lemma DieLeaves(k: Kernel, c: nat, i: nat, p: nat)
    requires Forgotten(k, i, p) && DieStep(k, c).Next?
    ensures i < |DieStep(k, c).k.procs.table| && DieStep(k, c).k.procs.table[i] == k.procs.table[i]
  {}

  lemma LifeLeaves(k: Kernel, a: Action, i: nat, p: nat)
    requires Sized(k) && Forgotten(k, i, p) && Living(a) && LifeAction(k, a).Next?
    ensures i < |LifeAction(k, a).k.procs.table| && LifeAction(k, a).k.procs.table[i] == k.procs.table[i]
  {
    match a
    case Fork(c) => CreateLeaves(k, Some(k.cpus[c].mode.pid), i);
    case Spawn => CreateLeaves(k, None, i);
    case SpawnFails => CreateLeaves(k, None, i);
    case Die(c) => DieLeaves(k, c, i, p);
    case _ =>
  }

  lemma ClearLeaves(k: Kernel, a: Action, i: nat, p: nat)
    requires Forgotten(k, i, p) && Clearing(a) && !Hit(k, a) && ClearAction(k, a).Next?
    ensures i < |ClearAction(k, a).k.procs.table| && ClearAction(k, a).k.procs.table[i] == k.procs.table[i]
  {}

  lemma StepLeaves(k: Kernel, a: Action, i: nat, p: nat)
    requires Sized(k) && Forgotten(k, i, p) && !Hit(k, a) && Step(k, a).Next?
    ensures i < |Step(k, a).k.procs.table| && Step(k, a).k.procs.table[i] == k.procs.table[i]
  {
    if Dispatching(a) {
      DispatchLeaves(k, a, i, p);
    } else if Blocking(a) {
      BlockLeaves(k, a, i, p);
    } else if Living(a) {
      LifeLeaves(k, a, i, p);
    } else if Clearing(a) {
      ClearLeaves(k, a, i, p);
    } else {
      WakeLeaves(k, a, i, p);
    }
  }

  /** The spawn fails after its record was placed. */
  predicate Abandons(k: Kernel, a: Action)
    requires Sized(k)
  {
    a.SpawnFails? && AllocSlot(k.procs).Some?
  }

  lemma StepAbandons(k: Kernel, a: Action)
    requires Sized(k) && Step(k, a).Next?
    ensures Step(k, a).k.abandoned == if Abandons(k, a) then k.abandoned + {k.nextPid} else k.abandoned
  {}

  /** Over every clean run the record stays as it is, in its slot. */
  lemma {:induction false} StuckForGood(k: Kernel, steps: seq<Action>, i: nat, p: nat)
    requires Inv(k) && Stuck(k, i, p) && Clean(k, steps) && Run(k, steps).Next?
    ensures Stuck(Run(k, steps).k, i, p)
    decreases |steps|
  {
    if steps != [] {
      var a := steps[0];
      StepKeeps(k, a);
      if Step(k, a).Next? {
        StuckForgotten(k, i, p);
        StepLeaves(k, a, i, p);
        StepAbandons(k, a);
        StuckForGood(Step(k, a).k, steps[1..], i, p);
      } else {
        StuckForGood(k, steps[1..], i, p);
      }
    }
  }

  // ---- Tickets ----

  ghost predicate AllTicketed(k: Kernel) {
    forall p: nat :: IsRunnable(k.procs.table, p) ==> Tickets(k, p) == 1
  }

  /** Every runnable process has its ticket, if and only if no failed spawn left one. */
  lemma TicketedIff(k: Kernel)
    requires Inv(k)
    ensures AllTicketed(k) <==> k.abandoned == {}
  {
    forall p: nat ensures IsRunnable(k.procs.table, p) && Tickets(k, p) != 1 <==> p in k.abandoned {
      RunnableTicket(k, p);
    }
  }

  ghost predicate NeverAbandons(k: Kernel, steps: seq<Action>)
    requires Sized(k)
    decreases |steps|
  {
    steps != [] ==>
      (StepSized(k, steps[0]);
       match Step(k, steps[0])
       case Disabled => NeverAbandons(k, steps[1..])
       case Next(k') => !Abandons(k, steps[0]) && NeverAbandons(k', steps[1..])
       case _ => true)
  }

  lemma {:induction false} RunAbandons(k: Kernel, steps: seq<Action>)
    requires Inv(k) && Clean(k, steps) && Run(k, steps).Next?
    ensures k.abandoned <= Run(k, steps).k.abandoned
    ensures Run(k, steps).k.abandoned == k.abandoned <==> NeverAbandons(k, steps)
    decreases |steps|
  {
    if steps != [] {
      var a := steps[0];
      StepKeeps(k, a);
      if Step(k, a).Next? {
        NotYetAbandoned(k);
        StepAbandons(k, a);
        RunAbandons(Step(k, a).k, steps[1..]);
      } else {
        RunAbandons(k, steps[1..]);
      }
    }
  }

  /**
   * At the end of a clean run from boot every runnable process has its ticket, if and only if no spawn failed on the
   * way.
   */
  lemma RunTicketed(cpus: nat, steps: seq<Action>)
    requires Clean(Boot(cpus), steps) && Run(Boot(cpus), steps).Next?
    ensures AllTicketed(Run(Boot(cpus), steps).k) <==> NeverAbandons(Boot(cpus), steps)
  {
    BootInv(cpus);
    RunKeeps(Boot(cpus), steps);
    RunAbandons(Boot(cpus), steps);
    TicketedIff(Run(Boot(cpus), steps).k);
  }

  // ---- The table fills up ----

  /** A failed spawn has the slot. */
  ghost predicate Lost(k: Kernel, i: nat) {
    i < |k.procs.table| && k.procs.table[i].Some? && Stuck(k, i, k.procs.table[i].value.pid)
  }

  /** `n` spawns have failed, and nothing else has happened. */
  ghost predicate Littered(k: Kernel, n: nat) {
    && Sized(k) && |k.procs.table| == n && k.nextPid == n + 2
    && forall i: nat :: i < n ==> Lost(k, i)
  }

  lemma OneMoreFails(k: Kernel, n: nat)
    requires Littered(k, n) && n < MAX_PROCESSES
    ensures SpawnFailsStep(k).Next? && Littered(SpawnFailsStep(k).k, n + 1)
  {
    assert forall i: nat :: i < n ==> Lost(k, i) && k.procs.table[i].Some?;
    FirstHole(k.procs.table, n, 0);
    var k' := SpawnFailsStep(k).k;
    forall i: nat | i < n + 1 ensures Lost(k', i) {
      if i < n { assert Lost(k, i); }
    }
  }

  /** A run from boot in which `n` spawns fail. */
  lemma {:induction false} ManyFail(cpus: nat, n: nat) returns (steps: seq<Action>, k: Kernel)
    requires n <= MAX_PROCESSES
    ensures Run(Boot(cpus), steps) == Next(k) && Inv(k) && Littered(k, n)
  {
    if n == 0 {
      BootInv(cpus);
      steps, k := [], Boot(cpus);
    } else {
      steps, k := ManyFail(cpus, n - 1);
      OneMoreFails(k, n - 1);
      SpawnFailsKeeps(k);
      Extend(Boot(cpus), steps, k, SpawnFails);
      steps, k := steps + [SpawnFails], SpawnFailsStep(k).k;
    }
  }

  /** One failed spawn: a runnable process without a ticket. */
  lemma FailedSpawn(cpus: nat) returns (steps: seq<Action>, k: Kernel, p: nat)
    ensures Run(Boot(cpus), steps) == Next(k) && IsRunnable(k.procs.table, p) && Tickets(k, p) == 0
  {
    steps, k := ManyFail(cpus, 1);
    assert Lost(k, 0);
    p := k.procs.table[0].value.pid;
    assert Has(k.procs.table, 0, p);
    NoTicket(k, 0, p);
  }

  /** Every slot is taken for good. */
  ghost predicate Choked(k: Kernel) {
    forall i: nat :: i < MAX_PROCESSES ==> Lost(k, i)
  }

  lemma ChokedRefuses(k: Kernel, parent: Option<nat>)
    requires Sized(k) && Choked(k)
    ensures CreateStep(k, parent) ==
              if k.nextPid >= PID_LIMIT then Failed(PidSpace) else Next(k.(nextPid := NextPidRaw(k.nextPid)))
  {
    assert Lost(k, 255);
    forall i: nat | i < |k.procs.table| ensures k.procs.table[i].Some? { assert Lost(k, i); }
  }

  /** After 256 spawns that failed no process is ever created again, whatever steps follow. */
  lemma TableLost(cpus: nat) returns (steps: seq<Action>, k: Kernel)
    ensures Run(Boot(cpus), steps) == Next(k) && Inv(k) && Choked(k)
  {
    steps, k := ManyFail(cpus, MAX_PROCESSES);
  }

  lemma ChokedForGood(k: Kernel, steps: seq<Action>, parent: Option<nat>)
    requires Inv(k) && Choked(k) && Clean(k, steps) && Run(k, steps).Next?
    ensures var k' := Run(k, steps).k;
            && Choked(k')
            && (CreateStep(k', parent).Failed?
              || CreateStep(k', parent) == Next(k'.(nextPid := NextPidRaw(k'.nextPid))))
  {
    var k' := Run(k, steps).k;
    forall i: nat | i < MAX_PROCESSES ensures Lost(k', i) {
      assert Lost(k, i);
      StuckForGood(k, steps, i, k.procs.table[i].value.pid);
    }
    ChokedRefuses(k', parent);
  }
}
