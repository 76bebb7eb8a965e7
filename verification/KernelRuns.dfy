/** What holds in every run of the kernel state machine. */
module KernelRuns {
  import opened Common
  import opened Processes
  import opened Kernel
  import opened KernelSafety
  import opened KernelSteps
  import opened KernelExits
  import opened KernelReaps

  /** The two asserts that can fail, and exactly when: the sleep queue is full, or pids have run out. */
  ghost predicate Excused(k: Kernel, a: Action, why: Assertion) {
    || (why == SleepQueueFull && a.RegisterSleep? && At(k, a.cpu, AtUser) && |k.sleepers| >= SLEEP_QUEUE_CAP)
    || (why == PidSpace && (a.Spawn? || a.SpawnFails? || (a.Fork? && At(k, a.cpu, AtUser))) && k.nextPid >= PID_LIMIT)
  }

  /** The invariant is kept, no stale branch taken, and no assertion fails but an excused one. */
  ghost predicate Safe(k: Kernel, a: Action, o: Outcome) {
    match o
    case Disabled => true
    case Next(k') => Inv(k')
    case Stale(_) => false
    case Failed(why) => Excused(k, a, why)
  }

  lemma DispatchKeeps(k: Kernel, a: Action)
    requires Inv(k) && Dispatching(a)
    ensures Safe(k, a, DispatchAction(k, a))
  {
    match a
    case Pop(c) => if c < |k.cpus| && k.cpus[c].mode == Free { PopKeeps(k, c); }
    case Claim(c) => if c < |k.cpus| && k.cpus[c].mode.Popped? { ClaimKeeps(k, c); }
    case Enter(c) => if At(k, c, AtClaimed) { EnterKeeps(k, c); }
    case BeginYield(c) => if At(k, c, AtUser) { MoveKeeps(k, c, AtYield); }
    case DetachYield(c) => if At(k, c, AtYield) { DetachKeeps(k, c, AtYield, AtYieldOff); }
    case Release(c) => if At(k, c, AtYieldOff) { ReleaseKeeps(k, c); }
  }

  lemma BlockingKeeps(k: Kernel, a: Action)
    requires Inv(k) && Blocking(a)
    ensures Safe(k, a, BlockAction(k, a))
  {
    match a
    case Register(c) => if At(k, c, AtUser) { RegisterEntryKeeps(k, c); }
    case RegisterFutex(c) => if At(k, c, AtUser) { RegisterFutexKeeps(k, c); }
    case RegisterSleep(c) => if At(k, c, AtUser) { RegisterSleepKeeps(k, c); }
    case WaitPid(c, target, nohang) => if At(k, c, AtUser) { WaitKeeps(k, c, target, nohang); }
    case BeginBlocking(c) => if At(k, c, AtRegistered) { BeginBlockKeeps(k, c); }
    case DetachBlock(c) => if At(k, c, AtIntent) { DetachKeeps(k, c, AtIntent, AtBlockOff); }
    case FinishBlocking(c) => if At(k, c, AtBlockOff) { FinishBlockKeeps(k, c); }
  }

  lemma LivingKeeps(k: Kernel, a: Action)
    requires Inv(k) && Living(a)
    ensures Safe(k, a, LifeAction(k, a))
  {
    match a
    case Fork(c) => if At(k, c, AtUser) { CreateKeeps(k, Some(k.cpus[c].mode.pid)); }
    case Spawn => CreateKeeps(k, None);
    case SpawnFails => SpawnFailsKeeps(k);
    case BeginExit(c, status) => if At(k, c, AtUser) { MoveKeeps(k, c, AtExit(status)); }
    case DetachExit(c) =>
      if c < |k.cpus| && k.cpus[c].mode.On? && k.cpus[c].mode.stage.AtExit? {
        DetachKeeps(k, c, k.cpus[c].mode.stage, AtExitOff(k.cpus[c].mode.stage.status));
      }
    case ReleaseOwner(c) =>
      if c < |k.cpus| && k.cpus[c].mode.On? && k.cpus[c].mode.stage.AtExitOff? { ReleaseOwnerKeeps(k, c); }
    case Die(c) => if c < |k.cpus| && k.cpus[c].mode.On? && k.cpus[c].mode.stage.AtExitFree? { DieKeeps(k, c); }
    case Deliver(c) => if c < |k.cpus| && k.cpus[c].mode.On? && k.cpus[c].mode.stage.AtDeliver? { DeliverKeeps(k, c); }
  }

  lemma WakingKeeps(k: Kernel, a: Action)
    requires Inv(k) && Waking(a)
    ensures Safe(k, a, WakeAction(k, a))
  {
    match a
    case TakeEntry(p) => TakeKeeps(k, p);
    case TakeFutex(p) => TakeKeeps(k, p);
    case TakeSleeper(p) => TakeKeeps(k, p);
    case WakeUp(p) => if p in k.flights { WakeKeeps(k, p); }
    case Push(p, level) => if p in k.pushes { PushKeeps(k, p, level); }
  }

  lemma ClearingKeeps(k: Kernel, a: Action)
    requires Inv(k) && Clearing(a)
    ensures Safe(k, a, ClearAction(k, a)) <==> !Hit(k, a)
  {
    match a
    case Cascade(c) => if c < |k.cpus| && k.cpus[c].mode.Reaping? { CascadeKeeps(k, c); }
    case Sweep(c) => if c < |k.cpus| && k.cpus[c].mode.Sweeping? { SweepKeeps(k, c); }
  }

  /**
   * A step keeps the invariant, takes no stale branch and fails no assertion but the two excused ones, which
   * fail exactly when their guard says so, if and only if it is not a late section of a reap that hits a slot
   * in use again.
   */
  lemma StepKeeps(k: Kernel, a: Action)
    requires Inv(k)
    ensures Safe(k, a, Step(k, a)) <==> !Hit(k, a)
  {
    if Dispatching(a) {
      DispatchKeeps(k, a);
    } else if Blocking(a) {
      BlockingKeeps(k, a);
    } else if Living(a) {
      LivingKeeps(k, a);
    } else if Clearing(a) {
      ClearingKeeps(k, a);
    } else {
      WakingKeeps(k, a);
    }
  }

  lemma BootInv(cpus: nat)
    ensures Inv(Boot(cpus))
  {
    var k := Boot(cpus);
    forall p: nat ensures Balanced(k, p) {
      CpuCountZero(AsPopped, p, k.cpus);
      CpuCountZero(AsWaiting, p, k.cpus);
      CpuCountZero(AsDelivering, p, k.cpus);
      EmptyQueues(p, k.queues);
    }
  }

  lemma {:induction false} EmptyQueues(p: nat, queues: seq<seq<nat>>)
    requires forall l :: 0 <= l < |queues| ==> queues[l] == []
    ensures Queued(p, queues) == 0
  {
    if queues != [] { EmptyQueues(p, queues[..|queues| - 1]); }
  }

  ghost predicate StaysSized(o: Outcome) {
    o.Next? ==> Sized(o.k)
  }

  lemma DispatchSized(k: Kernel, a: Action)
    requires Sized(k) && Dispatching(a)
    ensures StaysSized(DispatchAction(k, a))
  {}

  lemma BlockingSized(k: Kernel, a: Action)
    requires Sized(k) && Blocking(a)
    ensures StaysSized(BlockAction(k, a))
  {}

  lemma CreateSized(k: Kernel, parent: Option<nat>)
    requires Sized(k)
    ensures StaysSized(CreateStep(k, parent))
  {}

  lemma DieSized(k: Kernel, c: nat)
    requires Sized(k)
    ensures StaysSized(DieStep(k, c))
  {}

  lemma LivingSized(k: Kernel, a: Action)
    requires Sized(k) && Living(a)
    ensures StaysSized(LifeAction(k, a))
  {
    match a
    case Fork(c) => if At(k, c, AtUser) { CreateSized(k, Some(k.cpus[c].mode.pid)); }
    case Spawn => CreateSized(k, None);
    case SpawnFails => CreateSized(k, None);
    case Die(c) => DieSized(k, c);
    case _ =>
  }

  lemma WakingSized(k: Kernel, a: Action)
    requires Sized(k) && Waking(a)
    ensures StaysSized(WakeAction(k, a))
  {}

  lemma StepSized(k: Kernel, a: Action)
    requires Sized(k)
    ensures StaysSized(Step(k, a))
  {
    if Dispatching(a) {
      DispatchSized(k, a);
    } else if Blocking(a) {
      BlockingSized(k, a);
    } else if Living(a) {
      LivingSized(k, a);
    } else if !Clearing(a) {
      WakingSized(k, a);
    }
  }

  /** Where any sequence of steps of any CPUs leads; steps that do not apply are skipped. */
  function Run(k: Kernel, steps: seq<Action>): (o: Outcome)
    requires Sized(k)
    ensures o.Next? ==> Sized(o.k)
    ensures !o.Disabled?
    decreases |steps|
  {
    if steps == [] then Next(k)
    else
      StepSized(k, steps[0]);
      match Step(k, steps[0])
      case Disabled => Run(k, steps[1..])
      case Next(k') => Run(k', steps[1..])
      case Stale(k') => Stale(k')
      case Failed(why) => Failed(why)
  }

  /** No step of the run is a late section of a reap that hits a slot in use again. */
  ghost predicate Clean(k: Kernel, steps: seq<Action>)
    requires Sized(k)
    decreases |steps|
  {
    steps != [] ==>
      && !Hit(k, steps[0])
      && (StepSized(k, steps[0]);
          match Step(k, steps[0])
          case Disabled => Clean(k, steps[1..])
          case Next(k') => Clean(k', steps[1..])
          case _ => true)
  }

  /** A clean run stays within the invariant, or ends in one of the two excused asserts. */
  lemma {:induction false} RunKeeps(k: Kernel, steps: seq<Action>)
    requires Inv(k) && Clean(k, steps)
    ensures var o := Run(k, steps); (o.Next? && Inv(o.k)) || (o.Failed? && o.why in {SleepQueueFull, PidSpace})
    decreases |steps|
  {
    if steps != [] {
      StepKeeps(k, steps[0]);
      match Step(k, steps[0])
      case Disabled => RunKeeps(k, steps[1..]);
      case Next(k') => RunKeeps(k', steps[1..]);
      case _ =>
    }
  }

  // ---- What the invariant says ----

  /** A blocked process is named by exactly one registration, or by exactly one wake in flight. */
  lemma BlockedNamedOnce(k: Kernel, i: nat)
    requires Inv(k) && i < |k.procs.table| && k.procs.table[i].Some? && k.procs.table[i].value.state == Blocked
    ensures var r := k.procs.table[i].value;
            k.entries[r.pid] + k.futexes[r.pid] + k.sleepers[r.pid] + (if r.waitTarget.Some? then 1 else 0)
            + k.flights[r.pid] + CpuCount(AsDelivering, r.pid, k.cpus) == 1
  {
    var r := k.procs.table[i].value;
    WaitingOnce(k, r.pid);
    RecordTidy(k, i);
    CountIs(AsBlocked, r.pid, k.procs.table, i);
    CountIs(AsPending, r.pid, k.procs.table, i);
  }

  ghost predicate IsRunnable(t: Table, p: nat) {
    exists i: nat :: Has(t, i, p) && t[i].value.state == Runnable
  }

  /**
   * A process has one scheduling ticket exactly when it is runnable and not what a failed spawn left; others have none.
   */
  lemma RunnableTicket(k: Kernel, p: nat)
    requires Inv(k)
    ensures Tickets(k, p) <= 1
    ensures Tickets(k, p) == 1 <==> IsRunnable(k.procs.table, p) && p !in k.abandoned
    ensures p in k.abandoned ==> IsRunnable(k.procs.table, p)
  {
    assert Balanced(k, p);
    if i: nat :| Has(k.procs.table, i, p) && k.procs.table[i].value.state == Runnable {
      CountIs(AsRunnable, p, k.procs.table, i);
    } else if Tickets(k, p) + Left(k.abandoned, p) > 0 {
      var i := CountPositive(AsRunnable, p, k.procs.table);
    }
  }

  /** A CPU's current slot is its own and is running; runnable, blocked and zombie slots have no owner. */
  lemma OwnershipExclusive(k: Kernel, c: nat, i: nat)
    requires Inv(k)
    ensures c < |k.cpus| && k.cpus[c].current == Some(i) ==>
              i < |k.procs.table| && k.procs.table[i].Some? && k.procs.table[i].value.state == Running
              && k.procs.owner[i] == Some(c)
    ensures i < |k.procs.table| && k.procs.table[i].Some? && k.procs.table[i].value.state != Running ==>
              k.procs.owner[i].None?
  {
    if c < |k.cpus| { HoldsAt(k, c); }
    if i < |k.procs.table| && k.procs.owner[i].Some? { HoldsAt(k, k.procs.owner[i].value); }
  }

  /**
   * Each status is delivered at most once, as it was at exit, to the parent of that moment, and to a wait that matches.
   */
  lemma DeliveredOnce(k: Kernel, d: nat, e: nat)
    requires Inv(k) && d < |k.delivered| && e < |k.delivered|
    ensures k.delivered[d].what.child == k.delivered[e].what.child ==> d == e
    ensures k.delivered[d].what.child in k.exits && k.exits[k.delivered[d].what.child] == k.delivered[d].what
    ensures k.delivered[d].spec.Matches(k.delivered[d].what.child)
  {}

  /**
   * No status is lost: it was delivered, or waits as a zombie, or its parent is no more; and no live process loses its
   * record.
   */
  lemma NoStatusLost(k: Kernel, p: nat)
    requires Inv(k)
    ensures p in k.exits ==>
              || (exists d :: 0 <= d < |k.delivered| && k.delivered[d].what == k.exits[p])
              || (exists i: nat :: Has(k.procs.table, i, p) && k.procs.table[i].value.state == Zombie)
              || !Present(k.procs.table, k.exits[p].parent)
    ensures p in k.born && p !in k.gone ==>
              exists i: nat :: Has(k.procs.table, i, p) && k.procs.table[i].value.state != Zombie
  {
    if p in k.exits && Received(k.delivered, p) {
      var d :| 0 <= d < |k.delivered| && k.delivered[d].what.child == p;
      assert k.delivered[d].what == k.exits[p];
    } else if p in k.exits && Present(k.procs.table, p) {
      var i: nat :| Has(k.procs.table, i, p);
      assert k.procs.table[i].value.state == Zombie;
    }
    if p in k.born && p !in k.gone {
      var i: nat :| Has(k.procs.table, i, p);
      assert k.procs.table[i].value.state != Zombie;
    }
  }

  /** A wait that is registered has no zombie to collect: it was taken in the same section that made the zombie. */
  lemma NoMissedExit(k: Kernel, i: nat, j: nat, target: nat)
    requires Inv(k) && i < |k.procs.table| && j < |k.procs.table| && k.procs.table[i].Some?
    requires k.procs.table[i].value.waitTarget == Some(SpecOf(target))
    ensures !Collectable(k.procs.table[j], k.procs.table[i].value.pid, target)
  {}

  // ---- No wake is lost ----

  /** CPU `c` is on its way to block `p`, and a wake has been latched. */
  ghost predicate Latched(k: Kernel, c: nat, i: nat, p: nat) {
    && c < |k.cpus| && k.cpus[c].mode.On? && k.cpus[c].mode.slot == i && k.cpus[c].mode.pid == p
    && WaitStage(k.cpus[c].mode.stage) && Has(k.procs.table, i, p) && k.procs.table[i].value.wakePending
  }

  lemma LatchClaim(k: Kernel, d: nat, c: nat, i: nat, p: nat)
    requires Inv(k) && Latched(k, c, i, p) && d < |k.cpus| && ClaimStep(k, d).Next?
    ensures Latched(ClaimStep(k, d).k, c, i, p)
  {
    HoldsAt(k, c);
    CpuCountAtLeast(AsPopped, k.cpus[d].mode.pid, k.cpus, d);
    var j := TicketRunnable(k, k.cpus[d].mode.pid);
  }

  /** What the step of CPU `d` needs to know about the CPU that is blocking. */
  ghost predicate Apart(k: Kernel, c: nat, i: nat, d: nat) {
    && c < |k.cpus| && Holds(k.procs, c, k.cpus[c]) && AloneOn(k.cpus, c, i)
    && (d < |k.cpus| ==> Holds(k.procs, d, k.cpus[d]))
  }

  lemma HeldApart(k: Kernel, c: nat, i: nat, p: nat, d: nat)
    requires Held(k) && Latched(k, c, i, p)
    ensures Apart(k, c, i, d)
  {
    Alone(k, c);
  }

  lemma LatchDispatch(k: Kernel, a: Action, c: nat, i: nat, p: nat)
    requires Sized(k) && Latched(k, c, i, p) && Dispatching(a) && !a.Claim? && Apart(k, c, i, a.cpu)
    requires DispatchAction(k, a).Next?
    ensures Latched(DispatchAction(k, a).k, c, i, p)
  {}

  lemma LatchWait(k: Kernel, d: nat, target: nat, nohang: bool, c: nat, i: nat, p: nat)
    requires Latched(k, c, i, p) && Apart(k, c, i, d) && WaitStep(k, d, target, nohang).Next?
    ensures Latched(WaitStep(k, d, target, nohang).k, c, i, p)
  {}

  lemma LatchBlock(k: Kernel, a: Action, c: nat, i: nat, p: nat)
    requires Sized(k) && Latched(k, c, i, p) && Blocking(a) && a != FinishBlocking(c)
    requires Apart(k, c, i, a.cpu) && BlockAction(k, a).Next?
    ensures Latched(BlockAction(k, a).k, c, i, p)
  {
    if a.WaitPid? { LatchWait(k, a.cpu, a.target, a.nohang, c, i, p); }
  }

  lemma LatchDie(k: Kernel, d: nat, c: nat, i: nat, p: nat)
    requires Latched(k, c, i, p) && Apart(k, c, i, d) && DieStep(k, d).Next?
    ensures Latched(DieStep(k, d).k, c, i, p)
  {}

  lemma LatchCreate(k: Kernel, parent: Option<nat>, c: nat, i: nat, p: nat)
    requires Sized(k) && Latched(k, c, i, p) && CreateStep(k, parent).Next?
    ensures Latched(CreateStep(k, parent).k, c, i, p)
  {}

  lemma LatchLife(k: Kernel, a: Action, c: nat, i: nat, p: nat)
    requires Sized(k) && Latched(k, c, i, p) && Living(a) && !a.Spawn? && !a.SpawnFails? && Apart(k, c, i, a.cpu)
    requires LifeAction(k, a).Next?
    ensures Latched(LifeAction(k, a).k, c, i, p)
  {
    if a.Die? {
      LatchDie(k, a.cpu, c, i, p);
    } else if a.Fork? {
      LatchCreate(k, Some(k.cpus[a.cpu].mode.pid), c, i, p);
    }
  }

  lemma LatchClear(k: Kernel, a: Action, c: nat, i: nat, p: nat)
    requires Latched(k, c, i, p) && Clearing(a) && !Hit(k, a) && Apart(k, c, i, a.cpu) && ClearAction(k, a).Next?
    ensures Latched(ClearAction(k, a).k, c, i, p)
  {}

  lemma LatchWake(k: Kernel, a: Action, c: nat, i: nat, p: nat)
    requires Sized(k) && Latched(k, c, i, p) && Waking(a) && k.procs.table[i].value.state == Running
    requires WakeAction(k, a).Next?
    ensures Latched(WakeAction(k, a).k, c, i, p)
  {}

  /** What a CPU does by itself. */
  lemma LatchCpu(k: Kernel, a: Action, c: nat, i: nat, p: nat)
    requires Sized(k) && Latched(k, c, i, p) && a != FinishBlocking(c) && !Hit(k, a) && Step(k, a).Next?
    requires !a.Claim? && !a.Spawn? && !a.SpawnFails? && !Waking(a) && Apart(k, c, i, a.cpu)
    ensures Latched(Step(k, a).k, c, i, p)
  {
    if Dispatching(a) {
      LatchDispatch(k, a, c, i, p);
    } else if Blocking(a) {
      LatchBlock(k, a, c, i, p);
    } else if Living(a) {
      LatchLife(k, a, c, i, p);
    } else {
      LatchClear(k, a, c, i, p);
    }
  }

  /** What no CPU in particular does. */
  lemma LatchOther(k: Kernel, a: Action, c: nat, i: nat, p: nat)
    requires Sized(k) && Latched(k, c, i, p) && (a.Spawn? || a.SpawnFails? || Waking(a)) && Step(k, a).Next?
    requires k.procs.table[i].value.state == Running
    ensures Latched(Step(k, a).k, c, i, p)
  {
    if Waking(a) { LatchWake(k, a, c, i, p); } else { LatchCreate(k, None, c, i, p); }
  }

  /** A latched wake stays latched, whatever any CPU does, until its own CPU finishes blocking. */
  lemma LatchStays(k: Kernel, a: Action, c: nat, i: nat, p: nat)
    requires Inv(k) && Latched(k, c, i, p) && a != FinishBlocking(c) && !Hit(k, a) && Step(k, a).Next?
    ensures Latched(Step(k, a).k, c, i, p)
  {
    HoldsAt(k, c);
    if a.Claim? {
      LatchClaim(k, a.cpu, c, i, p);
    } else if a.Spawn? || a.SpawnFails? || Waking(a) {
      LatchOther(k, a, c, i, p);
    } else {
      HeldApart(k, c, i, p, a.cpu);
      LatchCpu(k, a, c, i, p);
    }
  }

  /** A running process with a wake in flight is on its way to block. */
  lemma BlockerOf(k: Kernel, p: nat, i: nat) returns (c: nat)
    requires Inv(k) && p in k.flights && Has(k.procs.table, i, p) && k.procs.table[i].value.state == Running
    ensures c < |k.cpus| && k.cpus[c].mode.On? && k.cpus[c].mode.slot == i && k.cpus[c].mode.pid == p
    ensures WaitStage(k.cpus[c].mode.stage)
  {
    WaitingOnce(k, p);
    CountIs(AsBlocked, p, k.procs.table, i);
    c := CpuCountPositive(AsWaiting, p, k.cpus);
    HoldsAt(k, c);
  }

  /** A wake in flight, when it lands, makes its process runnable or latches on the CPU that is blocking it. */
  lemma WakeLands(k: Kernel, p: nat) returns (i: nat)
    requires Inv(k) && p in k.flights
    ensures Step(k, WakeUp(p)).Next? && Has(Step(k, WakeUp(p)).k.procs.table, i, p)
    ensures var k' := Step(k, WakeUp(p)).k;
            || k'.procs.table[i].value.state == Runnable
            || exists c :: Latched(k', c, i, p)
  {
    i := FlightTarget(k, p);
    if k.procs.table[i].value.state == Running {
      var c := BlockerOf(k, p, i);
      assert Latched(Step(k, WakeUp(p)).k, c, i, p);
    }
  }

  /** When its CPU finishes blocking it, a latched process becomes runnable. */
  lemma LatchRuns(k: Kernel, c: nat, i: nat, p: nat)
    requires Inv(k) && Latched(k, c, i, p) && At(k, c, AtBlockOff)
    ensures Step(k, FinishBlocking(c)).Next?
    ensures var k' := Step(k, FinishBlocking(c)).k;
            Has(k'.procs.table, i, p) && k'.procs.table[i].value.state == Runnable
  {
    FinishBlockKeeps(k, c);
    HoldsAt(k, c);
  }

  /** Over any clean run of any CPUs, a latched wake waits for exactly that. */
  lemma {:induction false} LatchOverRun(k: Kernel, steps: seq<Action>, c: nat, i: nat, p: nat)
    requires Inv(k) && Latched(k, c, i, p) && FinishBlocking(c) !in steps && Clean(k, steps) && Run(k, steps).Next?
    ensures Latched(Run(k, steps).k, c, i, p)
    decreases |steps|
  {
    if steps != [] {
      StepKeeps(k, steps[0]);
      if Step(k, steps[0]).Next? {
        LatchStays(k, steps[0], c, i, p);
        LatchOverRun(Step(k, steps[0]).k, steps[1..], c, i, p);
      } else {
        LatchOverRun(k, steps[1..], c, i, p);
      }
    }
  }

  // ---- Every reachable state ----

  ghost predicate NamedOnce(k: Kernel, i: nat)
    requires i < |k.procs.table| && k.procs.table[i].Some?
  {
    var r := k.procs.table[i].value;
    k.entries[r.pid] + k.futexes[r.pid] + k.sleepers[r.pid] + (if r.waitTarget.Some? then 1 else 0)
    + k.flights[r.pid] + CpuCount(AsDelivering, r.pid, k.cpus) == 1
  }

  predicate Awaits(e: Option<Proc>, target: nat) {
    e.Some? && e.value.waitTarget == Some(SpecOf(target))
  }

  /**
   * The promises: blocked and named once, runnable and ticketed, current and owned, no wait beside a
   * zombie that it matches, each status delivered once and to a wait that matches, none lost, and no live
   * process without its record.
   */
  ghost predicate Sound(k: Kernel) {
    var t := k.procs.table;
    && (forall i :: 0 <= i < |t| && t[i].Some? && t[i].value.state == Blocked ==> NamedOnce(k, i))
    && (forall p: nat :: Tickets(k, p) <= 1 && (Tickets(k, p) == 1 <==> IsRunnable(t, p) && p !in k.abandoned))
    && (forall c, i: nat :: 0 <= c < |k.cpus| && k.cpus[c].current == Some(i) ==>
          i < |t| && i < |k.procs.owner| && t[i].Some? && t[i].value.state == Running && k.procs.owner[i] == Some(c))
    && (forall i, j, target: nat :: 0 <= i < |t| && 0 <= j < |t| && Awaits(t[i], target) ==>
          !Collectable(t[j], t[i].value.pid, target))
    && (forall d, e :: 0 <= d < |k.delivered| && 0 <= e < |k.delivered| ==>
          (k.delivered[d].what.child == k.delivered[e].what.child ==> d == e))
    && (forall d :: 0 <= d < |k.delivered| ==>
          && k.delivered[d].what.child in k.exits && k.exits[k.delivered[d].what.child] == k.delivered[d].what
          && k.delivered[d].spec.Matches(k.delivered[d].what.child))
    && Conserved(t, k.exits, k.delivered)
    && (forall p :: p in k.born && p !in k.gone ==> Present(t, p))
  }

  lemma InvSound(k: Kernel)
    requires Inv(k)
    ensures Sound(k)
  {
    forall i | 0 <= i < |k.procs.table| && k.procs.table[i].Some? && k.procs.table[i].value.state == Blocked
      ensures NamedOnce(k, i)
    {
      BlockedNamedOnce(k, i);
    }
    forall p: nat
      ensures Tickets(k, p) <= 1 && (Tickets(k, p) == 1 <==> IsRunnable(k.procs.table, p) && p !in k.abandoned)
    {
      RunnableTicket(k, p);
    }
    forall c, i: nat | 0 <= c < |k.cpus| && k.cpus[c].current == Some(i)
      ensures i < |k.procs.table| && k.procs.table[i].Some? && k.procs.table[i].value.state == Running
      ensures i < |k.procs.owner| && k.procs.owner[i] == Some(c)
    {
      OwnershipExclusive(k, c, i);
    }
    forall i, j, target: nat | 0 <= i < |k.procs.table| && 0 <= j < |k.procs.table| && Awaits(k.procs.table[i], target)
      ensures !Collectable(k.procs.table[j], k.procs.table[i].value.pid, target)
    {
      NoMissedExit(k, i, j, target);
    }
    forall d, e | 0 <= d < |k.delivered| && 0 <= e < |k.delivered|
      ensures k.delivered[d].what.child == k.delivered[e].what.child ==> d == e
    {
      DeliveredOnce(k, d, e);
    }
  }

  /** On any number of CPUs, after any clean steps in any order, nothing has failed but the two excused asserts. */
  lemma EveryRun(cpus: nat, steps: seq<Action>)
    requires Clean(Boot(cpus), steps)
    ensures var o := Run(Boot(cpus), steps);
            (o.Next? && Sound(o.k)) || (o.Failed? && o.why in {SleepQueueFull, PidSpace})
  {
    BootInv(cpus);
    RunKeeps(Boot(cpus), steps);
    var o := Run(Boot(cpus), steps);
    if o.Next? { InvSound(o.k); }
  }
}
