/**
 * The process and scheduler state machine of `microkernel/src/process.rs` and `scheduler.rs` on
 * any number of CPUs. Every critical section is one step; steps of different CPUs interleave freely.
 */
module Kernel {
  import opened Common
  import opened Processes

  const LEVELS: nat := 4
  const SLEEP_QUEUE_CAP: nat := 128
  const FUTEX_TABLE_CAP: nat := 128
  const PID_LIMIT: nat := 0x1_0000_0000

  /** Where a CPU stands in the life of the process it has claimed. */
  datatype Stage =
    | AtClaimed                 // claimed, CURRENT_SLOT not yet set
    | AtUser                    // running the process or one of its system calls
    | AtRegistered              // registered for a wake, not yet blocking
    | AtIntent                  // begin_block done
    | AtBlockOff                // CURRENT_SLOT cleared, finish_block to come
    | AtYield | AtYieldOff      // yielding, before and after CURRENT_SLOT is cleared
    | AtExit(status: int)       // exiting, then the same with CURRENT_SLOT cleared,
    | AtExitOff(status: int)    //   then with the owner entry released as well
    | AtExitFree(status: int)
    | AtDeliver(parent: nat, spec: WaitSpec)  // the exit result goes to the parent that waits for `spec`

  /**
   * `Reaping`: after the first section of `full_reap` for slot `seed`, with the slots still to be visited,
   * the next one last. `Sweeping`: clearing what `CURRENT_SLOT` entries from `next` on still name the seed.
   */
  datatype Mode =
    | Free | Popped(pid: nat) | On(slot: nat, pid: nat, stage: Stage)
    | Reaping(seed: nat, todo: seq<nat>) | Sweeping(seed: nat, next: nat)

  datatype Cpu = Cpu(mode: Mode, current: Option<nat>)

  datatype Delivery = Delivery(parent: nat, child: nat, status: int)

  /** A delivery that was made, and the wait that it completed. */
  datatype Receipt = Receipt(what: Delivery, spec: WaitSpec)

  /**
   * `pushes` are the pids published as runnable and about to be queued, `flights` those that a
   * wake source has taken out and is about to wake. `entries` are the channel waiters, `futexes`
   * the futex table, `sleepers` the sleep queue. `exits` and `delivered` record what exited as a zombie
   * and what was handed to a parent, `born` and `gone` which processes were created and which have exited,
   * `abandoned` those whose record was placed and whose loading then failed.
   */
  datatype Kernel = Kernel(
    procs: Procs, cpus: seq<Cpu>, queues: seq<seq<nat>>,
    pushes: multiset<nat>, entries: multiset<nat>, futexes: multiset<nat>, sleepers: multiset<nat>,
    flights: multiset<nat>,
    nextPid: nat, exits: map<nat, Delivery>, delivered: seq<Receipt>, born: set<nat>, gone: set<nat>,
    abandoned: set<nat>)

  datatype Action =
    | Pop(cpu: nat) | Claim(cpu: nat) | Enter(cpu: nat)
    | Register(cpu: nat) | RegisterFutex(cpu: nat) | RegisterSleep(cpu: nat)
    | WaitPid(cpu: nat, target: nat, nohang: bool)
    | Fork(cpu: nat) | Spawn | SpawnFails
    | BeginYield(cpu: nat) | DetachYield(cpu: nat) | Release(cpu: nat)
    | BeginBlocking(cpu: nat) | DetachBlock(cpu: nat) | FinishBlocking(cpu: nat)
    | BeginExit(cpu: nat, status: int) | DetachExit(cpu: nat) | ReleaseOwner(cpu: nat)
    | Die(cpu: nat) | Deliver(cpu: nat)
    | Cascade(cpu: nat) | Sweep(cpu: nat)
    | TakeEntry(pid: nat) | TakeFutex(pid: nat) | TakeSleeper(pid: nat) | WakeUp(pid: nat) | Push(pid: nat, level: nat)

  /**
   * `Disabled`: the action does not apply. `Stale`: it took a branch that is there for a queue
   * entry or wake that no longer fits. `Failed`: an assertion of the source failed.
   */
  datatype Outcome = Disabled | Next(k: Kernel) | Stale(k: Kernel) | Failed(why: Assertion)

  // ---- The run queues ----

  /** The first non-empty level, highest priority first. */
  function TopLevel(queues: seq<seq<nat>>, from: nat): (r: Option<nat>)
    requires from <= |queues|
    ensures r.Some? ==> from <= r.value < |queues| && queues[r.value] != []
    ensures r.Some? ==> forall i :: from <= i < r.value ==> queues[i] == []
    ensures r.None? ==> forall i :: from <= i < |queues| ==> queues[i] == []
    decreases |queues| - from
  {
    if from == |queues| then None
    else if queues[from] != [] then Some(from)
    else TopLevel(queues, from + 1)
  }

  // ---- Steps ----

  function SetMode(k: Kernel, c: nat, m: Mode): Kernel
    requires c < |k.cpus|
  {
    k.(cpus := k.cpus[c := k.cpus[c].(mode := m)])
  }

  function SetCpu(k: Kernel, c: nat, m: Mode, current: Option<nat>): Kernel
    requires c < |k.cpus|
  {
    k.(cpus := k.cpus[c := Cpu(m, current)])
  }

  function PopStep(k: Kernel, c: nat): Outcome
    requires c < |k.cpus|
  {
    if k.cpus[c].mode != Free then Disabled
    else
      match TopLevel(k.queues, 0)
      case None => Next(SetCpu(k, c, Free, None))
      case Some(l) =>
        Next(SetMode(k, c, Popped(k.queues[l][0])).(queues := k.queues[l := k.queues[l][1..]]))
  }

  function ClaimStep(k: Kernel, c: nat): Outcome
    requires c < |k.cpus| && |k.procs.table| <= |k.procs.owner|
  {
    if !k.cpus[c].mode.Popped? then Disabled
    else
      var pid := k.cpus[c].mode.pid;
      match ClaimRunnable(k.procs, pid, c)
      case NotClaimed => Stale(SetMode(k, c, Free))
      case ClaimFailed(why) => Failed(why)
      case Claimed(procs, slot) => Next(SetMode(k, c, On(slot, pid, AtClaimed)).(procs := procs))
  }

  predicate At(k: Kernel, c: nat, stage: Stage) {
    c < |k.cpus| && k.cpus[c].mode.On? && k.cpus[c].mode.stage == stage
  }

  function EnterStep(k: Kernel, c: nat): Outcome {
    if !At(k, c, AtClaimed) then Disabled
    else
      var m := k.cpus[c].mode;
      Next(SetCpu(k, c, m.(stage := AtUser), Some(m.slot)))
  }

  /** A stage change that touches nothing else. */
  function MoveStage(k: Kernel, c: nat, from: Stage, to: Stage): Outcome {
    if !At(k, c, from) then Disabled else Next(SetMode(k, c, k.cpus[c].mode.(stage := to)))
  }

  function RegisterStep(k: Kernel, c: nat): Outcome {
    if !At(k, c, AtUser) then Disabled
    else
      var m := k.cpus[c].mode;
      Next(SetMode(k, c, m.(stage := AtRegistered)).(entries := k.entries + multiset{m.pid}))
  }

  /** A full futex table refuses the wait; the process goes on. */
  function RegisterFutexStep(k: Kernel, c: nat): Outcome {
    if !At(k, c, AtUser) then Disabled
    else if |k.futexes| >= FUTEX_TABLE_CAP then Next(k)
    else
      var m := k.cpus[c].mode;
      Next(SetMode(k, c, m.(stage := AtRegistered)).(futexes := k.futexes + multiset{m.pid}))
  }

  function RegisterSleepStep(k: Kernel, c: nat): Outcome {
    if !At(k, c, AtUser) then Disabled
    else if |k.sleepers| >= SLEEP_QUEUE_CAP then Failed(SleepQueueFull)
    else
      var m := k.cpus[c].mode;
      Next(SetMode(k, c, m.(stage := AtRegistered)).(sleepers := k.sleepers + multiset{m.pid}))
  }

  /** `waitpid_step`: collect a zombie, or register the exact target and block, or neither. */
  function WaitStep(k: Kernel, c: nat, target: nat, nohang: bool): Outcome {
    if !At(k, c, AtUser) then Disabled
    else
      var m := k.cpus[c].mode;
      if m.slot >= |k.procs.table| || k.procs.table[m.slot].None? then Next(k)
      else
        var me := k.procs.table[m.slot].value;
        match WaitScan(k.procs.table, me.pid, target, 0, false)
        case Collect(slot, pid, code) =>
          Next(k.(procs := k.procs.(table := k.procs.table[slot := None]),
                  delivered := k.delivered + [Receipt(Delivery(me.pid, pid, code), SpecOf(target))]))
        case NoChild => Next(k)
        case Block =>
          if nohang then Next(k)
          else
            var me' := me.(waitTarget := Some(SpecOf(target)));
            Next(SetMode(k, c, m.(stage := AtRegistered)).(
                   procs := k.procs.(table := k.procs.table[m.slot := Some(me')])))
  }

  function NewProc(pid: nat, parent: Option<nat>): Proc {
    Proc(pid, Runnable, false, false, parent, false, None, None)
  }

  /** Creating a process; a full table still uses up a pid. */
  function CreateStep(k: Kernel, parent: Option<nat>): Outcome
    requires |k.procs.table| <= MAX_PROCESSES == |k.procs.owner|
  {
    if k.nextPid >= PID_LIMIT then Failed(PidSpace)
    else
      var pid, k1 := k.nextPid, k.(nextPid := NextPidRaw(k.nextPid));
      match AllocSlot(k.procs)
      case None => Next(k1)
      case Some((procs, slot)) =>
        Next(k1.(procs := procs.(table := procs.table[slot := Some(NewProc(pid, parent))]),
                 pushes := k.pushes + multiset{pid}, born := k.born + {pid}))
  }

  /**
   * `spawn_user_from_image` when loading fails: `spawn` has placed the record, and nobody queues it or takes it out.
   */
  function SpawnFailsStep(k: Kernel): Outcome
    requires |k.procs.table| <= MAX_PROCESSES == |k.procs.owner|
  {
    var o := CreateStep(k, None);
    if !o.Next? || AllocSlot(k.procs).None? then o
    else Next(o.k.(pushes := k.pushes, abandoned := k.abandoned + {k.nextPid}))
  }

  function ForkStep(k: Kernel, c: nat): Outcome
    requires |k.procs.table| <= MAX_PROCESSES == |k.procs.owner|
  {
    if !At(k, c, AtUser) then Disabled else CreateStep(k, Some(k.cpus[c].mode.pid))
  }

  /** `detach_current` on the way to the given stage. */
  function DetachStep(k: Kernel, c: nat, from: Stage, to: Stage): Outcome {
    if !At(k, c, from) then Disabled
    else
      var m := k.cpus[c].mode;
      if k.cpus[c].current != Some(m.slot) then Failed(DetachMismatch)
      else Next(SetCpu(k, c, m.(stage := to), None))
  }

  function ReleaseStep(k: Kernel, c: nat): Outcome
    requires |k.procs.table| <= |k.procs.owner|
  {
    if !At(k, c, AtYieldOff) then Disabled
    else
      match ReleaseRunning(k.procs, k.cpus[c].mode.slot, c)
      case NotReleased => Stale(SetMode(k, c, Free))
      case ReleaseFailed(why) => Failed(why)
      case Released(procs, pid) => Next(SetMode(k, c, Free).(procs := procs, pushes := k.pushes + multiset{pid}))
  }

  /** `block_current`: `current_slot` must name a slot, and that slot must be running here. */
  function BeginBlockStep(k: Kernel, c: nat): Outcome
    requires |k.procs.table| <= |k.procs.owner|
  {
    if !At(k, c, AtRegistered) then Disabled
    else if k.cpus[c].current.None? then Failed(NoCurrent)
    else
      match BeginBlock(k.procs, k.cpus[c].current.value, c)
      case Err(why) => Failed(why)
      case Ok(procs) =>
        Next(SetMode(k, c, k.cpus[c].mode.(slot := k.cpus[c].current.value, stage := AtIntent)).(procs := procs))
  }

  function FinishBlockStep(k: Kernel, c: nat): Outcome
    requires |k.procs.table| <= |k.procs.owner|
  {
    if !At(k, c, AtBlockOff) then Disabled
    else
      match FinishBlock(k.procs, k.cpus[c].mode.slot, c)
      case FinishFailed(why) => Failed(why)
      case NowBlocked(procs) => Next(SetMode(k, c, Free).(procs := procs))
      case Requeue(procs, pid) => Next(SetMode(k, c, Free).(procs := procs, pushes := k.pushes + multiset{pid}))
  }

  function ReleaseOwnerStep(k: Kernel, c: nat): Outcome
    requires |k.procs.table| <= |k.procs.owner|
  {
    if c >= |k.cpus| || !k.cpus[c].mode.On? || !k.cpus[c].mode.stage.AtExitOff? then Disabled
    else
      var m := k.cpus[c].mode;
      match ReleaseOwnerForExit(k.procs, m.slot, c)
      case Err(why) => Failed(why)
      case Ok(procs) => Next(SetMode(k, c, m.(stage := AtExitFree(m.stage.status))).(procs := procs))
  }

  /**
   * The exit section: drop the futex entries, then stay as a zombie, taking the registration of
   * a parent that waits for just this, or begin to be reaped.
   */
  function DieStep(k: Kernel, c: nat): Outcome {
    if c >= |k.cpus| || !k.cpus[c].mode.On? || !k.cpus[c].mode.stage.AtExitFree? then Disabled
    else
      var m, t := k.cpus[c].mode, k.procs.table;
      if m.slot >= |t| || t[m.slot].None? then Stale(SetMode(k, c, Free))
      else
        var me := t[m.slot].value;
        var parent := LiveParent(t, me.parent);
        if !StaysZombie(me.parent, parent.Some?, me.adopted) then
          Next(SetMode(k, c, Reaping(m.slot, Cleared(t[m.slot := None], me.pid, 0))).(
                 procs := k.procs.(table := FullReap(t, m.slot)), futexes := k.futexes[me.pid := 0],
                 gone := k.gone + {me.pid}))
        else
          var t1 := t[m.slot := Some(me.(exitCode := Some(m.stage.status), state := Zombie))];
          var k1 := k.(exits := k.exits[me.pid := Delivery(me.parent.value, me.pid, m.stage.status)],
                       futexes := k.futexes[me.pid := 0], gone := k.gone + {me.pid});
          var target := t1[parent.value].value.waitTarget;
          if target.Some? && target.value.Matches(me.pid) then
            var t2 := t1[parent.value := Some(t1[parent.value].value.(waitTarget := None))];
            Next(SetMode(k1, c, m.(stage := AtDeliver(me.parent.value, target.value))).(procs := k.procs.(table := t2)))
          else Next(SetMode(k1, c, Free).(procs := k.procs.(table := t1)))
  }

  /** The result is written for the parent, the zombie consumed, and the parent woken. */
  function DeliverStep(k: Kernel, c: nat): Outcome {
    if c >= |k.cpus| || !k.cpus[c].mode.On? || !k.cpus[c].mode.stage.AtDeliver? then Disabled
    else
      var m, t := k.cpus[c].mode, k.procs.table;
      var k1 := SetMode(k, c, Free).(flights := k.flights + multiset{m.stage.parent});
      if m.slot >= |t| || t[m.slot].None? || t[m.slot].value.exitCode.None? then Stale(k1)
      else
        var what := Delivery(m.stage.parent, t[m.slot].value.pid, t[m.slot].value.exitCode.value);
        Next(k1.(procs := k.procs.(table := t[m.slot := None]),
                 delivered := k.delivered + [Receipt(what, m.stage.spec)]))
  }

  /** The visiting stack of `full_reap` has as many places as there are slots. */
  function Stacked(rest: seq<nat>, more: seq<nat>): seq<nat> {
    if |rest| + |more| <= MAX_PROCESSES then rest + more else (rest + more)[..MAX_PROCESSES]
  }

  /**
   * A later section of `full_reap`: visit the last slot of the list. It was cleared before, but the lock has
   * been free since; whatever record is there now is taken out, and its children dealt with.
   */
  function CascadeStep(k: Kernel, c: nat): Outcome {
    if c >= |k.cpus| || !k.cpus[c].mode.Reaping? then Disabled
    else
      var m, t := k.cpus[c].mode, k.procs.table;
      if m.todo == [] then Next(SetMode(k, c, Sweeping(m.seed, 0)))
      else
        var s, rest := m.todo[|m.todo| - 1], m.todo[..|m.todo| - 1];
        if s >= |t| || t[s].None? then Next(SetMode(k, c, Reaping(m.seed, rest)))
        else
          Next(SetMode(k, c, Reaping(m.seed, Stacked(rest, Cleared(t[s := None], t[s].value.pid, 0)))).(
                 procs := k.procs.(table := FullReap(t, s))))
  }

  /** `clear_current_slot_if`, one CPU's entry at a time. */
  function SweepStep(k: Kernel, c: nat): Outcome {
    if c >= |k.cpus| || !k.cpus[c].mode.Sweeping? then Disabled
    else
      var m := k.cpus[c].mode;
      if m.next >= |k.cpus| then Next(SetMode(k, c, Free))
      else
        var k1 := if k.cpus[m.next].current == Some(m.seed)
                  then k.(cpus := k.cpus[m.next := k.cpus[m.next].(current := None)]) else k;
        Next(SetMode(k1, c, Sweeping(m.seed, m.next + 1)))
  }

  function TakeEntryStep(k: Kernel, p: nat): Outcome {
    if p !in k.entries then Disabled
    else Next(k.(entries := k.entries - multiset{p}, flights := k.flights + multiset{p}))
  }

  function TakeFutexStep(k: Kernel, p: nat): Outcome {
    if p !in k.futexes then Disabled
    else Next(k.(futexes := k.futexes - multiset{p}, flights := k.flights + multiset{p}))
  }

  function TakeSleeperStep(k: Kernel, p: nat): Outcome {
    if p !in k.sleepers then Disabled
    else Next(k.(sleepers := k.sleepers - multiset{p}, flights := k.flights + multiset{p}))
  }

  function WakeStep(k: Kernel, p: nat): Outcome
    requires |k.procs.table| <= |k.procs.owner|
  {
    if p !in k.flights then Disabled
    else
      var k1 := k.(flights := k.flights - multiset{p});
      match RequestWake(k.procs, p)
      case WakeFailed(why) => Failed(why)
      case Ignore => Stale(k1)
      case Pending(procs) => Next(k1.(procs := procs))
      case Enqueue(procs, pid) => Next(k1.(procs := procs, pushes := k.pushes + multiset{pid}))
  }

  function PushStep(k: Kernel, p: nat, level: nat): Outcome
    requires |k.queues| == LEVELS
  {
    if p !in k.pushes then Disabled
    else
      var l := if level < LEVELS then level else LEVELS - 1;
      if |k.queues[l]| >= MAX_PROCESSES then Failed(RunQueueFull)
      else Next(k.(pushes := k.pushes - multiset{p}, queues := k.queues[l := k.queues[l] + [p]]))
  }

  predicate Sized(k: Kernel) {
    |k.procs.table| <= MAX_PROCESSES == |k.procs.owner| && |k.queues| == LEVELS
  }

  predicate Dispatching(a: Action) {
    a.Pop? || a.Claim? || a.Enter? || a.BeginYield? || a.DetachYield? || a.Release?
  }

  function DispatchAction(k: Kernel, a: Action): Outcome
    requires Sized(k) && Dispatching(a)
  {
    match a
    case Pop(c) => if c < |k.cpus| then PopStep(k, c) else Disabled
    case Claim(c) => if c < |k.cpus| then ClaimStep(k, c) else Disabled
    case Enter(c) => EnterStep(k, c)
    case BeginYield(c) => MoveStage(k, c, AtUser, AtYield)
    case DetachYield(c) => DetachStep(k, c, AtYield, AtYieldOff)
    case Release(c) => ReleaseStep(k, c)
  }

  predicate Blocking(a: Action) {
    || a.Register? || a.RegisterFutex? || a.RegisterSleep? || a.WaitPid?
    || a.BeginBlocking? || a.DetachBlock? || a.FinishBlocking?
  }

  function BlockAction(k: Kernel, a: Action): Outcome
    requires Sized(k) && Blocking(a)
  {
    match a
    case Register(c) => RegisterStep(k, c)
    case RegisterFutex(c) => RegisterFutexStep(k, c)
    case RegisterSleep(c) => RegisterSleepStep(k, c)
    case WaitPid(c, target, nohang) => WaitStep(k, c, target, nohang)
    case BeginBlocking(c) => BeginBlockStep(k, c)
    case DetachBlock(c) => DetachStep(k, c, AtIntent, AtBlockOff)
    case FinishBlocking(c) => FinishBlockStep(k, c)
  }

  predicate Creating(a: Action) {
    a.Fork? || a.Spawn? || a.SpawnFails?
  }

  predicate Living(a: Action) {
    Creating(a) || a.BeginExit? || a.DetachExit? || a.ReleaseOwner? || a.Die? || a.Deliver?
  }

  function LifeAction(k: Kernel, a: Action): Outcome
    requires Sized(k) && Living(a)
  {
    match a
    case Fork(c) => ForkStep(k, c)
    case Spawn => CreateStep(k, None)
    case SpawnFails => SpawnFailsStep(k)
    case BeginExit(c, status) => MoveStage(k, c, AtUser, AtExit(status))
    case DetachExit(c) =>
      if c < |k.cpus| && k.cpus[c].mode.On? && k.cpus[c].mode.stage.AtExit?
      then DetachStep(k, c, k.cpus[c].mode.stage, AtExitOff(k.cpus[c].mode.stage.status)) else Disabled
    case ReleaseOwner(c) => ReleaseOwnerStep(k, c)
    case Die(c) => DieStep(k, c)
    case Deliver(c) => DeliverStep(k, c)
  }

  predicate Clearing(a: Action) {
    a.Cascade? || a.Sweep?
  }

  function ClearAction(k: Kernel, a: Action): Outcome
    requires Clearing(a)
  {
    match a
    case Cascade(c) => CascadeStep(k, c)
    case Sweep(c) => SweepStep(k, c)
  }

  predicate Waking(a: Action) {
    a.TakeEntry? || a.TakeFutex? || a.TakeSleeper? || a.WakeUp? || a.Push?
  }

  function WakeAction(k: Kernel, a: Action): Outcome
    requires Sized(k) && Waking(a)
  {
    match a
    case TakeEntry(p) => TakeEntryStep(k, p)
    case TakeFutex(p) => TakeFutexStep(k, p)
    case TakeSleeper(p) => TakeSleeperStep(k, p)
    case WakeUp(p) => WakeStep(k, p)
    case Push(p, level) => PushStep(k, p, level)
  }

  function Step(k: Kernel, a: Action): Outcome
    requires Sized(k)
  {
    if Dispatching(a) then DispatchAction(k, a)
    else if Blocking(a) then BlockAction(k, a)
    else if Living(a) then LifeAction(k, a)
    else if Clearing(a) then ClearAction(k, a)
    else WakeAction(k, a)
  }

  function Boot(cpus: nat): Kernel {
    Kernel(Procs([], seq(MAX_PROCESSES, i => None)), seq(cpus, i => Cpu(Free, None)), seq(LEVELS, i => []),
           multiset{}, multiset{}, multiset{}, multiset{}, multiset{}, 2, map[], [], {}, {}, {})
  }
}
