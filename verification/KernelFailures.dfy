/**
 * Runs from boot, put together step by step: processes that are created, run, sleep and exit. The two asserts that
 * fail under their guards are each reached by one.
 */
module KernelFailures {
  import opened Common
  import opened Processes
  import opened Kernel
  import opened KernelSafety
  import opened KernelSteps
  import opened KernelExits
  import opened KernelReaps
  import opened KernelRuns

  /** One step more. */
  lemma {:induction false} Extend(k0: Kernel, steps: seq<Action>, k: Kernel, a: Action)
    requires Sized(k0) && Run(k0, steps) == Next(k)
    ensures Run(k0, steps + [a]) == if Step(k, a).Disabled? then Next(k) else Step(k, a)
    decreases |steps|
  {
    if steps == [] {
      StepSized(k, a);
      assert [a][1..] == [];
    } else {
      var k1 := if Step(k0, steps[0]).Next? then Step(k0, steps[0]).k else k0;
      StepSized(k0, steps[0]);
      Extend(k1, steps[1..], k, a);
      assert (steps + [a])[1..] == steps[1..] + [a];
    }
  }

  // ---- Getting a process onto a CPU ----

  ghost predicate NoQueues(queues: seq<seq<nat>>) {
    |queues| == LEVELS && forall l :: 0 <= l < LEVELS ==> queues[l] == []
  }

  lemma PushedPopped(k: Kernel, p: nat, c: nat)
    requires NoQueues(k.queues) && p in k.pushes && c < |k.cpus| && k.cpus[c].mode == Free
    ensures var q := k.(pushes := k.pushes - multiset{p}, queues := k.queues[0 := [p]]);
            && PushStep(k, p, 0) == Next(q)
            && PopStep(q, c) == Next(SetMode(k, c, Popped(p)).(pushes := k.pushes - multiset{p}))
  {
    var q := k.(pushes := k.pushes - multiset{p}, queues := k.queues[0 := [p]]);
    assert k.queues[0] + [p] == [p];
    assert TopLevel(q.queues, 0) == Some(0);
    assert [p][1..] == [];
    assert q.queues[0 := []] == k.queues;
  }

  function Started(k: Kernel, c: nat, p: nat, i: nat): Kernel
    requires c < |k.cpus| && i < |k.procs.table| <= |k.procs.owner| && k.procs.table[i].Some?
  {
    k.(cpus := k.cpus[c := Cpu(On(i, p, AtUser), Some(i))], pushes := k.pushes - multiset{p},
       procs := Put(k.procs, i, k.procs.table[i].value.(state := Running, blockIntent := false, wakePending := false),
         Some(c)))
  }

  ghost predicate Ready(k: Kernel, c: nat, p: nat, i: nat) {
    && Sized(k) && NoQueues(k.queues) && p in k.pushes && c < |k.cpus| && k.cpus[c] == Cpu(Free, None)
    && Has(k.procs.table, i, p) && Find(k.procs.table, p, 0) == Some(i)
    && k.procs.table[i].value.state == Runnable && k.procs.owner[i].None?
  }

  lemma ClaimedEntered(k: Kernel, c: nat, p: nat, i: nat)
    requires Ready(k, c, p, i)
    ensures var k1 := SetMode(k, c, Popped(p)).(pushes := k.pushes - multiset{p});
            ClaimStep(k1, c).Next? && EnterStep(ClaimStep(k1, c).k, c) == Next(Started(k, c, p, i))
  {
    var k1 := SetMode(k, c, Popped(p)).(pushes := k.pushes - multiset{p});
    var k2 := ClaimStep(k1, c).k;
    assert EnterStep(k2, c).k.cpus == k.cpus[c := Cpu(On(i, p, AtUser), Some(i))];
  }

  lemma Extend2(k0: Kernel, steps: seq<Action>, k: Kernel, a: Action, k1: Kernel, b: Action, k2: Kernel)
    requires Sized(k0) && Run(k0, steps) == Next(k) && Sized(k) && Step(k, a) == Next(k1) && Sized(k1)
    requires Step(k1, b) == Next(k2)
    ensures Run(k0, steps + [a] + [b]) == Next(k2)
  {
    Extend(k0, steps, k, a);
    Extend(k0, steps + [a], k1, b);
  }

  lemma Start(k0: Kernel, steps: seq<Action>, k: Kernel, c: nat, p: nat, i: nat)
    returns (steps': seq<Action>, k': Kernel)
    requires Sized(k0) && Run(k0, steps) == Next(k) && Ready(k, c, p, i)
    ensures Run(k0, steps') == Next(k') && k' == Started(k, c, p, i)
  {
    PushedPopped(k, p, c);
    ClaimedEntered(k, c, p, i);
    var k1 := PushStep(k, p, 0).k;
    var k2 := PopStep(k1, c).k;
    k' := Started(k, c, p, i);
    Extend2(k0, steps, k, Push(p, 0), k1, Pop(c), k2);
    Extend2(k0, steps + [Push(p, 0)] + [Pop(c)], k2, Claim(c), ClaimStep(k2, c).k, Enter(c), k');
    steps' := steps + [Push(p, 0)] + [Pop(c)] + [Claim(c)] + [Enter(c)];
  }

  // ---- A process is created ----

  lemma {:induction false} FirstHas(t: Table, p: nat, i: nat, from: nat)
    requires from <= i && Has(t, i, p) && forall j :: from <= j < i ==> !Has(t, j, p)
    ensures Find(t, p, from) == Some(i)
    decreases i - from
  {
    if from < i { FirstHas(t, p, i, from + 1); }
  }

  lemma {:induction false} FirstHole(t: Table, i: nat, from: nat)
    requires from <= i <= |t| && (forall j :: from <= j < i ==> t[j].Some?) && (i < |t| ==> t[i].None?)
    ensures FirstFree(t, from) == if i < |t| then Some(i) else None
    decreases i - from
  {
    if from < i { FirstHole(t, i, from + 1); }
  }

  /** The next process is in slot `i`, runnable and about to be queued. */
  function Joined(k: Kernel, parent: Option<nat>, i: nat): Kernel
    requires i <= |k.procs.table| && i < |k.procs.owner|
  {
    var r, t := Some(NewProc(k.nextPid, parent)), k.procs.table;
    k.(nextPid := k.nextPid + 1, born := k.born + {k.nextPid}, pushes := k.pushes + multiset{k.nextPid},
       procs := Procs(if i < |t| then t[i := r] else t + [r], k.procs.owner[i := None]))
  }

  /** Slot `i` is where the next process goes, and CPU `c` is free to run it. */
  ghost predicate Vacant(k: Kernel, c: nat, i: nat) {
    && Sized(k) && 2 <= k.nextPid < 1000 && i <= |k.procs.table| && i < MAX_PROCESSES
    && (forall j :: 0 <= j < i ==> k.procs.table[j].Some?) && (i < |k.procs.table| ==> k.procs.table[i].None?)
    && (forall j :: 0 <= j < |k.procs.table| && k.procs.table[j].Some? ==> k.procs.table[j].value.pid < k.nextPid)
    && NoQueues(k.queues) && c < |k.cpus| && k.cpus[c] == Cpu(Free, None)
  }

  lemma Joins(k: Kernel, parent: Option<nat>, c: nat, i: nat)
    requires Vacant(k, c, i)
    ensures CreateStep(k, parent) == Next(Joined(k, parent, i)) && Ready(Joined(k, parent, i), c, k.nextPid, i)
  {
    var t, p := k.procs.table, k.nextPid;
    FirstHole(t, i, 0);
    assert i == |t| ==> (t + [None])[i := Some(NewProc(p, parent))] == t + [Some(NewProc(p, parent))];
    FirstHas(Joined(k, parent, i).procs.table, p, i, 0);
  }

  /** The process is created by `a` and gets onto the CPU. */
  lemma JoinAndStart(k0: Kernel, steps: seq<Action>, k: Kernel, a: Action, parent: Option<nat>, c: nat, i: nat)
    returns (steps': seq<Action>, k': Kernel)
    requires Sized(k0) && Run(k0, steps) == Next(k) && Vacant(k, c, i) && Step(k, a) == CreateStep(k, parent)
    ensures Run(k0, steps') == Next(k') && k' == Started(Joined(k, parent, i), c, k.nextPid, i)
  {
    Joins(k, parent, c, i);
    Extend(k0, steps, k, a);
    steps', k' := Start(k0, steps + [a], Joined(k, parent, i), c, k.nextPid, i);
  }

  // ---- Leaving and sleeping ----

  ghost predicate Runs(k: Kernel, c: nat, p: nat, i: nat) {
    && Sized(k) && c < |k.cpus| && k.cpus[c] == Cpu(On(i, p, AtUser), Some(i)) && Has(k.procs.table, i, p)
    && k.procs.table[i].value.state == Running && k.procs.owner[i] == Some(c) && !k.procs.table[i].value.wakePending
  }

  function Leaving(k: Kernel, c: nat, p: nat, i: nat, status: int): Kernel
    requires c < |k.cpus| && i < |k.procs.owner|
  {
    k.(cpus := k.cpus[c := Cpu(On(i, p, AtExitFree(status)), None)],
      procs := k.procs.(owner := k.procs.owner[i := None]))
  }

  lemma LeavingSteps(k: Kernel, c: nat, p: nat, i: nat, status: int)
    requires Runs(k, c, p, i)
    ensures var k2 := SetCpu(k, c, On(i, p, AtExitOff(status)), None);
            && DetachStep(SetMode(k, c, On(i, p, AtExit(status))), c, AtExit(status), AtExitOff(status)) == Next(k2)
            && ReleaseOwnerStep(k2, c) == Next(Leaving(k, c, p, i, status))
  {
    var k1, k2 := SetMode(k, c, On(i, p, AtExit(status))), SetCpu(k, c, On(i, p, AtExitOff(status)), None);
    assert DetachStep(k1, c, AtExit(status), AtExitOff(status)).k.cpus == k2.cpus;
    assert ReleaseOwnerStep(k2, c).k.cpus == Leaving(k, c, p, i, status).cpus;
  }

  lemma Leave(k0: Kernel, steps: seq<Action>, k: Kernel, c: nat, p: nat, i: nat, status: int)
    returns (steps': seq<Action>, k': Kernel)
    requires Sized(k0) && Run(k0, steps) == Next(k) && Runs(k, c, p, i)
    ensures Run(k0, steps') == Next(k') && k' == Leaving(k, c, p, i, status)
  {
    LeavingSteps(k, c, p, i, status);
    var k1, k2 := SetMode(k, c, On(i, p, AtExit(status))), SetCpu(k, c, On(i, p, AtExitOff(status)), None);
    k' := Leaving(k, c, p, i, status);
    Extend2(k0, steps, k, BeginExit(c, status), k1, DetachExit(c), k2);
    Extend(k0, steps + [BeginExit(c, status)] + [DetachExit(c)], k2, ReleaseOwner(c));
    steps' := steps + [BeginExit(c, status)] + [DetachExit(c)] + [ReleaseOwner(c)];
  }

  /** All the way out. */
  lemma LeaveAndDie(k0: Kernel, steps: seq<Action>, k: Kernel, c: nat, p: nat, i: nat, status: int, k': Kernel)
    returns (steps': seq<Action>)
    requires Sized(k0) && Run(k0, steps) == Next(k) && Runs(k, c, p, i)
    requires DieStep(Leaving(k, c, p, i, status), c) == Next(k')
    ensures Run(k0, steps') == Next(k')
  {
    var k1;
    steps', k1 := Leave(k0, steps, k, c, p, i, status);
    assert Step(k1, Die(c)) == Next(k');
    Extend(k0, steps', k1, Die(c));
    steps' := steps' + [Die(c)];
  }

  function Asleep(k: Kernel, c: nat, p: nat, i: nat): Kernel
    requires c < |k.cpus| && i < |k.procs.table| <= |k.procs.owner| && k.procs.table[i].Some?
  {
    k.(cpus := k.cpus[c := Cpu(Free, None)], sleepers := k.sleepers + multiset{p},
       procs := Put(k.procs, i, k.procs.table[i].value.(state := Blocked, blockIntent := false), None))
  }

  /** Registered in the sleep queue, with the intent to block. */
  function Drowsy(k: Kernel, c: nat, p: nat, i: nat): Kernel
    requires c < |k.cpus| && i < |k.procs.table| <= |k.procs.owner| && k.procs.table[i].Some?
  {
    k.(cpus := k.cpus[c := Cpu(On(i, p, AtIntent), Some(i))], sleepers := k.sleepers + multiset{p},
       procs := Put(k.procs, i, k.procs.table[i].value.(blockIntent := true), k.procs.owner[i]))
  }

  lemma DrowsySteps(k: Kernel, c: nat, p: nat, i: nat)
    requires Runs(k, c, p, i) && |k.sleepers| < SLEEP_QUEUE_CAP
    ensures RegisterSleepStep(k, c).Next? && BeginBlockStep(RegisterSleepStep(k, c).k, c) == Next(Drowsy(k, c, p, i))
  {
    var k1 := RegisterSleepStep(k, c).k;
    assert BeginBlockStep(k1, c).k.cpus == Drowsy(k, c, p, i).cpus;
  }

  lemma AsleepSteps(k: Kernel, c: nat, p: nat, i: nat)
    requires Runs(k, c, p, i)
    ensures var k2 := Drowsy(k, c, p, i);
            && DetachStep(k2, c, AtIntent, AtBlockOff).Next?
            && FinishBlockStep(DetachStep(k2, c, AtIntent, AtBlockOff).k, c) == Next(Asleep(k, c, p, i))
  {
    var k3 := DetachStep(Drowsy(k, c, p, i), c, AtIntent, AtBlockOff).k;
    var k4, z := FinishBlockStep(k3, c).k, Asleep(k, c, p, i);
    assert k4.cpus == z.cpus;
    assert k4.procs.table == z.procs.table && k4.procs.owner == z.procs.owner;
  }

  lemma GrowDrowsy(k0: Kernel, steps: seq<Action>, k: Kernel, c: nat, p: nat, i: nat) returns (steps': seq<Action>)
    requires Sized(k0) && Run(k0, steps) == Next(k) && Runs(k, c, p, i) && |k.sleepers| < SLEEP_QUEUE_CAP
    ensures Run(k0, steps') == Next(Drowsy(k, c, p, i))
  {
    DrowsySteps(k, c, p, i);
    Extend(k0, steps, k, RegisterSleep(c));
    Extend(k0, steps + [RegisterSleep(c)], RegisterSleepStep(k, c).k, BeginBlocking(c));
    steps' := steps + [RegisterSleep(c)] + [BeginBlocking(c)];
  }

  lemma FallAsleep(k0: Kernel, steps: seq<Action>, k: Kernel, c: nat, p: nat, i: nat)
    returns (steps': seq<Action>, k': Kernel)
    requires Sized(k0) && Run(k0, steps) == Next(k) && Runs(k, c, p, i) && |k.sleepers| < SLEEP_QUEUE_CAP
    ensures Run(k0, steps') == Next(k') && k' == Asleep(k, c, p, i)
  {
    var steps1 := GrowDrowsy(k0, steps, k, c, p, i);
    var k2 := Drowsy(k, c, p, i);
    AsleepSteps(k, c, p, i);
    steps', k' := steps1 + [DetachBlock(c)] + [FinishBlocking(c)], Asleep(k, c, p, i);
    Extend2(k0, steps1, k2, DetachBlock(c), DetachStep(k2, c, AtIntent, AtBlockOff).k, FinishBlocking(c), k');
  }

  // ---- The sleep queue fills up ----

  /** `n` processes asleep on one CPU, and nothing else. */
  ghost predicate Sleepy(k: Kernel, n: nat) {
    && Sized(k) && k.cpus == [Cpu(Free, None)] && NoQueues(k.queues) && k.pushes == multiset{}
    && |k.sleepers| == n == |k.procs.table| && k.nextPid == n + 2
    && (forall i :: 0 <= i < n ==> k.procs.table[i].Some? && k.procs.table[i].value.pid < n + 2)
    && (forall i :: 0 <= i < MAX_PROCESSES ==> k.procs.owner[i].None?)
  }

  /** With the next process on the CPU, and then with that one asleep as well. */
  lemma OneMore(k: Kernel, n: nat)
    requires Sleepy(k, n) && n <= 128
    ensures Vacant(k, 0, n)
    ensures var k' := Started(Joined(k, None, n), 0, n + 2, n);
            && Runs(k', 0, n + 2, n) && |k'.sleepers| == n
            && (n < 128 ==> Sleepy(Asleep(k', 0, n + 2, n), n + 1))
  {
    var k' := Started(Joined(k, None, n), 0, n + 2, n);
    assert k'.pushes == multiset{};
    assert Asleep(k', 0, n + 2, n).procs.owner == k.procs.owner;
  }

  lemma SleepRound(steps: seq<Action>, k: Kernel, n: nat) returns (steps': seq<Action>, k': Kernel)
    requires Run(Boot(1), steps) == Next(k) && Sleepy(k, n) && n < 128
    ensures Run(Boot(1), steps') == Next(k') && Sleepy(k', n + 1)
  {
    OneMore(k, n);
    steps', k' := JoinAndStart(Boot(1), steps, k, Spawn, None, 0, n);
    steps', k' := FallAsleep(Boot(1), steps', k', 0, n + 2, n);
  }

  lemma {:induction false} ManyAsleep(n: nat) returns (steps: seq<Action>, k: Kernel)
    requires n <= 128
    ensures Run(Boot(1), steps) == Next(k) && Sleepy(k, n)
  {
    if n == 0 {
      steps, k := [], Boot(1);
    } else {
      steps, k := ManyAsleep(n - 1);
      steps, k := SleepRound(steps, k, n - 1);
    }
  }

  /** From boot, on one CPU: 128 processes go to sleep, and the assert in the next one's `sleep` fails. */
  lemma SleepQueueFills() returns (steps: seq<Action>)
    ensures Run(Boot(1), steps) == Failed(SleepQueueFull)
  {
    var k;
    steps, k := ManyAsleep(128);
    OneMore(k, 128);
    steps, k := JoinAndStart(Boot(1), steps, k, Spawn, None, 0, 128);
    Extend(Boot(1), steps, k, RegisterSleep(0));
    steps := steps + [RegisterSleep(0)];
  }

  // ---- Pids run out ----

  /** From any state, creating processes long enough fails the pid assert, even with the table full. */
  lemma {:induction false} PidsRunOut(k: Kernel) returns (steps: seq<Action>)
    requires Sized(k)
    ensures Run(k, steps) == Failed(PidSpace)
    decreases if k.nextPid < PID_LIMIT then PID_LIMIT - k.nextPid else 0
  {
    CreateSized(k, None);
    if k.nextPid >= PID_LIMIT {
      steps := [Spawn];
    } else {
      var k1 := CreateStep(k, None).k;
      var rest := PidsRunOut(k1);
      steps := [Spawn] + rest;
      assert steps[1..] == rest;
    }
  }
}
