/** Each step of the kernel state machine keeps the invariant and fails no assertion. */
module KernelSteps {
  import opened Common
  import opened Processes
  import opened Kernel
  import opened KernelSafety

  /** A step that went through and left a good state. */
  ghost predicate Fine(o: Outcome) {
    o.Next? && Inv(o.k)
  }

  /** Everything outstanding for `p` that is kept outside the table and the CPUs. */
  ghost function Elsewhere(k: Kernel, p: nat): nat {
    k.entries[p] + k.futexes[p] + k.sleepers[p] + k.flights[p]
  }

  ghost predicate AllBalanced(k: Kernel) {
    forall p: nat :: Balanced(k, p)
  }

  /** A change of CPU `c` from `m` to `m'` and of one record from `e` to `e'` keeps the balance of `p`. */
  ghost predicate Even(k: Kernel, k': Kernel, m: Mode, m': Mode, e: Option<Proc>, e': Option<Proc>, p: nat) {
    && k'.abandoned == k.abandoned
    && Queued(p, k'.queues) + k'.pushes[p] + CpuWeight(AsPopped, p, m') + Weight(AsRunnable, p, e)
       == Queued(p, k.queues) + k.pushes[p] + CpuWeight(AsPopped, p, m) + Weight(AsRunnable, p, e')
    && Elsewhere(k', p) + CpuWeight(AsDelivering, p, m') + Weight(AsPending, p, e')
       + Weight(AsBlocked, p, e) + CpuWeight(AsWaiting, p, m)
       == Elsewhere(k, p) + CpuWeight(AsDelivering, p, m) + Weight(AsPending, p, e)
          + Weight(AsBlocked, p, e') + CpuWeight(AsWaiting, p, m')
  }

  lemma BalanceSlot(k: Kernel, k': Kernel, i: nat, c: nat)
    requires AllBalanced(k) && OneChange(k, k', i, c)
    requires forall p: nat :: Even(k, k', k.cpus[c].mode, k'.cpus[c].mode, k.procs.table[i], k'.procs.table[i], p)
    ensures AllBalanced(k')
  {
    forall p: nat ensures Balanced(k', p) {
      assert Balanced(k, p);
      assert Even(k, k', k.cpus[c].mode, k'.cpus[c].mode, k.procs.table[i], k'.procs.table[i], p);
      RecountCpu(k.cpus, c, k'.cpus[c], p);
      Recount(k.procs.table, i, k'.procs.table[i], p);
    }
  }

  lemma BalanceCpu(k: Kernel, k': Kernel, c: nat)
    requires AllBalanced(k) && c < |k.cpus| && |k'.cpus| == |k.cpus| && k'.cpus == k.cpus[c := k'.cpus[c]]
    requires k'.procs.table == k.procs.table
    requires forall p: nat :: Even(k, k', k.cpus[c].mode, k'.cpus[c].mode, None, None, p)
    ensures AllBalanced(k')
  {
    forall p: nat ensures Balanced(k', p) {
      assert Balanced(k, p);
      assert Even(k, k', k.cpus[c].mode, k'.cpus[c].mode, None, None, p);
      RecountCpu(k.cpus, c, k'.cpus[c], p);
    }
  }

  // ---- Steps that only move a CPU ----

  ghost predicate SameRecords(k: Kernel, k': Kernel) {
    k'.procs == k.procs && SameBooks(k, k')
  }

  lemma HeldCpu(k: Kernel, k': Kernel, c: nat)
    requires Held(k) && c < |k.cpus| && k'.procs == k.procs
    requires |k'.cpus| == |k.cpus| && k'.cpus == k.cpus[c := k'.cpus[c]]
    requires Holds(k'.procs, c, k'.cpus[c])
    requires k.cpus[c].mode.On? <==> k'.cpus[c].mode.On?
    requires k.cpus[c].mode.On? ==>
               && k'.cpus[c].mode.slot == k.cpus[c].mode.slot
               && (OwnerStage(k.cpus[c].mode.stage) <==> OwnerStage(k'.cpus[c].mode.stage))
    ensures Held(k')
  {
    forall d | 0 <= d < |k'.cpus| ensures Holds(k'.procs, d, k'.cpus[d]) {
      if d != c { assert Holds(k.procs, d, k.cpus[d]); }
    }
    forall j | 0 <= j < |k'.procs.table| && k'.procs.table[j].Some? && k'.procs.table[j].value.state == Running
      ensures Manned(k'.cpus, j)
    {
      StillManned(k.cpus, k'.cpus, c, j);
    }
  }

  lemma CpuOnly(k: Kernel, k': Kernel, c: nat)
    requires Inv(k) && c < |k.cpus| && Sized(k') && SameRecords(k, k')
    requires |k'.cpus| == |k.cpus| && k'.cpus == k.cpus[c := k'.cpus[c]]
    requires Holds(k'.procs, c, k'.cpus[c])
    requires k.cpus[c].mode.On? <==> k'.cpus[c].mode.On?
    requires k.cpus[c].mode.On? ==>
               && k'.cpus[c].mode.slot == k.cpus[c].mode.slot
               && (OwnerStage(k.cpus[c].mode.stage) <==> OwnerStage(k'.cpus[c].mode.stage))
    requires forall p: nat :: Even(k, k', k.cpus[c].mode, k'.cpus[c].mode, None, None, p)
    ensures Inv(k')
  {
    HeldCpu(k, k', c);
    BalanceCpu(k, k', c);
  }

  /** The state of the CPU that acts. */
  lemma HoldsAt(k: Kernel, c: nat)
    requires Inv(k) && c < |k.cpus|
    ensures Holds(k.procs, c, k.cpus[c])
  {}

  lemma PopEmpty(k: Kernel, c: nat)
    requires c < |k.cpus| && k.cpus[c] == Cpu(Free, None)
    ensures SetCpu(k, c, Free, None) == k
  {
    assert k.cpus[c := k.cpus[c]] == k.cpus;
  }

  lemma PopEven(k: Kernel, k': Kernel, l: nat, p: nat)
    requires l < |k.queues| && k.queues[l] != [] && k'.queues == k.queues[l := k.queues[l][1..]]
    requires k'.pushes == k.pushes && k'.entries == k.entries && k'.futexes == k.futexes
    requires k'.sleepers == k.sleepers && k'.flights == k.flights && k'.abandoned == k.abandoned
    ensures Even(k, k', Free, Popped(k.queues[l][0]), None, None, p)
  {
    var q := k.queues[l];
    assert q == [q[0]] + q[1..];
    QueuedUpdate(p, k.queues, l, q[1..]);
  }

  lemma PopKeeps(k: Kernel, c: nat)
    requires Inv(k) && c < |k.cpus| && k.cpus[c].mode == Free
    ensures Fine(PopStep(k, c))
  {
    HoldsAt(k, c);
    var top := TopLevel(k.queues, 0);
    if top.None? {
      PopEmpty(k, c);
    } else {
      var k' := PopStep(k, c).k;
      forall p: nat ensures Even(k, k', k.cpus[c].mode, k'.cpus[c].mode, None, None, p) {
        PopEven(k, k', top.value, p);
      }
      CpuOnly(k, k', c);
    }
  }

  lemma EnterKeeps(k: Kernel, c: nat)
    requires Inv(k) && At(k, c, AtClaimed)
    ensures Fine(EnterStep(k, c))
  {
    HoldsAt(k, c);
    CpuOnly(k, EnterStep(k, c).k, c);
  }

  lemma RegisterEntryKeeps(k: Kernel, c: nat)
    requires Inv(k) && At(k, c, AtUser)
    ensures Fine(RegisterStep(k, c))
  {
    HoldsAt(k, c);
    CpuOnly(k, RegisterStep(k, c).k, c);
  }

  lemma RegisterFutexKeeps(k: Kernel, c: nat)
    requires Inv(k) && At(k, c, AtUser)
    ensures Fine(RegisterFutexStep(k, c))
  {
    HoldsAt(k, c);
    if |k.futexes| < FUTEX_TABLE_CAP { CpuOnly(k, RegisterFutexStep(k, c).k, c); }
  }

  /** The sleep queue holds half as many entries as there are processes, and its assert can fail. */
  lemma RegisterSleepKeeps(k: Kernel, c: nat)
    requires Inv(k) && At(k, c, AtUser)
    ensures if |k.sleepers| >= SLEEP_QUEUE_CAP then RegisterSleepStep(k, c) == Failed(SleepQueueFull)
            else Fine(RegisterSleepStep(k, c))
  {
    HoldsAt(k, c);
    if |k.sleepers| < SLEEP_QUEUE_CAP { CpuOnly(k, RegisterSleepStep(k, c).k, c); }
  }

  lemma MoveKeeps(k: Kernel, c: nat, to: Stage)
    requires Inv(k) && At(k, c, AtUser) && (to.AtYield? || to.AtExit?)
    ensures Fine(MoveStage(k, c, AtUser, to))
  {
    HoldsAt(k, c);
    CpuOnly(k, MoveStage(k, c, AtUser, to).k, c);
  }

  lemma DetachKeeps(k: Kernel, c: nat, from: Stage, to: Stage)
    requires Inv(k) && At(k, c, from)
    requires (from == AtYield && to == AtYieldOff) || (from == AtIntent && to == AtBlockOff)
             || (from.AtExit? && to == AtExitOff(from.status))
    ensures Fine(DetachStep(k, c, from, to))
  {
    HoldsAt(k, c);
    CpuOnly(k, DetachStep(k, c, from, to).k, c);
  }

  // ---- Steps that move a CPU and the process it holds ----

  lemma SlotStep(k: Kernel, k': Kernel, i: nat, c: nat)
    requires Inv(k) && Sized(k') && OneChange(k, k', i, c) && AloneOn(k.cpus, c, i)
    requires SameFamily(k.procs.table[i], k'.procs.table[i]) && Tidy(k'.procs.table[i].value)
    requires SameBooks(k, k')
    requires Holds(k'.procs, c, k'.cpus[c])
    requires k'.procs.table[i].value.state == Running ==> k'.cpus[c].mode.On?
    requires k.cpus[c].mode.On? ==> k.cpus[c].mode.slot == i
    requires k'.cpus[c].mode.On? ==> k'.cpus[c].mode.slot == i
    requires k'.procs.owner[i].Some? ==>
               k'.procs.owner[i] == Some(c) && k'.cpus[c].mode.On? && OwnerStage(k'.cpus[c].mode.stage)
    requires forall p: nat :: Even(k, k', k.cpus[c].mode, k'.cpus[c].mode, k.procs.table[i], k'.procs.table[i], p)
    ensures Inv(k')
  {
    HeldStep(k, k', i, c);
    FamilyStep(k, k', i);
    BalanceSlot(k, k', i, c);
  }

  /** A pid with a ticket names a runnable record that no CPU owns or holds. */
  lemma TicketRunnable(k: Kernel, p: nat) returns (i: nat)
    requires Inv(k) && Tickets(k, p) > 0
    ensures Has(k.procs.table, i, p) && k.procs.table[i].value.state == Runnable && k.procs.owner[i].None?
    ensures Find(k.procs.table, p, 0) == Some(i) && Tidy(k.procs.table[i].value)
    ensures forall d :: 0 <= d < |k.cpus| && k.cpus[d].mode.On? ==> k.cpus[d].mode.slot != i
  {
    assert Balanced(k, p);
    i := CountPositive(AsRunnable, p, k.procs.table);
    FindIs(k.procs.table, p, i);
    forall d | 0 <= d < |k.cpus| && k.cpus[d].mode.On? ensures k.cpus[d].mode.slot != i {
      assert Holds(k.procs, d, k.cpus[d]);
    }
  }

  /** The stale-entry branch is never taken, and the claimed slot is never owned by another CPU. */
  lemma ClaimKeeps(k: Kernel, c: nat)
    requires Inv(k) && c < |k.cpus| && k.cpus[c].mode.Popped?
    ensures Fine(ClaimStep(k, c))
  {
    CpuCountAtLeast(AsPopped, k.cpus[c].mode.pid, k.cpus, c);
    var i := TicketRunnable(k, k.cpus[c].mode.pid);
    HoldsAt(k, c);
    SlotStep(k, ClaimStep(k, c).k, i, c);
  }

  /** Two CPUs never carry the same pid. */
  lemma OnePid(k: Kernel, c: nat, d: nat)
    requires Inv(k) && c < |k.cpus| && d < |k.cpus| && k.cpus[c].mode.On? && k.cpus[d].mode.On?
    requires k.cpus[c].mode.pid == k.cpus[d].mode.pid
    ensures c == d
  {
    HoldsAt(k, c);
    HoldsAt(k, d);
    assert k.cpus[c].mode.slot == k.cpus[d].mode.slot;
  }

  /** A process that a CPU runs, and that is not on its way to block, has nothing outstanding. */
  lemma NothingOutstanding(k: Kernel, c: nat)
    requires Inv(k) && c < |k.cpus| && k.cpus[c].mode.On?
    requires !WaitStage(k.cpus[c].mode.stage) && !k.cpus[c].mode.stage.AtDeliver?
    ensures Waiting(k, k.cpus[c].mode.pid) == 0 && Outstanding(k, k.cpus[c].mode.pid) == 0
    ensures Has(k.procs.table, k.cpus[c].mode.slot, k.cpus[c].mode.pid)
    ensures var r := k.procs.table[k.cpus[c].mode.slot].value; !r.wakePending && r.waitTarget.None?
  {
    var p, i := k.cpus[c].mode.pid, k.cpus[c].mode.slot;
    HoldsAt(k, c);
    forall d | 0 <= d < |k.cpus| ensures CpuWeight(AsWaiting, p, k.cpus[d].mode) == 0 {
      if k.cpus[d].mode.On? && k.cpus[d].mode.pid == p { OnePid(k, c, d); }
    }
    CpuCountZero(AsWaiting, p, k.cpus);
    CountIs(AsBlocked, p, k.procs.table, i);
    CountIs(AsPending, p, k.procs.table, i);
    assert Balanced(k, p);
  }

  lemma ReleaseKeeps(k: Kernel, c: nat)
    requires Inv(k) && At(k, c, AtYieldOff)
    ensures Fine(ReleaseStep(k, c))
  {
    HoldsAt(k, c);
    NothingOutstanding(k, c);
    Alone(k, c);
    SlotStep(k, ReleaseStep(k, c).k, k.cpus[c].mode.slot, c);
  }

  lemma BeginBlockKeeps(k: Kernel, c: nat)
    requires Inv(k) && At(k, c, AtRegistered)
    ensures Fine(BeginBlockStep(k, c))
  {
    HoldsAt(k, c);
    Alone(k, c);
    SlotStep(k, BeginBlockStep(k, c).k, k.cpus[c].mode.slot, c);
  }

  lemma RecordTidy(k: Kernel, i: nat)
    requires Inv(k) && i < |k.procs.table| && k.procs.table[i].Some?
    ensures Tidy(k.procs.table[i].value)
  {}

  /** At most one thing is outstanding for any pid. */
  lemma WaitingOnce(k: Kernel, p: nat)
    requires Inv(k)
    ensures Outstanding(k, p) == Waiting(k, p) <= 1
  {
    assert Balanced(k, p);
    if Count(AsBlocked, p, k.procs.table) > 0 {
      var i := CountPositive(AsBlocked, p, k.procs.table);
      CountIs(AsBlocked, p, k.procs.table, i);
      forall d | 0 <= d < |k.cpus| ensures CpuWeight(AsWaiting, p, k.cpus[d].mode) == 0 { HoldsAt(k, d); }
      CpuCountZero(AsWaiting, p, k.cpus);
    } else if CpuCount(AsWaiting, p, k.cpus) > 0 {
      var c := CpuCountPositive(AsWaiting, p, k.cpus);
      forall d | 0 <= d < |k.cpus| && d != c ensures CpuWeight(AsWaiting, p, k.cpus[d].mode) == 0 {
        if k.cpus[d].mode.On? && k.cpus[d].mode.pid == p { OnePid(k, c, d); }
      }
      CpuCountIs(AsWaiting, p, k.cpus, c);
    }
  }

  /** On the way to block, the one thing outstanding is a registration, a wake in flight or the latch. */
  lemma BlockingOnce(k: Kernel, c: nat)
    requires Inv(k) && c < |k.cpus| && k.cpus[c].mode.On? && WaitStage(k.cpus[c].mode.stage)
    ensures Has(k.procs.table, k.cpus[c].mode.slot, k.cpus[c].mode.pid)
    ensures var r := k.procs.table[k.cpus[c].mode.slot].value; r.wakePending ==> r.waitTarget.None?
  {
    var p, i := k.cpus[c].mode.pid, k.cpus[c].mode.slot;
    HoldsAt(k, c);
    WaitingOnce(k, p);
    CountIs(AsPending, p, k.procs.table, i);
  }

  lemma FinishBlockKeeps(k: Kernel, c: nat)
    requires Inv(k) && At(k, c, AtBlockOff)
    ensures Fine(FinishBlockStep(k, c))
  {
    HoldsAt(k, c);
    BlockingOnce(k, c);
    Alone(k, c);
    RecordTidy(k, k.cpus[c].mode.slot);
    SlotStep(k, FinishBlockStep(k, c).k, k.cpus[c].mode.slot, c);
  }

  lemma ReleaseOwnerKeeps(k: Kernel, c: nat)
    requires Inv(k) && c < |k.cpus| && k.cpus[c].mode.On? && k.cpus[c].mode.stage.AtExitOff?
    ensures Fine(ReleaseOwnerStep(k, c))
  {
    HoldsAt(k, c);
    Alone(k, c);
    RecordTidy(k, k.cpus[c].mode.slot);
    SlotStep(k, ReleaseOwnerStep(k, c).k, k.cpus[c].mode.slot, c);
  }

  // ---- Wake sources, wakes and pushes ----

  /** Moving pids between the places where they wait to be dealt with. */
  lemma Shuffle(k: Kernel, k': Kernel)
    requires Inv(k) && Sized(k') && SameRecords(k, k') && k'.cpus == k.cpus
    requires forall p: nat :: Even(k, k', Free, Free, None, None, p)
    ensures Inv(k')
  {
    forall p: nat ensures Balanced(k', p) {
      assert Balanced(k, p);
      assert Even(k, k', Free, Free, None, None, p);
    }
  }

  lemma TakeKeeps(k: Kernel, p: nat)
    requires Inv(k)
    ensures p in k.entries ==> Fine(TakeEntryStep(k, p))
    ensures p in k.futexes ==> Fine(TakeFutexStep(k, p))
    ensures p in k.sleepers ==> Fine(TakeSleeperStep(k, p))
  {
    if p in k.entries { Shuffle(k, TakeEntryStep(k, p).k); }
    if p in k.futexes { Shuffle(k, TakeFutexStep(k, p).k); }
    if p in k.sleepers { Shuffle(k, TakeSleeperStep(k, p).k); }
  }

  ghost function PidSet(t: Table): set<nat> {
    if t == [] then {}
    else PidSet(t[..|t| - 1]) + if t[|t| - 1].Some? then {t[|t| - 1].value.pid} else {}
  }

  lemma {:induction false} PidSetBound(t: Table)
    ensures |PidSet(t)| <= |t|
  {
    if t != [] { PidSetBound(t[..|t| - 1]); }
  }

  lemma {:induction false} PidSetHas(t: Table, i: nat, p: nat)
    requires Has(t, i, p)
    ensures p in PidSet(t)
  {
    if i < |t| - 1 { PidSetHas(t[..|t| - 1], i, p); }
  }

  lemma {:induction false} QueuedIn(p: nat, queues: seq<seq<nat>>, l: nat)
    requires l < |queues|
    ensures Queued(p, queues) >= multiset(queues[l])[p]
  {
    if l < |queues| - 1 { QueuedIn(p, queues[..|queues| - 1], l); }
  }

  /** A queue without repetitions is no longer than a set that covers it. */
  lemma ShortQueue(q: seq<nat>, s: set<nat>)
    requires forall x :: x in q ==> x in s && multiset(q)[x] == 1
    ensures |q| <= |s|
  {
    var xs := set x | x in q;
    assert multiset(q) == multiset(xs);
    Subset(xs, s);
  }

  lemma TicketOnce(k: Kernel, p: nat)
    requires Inv(k) && Tickets(k, p) > 0
    ensures Tickets(k, p) == 1 && p in PidSet(k.procs.table)
  {
    var i := TicketRunnable(k, p);
    assert Balanced(k, p);
    CountIs(AsRunnable, p, k.procs.table, i);
    PidSetHas(k.procs.table, i, p);
  }

  /** Every queue has room for a pid that is about to be pushed: the run-queue-full assert never fails. */
  lemma QueueRoom(k: Kernel, p: nat, l: nat)
    requires Inv(k) && p in k.pushes && l < LEVELS
    ensures |k.queues[l]| < MAX_PROCESSES
  {
    var q, pids := k.queues[l], PidSet(k.procs.table);
    TicketOnce(k, p);
    QueuedIn(p, k.queues, l);
    forall x | x in q ensures x in pids - {p} && multiset(q)[x] == 1 {
      assert multiset(q)[x] >= 1;
      QueuedIn(x, k.queues, l);
      TicketOnce(k, x);
    }
    ShortQueue(q, pids - {p});
    PidSetBound(k.procs.table);
  }

  lemma PushEven(k: Kernel, k': Kernel, l: nat, x: nat, p: nat)
    requires x in k.pushes && l < |k.queues| && k'.queues == k.queues[l := k.queues[l] + [x]]
    requires k'.pushes == k.pushes - multiset{x} && k'.entries == k.entries && k'.futexes == k.futexes
    requires k'.sleepers == k.sleepers && k'.flights == k.flights && k'.abandoned == k.abandoned
    ensures Even(k, k', Free, Free, None, None, p)
  {
    QueuedUpdate(p, k.queues, l, k.queues[l] + [x]);
  }

  lemma PushKeeps(k: Kernel, p: nat, level: nat)
    requires Inv(k) && p in k.pushes
    ensures Fine(PushStep(k, p, level))
  {
    var l := if level < LEVELS then level else LEVELS - 1;
    QueueRoom(k, p, l);
    var k' := PushStep(k, p, level).k;
    forall q: nat ensures Even(k, k', Free, Free, None, None, q) { PushEven(k, k', l, p, q); }
    Shuffle(k, k');
  }

  lemma TableHeld(k: Kernel, k': Kernel, i: nat)
    requires Held(k) && i < |k.procs.table| && k'.cpus == k.cpus && k'.procs.owner == k.procs.owner
    requires |k'.procs.table| == |k.procs.table| && k'.procs.table == k.procs.table[i := k'.procs.table[i]]
    requires k'.procs.table[i].Some? && k.procs.table[i].Some?
    requires k'.procs.table[i].value.state == Running ==> k.procs.table[i].value.state == Running
    requires forall c :: 0 <= c < |k.cpus| && k.cpus[c].mode.On? && k.cpus[c].mode.slot == i ==>
               Holds(k'.procs, c, k.cpus[c])
    ensures Held(k')
  {
    forall d | 0 <= d < |k'.cpus| ensures Holds(k'.procs, d, k'.cpus[d]) { assert Holds(k.procs, d, k.cpus[d]); }
  }

  /** A change of one record that its CPU, if it has one, does not notice. */
  lemma TableStep(k: Kernel, k': Kernel, i: nat)
    requires Inv(k) && Sized(k') && i < |k.procs.table| && k'.cpus == k.cpus && k'.procs.owner == k.procs.owner
    requires |k'.procs.table| == |k.procs.table| && k'.procs.table == k.procs.table[i := k'.procs.table[i]]
    requires SameFamily(k.procs.table[i], k'.procs.table[i]) && Tidy(k'.procs.table[i].value)
    requires SameBooks(k, k')
    requires k'.procs.table[i].value.state == Running ==> k.procs.table[i].value.state == Running
    requires forall c :: 0 <= c < |k.cpus| && k.cpus[c].mode.On? && k.cpus[c].mode.slot == i ==>
               Holds(k'.procs, c, k.cpus[c])
    requires forall p: nat :: Even(k, k', Free, Free, k.procs.table[i], k'.procs.table[i], p)
    ensures Inv(k')
  {
    TableHeld(k, k', i);
    FamilyStep(k, k', i);
    forall p: nat ensures Balanced(k', p) {
      assert Balanced(k, p);
      assert Even(k, k', Free, Free, k.procs.table[i], k'.procs.table[i], p);
      Recount(k.procs.table, i, k'.procs.table[i], p);
    }
  }

  /** A pid with a wake in flight is blocked and unowned, or still on its way with nothing latched yet. */
  lemma FlightTarget(k: Kernel, p: nat) returns (i: nat)
    requires Inv(k) && p in k.flights
    ensures Has(k.procs.table, i, p) && Find(k.procs.table, p, 0) == Some(i)
    ensures var r := k.procs.table[i].value;
            && Tidy(r) && !r.wakePending && r.waitTarget.None?
            && ((r.state == Blocked && k.procs.owner[i].None?) || r.state == Running)
    ensures k.procs.table[i].value.state == Blocked ==>
              forall d :: 0 <= d < |k.cpus| && k.cpus[d].mode.On? ==> k.cpus[d].mode.slot != i
  {
    WaitingOnce(k, p);
    if Count(AsBlocked, p, k.procs.table) > 0 {
      i := CountPositive(AsBlocked, p, k.procs.table);
    } else {
      var c := CpuCountPositive(AsWaiting, p, k.cpus);
      HoldsAt(k, c);
      i := k.cpus[c].mode.slot;
    }
    FindIs(k.procs.table, p, i);
    CountIs(AsPending, p, k.procs.table, i);
    forall d | 0 <= d < |k.cpus| && k.cpus[d].mode.On? && k.procs.table[i].value.state == Blocked
      ensures k.cpus[d].mode.slot != i
    {
      HoldsAt(k, d);
    }
  }

  /** A wake is never lost: it makes the process runnable, or latches on its way to block. */
  lemma WakeKeeps(k: Kernel, p: nat)
    requires Inv(k) && p in k.flights
    ensures Fine(WakeStep(k, p))
  {
    var i := FlightTarget(k, p);
    var k' := WakeStep(k, p).k;
    forall c | 0 <= c < |k.cpus| && k.cpus[c].mode.On? && k.cpus[c].mode.slot == i
      ensures Holds(k'.procs, c, k.cpus[c])
    {
      HoldsAt(k, c);
    }
    TableStep(k, k', i);
  }
}
