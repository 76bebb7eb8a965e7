/**
 * What a late section of a reap leads to when it hits a slot in use again: a stale branch or a failed assert of the
 * source can then be reached, from every such state; and two runs from boot that get there.
 */
module KernelRaces {
  import opened Common
  import opened Processes
  import opened Kernel
  import opened KernelSafety
  import opened KernelSteps
  import opened KernelExits
  import opened KernelReaps
  import opened KernelRuns
  import opened KernelFailures

  /** A stale branch, or an assert other than the two that a full sleep queue and the end of the pids fail. */
  predicate Bad(o: Outcome) {
    o.Stale? || (o.Failed? && o.why != SleepQueueFull && o.why != PidSpace)
  }

  ghost predicate NoneCreated(steps: seq<Action>) {
    forall a :: a in steps ==> !Creating(a)
  }

  /** Some steps lead there, without any process being created. */
  ghost predicate Doomed(k: Kernel)
    requires Sized(k)
  {
    exists steps :: NoneCreated(steps) && Bad(Run(k, steps))
  }

  lemma DoomedNow(k: Kernel, a: Action)
    requires Sized(k) && Bad(Step(k, a)) && !Creating(a)
    ensures Doomed(k)
  {
    assert NoneCreated([a]) && Bad(Run(k, [a]));
  }

  lemma DoomedStep(k: Kernel, a: Action, k': Kernel)
    requires Sized(k) && Step(k, a) == Next(k') && !Creating(a) && Sized(k') && Doomed(k')
    ensures Doomed(k)
  {
    var steps :| NoneCreated(steps) && Bad(Run(k', steps));
    assert ([a] + steps)[1..] == steps;
    assert NoneCreated([a] + steps) && Bad(Run(k, [a] + steps));
  }

  // ---- A CPU whose process has no record ----

  ghost predicate Deserted(k: Kernel, d: nat) {
    && Sized(k) && d < |k.cpus| && k.cpus[d].mode.On?
    && (k.cpus[d].mode.slot < |k.procs.table| ==> k.procs.table[k.cpus[d].mode.slot].None?)
    && (k.cpus[d].current.Some? ==> k.cpus[d].current == Some(k.cpus[d].mode.slot))
  }

  lemma DoomedOff(k: Kernel, d: nat)
    requires Deserted(k, d) && !CurrentStage(k.cpus[d].mode.stage) && !k.cpus[d].mode.stage.AtClaimed?
    ensures Doomed(k)
  {
    match k.cpus[d].mode.stage
    case AtBlockOff => DoomedNow(k, FinishBlocking(d));
    case AtYieldOff => DoomedNow(k, Release(d));
    case AtExitOff(_) => DoomedNow(k, ReleaseOwner(d));
    case AtExitFree(_) => DoomedNow(k, Die(d));
    case AtDeliver(_, _) => DoomedNow(k, Deliver(d));
  }

  lemma DoomedDetaching(k: Kernel, d: nat)
    requires Deserted(k, d)
    requires k.cpus[d].mode.stage in {AtIntent, AtYield} || k.cpus[d].mode.stage.AtExit?
    ensures Doomed(k)
  {
    var m := k.cpus[d].mode;
    var a := if m.stage.AtIntent? then DetachBlock(d) else if m.stage.AtYield? then DetachYield(d) else DetachExit(d);
    var to := if m.stage.AtIntent? then AtBlockOff else if m.stage.AtYield? then AtYieldOff
              else AtExitOff(m.stage.status);
    assert Step(k, a) == DetachStep(k, d, m.stage, to);
    if k.cpus[d].current.None? {
      DoomedNow(k, a);
    } else {
      var k' := SetCpu(k, d, m.(stage := to), None);
      DoomedOff(k', d);
      DoomedStep(k, a, k');
    }
  }

  lemma DoomedUser(k: Kernel, d: nat)
    requires Deserted(k, d) && k.cpus[d].mode.stage == AtUser
    ensures Doomed(k)
  {
    var k' := SetMode(k, d, k.cpus[d].mode.(stage := AtYield));
    DoomedDetaching(k', d);
    DoomedStep(k, BeginYield(d), k');
  }

  /** Whatever the CPU was doing, it comes to a stale branch or a failed assert. */
  lemma DesertedDooms(k: Kernel, d: nat)
    requires Deserted(k, d)
    ensures Doomed(k)
  {
    var m := k.cpus[d].mode;
    if m.stage.AtClaimed? {
      var k' := SetCpu(k, d, m.(stage := AtUser), Some(m.slot));
      DoomedUser(k', d);
      DoomedStep(k, Enter(d), k');
    } else if m.stage.AtUser? {
      DoomedUser(k, d);
    } else if m.stage.AtRegistered? {
      DoomedNow(k, BeginBlocking(d));
    } else if CurrentStage(m.stage) {
      DoomedDetaching(k, d);
    } else {
      DoomedOff(k, d);
    }
  }

  // ---- A wake for a process that has no record ----

  lemma FlightDooms(k: Kernel, p: nat)
    requires Sized(k) && !Present(k.procs.table, p) && p in k.flights
    ensures Doomed(k)
  {
    DoomedNow(k, WakeUp(p));
  }

  lemma RegisteredDooms(k: Kernel, p: nat)
    requires Sized(k) && !Present(k.procs.table, p) && (p in k.entries || p in k.futexes || p in k.sleepers)
    ensures Doomed(k)
  {
    var a := if p in k.entries then TakeEntry(p) else if p in k.futexes then TakeFutex(p) else TakeSleeper(p);
    var k' := Step(k, a).k;
    FlightDooms(k', p);
    DoomedStep(k, a, k');
  }

  lemma DeliveryDooms(k: Kernel, p: nat, d: nat)
    requires Sized(k) && !Present(k.procs.table, p) && d < |k.cpus|
    requires k.cpus[d].mode.On? && k.cpus[d].mode.stage.AtDeliver? && k.cpus[d].mode.stage.parent == p
    ensures Doomed(k)
  {
    if DeliverStep(k, d).Stale? {
      DoomedNow(k, Deliver(d));
    } else {
      var k' := DeliverStep(k, d).k;
      assert !Present(k'.procs.table, p) by {
        if i: nat :| Has(k'.procs.table, i, p) { assert Has(k.procs.table, i, p); }
      }
      FlightDooms(k', p);
      DoomedStep(k, Deliver(d), k');
    }
  }

  // ---- A queued process that has no record ----

  ghost predicate Somewhere(queues: seq<seq<nat>>, p: nat) {
    exists l :: 0 <= l < |queues| && p in queues[l]
  }

  ghost function Length(queues: seq<seq<nat>>): nat {
    if queues == [] then 0 else Length(queues[..|queues| - 1]) + |queues[|queues| - 1]|
  }

  lemma {:induction false} ShorterQueue(queues: seq<seq<nat>>, l: nat, q: seq<nat>)
    requires l < |queues| && |q| < |queues[l]|
    ensures Length(queues[l := q]) < Length(queues)
  {
    var n := |queues| - 1;
    if l == n {
      assert queues[l := q][..n] == queues[..n];
    } else {
      ShorterQueue(queues[..n], l, q);
      assert queues[l := q][..n] == queues[..n][l := q];
    }
  }

  lemma OthersStay(queues: seq<seq<nat>>, l: nat, p: nat)
    requires l < |queues| && queues[l] != [] && Somewhere(queues, p) && queues[l][0] != p
    ensures Somewhere(queues[l := queues[l][1..]], p)
  {
    var j :| 0 <= j < |queues| && p in queues[j];
    var queues' := queues[l := queues[l][1..]];
    if j == l {
      var x :| 0 <= x < |queues[l]| && queues[l][x] == p;
      assert queues'[l][x - 1] == p;
    } else {
      assert p in queues'[j];
    }
  }

  lemma StillGone(t: Table, t': Table, p: nat)
    requires !Present(t, p)
    requires |t'| == |t| && forall i :: 0 <= i < |t| && t'[i].Some? ==> t[i].Some? && t'[i].value.pid == t[i].value.pid
    ensures !Present(t', p)
  {
    forall i: nat ensures !Has(t', i, p) { assert !Has(t, i, p); }
  }

  /** The process is in a queue and has no record. */
  ghost predicate Phantom(k: Kernel, c: nat, p: nat) {
    Sized(k) && c < |k.cpus| && !Present(k.procs.table, p) && Somewhere(k.queues, p)
  }

  // A free CPU that keeps dispatching comes to it; each round leaves one entry less in the queues.

  lemma {:induction false} FreeDooms(k: Kernel, c: nat, p: nat)
    requires Phantom(k, c, p) && k.cpus[c].mode == Free
    ensures Doomed(k)
    decreases Length(k.queues), 0
  {
    var l := TopLevel(k.queues, 0).value;
    var k' := PopStep(k, c).k;
    if k.queues[l][0] == p {
      DoomedNow(k', Claim(c));
    } else {
      OthersStay(k.queues, l, p);
      ShorterQueue(k.queues, l, k.queues[l][1..]);
      PoppedDooms(k', c, p);
    }
    DoomedStep(k, Pop(c), k');
  }

  lemma {:induction false} PoppedDooms(k: Kernel, c: nat, p: nat)
    requires Phantom(k, c, p) && k.cpus[c].mode.Popped?
    ensures Doomed(k)
    decreases Length(k.queues), 5
  {
    if ClaimStep(k, c).Next? {
      var k' := ClaimStep(k, c).k;
      StillGone(k.procs.table, k'.procs.table, p);
      ClaimedDooms(k', c, p);
      DoomedStep(k, Claim(c), k');
    } else {
      DoomedNow(k, Claim(c));
    }
  }

  lemma {:induction false} ClaimedDooms(k: Kernel, c: nat, p: nat)
    requires Phantom(k, c, p) && At(k, c, AtClaimed)
    ensures Doomed(k)
    decreases Length(k.queues), 4
  {
    var k' := EnterStep(k, c).k;
    UserDooms(k', c, p);
    DoomedStep(k, Enter(c), k');
  }

  lemma {:induction false} UserDooms(k: Kernel, c: nat, p: nat)
    requires Phantom(k, c, p) && At(k, c, AtUser)
    ensures Doomed(k)
    decreases Length(k.queues), 3
  {
    var k' := MoveStage(k, c, AtUser, AtYield).k;
    YieldDooms(k', c, p);
    DoomedStep(k, BeginYield(c), k');
  }

  lemma {:induction false} YieldDooms(k: Kernel, c: nat, p: nat)
    requires Phantom(k, c, p) && At(k, c, AtYield)
    ensures Doomed(k)
    decreases Length(k.queues), 2
  {
    if DetachStep(k, c, AtYield, AtYieldOff).Next? {
      var k' := DetachStep(k, c, AtYield, AtYieldOff).k;
      ReleaseDooms(k', c, p);
      DoomedStep(k, DetachYield(c), k');
    } else {
      DoomedNow(k, DetachYield(c));
    }
  }

  lemma {:induction false} ReleaseDooms(k: Kernel, c: nat, p: nat)
    requires Phantom(k, c, p) && At(k, c, AtYieldOff)
    ensures Doomed(k)
    decreases Length(k.queues), 1
  {
    if ReleaseStep(k, c).Next? {
      var k' := ReleaseStep(k, c).k;
      StillGone(k.procs.table, k'.procs.table, p);
      FreeDooms(k', c, p);
      DoomedStep(k, Release(c), k');
    } else {
      DoomedNow(k, Release(c));
    }
  }

  // The reaping CPU gets free: each of its steps takes a record out, or shortens what is left to do.

  lemma {:induction false} SweepingDooms(k: Kernel, c: nat, p: nat)
    requires Phantom(k, c, p) && k.cpus[c].mode.Sweeping?
    ensures Doomed(k)
    decreases |k.cpus| - k.cpus[c].mode.next
  {
    var k' := SweepStep(k, c).k;
    if k.cpus[c].mode.next >= |k.cpus| {
      FreeDooms(k', c, p);
    } else {
      SweepingDooms(k', c, p);
    }
    DoomedStep(k, Sweep(c), k');
  }

  ghost function Taken(t: Table): set<nat> {
    set i: nat | i < |t| && t[i].Some?
  }

  lemma FewerTaken(t: Table, s: nat)
    requires s < |t| && t[s].Some?
    ensures Taken(FullReap(t, s)) < Taken(t)
  {
    assert s in Taken(t) && s !in Taken(FullReap(t, s));
  }

  lemma {:induction false} ReapingDooms(k: Kernel, c: nat, p: nat)
    requires Phantom(k, c, p) && k.cpus[c].mode.Reaping?
    ensures Doomed(k)
    decreases Taken(k.procs.table), |k.cpus[c].mode.todo|
  {
    var k', todo := CascadeStep(k, c).k, k.cpus[c].mode.todo;
    if todo == [] {
      SweepingDooms(k', c, p);
    } else {
      var s := todo[|todo| - 1];
      if s < |k.procs.table| && k.procs.table[s].Some? {
        FewerTaken(k.procs.table, s);
        StillGone(k.procs.table, k'.procs.table, p);
      }
      ReapingDooms(k', c, p);
    }
    DoomedStep(k, Cascade(c), k');
  }

  // ---- A visit that takes a record in use ----

  /**
   * Nothing but the record knows of the process: it waits for a child, is a zombie that is not being delivered, or is
   * what a failed spawn left.
   */
  ghost predicate Silent(k: Kernel, s: nat)
    requires s < |k.procs.table| && k.procs.table[s].Some?
  {
    var r := k.procs.table[s].value;
    || (r.state == Zombie && !Manned(k.cpus, s)) || (r.state == Blocked && r.waitTarget.Some?)
    || r.pid in k.abandoned
  }

  lemma {:induction false} QueuedSomewhere(p: nat, queues: seq<seq<nat>>)
    requires Queued(p, queues) > 0
    ensures Somewhere(queues, p)
  {
    var n := |queues| - 1;
    if p in multiset(queues[n]) {
      assert p in queues[n];
    } else {
      QueuedSomewhere(p, queues[..n]);
      var l :| 0 <= l < n && p in queues[..n][l];
      assert p in queues[l];
    }
  }

  lemma PushedDooms(k: Kernel, c: nat, p: nat)
    requires Sized(k) && c < |k.cpus| && !Present(k.procs.table, p) && p in k.pushes && k.cpus[c].mode.Reaping?
    ensures Doomed(k)
  {
    if PushStep(k, p, 0).Next? {
      var k' := PushStep(k, p, 0).k;
      assert p in k'.queues[0];
      ReapingDooms(k', c, p);
      DoomedStep(k, Push(p, 0), k');
    } else {
      DoomedNow(k, Push(p, 0));
    }
  }

  /** It was runnable: its ticket comes up. */
  lemma TicketDooms(k: Kernel, c: nat, p: nat)
    requires Sized(k) && c < |k.cpus| && !Present(k.procs.table, p) && k.cpus[c].mode.Reaping? && Tickets(k, p) > 0
    ensures Doomed(k)
  {
    if p in k.pushes {
      PushedDooms(k, c, p);
    } else if Queued(p, k.queues) > 0 {
      QueuedSomewhere(p, k.queues);
      ReapingDooms(k, c, p);
    } else {
      var d := CpuCountPositive(AsPopped, p, k.cpus);
      DoomedNow(k, Claim(d));
    }
  }

  /** It was blocked and something was going to wake it: the wake comes. */
  lemma OutstandingDooms(k: Kernel, p: nat)
    requires Sized(k) && !Present(k.procs.table, p)
    requires k.entries[p] + k.futexes[p] + k.sleepers[p] + k.flights[p] + CpuCount(AsDelivering, p, k.cpus) > 0
    ensures Doomed(k)
  {
    if p in k.flights {
      FlightDooms(k, p);
    } else if p in k.entries || p in k.futexes || p in k.sleepers {
      RegisteredDooms(k, p);
    } else {
      var d := CpuCountPositive(AsDelivering, p, k.cpus);
      DeliveryDooms(k, p, d);
    }
  }

  /** What a visit leaves of the counts for the process whose record it takes. */
  lemma VisitCounts(k: Kernel, c: nat, p: nat, k': Kernel)
    requires c < |k.cpus| && k.cpus[c].mode.Reaping? && CascadeStep(k, c) == Next(k')
    ensures Tickets(k', p) == Tickets(k, p) && CpuCount(AsDelivering, p, k'.cpus) == CpuCount(AsDelivering, p, k.cpus)
  {
    CpuCountUpdate(AsPopped, p, k.cpus, c, k'.cpus[c]);
    CpuCountUpdate(AsDelivering, p, k.cpus, c, k'.cpus[c]);
  }

  lemma Announced(k: Kernel, s: nat)
    requires Inv(k) && s < |k.procs.table| && k.procs.table[s].Some?
    ensures var r := k.procs.table[s].value;
            && (r.state == Runnable && r.pid !in k.abandoned ==> Tickets(k, r.pid) > 0)
            && (r.state == Blocked && r.waitTarget.None? ==>
                  k.entries[r.pid] + k.futexes[r.pid] + k.sleepers[r.pid] + k.flights[r.pid]
                  + CpuCount(AsDelivering, r.pid, k.cpus) > 0)
  {
    var p := k.procs.table[s].value.pid;
    RecordTidy(k, s);
    assert Balanced(k, p);
    CountIs(AsRunnable, p, k.procs.table, s);
    CountIs(AsBlocked, p, k.procs.table, s);
    CountIs(AsPending, p, k.procs.table, s);
  }

  lemma MannedDooms(k: Kernel, c: nat, s: nat, k': Kernel)
    requires Held(k) && Sized(k') && c < |k.cpus| && !k.cpus[c].mode.On? && Manned(k.cpus, s)
    requires |k'.cpus| == |k.cpus| && k'.cpus == k.cpus[c := k'.cpus[c]]
    requires s < |k'.procs.table| ==> k'.procs.table[s].None?
    ensures Doomed(k')
  {
    var d :| 0 <= d < |k.cpus| && k.cpus[d].mode.On? && k.cpus[d].mode.slot == s;
    assert Holds(k.procs, d, k.cpus[d]);
    DesertedDooms(k', d);
  }

  lemma CascadeDooms(k: Kernel, c: nat, s: nat, k': Kernel)
    requires Inv(k) && CascadeHit(k, c) && s == k.cpus[c].mode.todo[|k.cpus[c].mode.todo| - 1] && !Silent(k, s)
    requires CascadeStep(k, c) == Next(k') && Sized(k')
    ensures Doomed(k')
  {
    var t, p := k.procs.table, k.procs.table[s].value.pid;
    if Manned(k.cpus, s) {
      MannedDooms(k, c, s, k');
    } else {
      assert t[s].value.state != Running;
      ReapPresent(t, s, p);
      VisitCounts(k, c, p, k');
      Announced(k, s);
      if t[s].value.state == Runnable {
        TicketDooms(k', c, p);
      } else {
        OutstandingDooms(k', p);
      }
    }
  }

  lemma BareDooms(k: Kernel, n: nat)
    requires Sized(k) && n < |k.cpus| && k.cpus[n].mode.On? && k.cpus[n].current.None?
    requires CurrentStage(k.cpus[n].mode.stage)
    ensures Doomed(k)
  {
    match k.cpus[n].mode.stage
    case AtUser =>
      var k' := MoveStage(k, n, AtUser, AtYield).k;
      DoomedNow(k', DetachYield(n));
      DoomedStep(k, BeginYield(n), k');
    case AtRegistered => DoomedNow(k, BeginBlocking(n));
    case AtIntent => DoomedNow(k, DetachBlock(n));
    case AtYield => DoomedNow(k, DetachYield(n));
    case AtExit(_) => DoomedNow(k, DetachExit(n));
  }

  /** A CPU whose `CURRENT_SLOT` entry was cleared under it fails when it next leaves its process. */
  lemma SweepDooms(k: Kernel, c: nat, k': Kernel)
    requires Inv(k) && SweepHit(k, c) && SweepStep(k, c) == Next(k') && Sized(k')
    ensures Doomed(k')
  {
    var n := k.cpus[c].mode.next;
    HoldsAt(k, c);
    HoldsAt(k, n);
    assert k'.cpus[n] == k.cpus[n].(current := None);
    BareDooms(k', n);
  }

  /**
   * The converse of `NotDoomed`: a step of a reap that hits a slot in use again leaves a state from which a stale
   * branch or a failed assert is reached, unless nothing else knew of the record it took.
   */
  lemma HitDooms(k: Kernel, a: Action)
    requires Inv(k) && Hit(k, a)
    requires a.Cascade? ==> !Silent(k, k.cpus[a.cpu].mode.todo[|k.cpus[a.cpu].mode.todo| - 1])
    ensures Step(k, a).Next? && Sized(Step(k, a).k) && Doomed(Step(k, a).k)
  {
    StepSized(k, a);
    if a.Cascade? {
      CascadeDooms(k, a.cpu, k.cpus[a.cpu].mode.todo[|k.cpus[a.cpu].mode.todo| - 1], Step(k, a).k);
    } else {
      SweepDooms(k, a.cpu, Step(k, a).k);
    }
  }

  // ---- With nothing to hit ----

  /** What a reap under way names is empty: the slot it began with, and those it still has to visit. */
  ghost predicate Harmless(t: Table, m: Mode) {
    && (m.Reaping? || m.Sweeping? ==> m.seed < |t| ==> t[m.seed].None?)
    && (m.Reaping? ==> forall s :: s in m.todo && s < |t| ==> t[s].None?)
  }

  ghost predicate NothingToHit(k: Kernel) {
    forall c :: 0 <= c < |k.cpus| ==> Harmless(k.procs.table, k.cpus[c].mode)
  }

  lemma HarmlessHits(k: Kernel, a: Action)
    requires Inv(k) && NothingToHit(k)
    ensures !Hit(k, a)
  {
    if a.Sweep? && SweepHit(k, a.cpu) { HoldsAt(k, k.cpus[a.cpu].mode.next); }
  }

  /** Empty slots stay empty, and only `c` gets another mode. */
  ghost predicate Quieter(k: Kernel, k': Kernel, c: nat) {
    && |k'.procs.table| == |k.procs.table|
    && (forall i :: 0 <= i < |k.procs.table| && k.procs.table[i].None? ==> k'.procs.table[i].None?)
    && |k'.cpus| == |k.cpus| && (forall d :: 0 <= d < |k.cpus| && d != c ==> k'.cpus[d].mode == k.cpus[d].mode)
  }

  lemma QuieterKeeps(k: Kernel, k': Kernel, c: nat)
    requires NothingToHit(k) && Quieter(k, k', c)
    requires c < |k'.cpus| ==> Harmless(k'.procs.table, k'.cpus[c].mode)
    ensures NothingToHit(k')
  {
    forall d | 0 <= d < |k'.cpus| ensures Harmless(k'.procs.table, k'.cpus[d].mode) {
      if d != c { assert Harmless(k.procs.table, k.cpus[d].mode); }
    }
  }

  lemma DispatchQuieter(k: Kernel, a: Action)
    requires Sized(k) && NothingToHit(k) && Dispatching(a) && DispatchAction(k, a).Next?
    ensures NothingToHit(DispatchAction(k, a).k)
  {
    QuieterKeeps(k, DispatchAction(k, a).k, a.cpu);
  }

  lemma WaitQuieter(k: Kernel, c: nat, target: nat, nohang: bool)
    requires NothingToHit(k) && WaitStep(k, c, target, nohang).Next?
    ensures NothingToHit(WaitStep(k, c, target, nohang).k)
  {
    QuieterKeeps(k, WaitStep(k, c, target, nohang).k, c);
  }

  lemma BlockQuieter(k: Kernel, a: Action)
    requires Sized(k) && NothingToHit(k) && Blocking(a) && !a.WaitPid? && BlockAction(k, a).Next?
    ensures NothingToHit(BlockAction(k, a).k)
  {
    QuieterKeeps(k, BlockAction(k, a).k, a.cpu);
  }

  lemma WakeQuieter(k: Kernel, a: Action)
    requires Sized(k) && NothingToHit(k) && Waking(a) && WakeAction(k, a).Next?
    ensures NothingToHit(WakeAction(k, a).k)
  {
    QuieterKeeps(k, WakeAction(k, a).k, |k.cpus|);
  }

  lemma DieQuieter(k: Kernel, c: nat)
    requires NothingToHit(k) && DieStep(k, c).Next?
    ensures NothingToHit(DieStep(k, c).k)
  {
    var k' := DieStep(k, c).k;
    if k'.cpus[c].mode.Reaping? {
      var t, i := k.procs.table, k.cpus[c].mode.slot;
      forall s | s in k'.cpus[c].mode.todo && s < |t| ensures k'.procs.table[s].None? {
        ClearedExactly(t[i := None], t[i].value.pid, 0, s);
      }
    }
    QuieterKeeps(k, k', c);
  }

  lemma LifeQuieter(k: Kernel, a: Action)
    requires Sized(k) && NothingToHit(k) && Living(a) && !Creating(a) && LifeAction(k, a).Next?
    ensures NothingToHit(LifeAction(k, a).k)
  {
    if a.Die? {
      DieQuieter(k, a.cpu);
    } else {
      QuieterKeeps(k, LifeAction(k, a).k, a.cpu);
    }
  }

  lemma ClearQuieter(k: Kernel, a: Action)
    requires NothingToHit(k) && Clearing(a) && ClearAction(k, a).Next?
    ensures NothingToHit(ClearAction(k, a).k)
  {
    assert Harmless(k.procs.table, k.cpus[a.cpu].mode);
    QuieterKeeps(k, ClearAction(k, a).k, a.cpu);
  }

  lemma StepQuieter(k: Kernel, a: Action)
    requires Sized(k) && NothingToHit(k) && !Creating(a) && Step(k, a).Next?
    ensures NothingToHit(Step(k, a).k)
  {
    if Dispatching(a) {
      DispatchQuieter(k, a);
    } else if a.WaitPid? {
      WaitQuieter(k, a.cpu, a.target, a.nohang);
    } else if Blocking(a) {
      BlockQuieter(k, a);
    } else if Living(a) {
      LifeQuieter(k, a);
    } else if Clearing(a) {
      ClearQuieter(k, a);
    } else {
      WakeQuieter(k, a);
    }
  }

  lemma {:induction false} QuietRun(k: Kernel, steps: seq<Action>)
    requires Inv(k) && NothingToHit(k) && NoneCreated(steps)
    ensures !Bad(Run(k, steps))
    decreases |steps|
  {
    if steps != [] {
      var a := steps[0];
      HarmlessHits(k, a);
      StepKeeps(k, a);
      assert a in steps && NoneCreated(steps[1..]);
      if Step(k, a).Next? {
        StepQuieter(k, a);
        QuietRun(Step(k, a).k, steps[1..]);
      } else if Step(k, a).Disabled? {
        QuietRun(k, steps[1..]);
      }
    }
  }

  /**
   * With the invariant and every slot that a reap under way names empty, no stale branch or failed assert is in reach.
   */
  lemma NotDoomed(k: Kernel)
    requires Inv(k) && NothingToHit(k)
    ensures !Doomed(k)
  {
    forall steps | NoneCreated(steps) ensures !Bad(Run(k, steps)) { QuietRun(k, steps); }
  }

  // ---- Two runs from boot ----

  /** Process 2 runs in slot 0 on CPU 0; its child 3 is a zombie in slot 1; CPU 1 is free. */
  ghost predicate Family(k: Kernel) {
    && Sized(k) && |k.cpus| == 2 && k.cpus[1] == Cpu(Free, None) && NoQueues(k.queues) && k.pushes == multiset{}
    && k.nextPid == 4
    && |k.procs.table| == 2 && Runs(k, 0, 2, 0) && k.procs.table[0].value.parent.None?
    && Has(k.procs.table, 1, 3) && k.procs.table[1].value.state == Zombie && k.procs.table[1].value.parent == Some(2)
    && k.procs.owner[1].None?
  }

  /** Process 2 runs alone, on CPU 0. */
  ghost predicate Single(k: Kernel) {
    && |k.cpus| == 2 && k.cpus[1] == Cpu(Free, None) && NoQueues(k.queues) && k.pushes == multiset{} && k.nextPid == 3
    && Runs(k, 0, 2, 0) && k.procs.table == [Some(NewProc(2, None).(state := Running))]
  }

  lemma SingleState()
    ensures Vacant(Boot(2), 0, 0) && Single(Started(Joined(Boot(2), None, 0), 0, 2, 0))
  {
    var k := Started(Joined(Boot(2), None, 0), 0, 2, 0);
    assert k.pushes == multiset{};
    assert k.procs.table == [Some(NewProc(2, None).(state := Running))];
  }

  /** Process 2 runs on CPU 0, and its child 3 on CPU 1. */
  ghost predicate Pair(k: Kernel) {
    && |k.cpus| == 2 && NoQueues(k.queues) && k.pushes == multiset{} && k.nextPid == 4 && |k.procs.table| == 2
    && Runs(k, 0, 2, 0) && k.procs.table[0].value == NewProc(2, None).(state := Running)
    && Runs(k, 1, 3, 1) && k.procs.table[1].value == NewProc(3, Some(2)).(state := Running)
  }

  lemma PairState(k: Kernel)
    requires Single(k)
    ensures Vacant(k, 1, 1) && Pair(Started(Joined(k, Some(2), 1), 1, 3, 1))
  {
    assert Started(Joined(k, Some(2), 1), 1, 3, 1).pushes == multiset{};
  }

  lemma ReachSingle() returns (steps: seq<Action>, k: Kernel)
    ensures Run(Boot(2), steps) == Next(k) && Single(k)
  {
    SingleState();
    steps, k := JoinAndStart(Boot(2), [], Boot(2), Spawn, None, 0, 0);
  }

  lemma ReachPair() returns (steps: seq<Action>, k: Kernel)
    ensures Run(Boot(2), steps) == Next(k) && Pair(k)
  {
    steps, k := ReachSingle();
    PairState(k);
    steps, k := JoinAndStart(Boot(2), steps, k, Fork(0), Some(2), 1, 1);
  }

  lemma ChildDies(k: Kernel)
    requires Pair(k)
    ensures var k1 := Leaving(k, 1, 3, 1, 0); DieStep(k1, 1).Next? && Family(DieStep(k1, 1).k)
  {
    var k1 := Leaving(k, 1, 3, 1, 0);
    FirstHas(k1.procs.table, 2, 0, 0);
  }

  /** The child exits and stays as a zombie. */
  lemma ReachFamily() returns (steps: seq<Action>, k: Kernel)
    ensures Run(Boot(2), steps) == Next(k) && Family(k)
  {
    steps, k := ReachPair();
    ChildDies(k);
    var k1 := DieStep(Leaving(k, 1, 3, 1, 0), 1).k;
    steps := LeaveAndDie(Boot(2), steps, k, 1, 3, 1, 0, k1);
    k := k1;
  }

  /** CPU 0 is past the first section of the reap of slot 0, with slot 1 still to be visited; both are free. */
  ghost predicate Halfway(k: Kernel) {
    && Sized(k) && k.cpus == [Cpu(Reaping(0, [1]), None), Cpu(Free, None)] && NoQueues(k.queues)
    && k.pushes == multiset{}
    && k.nextPid == 4 && k.procs.table == [None, None] && k.procs.owner[0].None? && k.procs.owner[1].None?
  }

  lemma ParentDies(k: Kernel)
    requires Family(k)
    ensures var k1 := Leaving(k, 0, 2, 0, 0); DieStep(k1, 0).Next? && Halfway(DieStep(k1, 0).k)
  {
    var k1 := Leaving(k, 0, 2, 0, 0);
    var t := k1.procs.table;
    var t1 := t[0 := None];
    assert Cleared(t1, 2, 2) == [] && Cleared(t1, 2, 1) == [1] && Cleared(t1, 2, 0) == [1];
    assert FullReap(t, 0) == [None, None];
  }

  lemma ReachHalfway() returns (steps: seq<Action>, k: Kernel)
    ensures Run(Boot(2), steps) == Next(k) && Halfway(k)
  {
    steps, k := ReachFamily();
    ParentDies(k);
    var k1 := DieStep(Leaving(k, 0, 2, 0, 0), 0).k;
    steps := LeaveAndDie(Boot(2), steps, k, 0, 2, 0, 0, k1);
    k := k1;
  }

  /** Both slots are in use again, and process 5 runs in slot 1 on CPU 1. */
  ghost predicate Refilled(k: Kernel) {
    && Sized(k) && |k.cpus| == 2 && k.cpus[0].mode == Reaping(0, [1]) && Runs(k, 1, 5, 1)
  }

  lemma Refills(k: Kernel)
    requires Halfway(k)
    ensures Vacant(k, 1, 0) && Vacant(Joined(k, None, 0), 1, 1)
    ensures Refilled(Started(Joined(Joined(k, None, 0), None, 1), 1, 5, 1))
  {
  }

  lemma ReachRefilled() returns (steps: seq<Action>, k: Kernel)
    ensures Run(Boot(2), steps) == Next(k) && Refilled(k)
  {
    steps, k := ReachHalfway();
    Refills(k);
    Joins(k, None, 1, 0);
    Extend(Boot(2), steps, k, Spawn);
    steps, k := JoinAndStart(Boot(2), steps + [Spawn], Joined(k, None, 0), Spawn, None, 1, 1);
  }

  /** Process 5 is about to block, and its record is gone. */
  ghost predicate Robbed(k: Kernel) {
    Sized(k) && |k.cpus| == 2 && k.cpus[1] == Cpu(On(1, 5, AtRegistered), Some(1)) && |k.procs.table| > 1
      && k.procs.table[1].None?
  }

  lemma Visited(k: Kernel)
    requires Refilled(k)
    ensures RegisterStep(k, 1).Next? && CascadeStep(RegisterStep(k, 1).k, 0).Next?
    ensures Robbed(CascadeStep(RegisterStep(k, 1).k, 0).k)
  {
  }

  lemma ReachRobbed() returns (steps: seq<Action>, k: Kernel)
    ensures Run(Boot(2), steps) == Next(k) && Robbed(k)
  {
    steps, k := ReachRefilled();
    Visited(k);
    var k1 := RegisterStep(k, 1).k;
    Extend2(Boot(2), steps, k, Register(1), k1, Cascade(0), CascadeStep(k1, 0).k);
    steps, k := steps + [Register(1)] + [Cascade(0)], CascadeStep(k1, 0).k;
  }

  /**
   * A process exits with a zombie child, and before its reap comes to the child's slot, that slot is given to a new
   * process. The reap takes the new record, and the assert in the new process's `block_current` fails.
   */
  lemma ReapRace() returns (steps: seq<Action>)
    ensures Run(Boot(2), steps) == Failed(NotRunning)
  {
    var k;
    steps, k := ReachRobbed();
    Extend(Boot(2), steps, k, BeginBlocking(1));
    steps := steps + [BeginBlocking(1)];
  }

  /** CPU 0 sweeps for slot 0, which process 4 was given in the meantime; it runs on CPU 1. */
  ghost predicate Swept(k: Kernel) {
    Sized(k) && |k.cpus| == 2 && k.cpus[0] == Cpu(Sweeping(0, 0), None) && Runs(k, 1, 4, 0)
  }

  lemma ReachSweeping() returns (steps: seq<Action>, k: Kernel)
    ensures Run(Boot(2), steps) == Next(k) && Vacant(k, 1, 0) && k.nextPid == 4 && |k.cpus| == 2
    ensures k.cpus[0] == Cpu(Sweeping(0, 0), None) && k.procs.owner[0].None?
  {
    steps, k := ReachHalfway();
    var k1 := CascadeStep(k, 0).k;
    Extend2(Boot(2), steps, k, Cascade(0), k1, Cascade(0), CascadeStep(k1, 0).k);
    steps, k := steps + [Cascade(0)] + [Cascade(0)], CascadeStep(k1, 0).k;
  }

  lemma ReachSwept() returns (steps: seq<Action>, k: Kernel)
    ensures Run(Boot(2), steps) == Next(k) && Swept(k)
  {
    steps, k := ReachSweeping();
    steps, k := JoinAndStart(Boot(2), steps, k, Spawn, None, 1, 0);
  }

  lemma ReachBare() returns (steps: seq<Action>, k: Kernel)
    ensures Run(Boot(2), steps) == Next(k) && |k.cpus| == 2 && k.cpus[1] == Cpu(On(0, 4, AtUser), None)
  {
    steps, k := ReachSwept();
    var k1 := SweepStep(k, 0).k;
    Extend2(Boot(2), steps, k, Sweep(0), k1, Sweep(0), SweepStep(k1, 0).k);
    steps, k := steps + [Sweep(0)] + [Sweep(0)], SweepStep(k1, 0).k;
  }

  /** The sweep at the end of a reap clears the entry of a CPU that runs a new process; its next yield fails. */
  lemma SweepRace() returns (steps: seq<Action>)
    ensures Run(Boot(2), steps) == Failed(DetachMismatch)
  {
    var k;
    steps, k := ReachBare();
    var k1 := MoveStage(k, 1, AtUser, AtYield).k;
    Extend(Boot(2), steps, k, BeginYield(1));
    Extend(Boot(2), steps + [BeginYield(1)], k1, DetachYield(1));
    steps := steps + [BeginYield(1)] + [DetachYield(1)];
  }
}
