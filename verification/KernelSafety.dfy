/** What every step of the process and scheduler state machine keeps, on any number of CPUs. */
module KernelSafety {
  import opened Common
  import opened Processes
  import opened Kernel

  // ---- Counting records and CPUs by pid ----

  datatype Probe = AsRunnable | AsBlocked | AsPending

  /** What one table entry contributes for `p`: a runnable or blocked record, or a registration it carries. */
  function Weight(pr: Probe, p: nat, e: Option<Proc>): nat {
    if e.None? || e.value.pid != p then 0
    else
      match pr
      case AsRunnable => if e.value.state == Runnable then 1 else 0
      case AsBlocked => if e.value.state == Blocked then 1 else 0
      case AsPending => (if e.value.waitTarget.Some? then 1 else 0) + (if e.value.wakePending then 1 else 0)
  }

  ghost function Count(pr: Probe, p: nat, t: Table): nat {
    if t == [] then 0 else Count(pr, p, t[..|t| - 1]) + Weight(pr, p, t[|t| - 1])
  }

  lemma {:induction false} CountUpdate(pr: Probe, p: nat, t: Table, i: nat, e: Option<Proc>)
    requires i < |t|
    ensures Count(pr, p, t[i := e]) + Weight(pr, p, t[i]) == Count(pr, p, t) + Weight(pr, p, e)
  {
    var n := |t| - 1;
    if i == n {
      assert t[i := e][..n] == t[..n];
    } else {
      CountUpdate(pr, p, t[..n], i, e);
      assert t[i := e][..n] == t[..n][i := e];
    }
  }

  lemma CountAppend(pr: Probe, p: nat, t: Table, e: Option<Proc>)
    ensures Count(pr, p, t + [e]) == Count(pr, p, t) + Weight(pr, p, e)
  {
    assert (t + [e])[..|t|] == t;
  }

  lemma {:induction false} CountZero(pr: Probe, p: nat, t: Table)
    requires forall i :: 0 <= i < |t| ==> Weight(pr, p, t[i]) == 0
    ensures Count(pr, p, t) == 0
  {
    if t != [] { CountZero(pr, p, t[..|t| - 1]); }
  }

  /** With distinct pids the record itself is all that counts. */
  lemma {:induction false} CountIs(pr: Probe, p: nat, t: Table, i: nat)
    requires DistinctPids(t) && Has(t, i, p)
    ensures Count(pr, p, t) == Weight(pr, p, t[i])
  {
    var n := |t| - 1;
    if i == n {
      CountZero(pr, p, t[..n]);
    } else {
      CountIs(pr, p, t[..n], i);
    }
  }

  lemma {:induction false} CountPositive(pr: Probe, p: nat, t: Table) returns (i: nat)
    requires Count(pr, p, t) > 0
    ensures Has(t, i, p) && Weight(pr, p, t[i]) > 0
  {
    var n := |t| - 1;
    if Weight(pr, p, t[n]) > 0 {
      i := n;
    } else {
      i := CountPositive(pr, p, t[..n]);
    }
  }

  datatype CpuProbe = AsPopped | AsWaiting | AsDelivering

  predicate WaitStage(s: Stage) {
    s.AtRegistered? || s.AtIntent? || s.AtBlockOff?
  }

  function CpuWeight(pr: CpuProbe, p: nat, m: Mode): nat {
    match pr
    case AsPopped => if m == Popped(p) then 1 else 0
    case AsWaiting => if m.On? && m.pid == p && WaitStage(m.stage) then 1 else 0
    case AsDelivering => if m.On? && m.stage.AtDeliver? && m.stage.parent == p then 1 else 0
  }

  ghost function CpuCount(pr: CpuProbe, p: nat, cpus: seq<Cpu>): nat {
    if cpus == [] then 0 else CpuCount(pr, p, cpus[..|cpus| - 1]) + CpuWeight(pr, p, cpus[|cpus| - 1].mode)
  }

  lemma {:induction false} CpuCountUpdate(pr: CpuProbe, p: nat, cpus: seq<Cpu>, c: nat, x: Cpu)
    requires c < |cpus|
    ensures CpuCount(pr, p, cpus[c := x]) + CpuWeight(pr, p, cpus[c].mode)
            == CpuCount(pr, p, cpus) + CpuWeight(pr, p, x.mode)
  {
    var n := |cpus| - 1;
    if c == n {
      assert cpus[c := x][..n] == cpus[..n];
    } else {
      CpuCountUpdate(pr, p, cpus[..n], c, x);
      assert cpus[c := x][..n] == cpus[..n][c := x];
    }
  }

  lemma {:induction false} CpuCountZero(pr: CpuProbe, p: nat, cpus: seq<Cpu>)
    requires forall c :: 0 <= c < |cpus| ==> CpuWeight(pr, p, cpus[c].mode) == 0
    ensures CpuCount(pr, p, cpus) == 0
  {
    if cpus != [] { CpuCountZero(pr, p, cpus[..|cpus| - 1]); }
  }

  lemma {:induction false} CpuCountPositive(pr: CpuProbe, p: nat, cpus: seq<Cpu>) returns (c: nat)
    requires CpuCount(pr, p, cpus) > 0
    ensures c < |cpus| && CpuWeight(pr, p, cpus[c].mode) > 0
  {
    var n := |cpus| - 1;
    if CpuWeight(pr, p, cpus[n].mode) > 0 {
      c := n;
    } else {
      c := CpuCountPositive(pr, p, cpus[..n]);
    }
  }

  lemma {:induction false} CpuCountIs(pr: CpuProbe, p: nat, cpus: seq<Cpu>, c: nat)
    requires c < |cpus|
    requires forall d :: 0 <= d < |cpus| && d != c ==> CpuWeight(pr, p, cpus[d].mode) == 0
    ensures CpuCount(pr, p, cpus) == CpuWeight(pr, p, cpus[c].mode)
  {
    var n := |cpus| - 1;
    if c == n {
      CpuCountZero(pr, p, cpus[..n]);
    } else {
      CpuCountIs(pr, p, cpus[..n], c);
    }
  }

  /** How often `p` is queued, over all levels. */
  ghost function Queued(p: nat, queues: seq<seq<nat>>): nat {
    if queues == [] then 0
    else Queued(p, queues[..|queues| - 1]) + multiset(queues[|queues| - 1])[p]
  }

  lemma {:induction false} QueuedUpdate(p: nat, queues: seq<seq<nat>>, l: nat, q: seq<nat>)
    requires l < |queues|
    ensures Queued(p, queues[l := q]) + multiset(queues[l])[p] == Queued(p, queues) + multiset(q)[p]
  {
    var n := |queues| - 1;
    if l == n {
      assert queues[l := q][..n] == queues[..n];
    } else {
      QueuedUpdate(p, queues[..n], l, q);
      assert queues[l := q][..n] == queues[..n][l := q];
    }
  }

  // ---- The invariant ----

  /** The scheduling tickets of `p`: queued, about to be queued, or just taken off a queue. */
  ghost function Tickets(k: Kernel, p: nat): nat {
    Queued(p, k.queues) + k.pushes[p] + CpuCount(AsPopped, p, k.cpus)
  }

  /** The record of a spawn that failed is runnable and has no ticket. */
  function Left(abandoned: set<nat>, p: nat): nat {
    if p in abandoned then 1 else 0
  }

  /** What is outstanding for `p`: registrations, latched wakes, and wakes in flight. */
  ghost function Outstanding(k: Kernel, p: nat): nat {
    k.entries[p] + k.futexes[p] + k.sleepers[p] + k.flights[p]
    + CpuCount(AsDelivering, p, k.cpus) + Count(AsPending, p, k.procs.table)
  }

  /** Whether `p` is blocked, or on its way there. */
  ghost function Waiting(k: Kernel, p: nat): nat {
    Count(AsBlocked, p, k.procs.table) + CpuCount(AsWaiting, p, k.cpus)
  }

  ghost predicate Balanced(k: Kernel, p: nat) {
    && Tickets(k, p) + Left(k.abandoned, p) == Count(AsRunnable, p, k.procs.table)
    && Outstanding(k, p) == Waiting(k, p)
  }

  predicate OwnerStage(s: Stage) {
    !s.AtExitFree? && !s.AtDeliver?
  }

  predicate CurrentStage(s: Stage) {
    s.AtUser? || s.AtRegistered? || s.AtIntent? || s.AtYield? || s.AtExit?
  }

  /** What a record looks like by itself. */
  predicate Tidy(r: Proc) {
    && (r.state != Running ==> !r.blockIntent && !r.wakePending)
    && (r.state == Runnable || r.state == Zombie ==> r.waitTarget.None?)
    && (r.state == Zombie <==> r.exitCode.Some?)
    && (r.state == Zombie ==> r.parent.Some?)
  }

  /** A CPU that has a process holds its slot, alone, and says so consistently. */
  ghost predicate Holds(procs: Procs, c: nat, cpu: Cpu) {
    && (cpu.current.Some? <==> cpu.mode.On? && CurrentStage(cpu.mode.stage))
    && (cpu.mode.On? ==>
          var m := cpu.mode;
          && Has(procs.table, m.slot, m.pid) && m.slot < |procs.owner|
          && (cpu.current.Some? ==> cpu.current == Some(m.slot))
          && procs.owner[m.slot] == (if OwnerStage(m.stage) then Some(c) else None)
          && var r := procs.table[m.slot].value;
             if m.stage.AtDeliver? then r.state == Zombie && r.parent == Some(m.stage.parent)
               && m.stage.spec.Matches(m.pid)
             else r.state == Running && r.blockIntent == (m.stage.AtIntent? || m.stage.AtBlockOff?))
  }

  ghost predicate Manned(cpus: seq<Cpu>, i: nat) {
    exists c :: 0 <= c < |cpus| && cpus[c].mode.On? && cpus[c].mode.slot == i
  }

  ghost predicate Held(k: Kernel) {
    && (forall c :: 0 <= c < |k.cpus| ==> Holds(k.procs, c, k.cpus[c]))
    && (forall c, d :: 0 <= c < d < |k.cpus| && k.cpus[c].mode.On? && k.cpus[d].mode.On? ==>
          k.cpus[c].mode.slot != k.cpus[d].mode.slot)
    && (forall i :: 0 <= i < |k.procs.owner| && k.procs.owner[i].Some? ==>
          var c := k.procs.owner[i].value;
          c < |k.cpus| && k.cpus[c].mode.On? && k.cpus[c].mode.slot == i && OwnerStage(k.cpus[c].mode.stage))
    && (forall i :: 0 <= i < |k.procs.table| && k.procs.table[i].Some? && k.procs.table[i].value.state == Running ==>
          Manned(k.cpus, i))
  }

  lemma StillManned(cpus: seq<Cpu>, cpus': seq<Cpu>, c: nat, i: nat)
    requires Manned(cpus, i) && c < |cpus| == |cpus'| && cpus' == cpus[c := cpus'[c]]
    requires cpus[c].mode.On? && cpus[c].mode.slot == i ==> cpus'[c].mode.On? && cpus'[c].mode.slot == i
    ensures Manned(cpus', i)
  {
    var d :| 0 <= d < |cpus| && cpus[d].mode.On? && cpus[d].mode.slot == i;
    assert cpus'[d].mode.On? && cpus'[d].mode.slot == i;
  }

  ghost predicate TidyTable(t: Table, nextPid: nat) {
    && DistinctPids(t)
    && forall i :: 0 <= i < |t| && t[i].Some? ==> Tidy(t[i].value) && t[i].value.pid < nextPid
  }

  /** No registered wait coexists with a zombie child that it matches. */
  ghost predicate NoneMissed(t: Table) {
    forall i, j :: 0 <= i < |t| && 0 <= j < |t| && t[i].Some? && t[j].Some? && t[i].value.waitTarget.Some?
                   && t[j].value.state == Zombie && t[j].value.parent == Some(t[i].value.pid) ==>
      !t[i].value.waitTarget.value.Matches(t[j].value.pid)
  }

  /** Each status that was delivered is that of a zombie's exit, to its parent, and was delivered once. */
  ghost predicate Ledger(k: Kernel) {
    && (forall p :: p in k.exits ==> p < k.nextPid && k.exits[p].child == p && k.exits[p].parent < k.nextPid)
    && (forall i :: 0 <= i < |k.procs.table| && k.procs.table[i].Some? ==>
          var r := k.procs.table[i].value;
          && (r.state == Zombie <==> r.pid in k.exits)
          && (r.state == Zombie ==> r.parent.Some? && r.exitCode.Some?
                                    && k.exits[r.pid] == Delivery(r.parent.value, r.pid, r.exitCode.value)))
    && (forall d :: 0 <= d < |k.delivered| ==>
          && k.delivered[d].what.child in k.exits && k.exits[k.delivered[d].what.child] == k.delivered[d].what
          && k.delivered[d].spec.Matches(k.delivered[d].what.child))
    && (forall d, i :: 0 <= d < |k.delivered| && 0 <= i < |k.procs.table| && k.procs.table[i].Some? ==>
          k.procs.table[i].value.pid != k.delivered[d].what.child)
    && (forall d, e :: 0 <= d < e < |k.delivered| ==> k.delivered[d].what.child != k.delivered[e].what.child)
  }

  ghost predicate Present(t: Table, p: nat) {
    exists i: nat :: Has(t, i, p)
  }

  ghost predicate Received(delivered: seq<Receipt>, p: nat) {
    exists d :: 0 <= d < |delivered| && delivered[d].what.child == p
  }

  /** Every process that was created and has not exited has its record. */
  ghost predicate Enrolled(t: Table, born: set<nat>, gone: set<nat>, nextPid: nat) {
    && (forall p :: p in born ==> p < nextPid) && gone <= born
    && (forall i :: 0 <= i < |t| && t[i].Some? ==>
          t[i].value.pid in born && (t[i].value.state == Zombie <==> t[i].value.pid in gone))
    && (forall p :: p in born && p !in gone ==> Present(t, p))
  }

  /** Every status of an exit was delivered, or waits as a zombie, or has no parent left to wait for it. */
  ghost predicate Conserved(t: Table, exits: map<nat, Delivery>, delivered: seq<Receipt>) {
    forall p :: p in exits ==> Received(delivered, p) || Present(t, p) || !Present(t, exits[p].parent)
  }

  ghost predicate Books(k: Kernel) {
    && Ledger(k) && Enrolled(k.procs.table, k.born, k.gone, k.nextPid)
    && Conserved(k.procs.table, k.exits, k.delivered)
  }

  ghost predicate Inv(k: Kernel) {
    && Sized(k) && TidyTable(k.procs.table, k.nextPid) && Held(k)
    && (forall p: nat :: Balanced(k, p))
    && NoneMissed(k.procs.table) && Books(k)
  }

  /** The same pids in both tables. */
  ghost predicate SamePids(t: Table, t': Table) {
    |t'| == |t| && forall i :: 0 <= i < |t| ==>
        (t[i].Some? <==> t'[i].Some?) && (t[i].Some? ==> t[i].value.pid == t'[i].value.pid)
  }

  lemma SamePresent(t: Table, t': Table, p: nat)
    requires SamePids(t, t')
    ensures Present(t', p) == Present(t, p)
  {
    if i: nat :| Has(t, i, p) { assert Has(t', i, p); }
    if i: nat :| Has(t', i, p) { assert Has(t, i, p); }
  }

  lemma SameConserved(t: Table, t': Table, exits: map<nat, Delivery>, delivered: seq<Receipt>)
    requires SamePids(t, t') && Conserved(t, exits, delivered)
    ensures Conserved(t', exits, delivered)
  {
    forall p | p in exits ensures Received(delivered, p) || Present(t', p) || !Present(t', exits[p].parent) {
      SamePresent(t, t', p);
      SamePresent(t, t', exits[p].parent);
    }
  }

  lemma SameEnrolled(t: Table, t': Table, born: set<nat>, gone: set<nat>, nextPid: nat)
    requires SamePids(t, t') && Enrolled(t, born, gone, nextPid)
    requires forall i :: 0 <= i < |t| && t[i].Some? ==> (t[i].value.state == Zombie <==> t'[i].value.state == Zombie)
    ensures Enrolled(t', born, gone, nextPid)
  {
    forall p | p in born && p !in gone ensures Present(t', p) { SamePresent(t, t', p); }
  }

  // ---- What one changed slot and one changed CPU keep ----

  lemma CpuCountAtLeast(pr: CpuProbe, p: nat, cpus: seq<Cpu>, c: nat)
    requires c < |cpus|
    ensures CpuCount(pr, p, cpus) >= CpuWeight(pr, p, cpus[c].mode)
  {
    CpuCountUpdate(pr, p, cpus, c, Cpu(Free, None));
  }

  /** The counts after changing slot `i` to `e`. */
  lemma Recount(t: Table, i: nat, e: Option<Proc>, p: nat)
    requires i < |t|
    ensures Count(AsRunnable, p, t[i := e]) + Weight(AsRunnable, p, t[i])
            == Count(AsRunnable, p, t) + Weight(AsRunnable, p, e)
    ensures Count(AsBlocked, p, t[i := e]) + Weight(AsBlocked, p, t[i])
            == Count(AsBlocked, p, t) + Weight(AsBlocked, p, e)
    ensures Count(AsPending, p, t[i := e]) + Weight(AsPending, p, t[i])
            == Count(AsPending, p, t) + Weight(AsPending, p, e)
  {
    CountUpdate(AsRunnable, p, t, i, e);
    CountUpdate(AsBlocked, p, t, i, e);
    CountUpdate(AsPending, p, t, i, e);
  }

  /** The counts after changing CPU `c` to `x`. */
  lemma RecountCpu(cpus: seq<Cpu>, c: nat, x: Cpu, p: nat)
    requires c < |cpus|
    ensures CpuCount(AsPopped, p, cpus[c := x]) + CpuWeight(AsPopped, p, cpus[c].mode)
            == CpuCount(AsPopped, p, cpus) + CpuWeight(AsPopped, p, x.mode)
    ensures CpuCount(AsWaiting, p, cpus[c := x]) + CpuWeight(AsWaiting, p, cpus[c].mode)
            == CpuCount(AsWaiting, p, cpus) + CpuWeight(AsWaiting, p, x.mode)
    ensures CpuCount(AsDelivering, p, cpus[c := x]) + CpuWeight(AsDelivering, p, cpus[c].mode)
            == CpuCount(AsDelivering, p, cpus) + CpuWeight(AsDelivering, p, x.mode)
  {
    CpuCountUpdate(AsPopped, p, cpus, c, x);
    CpuCountUpdate(AsWaiting, p, cpus, c, x);
    CpuCountUpdate(AsDelivering, p, cpus, c, x);
  }

  /** `k'` is `k` but for slot `i`, its owner, and CPU `c`. */
  ghost predicate OneChange(k: Kernel, k': Kernel, i: nat, c: nat) {
    && c < |k.cpus| && i < |k.procs.table| && |k.procs.table| <= |k.procs.owner|
    && |k'.cpus| == |k.cpus| && k'.cpus == k.cpus[c := k'.cpus[c]]
    && |k'.procs.table| == |k.procs.table| && k'.procs.table == k.procs.table[i := k'.procs.table[i]]
    && |k'.procs.owner| == |k.procs.owner| && k'.procs.owner == k.procs.owner[i := k'.procs.owner[i]]
  }

  predicate AloneOn(cpus: seq<Cpu>, c: nat, i: nat) {
    forall d :: 0 <= d < |cpus| && d != c && cpus[d].mode.On? ==> cpus[d].mode.slot != i
  }

  lemma HeldStep(k: Kernel, k': Kernel, i: nat, c: nat)
    requires Held(k) && OneChange(k, k', i, c) && AloneOn(k.cpus, c, i)
    requires Holds(k'.procs, c, k'.cpus[c])
    requires k.cpus[c].mode.On? ==> k.cpus[c].mode.slot == i
    requires k'.cpus[c].mode.On? ==> k'.cpus[c].mode.slot == i
    requires k'.procs.owner[i].Some? ==>
               k'.procs.owner[i] == Some(c) && k'.cpus[c].mode.On? && OwnerStage(k'.cpus[c].mode.stage)
    requires k'.procs.table[i].Some? && k'.procs.table[i].value.state == Running ==> k'.cpus[c].mode.On?
    ensures Held(k')
  {
    forall j | 0 <= j < |k'.procs.table| && k'.procs.table[j].Some? && k'.procs.table[j].value.state == Running
      ensures Manned(k'.cpus, j)
    {
      if j != i { StillManned(k.cpus, k'.cpus, c, j); }
    }
    forall d | 0 <= d < |k'.cpus| ensures Holds(k'.procs, d, k'.cpus[d]) {
      if d != c { assert Holds(k.procs, d, k.cpus[d]); }
    }
    forall j | 0 <= j < |k'.procs.owner| && k'.procs.owner[j].Some?
      ensures var d := k'.procs.owner[j].value;
              d < |k'.cpus| && k'.cpus[d].mode.On? && k'.cpus[d].mode.slot == j && OwnerStage(k'.cpus[d].mode.stage)
    {
      if j != i { assert k.procs.owner[j].Some?; }
    }
  }

  /** A slot held by CPU `c` is held by no other. */
  lemma Alone(k: Kernel, c: nat)
    requires Held(k) && c < |k.cpus| && k.cpus[c].mode.On?
    ensures AloneOn(k.cpus, c, k.cpus[c].mode.slot)
  {
    forall d | 0 <= d < |k.cpus| && d != c && k.cpus[d].mode.On? ensures k.cpus[d].mode.slot != k.cpus[c].mode.slot {
      if d < c { assert k.cpus[d].mode.slot != k.cpus[c].mode.slot; }
    }
  }

  /** The record changed in nothing that waiting and exiting look at. */
  predicate SameFamily(a: Option<Proc>, b: Option<Proc>) {
    && a.Some? && b.Some? && a.value.pid == b.value.pid && a.value.parent == b.value.parent
    && a.value.waitTarget == b.value.waitTarget && a.value.exitCode == b.value.exitCode
    && (a.value.state == Zombie <==> b.value.state == Zombie)
  }

  lemma FamilyStep(k: Kernel, k': Kernel, i: nat)
    requires Inv(k) && i < |k.procs.table|
    requires |k'.procs.table| == |k.procs.table| && k'.procs.table == k.procs.table[i := k'.procs.table[i]]
    requires SameFamily(k.procs.table[i], k'.procs.table[i]) && Tidy(k'.procs.table[i].value)
    requires SameBooks(k, k')
    ensures TidyTable(k'.procs.table, k'.nextPid) && NoneMissed(k'.procs.table) && Books(k')
  {
    FamilyLedger(k, k', i);
    SameConserved(k.procs.table, k'.procs.table, k.exits, k.delivered);
    SameEnrolled(k.procs.table, k'.procs.table, k.born, k.gone, k.nextPid);
  }

  ghost predicate SameBooks(k: Kernel, k': Kernel) {
    k'.nextPid == k.nextPid && k'.exits == k.exits && k'.delivered == k.delivered && k'.born == k.born
      && k'.gone == k.gone
  }

  lemma FamilyLedger(k: Kernel, k': Kernel, i: nat)
    requires Inv(k) && i < |k.procs.table|
    requires |k'.procs.table| == |k.procs.table| && k'.procs.table == k.procs.table[i := k'.procs.table[i]]
    requires SameFamily(k.procs.table[i], k'.procs.table[i]) && Tidy(k'.procs.table[i].value)
    requires SameBooks(k, k')
    ensures TidyTable(k'.procs.table, k'.nextPid) && NoneMissed(k'.procs.table) && Ledger(k')
  {}
}
