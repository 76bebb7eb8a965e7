/** Creating processes, waiting for them, and their exit: each step keeps the invariant. */
module KernelExits {
  import opened Common
  import opened Processes
  import opened Kernel
  import opened KernelSafety
  import opened KernelSteps

  // ---- Creation ----

  /** `t'` is `t` with the record `r` in a slot that was empty, or one past the end. */
  predicate Added(t: Table, t': Table, i: nat, r: Proc) {
    || (i < |t| && t[i].None? && t' == t[i := Some(r)])
    || (i == |t| && t' == t + [Some(r)])
  }

  lemma AddedCount(pr: Probe, p: nat, t: Table, t': Table, i: nat, r: Proc)
    requires Added(t, t', i, r)
    ensures Count(pr, p, t') == Count(pr, p, t) + Weight(pr, p, Some(r))
  {
    if i < |t| { CountUpdate(pr, p, t, i, Some(r)); } else { CountAppend(pr, p, t, Some(r)); }
  }

  lemma AddedTable(t: Table, t': Table, i: nat, r: Proc, nextPid: nat, nextPid': nat)
    requires Added(t, t', i, r) && TidyTable(t, nextPid) && NoneMissed(t)
    requires Tidy(r) && nextPid <= r.pid < nextPid' && r.state == Runnable
    ensures TidyTable(t', nextPid') && NoneMissed(t')
  {}

  lemma NoRecordNoOwner(k: Kernel, i: nat)
    requires Held(k) && i < |k.procs.owner| && (i < |k.procs.table| ==> k.procs.table[i].None?)
    ensures k.procs.owner[i].None?
  {
    forall c | 0 <= c < |k.cpus| && k.cpus[c].mode.On? ensures k.cpus[c].mode.slot != i {
      assert Holds(k.procs, c, k.cpus[c]);
    }
  }

  lemma AddedHeld(k: Kernel, k': Kernel, i: nat, r: Proc)
    requires Held(k) && Added(k.procs.table, k'.procs.table, i, r) && k'.cpus == k.cpus
    requires i < |k.procs.owner| && k'.procs.owner == k.procs.owner[i := None] && r.state != Running
    ensures Held(k')
  {
    NoRecordNoOwner(k, i);
    assert k'.procs.owner == k.procs.owner;
    forall d | 0 <= d < |k'.cpus| ensures Holds(k'.procs, d, k'.cpus[d]) { assert Holds(k.procs, d, k.cpus[d]); }
  }

  lemma AddedLedger(k: Kernel, k': Kernel, i: nat, r: Proc)
    requires Ledger(k) && Added(k.procs.table, k'.procs.table, i, r)
    requires r.state == Runnable && k.nextPid <= r.pid < k'.nextPid
    requires k'.exits == k.exits && k'.delivered == k.delivered
    ensures Ledger(k')
  {
    forall d | 0 <= d < |k.delivered| ensures k.delivered[d].what.child < k.nextPid {
      assert k.delivered[d].what.child in k.exits;
    }
  }

  lemma AddedPresent(t: Table, t': Table, i: nat, r: Proc, p: nat)
    requires Added(t, t', i, r)
    ensures Present(t', p) <==> Present(t, p) || p == r.pid
  {
    assert Has(t', i, r.pid);
    if j: nat :| Has(t, j, p) { assert Has(t', j, p); }
    if j: nat :| Has(t', j, p) { assert j == i || Has(t, j, p); }
  }

  lemma AddedBooks(k: Kernel, k': Kernel, i: nat, r: Proc)
    requires Books(k) && Added(k.procs.table, k'.procs.table, i, r)
    requires r.state == Runnable && k.nextPid <= r.pid < k'.nextPid
    requires k'.exits == k.exits && k'.delivered == k.delivered && k'.born == k.born + {r.pid} && k'.gone == k.gone
    ensures Books(k')
  {
    AddedLedger(k, k', i, r);
    var t, t' := k.procs.table, k'.procs.table;
    forall p | p in k'.born && p !in k'.gone ensures Present(t', p) { AddedPresent(t, t', i, r, p); }
    forall p | p in k.exits ensures Received(k.delivered, p) || Present(t', p) || !Present(t', k.exits[p].parent) {
      AddedPresent(t, t', i, r, p);
      AddedPresent(t, t', i, r, k.exits[p].parent);
    }
  }

  lemma PidUsedUp(k: Kernel, n: nat)
    requires Inv(k) && k.nextPid <= n
    ensures Inv(k.(nextPid := n))
  {
    forall p: nat ensures Balanced(k.(nextPid := n), p) { assert Balanced(k, p); }
  }

  lemma CreatedKeeps(k: Kernel, k': Kernel, i: nat, r: Proc)
    requires Inv(k) && Added(k.procs.table, k'.procs.table, i, r) && r.state == Runnable && Tidy(r)
    requires k.nextPid == r.pid < k'.nextPid && AllBalanced(k')
    requires i < |k.procs.owner| && k'.procs.owner == k.procs.owner[i := None] && Sized(k')
    requires k' == k.(procs := k'.procs, nextPid := k'.nextPid, pushes := k'.pushes, born := k.born + {r.pid},
                      abandoned := k'.abandoned)
    ensures Inv(k')
  {
    AddedTable(k.procs.table, k'.procs.table, i, r, k.nextPid, k'.nextPid);
    AddedHeld(k, k', i, r);
    AddedBooks(k, k', i, r);
  }

  lemma CreateKeeps(k: Kernel, parent: Option<nat>)
    requires Inv(k)
    ensures if k.nextPid >= PID_LIMIT then CreateStep(k, parent) == Failed(PidSpace) else Fine(CreateStep(k, parent))
  {
    if k.nextPid < PID_LIMIT {
      var k', slot := CreateStep(k, parent).k, AllocSlot(k.procs);
      if slot.None? {
        PidUsedUp(k, k'.nextPid);
      } else {
        var i, r := slot.value.1, NewProc(k.nextPid, parent);
        assert Added(k.procs.table, k'.procs.table, i, r);
        CreatedBalance(k, k', i, r);
        CreatedKeeps(k, k', i, r);
      }
    }
  }

  /** What a failed spawn leaves is accounted for: a runnable record without a ticket. */
  lemma SpawnFailsKeeps(k: Kernel)
    requires Inv(k)
    ensures if k.nextPid >= PID_LIMIT then SpawnFailsStep(k) == Failed(PidSpace) else Fine(SpawnFailsStep(k))
  {
    if k.nextPid < PID_LIMIT {
      var k', slot := SpawnFailsStep(k).k, AllocSlot(k.procs);
      if slot.None? {
        PidUsedUp(k, k'.nextPid);
      } else {
        var i, r := slot.value.1, NewProc(k.nextPid, None);
        assert Added(k.procs.table, k'.procs.table, i, r);
        AbandonedBalance(k, k', i, r);
        CreatedKeeps(k, k', i, r);
      }
    }
  }

  lemma CreatedBalance(k: Kernel, k': Kernel, i: nat, r: Proc)
    requires AllBalanced(k) && Added(k.procs.table, k'.procs.table, i, r) && r.state == Runnable
    requires !r.wakePending && r.waitTarget.None?
    requires k' == k.(procs := k'.procs, nextPid := k'.nextPid, pushes := k.pushes + multiset{r.pid}, born := k'.born)
    ensures AllBalanced(k')
  {
    forall p: nat ensures Balanced(k', p) {
      assert Balanced(k, p);
      AddedCount(AsRunnable, p, k.procs.table, k'.procs.table, i, r);
      AddedCount(AsBlocked, p, k.procs.table, k'.procs.table, i, r);
      AddedCount(AsPending, p, k.procs.table, k'.procs.table, i, r);
    }
  }

  lemma NotYetAbandoned(k: Kernel)
    requires Inv(k)
    ensures k.nextPid !in k.abandoned
  {
    assert Balanced(k, k.nextPid);
    CountZero(AsRunnable, k.nextPid, k.procs.table);
  }

  lemma AbandonedBalance(k: Kernel, k': Kernel, i: nat, r: Proc)
    requires Inv(k) && Added(k.procs.table, k'.procs.table, i, r) && r == NewProc(k.nextPid, None)
    requires k' == k.(procs := k'.procs, nextPid := k'.nextPid, born := k'.born, abandoned := k.abandoned + {r.pid})
    ensures AllBalanced(k')
  {
    NotYetAbandoned(k);
    forall p: nat ensures Balanced(k', p) {
      assert Balanced(k, p);
      AddedCount(AsRunnable, p, k.procs.table, k'.procs.table, i, r);
      AddedCount(AsBlocked, p, k.procs.table, k'.procs.table, i, r);
      AddedCount(AsPending, p, k.procs.table, k'.procs.table, i, r);
    }
  }

  // ---- Consuming a zombie ----

  lemma RemovedTable(t: Table, i: nat, nextPid: nat)
    requires i < |t| && TidyTable(t, nextPid) && NoneMissed(t)
    ensures TidyTable(t[i := None], nextPid) && NoneMissed(t[i := None])
  {}

  /** Handing a zombie's status to its parent and dropping its record. */
  lemma DeliveredLedger(k: Kernel, k': Kernel, i: nat, spec: WaitSpec)
    requires Ledger(k) && i < |k.procs.table| && k.procs.table[i].Some? && k.procs.table[i].value.state == Zombie
    requires DistinctPids(k.procs.table) && spec.Matches(k.procs.table[i].value.pid)
    requires k.procs.table[i].value.parent.Some? && k.procs.table[i].value.exitCode.Some?
    requires k'.procs.table == k.procs.table[i := None] && k'.exits == k.exits && k'.nextPid == k.nextPid
    requires var r := k.procs.table[i].value;
             k'.delivered == k.delivered + [Receipt(Delivery(r.parent.value, r.pid, r.exitCode.value), spec)]
    ensures Ledger(k')
  {
    var r := k.procs.table[i].value;
    forall d | 0 <= d < |k'.delivered|
      ensures k'.delivered[d].what.child in k'.exits && k'.exits[k'.delivered[d].what.child] == k'.delivered[d].what
      ensures k'.delivered[d].spec.Matches(k'.delivered[d].what.child)
    {
      if d < |k.delivered| { assert k'.delivered[d] == k.delivered[d]; }
    }
    forall d, j | 0 <= d < |k'.delivered| && 0 <= j < |k'.procs.table| && k'.procs.table[j].Some?
      ensures k'.procs.table[j].value.pid != k'.delivered[d].what.child
    {
      if d < |k.delivered| { assert k'.delivered[d] == k.delivered[d]; }
      assert k.procs.table[j].value.pid != r.pid by {
        if j < i { assert k.procs.table[j].Some?; }
      }
    }
  }

  lemma RemovedPresent(t: Table, i: nat, p: nat)
    requires DistinctPids(t) && i < |t| && t[i].Some?
    ensures Present(t[i := None], p) <==> Present(t, p) && p != t[i].value.pid
  {
    var t' := t[i := None];
    if j: nat :| Has(t, j, p) {
      if p != t[i].value.pid { assert Has(t', j, p); }
    }
    if j: nat :| Has(t', j, p) {
      assert Has(t, j, p);
      if j < i { assert t[j].value.pid != t[i].value.pid; }
    }
  }

  lemma DeliveredBooks(k: Kernel, k': Kernel, i: nat, spec: WaitSpec)
    requires Books(k) && i < |k.procs.table| && k.procs.table[i].Some? && k.procs.table[i].value.state == Zombie
    requires DistinctPids(k.procs.table) && spec.Matches(k.procs.table[i].value.pid)
    requires k.procs.table[i].value.parent.Some? && k.procs.table[i].value.exitCode.Some?
    requires k'.procs.table == k.procs.table[i := None] && k'.exits == k.exits && k'.nextPid == k.nextPid
    requires k'.born == k.born && k'.gone == k.gone
    requires var r := k.procs.table[i].value;
             k'.delivered == k.delivered + [Receipt(Delivery(r.parent.value, r.pid, r.exitCode.value), spec)]
    ensures Books(k')
  {
    DeliveredLedger(k, k', i, spec);
    var t, r := k.procs.table, k.procs.table[i].value;
    forall p | p in k.born && p !in k.gone ensures Present(k'.procs.table, p) { RemovedPresent(t, i, p); }
    forall p | p in k.exits
      ensures Received(k'.delivered, p) || Present(k'.procs.table, p) || !Present(k'.procs.table, k.exits[p].parent)
    {
      RemovedPresent(t, i, p);
      RemovedPresent(t, i, k.exits[p].parent);
      if p == r.pid {
        assert k'.delivered[|k.delivered|].what.child == p;
      } else if Received(k.delivered, p) {
        var d :| 0 <= d < |k.delivered| && k.delivered[d].what.child == p;
        assert k'.delivered[d].what.child == p;
      }
    }
  }

  /** A zombie whose delivery is under way belongs to a process that is waiting. */
  lemma NotBeingDelivered(k: Kernel, c: nat, i: nat, d: nat)
    requires Inv(k) && At(k, c, AtUser) && i < |k.procs.table| && k.procs.table[i].Some?
    requires k.procs.table[i].value.state == Zombie && k.procs.table[i].value.parent == Some(k.cpus[c].mode.pid)
    requires d < |k.cpus| && k.cpus[d].mode.On?
    ensures k.cpus[d].mode.slot != i
  {
    HoldsAt(k, d);
    if k.cpus[d].mode.slot == i {
      CpuCountAtLeast(AsDelivering, k.cpus[c].mode.pid, k.cpus, d);
      NothingOutstanding(k, c);
    }
  }

  lemma CollectHeld(k: Kernel, k': Kernel, i: nat)
    requires Held(k) && i < |k.procs.table| && k'.cpus == k.cpus
    requires k'.procs == k.procs.(table := k.procs.table[i := None])
    requires forall d :: 0 <= d < |k.cpus| && k.cpus[d].mode.On? ==> k.cpus[d].mode.slot != i
    ensures Held(k')
  {
    forall d | 0 <= d < |k'.cpus| ensures Holds(k'.procs, d, k'.cpus[d]) { assert Holds(k.procs, d, k.cpus[d]); }
  }

  lemma CollectBalanced(k: Kernel, i: nat, k': Kernel)
    requires AllBalanced(k) && i < |k.procs.table| && k.procs.table[i].Some? && k.procs.table[i].value.state == Zombie
    requires Tidy(k.procs.table[i].value)
    requires k' == k.(procs := k.procs.(table := k.procs.table[i := None]), delivered := k'.delivered)
    ensures AllBalanced(k')
  {
    forall p: nat ensures Balanced(k', p) {
      assert Balanced(k, p);
      Recount(k.procs.table, i, None, p);
    }
  }

  lemma CollectKeeps(k: Kernel, c: nat, i: nat, target: nat, k': Kernel)
    requires Inv(k) && At(k, c, AtUser) && i < |k.procs.table|
    requires Collectable(k.procs.table[i], k.cpus[c].mode.pid, target)
    requires var r := k.procs.table[i].value;
             k' == k.(procs := k.procs.(table := k.procs.table[i := None]),
                      delivered := k.delivered + [Receipt(Delivery(k.cpus[c].mode.pid, r.pid, r.exitCode.value),
                                                          SpecOf(target))])
    ensures Inv(k')
  {
    RemovedTable(k.procs.table, i, k.nextPid);
    forall d | 0 <= d < |k.cpus| && k.cpus[d].mode.On? ensures k.cpus[d].mode.slot != i {
      NotBeingDelivered(k, c, i, d);
    }
    CollectHeld(k, k', i);
    RecordTidy(k, i);
    CollectBalanced(k, i, k');
    DeliveredBooks(k, k', i, SpecOf(target));
  }

  // ---- Registering a wait ----

  lemma WaitTable(t: Table, i: nat, target: nat, nextPid: nat)
    requires i < |t| && t[i].Some? && t[i].value.state == Running && t[i].value.waitTarget.None?
    requires TidyTable(t, nextPid) && NoneMissed(t)
    requires forall j :: 0 <= j < |t| ==> !Collectable(t[j], t[i].value.pid, target)
    ensures var t' := t[i := Some(t[i].value.(waitTarget := Some(SpecOf(target))))];
            TidyTable(t', nextPid) && NoneMissed(t')
  {
    var t' := t[i := Some(t[i].value.(waitTarget := Some(SpecOf(target))))];
    forall a, b | 0 <= a < |t'| && 0 <= b < |t'| && t'[a].Some? && t'[b].Some? && t'[a].value.waitTarget.Some?
                  && t'[b].value.state == Zombie && t'[b].value.parent == Some(t'[a].value.pid)
      ensures !t'[a].value.waitTarget.value.Matches(t'[b].value.pid)
    {
      if a == i { assert !Collectable(t[b], t[i].value.pid, target); }
    }
  }

  lemma SameLedger(k: Kernel, k': Kernel, i: nat)
    requires Books(k) && i < |k.procs.table| == |k'.procs.table|
    requires k'.procs.table == k.procs.table[i := k'.procs.table[i]]
    requires k.procs.table[i].Some? && k'.procs.table[i].Some?
    requires var a, b := k.procs.table[i].value, k'.procs.table[i].value;
             a.pid == b.pid && a.parent == b.parent && a.exitCode == b.exitCode && a.state == b.state
    requires SameBooks(k, k')
    ensures Books(k')
  {
    SameConserved(k.procs.table, k'.procs.table, k.exits, k.delivered);
    SameEnrolled(k.procs.table, k'.procs.table, k.born, k.gone, k.nextPid);
  }

  lemma SleepKeeps(k: Kernel, c: nat, target: nat, k': Kernel)
    requires Inv(k) && At(k, c, AtUser) && k.cpus[c].mode.slot < |k.procs.table|
    requires k.procs.table[k.cpus[c].mode.slot].Some?
    requires forall j :: 0 <= j < |k.procs.table| ==>
               !Collectable(k.procs.table[j], k.procs.table[k.cpus[c].mode.slot].value.pid, target)
    requires var m := k.cpus[c].mode;
             var me := k.procs.table[m.slot].value.(waitTarget := Some(SpecOf(target)));
             k' == SetMode(k, c, m.(stage := AtRegistered)).(
                     procs := k.procs.(table := k.procs.table[m.slot := Some(me)]))
    ensures Inv(k')
  {
    var i := k.cpus[c].mode.slot;
    HoldsAt(k, c);
    NothingOutstanding(k, c);
    Alone(k, c);
    WaitTable(k.procs.table, i, target, k.nextPid);
    HeldStep(k, k', i, c);
    SameLedger(k, k', i);
    BalanceSlot(k, k', i, c);
  }

  /** `waitpid_step` either hands over a zombie's status, registers a wait that no zombie matches, or does nothing. */
  lemma WaitKeeps(k: Kernel, c: nat, target: nat, nohang: bool)
    requires Inv(k) && At(k, c, AtUser)
    ensures Fine(WaitStep(k, c, target, nohang))
  {
    HoldsAt(k, c);
    var m := k.cpus[c].mode;
    var d := WaitScan(k.procs.table, m.pid, target, 0, false);
    if d.Collect? {
      CollectKeeps(k, c, d.slot, target, WaitStep(k, c, target, nohang).k);
    } else if d.Block? && !nohang {
      SleepKeeps(k, c, target, WaitStep(k, c, target, nohang).k);
    }
  }

  /** A child of `pid`, and the one asked for. */
  predicate Mine(e: Option<Proc>, pid: nat, target: nat) {
    e.Some? && e.value.parent == Some(pid) && (target == 0 || e.value.pid == target)
  }

  /** Some record of `t` is such a child, ended or not as asked. */
  ghost predicate HasMine(t: Table, pid: nat, target: nat, ended: bool) {
    exists z :: 0 <= z < |t| && Mine(t[z], pid, target) && (t[z].value.state == Zombie) == ended
  }

  /** The zombie in slot `z` is gone, and its status is the last receipt. */
  ghost predicate TookZombie(k: Kernel, pid: nat, target: nat, z: nat, k': Kernel) {
    var t := k.procs.table;
    && z < |t| && Mine(t[z], pid, target) && t[z].value.state == Zombie && t[z].value.exitCode.Some?
    && k' == k.(procs := k.procs.(table := t[z := None]), delivered := k'.delivered)
    && k'.delivered == k.delivered + [Receipt(Delivery(pid, t[z].value.pid, t[z].value.exitCode.value),
                                              if target == 0 then Any else Pid(target))]
  }

  /** The wait is registered for what was asked, the CPU goes on to block, and nothing else changed. */
  ghost predicate Registered(k: Kernel, c: nat, target: nat, k': Kernel)
    requires c < |k.cpus| && k.cpus[c].mode.On? && k.cpus[c].mode.slot < |k.procs.table|
    requires k.procs.table[k.cpus[c].mode.slot].Some?
  {
    var m, t := k.cpus[c].mode, k.procs.table;
    && k'.cpus == k.cpus[c := Cpu(On(m.slot, m.pid, AtRegistered), k.cpus[c].current)]
    && (var spec := if target == 0 then Any else Pid(target);
        k'.procs.table == t[m.slot := Some(t[m.slot].value.(waitTarget := Some(spec)))])
    && k' == k.(cpus := k'.cpus, procs := k.procs.(table := k'.procs.table))
  }

  /**
   * `waitpid_step` by what is in the table: with a matching zombie, one is taken; with a matching child that is
   * alive, and no `nohang`, the wait is registered; otherwise nothing happens.
   */
  lemma WaitExactly(k: Kernel, c: nat, target: nat, nohang: bool)
    requires Inv(k) && At(k, c, AtUser)
    ensures var o, p, t := WaitStep(k, c, target, nohang), k.cpus[c].mode.pid, k.procs.table;
            && o.Next? && Has(t, k.cpus[c].mode.slot, p)
            && (HasMine(t, p, target, true) ==> exists z: nat :: TookZombie(k, p, target, z, o.k))
            && (!HasMine(t, p, target, true) && HasMine(t, p, target, false) && !nohang ==>
                  Registered(k, c, target, o.k))
            && (!HasMine(t, p, target, true) && (nohang || !HasMine(t, p, target, false)) ==> o.k == k)
  {
    HoldsAt(k, c);
    var t, p := k.procs.table, k.cpus[c].mode.pid;
    ScanExactly(t, p, target, k.nextPid);
    var d := WaitScan(t, p, target, 0, false);
    if d.Collect? { assert TookZombie(k, p, target, d.slot, WaitStep(k, c, target, nohang).k); }
  }

  lemma ScanExactly(t: Table, p: nat, target: nat, nextPid: nat)
    requires TidyTable(t, nextPid)
    ensures var d := WaitScan(t, p, target, 0, false);
            && (d.Collect? <==> HasMine(t, p, target, true))
            && (d.Block? ==> HasMine(t, p, target, false))
            && (d.NoChild? ==> !HasMine(t, p, target, false))
  {
    var d := WaitScan(t, p, target, 0, false);
    if d.Collect? {
      assert Mine(t[d.slot], p, target);
    } else {
      forall z | 0 <= z < |t| && Mine(t[z], p, target) ensures t[z].value.state != Zombie {
        assert !Collectable(t[z], p, target);
      }
      if d.Block? {
        var z :| 0 <= z < |t| && IsChild(t[z], p, target) && t[z].value.state != Zombie;
        assert Mine(t[z], p, target);
      } else {
        forall z | 0 <= z < |t| ensures !Mine(t[z], p, target) {
          assert IsChild(t[z], p, target) ==> t[z].value.state == Zombie;
        }
      }
    }
  }

  // ---- Exiting ----

  /** A record that is not runnable or blocked and has nothing pending. */
  predicate Idle(r: Proc) {
    (r.state == Running || r.state == Zombie) && !r.wakePending && r.waitTarget.None?
  }

  /** What is written down when `me` exits as a zombie. */
  function Exited(k: Kernel, me: Proc, status: int): Kernel
    requires me.parent.Some?
  {
    k.(exits := k.exits[me.pid := Delivery(me.parent.value, me.pid, status)], gone := k.gone + {me.pid})
  }

  /** The parent of an exiting process, when it stays as a zombie. */
  lemma DieNoMatch(k: Kernel, c: nat, par: nat, k': Kernel)
    requires Inv(k) && c < |k.cpus| && k.cpus[c].mode.On? && k.cpus[c].mode.stage.AtExitFree?
    requires Has(k.procs.table, k.cpus[c].mode.slot, k.cpus[c].mode.pid)
    requires var me := k.procs.table[k.cpus[c].mode.slot].value;
             && me.parent.Some? && Has(k.procs.table, par, me.parent.value)
             && var w := k.procs.table[par].value.waitTarget; w.Some? ==> !w.value.Matches(me.pid)
    requires var m := k.cpus[c].mode;
             var me := k.procs.table[m.slot].value;
             var dead := me.(exitCode := Some(m.stage.status), state := Zombie);
             k' == SetMode(Exited(k, me, m.stage.status), c, Free).(
                     procs := k.procs.(table := k.procs.table[m.slot := Some(dead)]))
    ensures Inv(k')
  {
    var i := k.cpus[c].mode.slot;
    HoldsAt(k, c);
    NothingOutstanding(k, c);
    ZombieHeld(k, c, k');
    ZombieTable(k.procs.table, i, par, k.cpus[c].mode.stage.status, k.nextPid);
    ZombieBooks(k, k', i, par, k.cpus[c].mode.stage.status);
    ZombieBalanced(k, k', c);
  }

  /** The CPU lets go of its process, which stays as a zombie. */
  ghost predicate BecameZombie(k: Kernel, c: nat, k': Kernel) {
    && c < |k.cpus| && k.cpus[c].mode.On? && k.cpus[c].mode.stage.AtExitFree? && k.cpus[c].mode.slot < |k.procs.table|
    && OneChange(k, k', k.cpus[c].mode.slot, c) && !k'.cpus[c].mode.On? && !k'.cpus[c].mode.Popped?
    && k'.cpus[c].current.None?
    && k'.procs.owner == k.procs.owner
    && var e, e' := k.procs.table[k.cpus[c].mode.slot], k'.procs.table[k.cpus[c].mode.slot];
       e.Some? && e'.Some? && Idle(e.value) && Idle(e'.value) && e'.value.state == Zombie
  }

  lemma ZombieHeld(k: Kernel, c: nat, k': Kernel)
    requires Held(k) && BecameZombie(k, c, k')
    ensures Held(k')
  {
    assert Holds(k.procs, c, k.cpus[c]);
    Alone(k, c);
    HeldStep(k, k', k.cpus[c].mode.slot, c);
  }

  lemma ZombieBalanced(k: Kernel, k': Kernel, c: nat)
    requires AllBalanced(k) && BecameZombie(k, c, k')
    requires k'.queues == k.queues && k'.pushes == k.pushes && k'.entries == k.entries && k'.futexes == k.futexes
    requires k'.sleepers == k.sleepers && k'.flights == k.flights && k'.abandoned == k.abandoned
    ensures AllBalanced(k')
  {
    BalanceSlot(k, k', k.cpus[c].mode.slot, c);
  }

  lemma ZombieTable(t: Table, i: nat, par: nat, status: int, nextPid: nat)
    requires TidyTable(t, nextPid) && NoneMissed(t) && i < |t| && t[i].Some?
    requires var me := t[i].value;
             && me.state == Running && !me.blockIntent && !me.wakePending && me.waitTarget.None?
             && me.parent.Some? && Has(t, par, me.parent.value)
             && var w := t[par].value.waitTarget; w.Some? ==> !w.value.Matches(me.pid)
    ensures var t' := t[i := Some(t[i].value.(exitCode := Some(status), state := Zombie))];
            TidyTable(t', nextPid) && NoneMissed(t')
  {
    var t' := t[i := Some(t[i].value.(exitCode := Some(status), state := Zombie))];
    forall a, b | 0 <= a < |t'| && 0 <= b < |t'| && t'[a].Some? && t'[b].Some? && t'[a].value.waitTarget.Some?
                  && t'[b].value.state == Zombie && t'[b].value.parent == Some(t'[a].value.pid)
      ensures !t'[a].value.waitTarget.value.Matches(t'[b].value.pid)
    {
      if b == i { assert a == par; }
    }
  }

  lemma ZombieLedger(k: Kernel, k': Kernel, i: nat, par: nat, status: int)
    requires Ledger(k) && TidyTable(k.procs.table, k.nextPid) && i < |k.procs.table| && k.procs.table[i].Some?
    requires var me := k.procs.table[i].value;
             && me.state == Running && me.parent.Some? && Has(k.procs.table, par, me.parent.value)
             && k'.procs.table == k.procs.table[i := Some(me.(exitCode := Some(status), state := Zombie))]
             && k'.exits == k.exits[me.pid := Delivery(me.parent.value, me.pid, status)]
    requires k'.delivered == k.delivered && k'.nextPid == k.nextPid
    ensures Ledger(k')
  {
    var me := k.procs.table[i].value;
    forall j | 0 <= j < |k'.procs.table| && k'.procs.table[j].Some? && j != i
      ensures k'.procs.table[j].value.pid != me.pid
    {
      if j < i { assert k.procs.table[j].Some?; }
    }
    forall d | 0 <= d < |k'.delivered|
      ensures k'.delivered[d].what.child in k'.exits && k'.exits[k'.delivered[d].what.child] == k'.delivered[d].what
    {
      assert k.procs.table[i].value.pid != k.delivered[d].what.child;
    }
  }

  lemma ZombieBooks(k: Kernel, k': Kernel, i: nat, par: nat, status: int)
    requires Books(k) && TidyTable(k.procs.table, k.nextPid) && i < |k.procs.table| && k.procs.table[i].Some?
    requires var me := k.procs.table[i].value;
             && me.state == Running && me.parent.Some? && Has(k.procs.table, par, me.parent.value)
             && k'.procs.table == k.procs.table[i := Some(me.(exitCode := Some(status), state := Zombie))]
             && k'.exits == k.exits[me.pid := Delivery(me.parent.value, me.pid, status)] && k'.gone == k.gone + {me.pid}
    requires k'.delivered == k.delivered && k'.nextPid == k.nextPid && k'.born == k.born
    ensures Books(k')
  {
    var t, t', me := k.procs.table, k'.procs.table, k.procs.table[i].value;
    ZombieLedger(k, k', i, par, status);
    forall j | 0 <= j < |t'| && t'[j].Some? && j != i ensures t'[j].value.pid != me.pid {
      if j < i { assert t[j].Some?; }
    }
    forall p | p in k.born && p !in k'.gone ensures Present(t', p) { SamePresent(t, t', p); }
    assert Has(t', i, me.pid);
    forall p | p in k'.exits ensures Received(k.delivered, p) || Present(t', p) || !Present(t', k'.exits[p].parent) {
      if p != me.pid {
        SamePresent(t, t', p);
        SamePresent(t, t', k.exits[p].parent);
      }
    }
  }

  /** The table with the parent's registration taken. */
  function Unregistered(t: Table, par: nat): Table
    requires par < |t| && t[par].Some?
  {
    t[par := Some(t[par].value.(waitTarget := None))]
  }

  lemma UnregisteredTable(t: Table, par: nat, nextPid: nat)
    requires par < |t| && t[par].Some? && TidyTable(t, nextPid) && NoneMissed(t)
    ensures TidyTable(Unregistered(t, par), nextPid) && NoneMissed(Unregistered(t, par))
  {}

  lemma UnregisteredHeld(k: Kernel, k': Kernel, par: nat)
    requires Held(k) && par < |k.procs.table| && k.procs.table[par].Some?
    requires k'.procs == k.procs.(table := Unregistered(k.procs.table, par)) && k'.cpus == k.cpus
    ensures Held(k')
  {
    forall d | 0 <= d < |k'.cpus| ensures Holds(k'.procs, d, k'.cpus[d]) { assert Holds(k.procs, d, k.cpus[d]); }
  }

  lemma UnregisteredCounts(t: Table, par: nat, i: nat, e: Option<Proc>, p: nat)
    requires i < |t| && par < |t| && i != par && t[par].Some? && t[par].value.waitTarget.Some?
    requires Weightless(t[i], p) && Weightless(e, p)
    ensures var t' := Unregistered(t, par)[i := e];
            && Count(AsRunnable, p, t') == Count(AsRunnable, p, t) && Count(AsBlocked, p, t') == Count(AsBlocked, p, t)
            && Count(AsPending, p, t') + (if p == t[par].value.pid then 1 else 0) == Count(AsPending, p, t)
  {
    Recount(t, par, Unregistered(t, par)[par], p);
    Recount(Unregistered(t, par), i, e, p);
  }

  /** Taking the registration of a waiting parent and delivering to it: one thing outstanding before and after. */
  lemma DeliverBalance(k: Kernel, k': Kernel, c: nat, i: nat, par: nat, e: Option<Proc>)
    requires AllBalanced(k) && c < |k.cpus| && i < |k.procs.table| && par < |k.procs.table| && i != par
    requires k.procs.table[par].Some? && k.procs.table[par].value.waitTarget.Some?
    requires k'.procs.table == Unregistered(k.procs.table, par)[i := e]
    requires |k'.cpus| == |k.cpus| && k'.cpus == k.cpus[c := k'.cpus[c]]
    requires k'.queues == k.queues && k'.pushes == k.pushes && k'.entries == k.entries && k'.futexes == k.futexes
    requires k'.sleepers == k.sleepers && k'.flights == k.flights && k'.abandoned == k.abandoned
    requires k.cpus[c].mode.On? && k'.cpus[c].mode.On? && k'.cpus[c].mode.stage.AtDeliver?
    requires k'.cpus[c].mode.stage.parent == k.procs.table[par].value.pid
    requires !WaitStage(k.cpus[c].mode.stage) && !k.cpus[c].mode.stage.AtDeliver?
    requires forall p: nat :: Weightless(k.procs.table[i], p) && Weightless(e, p)
    ensures AllBalanced(k')
  {
    forall p: nat ensures Balanced(k', p) {
      assert Balanced(k, p);
      assert Weightless(k.procs.table[i], p) && Weightless(e, p);
      RecountCpu(k.cpus, c, k'.cpus[c], p);
      UnregisteredCounts(k.procs.table, par, i, e, p);
    }
  }

  /** A record that counts for nothing, such as a running one with nothing outstanding, or a zombie. */
  predicate Weightless(e: Option<Proc>, p: nat) {
    Weight(AsRunnable, p, e) == 0 && Weight(AsBlocked, p, e) == 0 && Weight(AsPending, p, e) == 0
  }

  /** The process of CPU `c` exits, and its parent in slot `par` is waiting for just this. */
  ghost predicate Handing(k: Kernel, c: nat, par: nat, k': Kernel) {
    && c < |k.cpus| && k.cpus[c].mode.On? && k.cpus[c].mode.stage.AtExitFree?
    && Has(k.procs.table, k.cpus[c].mode.slot, k.cpus[c].mode.pid)
    && var m := k.cpus[c].mode;
    && var me := k.procs.table[m.slot].value;
    && me.parent.Some? && Has(k.procs.table, par, me.parent.value)
    && var w := k.procs.table[par].value.waitTarget;
    && w.Some? && w.value.Matches(me.pid)
    && k' == SetMode(Exited(k, me, m.stage.status), c, m.(stage := AtDeliver(me.parent.value, w.value))).(
               procs := k.procs.(table := Unregistered(k.procs.table, par)[
                 m.slot := Some(me.(exitCode := Some(m.stage.status), state := Zombie))]))
  }

  lemma MatchTable(k: Kernel, c: nat, par: nat, k': Kernel)
    requires Handing(k, c, par, k') && TidyTable(k.procs.table, k.nextPid) && NoneMissed(k.procs.table) && Books(k)
    requires var me := k.procs.table[k.cpus[c].mode.slot].value; me.state == Running && Idle(me) && !me.blockIntent
    ensures TidyTable(k'.procs.table, k'.nextPid) && NoneMissed(k'.procs.table) && Books(k')
  {
    var i, t, status := k.cpus[c].mode.slot, k.procs.table, k.cpus[c].mode.stage.status;
    var k1 := k.(procs := k.procs.(table := Unregistered(t, par)));
    UnregisteredTable(t, par, k.nextPid);
    SameLedger(k, k1, par);
    ZombieTable(k1.procs.table, i, par, status, k.nextPid);
    ZombieBooks(k1, k', i, par, status);
  }

  lemma MatchHeld(k: Kernel, c: nat, par: nat, k': Kernel)
    requires Handing(k, c, par, k') && Held(k) && Sized(k)
    ensures Held(k')
  {
    var k1 := k.(procs := k.procs.(table := Unregistered(k.procs.table, par)));
    UnregisteredHeld(k, k1, par);
    assert Holds(k.procs, c, k.cpus[c]);
    DeliveringHeld(k1, c, k');
  }

  lemma DieMatch(k: Kernel, c: nat, par: nat, k': Kernel)
    requires Inv(k) && Handing(k, c, par, k')
    ensures Inv(k')
  {
    HoldsAt(k, c);
    NothingOutstanding(k, c);
    MatchTable(k, c, par, k');
    MatchHeld(k, c, par, k');
    MatchBalanced(k, c, par, k');
  }

  lemma MatchBalanced(k: Kernel, c: nat, par: nat, k': Kernel)
    requires Handing(k, c, par, k') && AllBalanced(k) && Idle(k.procs.table[k.cpus[c].mode.slot].value)
    ensures AllBalanced(k')
  {
    DeliverBalance(k, k', c, k.cpus[c].mode.slot, par, k'.procs.table[k.cpus[c].mode.slot]);
  }

  lemma DeliveringHeld(k: Kernel, c: nat, k': Kernel)
    requires Held(k) && c < |k.cpus| && k.cpus[c].mode.On? && k.cpus[c].mode.stage.AtExitFree?
    requires OneChange(k, k', k.cpus[c].mode.slot, c) && k'.procs.owner == k.procs.owner
    requires k'.cpus[c].current == k.cpus[c].current && k'.cpus[c].mode.On?
    requires k'.cpus[c].mode.slot == k.cpus[c].mode.slot
    requires k'.cpus[c].mode.stage.AtDeliver? && Holds(k'.procs, c, k'.cpus[c])
    ensures Held(k')
  {
    assert Holds(k.procs, c, k.cpus[c]);
    Alone(k, c);
    HeldStep(k, k', k.cpus[c].mode.slot, c);
  }

  // ---- Reaping ----

  lemma {:induction false} CountSame(pr: Probe, p: nat, t: Table, t': Table)
    requires |t| == |t'| && forall j :: 0 <= j < |t| ==> Weight(pr, p, t'[j]) == Weight(pr, p, t[j])
    ensures Count(pr, p, t') == Count(pr, p, t)
  {
    if t != [] { CountSame(pr, p, t[..|t| - 1], t'[..|t'| - 1]); }
  }

  lemma ReapWeight(pr: Probe, p: nat, t: Table, i: nat, j: nat, nextPid: nat)
    requires TidyTable(t, nextPid) && i < |t| && t[i].Some? && j < |t| && Idle(t[i].value)
    ensures Weight(pr, p, FullReap(t, i)[j]) == Weight(pr, p, t[j])
  {}

  lemma ReapBalance(k: Kernel, k': Kernel, c: nat, i: nat)
    requires AllBalanced(k) && TidyTable(k.procs.table, k.nextPid) && i < |k.procs.table| && k.procs.table[i].Some?
    requires Idle(k.procs.table[i].value) && k'.procs.table == FullReap(k.procs.table, i)
    requires c < |k.cpus| == |k'.cpus| && k'.cpus == k.cpus[c := k'.cpus[c]]
    requires forall p: nat :: Even(k, k', k.cpus[c].mode, k'.cpus[c].mode, None, None, p)
    ensures AllBalanced(k')
  {
    forall p: nat ensures Balanced(k', p) {
      assert Balanced(k, p);
      assert Even(k, k', k.cpus[c].mode, k'.cpus[c].mode, None, None, p);
      RecountCpu(k.cpus, c, k'.cpus[c], p);
      forall pr ensures Count(pr, p, k'.procs.table) == Count(pr, p, k.procs.table) {
        forall j | 0 <= j < |k.procs.table|
          ensures Weight(pr, p, k'.procs.table[j]) == Weight(pr, p, k.procs.table[j])
        {
          ReapWeight(pr, p, k.procs.table, i, j, k.nextPid);
        }
        CountSame(pr, p, k.procs.table, k'.procs.table);
      }
    }
  }

  /** A section of a reap leaves no record that names the dead process as its parent, unless it is init. */
  lemma ReapTable(t: Table, i: nat, nextPid: nat)
    requires TidyTable(t, nextPid) && NoneMissed(t) && i < |t| && t[i].Some?
    ensures TidyTable(FullReap(t, i), nextPid) && NoneMissed(FullReap(t, i))
    ensures t[i].value.pid != INIT_PID ==>
              forall j :: 0 <= j < |t| && FullReap(t, i)[j].Some? ==>
                  FullReap(t, i)[j].value.parent != Some(t[i].value.pid)
  {
    var t' := FullReap(t, i);
    forall j | 0 <= j < |t'| && t'[j].Some?
      ensures t[j].Some? && t'[j].value.pid == t[j].value.pid && t'[j].value.waitTarget == t[j].value.waitTarget
      ensures t'[j].value.state == t[j].value.state && (t[j].value.state == Zombie ==> t'[j] == t[j])
    {}
  }

  /** A zombie that nobody is left to wait for. */
  ghost predicate Expendable(t: Table, i: nat)
    requires i < |t| && t[i].Some?
  {
    t[i].value.state == Zombie && (t[i].value.parent.Some? ==> !Present(FullReap(t, i), t[i].value.parent.value))
  }

  lemma ReapPresent(t: Table, i: nat, p: nat)
    requires DistinctPids(t) && i < |t| && t[i].Some?
    ensures Present(FullReap(t, i), p) ==> Present(t, p) && p != t[i].value.pid
    ensures forall j: nat :: Has(t, j, p) && p != t[i].value.pid && t[j].value.state != Zombie ==>
              Present(FullReap(t, i), p)
    ensures forall j: nat :: Has(t, j, p) && p != t[i].value.pid && t[j].value.parent != Some(t[i].value.pid) ==>
              Present(FullReap(t, i), p)
  {
    var t' := FullReap(t, i);
    if j: nat :| Has(t', j, p) {
      assert Has(t, j, p);
      if j < i { assert t[j].value.pid != t[i].value.pid; }
    }
    forall j: nat | Has(t, j, p) && p != t[i].value.pid
      && (t[j].value.state != Zombie || t[j].value.parent != Some(t[i].value.pid))
      ensures Present(t', p)
    {
      assert Has(t', j, p);
    }
  }

  lemma ReapLedger(k: Kernel, k': Kernel, i: nat)
    requires Ledger(k) && i < |k.procs.table| && k.procs.table[i].Some?
    requires k'.procs.table == FullReap(k.procs.table, i)
    requires k'.exits == k.exits && k'.delivered == k.delivered && k'.nextPid == k.nextPid
    ensures Ledger(k')
  {
    var t, t' := k.procs.table, k'.procs.table;
    forall j | 0 <= j < |t'| && t'[j].Some?
      ensures t[j].Some? && t'[j].value.pid == t[j].value.pid && t'[j].value.state == t[j].value.state
      ensures t[j].value.state == Zombie ==> t'[j] == t[j]
    {}
  }

  lemma ReapEnrolled(t: Table, i: nat, born: set<nat>, gone: set<nat>, nextPid: nat)
    requires Enrolled(t, born, gone, nextPid) && DistinctPids(t) && i < |t| && t[i].Some?
    ensures Enrolled(FullReap(t, i), born, gone + {t[i].value.pid}, nextPid)
  {
    var t' := FullReap(t, i);
    forall j | 0 <= j < |t'| && t'[j].Some?
      ensures t'[j].value.pid in born && (t'[j].value.state == Zombie <==> t'[j].value.pid in gone + {t[i].value.pid})
    {
      assert t[j].Some? && t[j].value.pid == t'[j].value.pid && t[j].value.state == t'[j].value.state && j != i;
      if j < i { assert t[j].value.pid != t[i].value.pid; }
    }
    forall p | p in born && p !in gone + {t[i].value.pid} ensures Present(t', p) {
      var j: nat :| Has(t, j, p);
      ReapPresent(t, i, p);
    }
  }

  lemma ReapConserved(k: Kernel, i: nat)
    requires Books(k) && DistinctPids(k.procs.table) && i < |k.procs.table| && k.procs.table[i].Some?
    requires k.procs.table[i].value.state == Zombie ==> Expendable(k.procs.table, i)
    ensures Conserved(FullReap(k.procs.table, i), k.exits, k.delivered)
  {
    var t := k.procs.table;
    forall p | p in k.exits
      ensures Received(k.delivered, p) || Present(FullReap(t, i), p) || !Present(FullReap(t, i), k.exits[p].parent)
    {
      ReapPresent(t, i, p);
      ReapPresent(t, i, k.exits[p].parent);
      if !Received(k.delivered, p) && Present(t, p) {
        var j: nat :| Has(t, j, p);
        assert t[j].value.state == Zombie && t[j].value.parent == Some(k.exits[p].parent);
      }
    }
  }

  lemma ReapBooks(k: Kernel, k': Kernel, i: nat)
    requires Books(k) && DistinctPids(k.procs.table) && i < |k.procs.table| && k.procs.table[i].Some?
    requires k.procs.table[i].value.state == Zombie ==> Expendable(k.procs.table, i)
    requires k'.procs.table == FullReap(k.procs.table, i)
    requires k'.exits == k.exits && k'.delivered == k.delivered && k'.nextPid == k.nextPid
    requires k'.born == k.born && k'.gone == k.gone + {k.procs.table[i].value.pid}
    ensures Books(k')
  {
    ReapLedger(k, k', i);
    ReapEnrolled(k.procs.table, i, k.born, k.gone, k.nextPid);
    ReapConserved(k, i);
  }

  lemma ReapHeld(k: Kernel, k': Kernel, c: nat, i: nat)
    requires Held(k) && c < |k.cpus| && i < |k.procs.table| && k.procs.table[i].Some?
    requires k.cpus[c].mode.On? ==> k.cpus[c].mode.slot == i && k.cpus[c].mode.stage.AtExitFree?
    requires k'.procs == k.procs.(table := FullReap(k.procs.table, i))
    requires |k'.cpus| == |k.cpus| && k'.cpus == k.cpus[c := k'.cpus[c]] && !k'.cpus[c].mode.On?
    requires k'.cpus[c].current.None?
    requires AloneOn(k.cpus, c, i)
    requires forall d :: 0 <= d < |k.cpus| && k.cpus[d].mode.On? && k.cpus[d].mode.stage.AtDeliver? ==>
               k.cpus[d].mode.stage.parent != k.procs.table[i].value.pid
    ensures Held(k')
  {
    assert Holds(k.procs, c, k.cpus[c]);
    forall d | 0 <= d < |k'.cpus| ensures Holds(k'.procs, d, k'.cpus[d]) { assert Holds(k.procs, d, k.cpus[d]); }
    forall j | 0 <= j < |k'.procs.table| && k'.procs.table[j].Some? && k'.procs.table[j].value.state == Running
      ensures Manned(k'.cpus, j)
    {
      StillManned(k.cpus, k'.cpus, c, j);
    }
  }

  lemma ReapSection(k: Kernel, c: nat, i: nat, k': Kernel)
    requires Inv(k) && c < |k.cpus| && i < |k.procs.table| && k.procs.table[i].Some? && Idle(k.procs.table[i].value)
    requires k.procs.table[i].value.state == Zombie ==> Expendable(k.procs.table, i)
    requires k.cpus[c].mode.Reaping?
             || (k.cpus[c].mode.On? && k.cpus[c].mode.slot == i && k.cpus[c].mode.stage.AtExitFree?)
    requires AloneOn(k.cpus, c, i) && CpuCount(AsDelivering, k.procs.table[i].value.pid, k.cpus) == 0
    requires |k'.cpus| == |k.cpus| && k'.cpus == k.cpus[c := k'.cpus[c]] && k'.cpus[c].mode.Reaping?
    requires k'.cpus[c].current.None?
    requires k' == k.(procs := k.procs.(table := FullReap(k.procs.table, i)), cpus := k'.cpus,
                      gone := k.gone + {k.procs.table[i].value.pid})
    ensures Inv(k')
  {
    forall d | 0 <= d < |k.cpus| && k.cpus[d].mode.On? && k.cpus[d].mode.stage.AtDeliver?
      ensures k.cpus[d].mode.stage.parent != k.procs.table[i].value.pid
    {
      CpuCountAtLeast(AsDelivering, k.procs.table[i].value.pid, k.cpus, d);
    }
    ReapHeld(k, k', c, i);
    ReapTable(k.procs.table, i, k.nextPid);
    ReapBooks(k, k', i);
    ReapBalance(k, k', c, i);
  }

  lemma ZeroAlready(m: multiset<nat>, p: nat)
    requires m[p] == 0
    ensures m[p := 0] == m
  {}

  lemma DieKeeps(k: Kernel, c: nat)
    requires Inv(k) && c < |k.cpus| && k.cpus[c].mode.On? && k.cpus[c].mode.stage.AtExitFree?
    ensures Fine(DieStep(k, c))
  {
    HoldsAt(k, c);
    NothingOutstanding(k, c);
    var m, t := k.cpus[c].mode, k.procs.table;
    var me := t[m.slot].value;
    ZeroAlready(k.futexes, me.pid);
    var parent := LiveParent(t, me.parent);
    if !StaysZombie(me.parent, parent.Some?, me.adopted) {
      Alone(k, c);
      ReapSection(k, c, m.slot, DieStep(k, c).k);
    } else {
      var par := parent.value;
      var e := Some(me.(exitCode := Some(m.stage.status), state := Zombie));
      if par != m.slot && t[par].value.waitTarget.Some? && t[par].value.waitTarget.value.Matches(me.pid) {
        Commute(t, m.slot, e, par);
        DieMatch(k, c, par, DieStep(k, c).k);
      } else {
        DieNoMatch(k, c, par, DieStep(k, c).k);
      }
    }
  }

  lemma Commute(t: Table, i: nat, e: Option<Proc>, par: nat)
    requires i < |t| && par < |t| && i != par && t[par].Some?
    ensures t[i := e][par := Some(t[i := e][par].value.(waitTarget := None))] == Unregistered(t, par)[i := e]
  {}

  lemma DeliverHeld(k: Kernel, c: nat, k': Kernel)
    requires Inv(k) && c < |k.cpus| && k.cpus[c].mode.On? && k.cpus[c].mode.stage.AtDeliver?
    requires DeliverStep(k, c) == Next(k')
    ensures Held(k')
  {
    HoldsAt(k, c);
    Alone(k, c);
    HeldStep(k, k', k.cpus[c].mode.slot, c);
  }

  lemma DeliverBalanced(k: Kernel, c: nat, k': Kernel)
    requires Inv(k) && c < |k.cpus| && k.cpus[c].mode.On? && k.cpus[c].mode.stage.AtDeliver?
    requires DeliverStep(k, c) == Next(k')
    ensures AllBalanced(k')
  {
    HoldsAt(k, c);
    RecordTidy(k, k.cpus[c].mode.slot);
    BalanceSlot(k, k', k.cpus[c].mode.slot, c);
  }

  lemma DeliverKeeps(k: Kernel, c: nat)
    requires Inv(k) && c < |k.cpus| && k.cpus[c].mode.On? && k.cpus[c].mode.stage.AtDeliver?
    ensures Fine(DeliverStep(k, c))
  {
    HoldsAt(k, c);
    var i, k' := k.cpus[c].mode.slot, DeliverStep(k, c).k;
    RecordTidy(k, i);
    RemovedTable(k.procs.table, i, k.nextPid);
    DeliverHeld(k, c, k');
    DeliverBalanced(k, c, k');
    DeliveredBooks(k, k', i, k.cpus[c].mode.stage.spec);
  }
}
