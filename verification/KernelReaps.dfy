/**
 * The sections of `full_reap` after the first one. The lock is free between them, and the slots that the first
 * section cleared may be in use again when they are visited.
 */
module KernelReaps {
  import opened Common
  import opened Processes
  import opened Kernel
  import opened KernelSafety
  import opened KernelSteps
  import opened KernelExits

  /** The slot about to be visited holds a record again, and not one of a zombie that nobody is left to wait for. */
  ghost predicate CascadeHit(k: Kernel, c: nat) {
    && c < |k.cpus| && k.cpus[c].mode.Reaping? && k.cpus[c].mode.todo != []
    && var s := k.cpus[c].mode.todo[|k.cpus[c].mode.todo| - 1];
       s < |k.procs.table| && k.procs.table[s].Some? && !Expendable(k.procs.table, s)
  }

  /** The CPU entry about to be swept names the seed slot again: a new process runs there. */
  predicate SweepHit(k: Kernel, c: nat) {
    && c < |k.cpus| && k.cpus[c].mode.Sweeping? && k.cpus[c].mode.next < |k.cpus|
    && k.cpus[k.cpus[c].mode.next].current == Some(k.cpus[c].mode.seed)
  }

  ghost predicate Hit(k: Kernel, a: Action) {
    (a.Cascade? && CascadeHit(k, a.cpu)) || (a.Sweep? && SweepHit(k, a.cpu))
  }

  /** A process that something is outstanding for has a record, and is alive. */
  lemma WaiterPresent(k: Kernel, q: nat) returns (j: nat)
    requires Inv(k) && Outstanding(k, q) > 0
    ensures Has(k.procs.table, j, q) && k.procs.table[j].value.state != Zombie
  {
    WaitingOnce(k, q);
    if Count(AsBlocked, q, k.procs.table) > 0 {
      j := CountPositive(AsBlocked, q, k.procs.table);
    } else {
      var c := CpuCountPositive(AsWaiting, q, k.cpus);
      HoldsAt(k, c);
      j := k.cpus[c].mode.slot;
    }
  }

  /** No CPU is at work on a zombie that nobody is left to wait for. */
  lemma ExpendableAlone(k: Kernel, s: nat, d: nat)
    requires Inv(k) && s < |k.procs.table| && k.procs.table[s].Some? && Expendable(k.procs.table, s)
    requires d < |k.cpus| && k.cpus[d].mode.On?
    ensures k.cpus[d].mode.slot != s
  {
    HoldsAt(k, d);
    if k.cpus[d].mode.slot == s {
      var q := k.cpus[d].mode.stage.parent;
      CpuCountAtLeast(AsDelivering, q, k.cpus, d);
      var j := WaiterPresent(k, q);
      ReapPresent(k.procs.table, s, q);
    }
  }

  lemma ZombieNotWaiting(k: Kernel, s: nat)
    requires Inv(k) && s < |k.procs.table| && k.procs.table[s].Some? && k.procs.table[s].value.state == Zombie
    ensures CpuCount(AsDelivering, k.procs.table[s].value.pid, k.cpus) == 0
  {
    var p := k.procs.table[s].value.pid;
    if Outstanding(k, p) > 0 {
      var j := WaiterPresent(k, p);
      FindIs(k.procs.table, p, s);
      FindIs(k.procs.table, p, j);
    }
  }

  lemma CascadeFine(k: Kernel, c: nat)
    requires Inv(k) && c < |k.cpus| && k.cpus[c].mode.Reaping? && !CascadeHit(k, c)
    ensures Fine(CascadeStep(k, c))
  {
    HoldsAt(k, c);
    var m, t, k' := k.cpus[c].mode, k.procs.table, CascadeStep(k, c).k;
    if m.todo == [] {
      CpuOnly(k, k', c);
    } else {
      var s := m.todo[|m.todo| - 1];
      if s >= |t| || t[s].None? {
        CpuOnly(k, k', c);
      } else {
        RecordTidy(k, s);
        forall d | 0 <= d < |k.cpus| && d != c && k.cpus[d].mode.On? ensures k.cpus[d].mode.slot != s {
          ExpendableAlone(k, s, d);
        }
        ZombieNotWaiting(k, s);
        assert k.gone + {t[s].value.pid} == k.gone;
        ReapSection(k, c, s, k');
      }
    }
  }

  /** Taking a live record, or a zombie whose parent is there, loses something for good. */
  lemma CascadeLoses(k: Kernel, c: nat)
    requires Inv(k) && CascadeHit(k, c)
    ensures CascadeStep(k, c).Next? && !Books(CascadeStep(k, c).k)
  {
    var m, t := k.cpus[c].mode, k.procs.table;
    var s, k' := m.todo[|m.todo| - 1], CascadeStep(k, c).k;
    var p := t[s].value.pid;
    ReapPresent(t, s, p);
    RecordTidy(k, s);
  }

  /** A visit keeps the invariant if and only if it finds the slot empty, or a zombie nobody is left to wait for. */
  lemma CascadeKeeps(k: Kernel, c: nat)
    requires Inv(k) && c < |k.cpus| && k.cpus[c].mode.Reaping?
    ensures CascadeStep(k, c).Next? && (Inv(CascadeStep(k, c).k) <==> !CascadeHit(k, c))
  {
    if CascadeHit(k, c) { CascadeLoses(k, c); } else { CascadeFine(k, c); }
  }

  /** A sweep keeps the invariant if and only if the seed slot is not current on the CPU it looks at. */
  lemma SweepKeeps(k: Kernel, c: nat)
    requires Inv(k) && c < |k.cpus| && k.cpus[c].mode.Sweeping?
    ensures SweepStep(k, c).Next? && (Inv(SweepStep(k, c).k) <==> !SweepHit(k, c))
  {
    HoldsAt(k, c);
    var n, k' := k.cpus[c].mode.next, SweepStep(k, c).k;
    if SweepHit(k, c) {
      HoldsAt(k, n);
      assert n != c && k'.cpus[n] == k.cpus[n].(current := None);
      assert !Holds(k'.procs, n, k'.cpus[n]);
    } else {
      CpuOnly(k, k', c);
    }
  }

  // ---- What the sections of a reap do ----

  /** What is left of a record when the process `p` in slot `s` is taken out. */
  function AfterReap(t: Table, s: nat, p: nat, i: nat): Option<Proc>
    requires i < |t|
  {
    if i == s then None
    else if t[i].None? || t[i].value.parent != Some(p) then t[i]
    else if t[i].value.state == Zombie then None
    else Some(t[i].value.(parent := Some(2), adopted := true))
  }

  /** The slots of the zombie children of `p`, the one in `s` aside, from low to high. */
  ghost predicate ZombieSlots(t: Table, s: nat, p: nat, slots: seq<nat>) {
    && (forall i, j :: 0 <= i < j < |slots| ==> slots[i] < slots[j])
    && forall i: nat :: i in slots <==>
         i < |t| && i != s && t[i].Some? && t[i].value.parent == Some(p) && t[i].value.state == Zombie
  }

  ghost predicate Reaped(k: Kernel, s: nat, k': Kernel) {
    var t, t' := k.procs.table, k'.procs.table;
    && s < |t| == |t'| && t[s].Some?
    && (forall i :: 0 <= i < |t| ==> t'[i] == AfterReap(t, s, t[s].value.pid, i))
    && k'.procs.owner == k.procs.owner
  }

  ghost predicate Ascends(slots: seq<nat>, from: nat) {
    && (forall i, j :: 0 <= i < j < |slots| ==> slots[i] < slots[j])
    && (forall i :: 0 <= i < |slots| ==> from <= slots[i])
  }

  lemma AscendsAt(rest: seq<nat>, from: nat, i: nat, j: nat)
    requires Ascends(rest, from + 1) && i < j <= |rest|
    ensures ([from] + rest)[i] < ([from] + rest)[j]
  {
    assert ([from] + rest)[j] == rest[j - 1];
    if i > 0 {
      assert ([from] + rest)[i] == rest[i - 1];
      assert rest[i - 1] < rest[j - 1];
    }
  }

  lemma AscendsFrom(rest: seq<nat>, from: nat)
    requires Ascends(rest, from + 1)
    ensures Ascends([from] + rest, from) && Ascends([] + rest, from)
  {
    var all := [from] + rest;
    forall i, j | 0 <= i < j < |all| ensures all[i] < all[j] {
      AscendsAt(rest, from, i, j);
    }
    forall i | 0 <= i < |all| ensures from <= all[i] {
      if i > 0 { AscendsAt(rest, from, 0, i); }
    }
    assert [] + rest == rest;
  }

  lemma {:induction false} ClearedAscending(t: Table, dying: nat, from: nat)
    requires from <= |t|
    ensures Ascends(Cleared(t, dying, from), from)
    decreases |t| - from
  {
    if from < |t| {
      ClearedAscending(t, dying, from + 1);
      AscendsFrom(Cleared(t, dying, from + 1), from);
    }
  }

  lemma ClearedSlots(t: Table, s: nat, p: nat)
    requires s < |t|
    ensures ZombieSlots(t, s, p, Cleared(t[s := None], p, 0))
  {
    ClearedAscending(t[s := None], p, 0);
    forall i: nat
      ensures i in Cleared(t[s := None], p, 0) <==>
                i < |t| && i != s && t[i].Some? && t[i].value.parent == Some(p) && t[i].value.state == Zombie
    {
      ClearedExactly(t[s := None], p, 0, i);
    }
  }

  /** A later section: the last slot of the list is visited, and what it holds by now is reaped with its children. */
  lemma CascadeExactly(k: Kernel, c: nat) returns (more: seq<nat>)
    requires c < |k.cpus| && k.cpus[c].mode.Reaping?
    ensures var o, m, t := CascadeStep(k, c), k.cpus[c].mode, k.procs.table;
            && o.Next? && o.k == k.(procs := o.k.procs, cpus := k.cpus[c := k.cpus[c].(mode := o.k.cpus[c].mode)])
            && |o.k.cpus| == |k.cpus|
            && (m.todo == [] ==> o.k.procs == k.procs && o.k.cpus[c].mode == Sweeping(m.seed, 0))
            && (m.todo != [] ==>
                  var n := |m.todo| - 1;
                  var s := m.todo[n];
                  if s < |t| && t[s].Some? then
                    && Reaped(k, s, o.k) && ZombieSlots(t, s, t[s].value.pid, more)
                    && o.k.cpus[c].mode == Reaping(m.seed, if n + |more| <= 256 then m.todo[..n] + more
                                                           else (m.todo[..n] + more)[..256])
                  else o.k.procs == k.procs && o.k.cpus[c].mode == Reaping(m.seed, m.todo[..n]))
  {
    var m, t := k.cpus[c].mode, k.procs.table;
    more := [];
    if m.todo != [] {
      var s := m.todo[|m.todo| - 1];
      if s < |t| && t[s].Some? {
        more := Cleared(t[s := None], t[s].value.pid, 0);
        ClearedSlots(t, s, t[s].value.pid);
      }
    }
  }

  /** The first section of a reap: the process goes, and the slots of its zombie children are to be visited. */
  lemma DieReaps(k: Kernel, c: nat)
    requires c < |k.cpus| && k.cpus[c].mode.On? && k.cpus[c].mode.stage.AtExitFree?
    requires DieStep(k, c).Next? && DieStep(k, c).k.cpus[c].mode.Reaping?
    ensures var k', s := DieStep(k, c).k, k.cpus[c].mode.slot;
            && Reaped(k, s, k') && k'.cpus[c].mode.seed == s
            && ZombieSlots(k.procs.table, s, k.procs.table[s].value.pid, k'.cpus[c].mode.todo)
  {
    var s := k.cpus[c].mode.slot;
    ClearedSlots(k.procs.table, s, k.procs.table[s].value.pid);
  }

  /** The sweep: one CPU after the other, an entry that names the seed is cleared; then the CPU is free. */
  lemma SweepExactly(k: Kernel, c: nat)
    requires c < |k.cpus| && k.cpus[c].mode.Sweeping?
    ensures var o, m := SweepStep(k, c), k.cpus[c].mode;
            && o.Next? && |o.k.cpus| == |k.cpus| && o.k == k.(cpus := o.k.cpus)
            && o.k.cpus[c].mode == (if m.next < |k.cpus| then Sweeping(m.seed, m.next + 1) else Free)
            && (forall d :: 0 <= d < |k.cpus| && d != c ==> o.k.cpus[d].mode == k.cpus[d].mode)
            && forall d :: 0 <= d < |k.cpus| ==>
                 o.k.cpus[d].current ==
                 if d == m.next && k.cpus[d].current == Some(m.seed) then None else k.cpus[d].current
  {}
}
