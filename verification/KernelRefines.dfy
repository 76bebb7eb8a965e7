/** Every step of `Kernel` does what `KernelSpec` says it does to the processes by pid. */
module KernelRefines {
  import opened Common
  import opened Processes
  import opened Kernel
  import opened KernelSafety
  import opened KernelSteps
  import opened KernelExits
  import opened KernelReaps
  import opened KernelRuns
  import S = KernelSpec

  // ---- The kernel by pid ----

  function SeenAs(r: Proc): S.Person {
    S.Person(
      match r.state {
        case Runnable => S.Ready
        case Running => S.OnCpu
        case Blocked => S.Asleep
        case Zombie => S.Ended(r.exitCode.GetOr(0))
      },
      r.blockIntent, r.wakePending, r.parent, r.adopted, r.waitTarget)
  }

  ghost function People(t: Table): map<nat, S.Person>
    requires DistinctPids(t)
  {
    map i | 0 <= i < |t| && t[i].Some? :: t[i].value.pid := SeenAs(t[i].value)
  }

  function SeatOf(cpu: Cpu): S.Seat {
    match cpu.mode
    case Free => S.Vacant
    case Popped(p) => S.Called(p)
    case On(_, p, stage) => S.Seated(p, stage)
    case Reaping(_, _) => S.Cleaning
    case Sweeping(_, _) => S.Cleaning
  }

  function Seats(cpus: seq<Cpu>): (seats: seq<S.Seat>)
    ensures |seats| == |cpus| && forall c :: 0 <= c < |cpus| ==> seats[c] == SeatOf(cpus[c])
  {
    seq(|cpus|, c requires 0 <= c < |cpus| => SeatOf(cpus[c]))
  }

  ghost function SceneOf(k: Kernel): S.Scene
    requires DistinctPids(k.procs.table)
  {
    S.Scene(People(k.procs.table), Seats(k.cpus), k.queues, k.pushes, k.entries, k.futexes, k.sleepers, k.flights,
            k.nextPid, k.delivered)
  }

  lemma SeatsSet(cpus: seq<Cpu>, c: nat, x: Cpu)
    requires c < |cpus|
    ensures Seats(cpus[c := x]) == Seats(cpus)[c := SeatOf(x)]
  {}

  // ---- Records by pid ----

  lemma PersonAt(t: Table, i: nat, p: nat)
    requires DistinctPids(t) && Has(t, i, p)
    ensures p in People(t) && People(t)[p] == SeenAs(t[i].value)
  {
    assert t[i].value.pid == p;
  }

  lemma SlotOf(t: Table, p: nat) returns (i: nat)
    requires DistinctPids(t) && p in People(t)
    ensures Has(t, i, p) && People(t)[p] == SeenAs(t[i].value)
  {
    i :| i < |t| && t[i].Some? && t[i].value.pid == p;
  }

  /** The tables differ in slot `i` alone, and `q` is in it in neither. */
  ghost predicate Apart(t: Table, t': Table, i: nat, q: nat) {
    && |t| <= |t'| <= |t| + 1 && i < |t'| && (|t'| > |t| ==> i == |t|)
    && (forall j :: 0 <= j < |t| && j != i ==> t'[j] == t[j])
    && !Has(t, i, q) && !Has(t', i, q)
  }

  lemma SameElsewhere(t: Table, t': Table, i: nat, q: nat)
    requires DistinctPids(t) && DistinctPids(t') && Apart(t, t', i, q)
    ensures q in People(t) <==> q in People(t')
    ensures q in People(t) ==> People(t')[q] == People(t)[q]
  {
    if q in People(t) {
      var j := SlotOf(t, q);
      PersonAt(t', j, q);
    }
    if q in People(t') {
      var j := SlotOf(t', q);
      PersonAt(t, j, q);
    }
  }

  /** Everyone but `p` is the same in both. */
  ghost predicate SameBut(m: map<nat, S.Person>, m': map<nat, S.Person>, p: nat) {
    forall q :: q != p ==> (q in m <==> q in m') && (q in m ==> m'[q] == m[q])
  }

  lemma Patched(m: map<nat, S.Person>, m': map<nat, S.Person>, p: nat, x: S.Person)
    requires SameBut(m, m', p) && p in m' && m'[p] == x
    ensures m' == m[p := x]
  {}

  lemma SameEverywhereElse(t: Table, t': Table, i: nat, p: nat)
    requires DistinctPids(t) && DistinctPids(t') && forall q: nat :: q != p ==> Apart(t, t', i, q)
    ensures SameBut(People(t), People(t'), p)
  {
    forall q | q != p
      ensures (q in People(t) <==> q in People(t')) && (q in People(t) ==> People(t')[q] == People(t)[q])
    {
      SameElsewhere(t, t', i, q);
    }
  }

  lemma PeopleSet(t: Table, i: nat, r: Proc)
    requires DistinctPids(t) && Has(t, i, r.pid)
    ensures DistinctPids(t[i := Some(r)]) && People(t[i := Some(r)]) == People(t)[r.pid := SeenAs(r)]
  {
    var t' := t[i := Some(r)];
    SameEverywhereElse(t, t', i, r.pid);
    PersonAt(t', i, r.pid);
    Patched(People(t), People(t'), r.pid, SeenAs(r));
  }

  lemma PeopleGone(t: Table, i: nat, p: nat)
    requires DistinctPids(t) && Has(t, i, p)
    ensures DistinctPids(t[i := None]) && People(t[i := None]) == People(t) - {p}
  {
    var t' := t[i := None];
    SameEverywhereElse(t, t', i, p);
    if p in People(t') { var j := SlotOf(t', p); }
  }

  lemma PeopleNew(t: Table, t': Table, i: nat, r: Proc)
    requires DistinctPids(t) && DistinctPids(t') && Added(t, t', i, r)
    requires forall j :: 0 <= j < |t| && t[j].Some? ==> t[j].value.pid != r.pid
    ensures r.pid !in People(t) && People(t') == People(t)[r.pid := SeenAs(r)]
  {
    if r.pid in People(t) { var j := SlotOf(t, r.pid); }
    SameEverywhereElse(t, t', i, r.pid);
    PersonAt(t', i, r.pid);
    Patched(People(t), People(t'), r.pid, SeenAs(r));
  }

  // ---- One record and one seat ----

  /** The scene after the record in slot `i` became `r` and CPU `c` changed. */
  lemma RecordAndSeat(k: Kernel, k': Kernel, i: nat, r: Proc, c: nat)
    requires DistinctPids(k.procs.table) && Has(k.procs.table, i, r.pid)
    requires k'.procs.table == k.procs.table[i := Some(r)]
    requires c < |k.cpus| == |k'.cpus| && k'.cpus == k.cpus[c := k'.cpus[c]]
    ensures DistinctPids(k'.procs.table)
    ensures SceneOf(k').people == SceneOf(k).people[r.pid := SeenAs(r)]
    ensures SceneOf(k').seats == SceneOf(k).seats[c := SeatOf(k'.cpus[c])]
    ensures r.pid in SceneOf(k).people && SceneOf(k).people[r.pid] == SeenAs(k.procs.table[i].value)
  {
    PeopleSet(k.procs.table, i, r);
    PersonAt(k.procs.table, i, r.pid);
    SeatsSet(k.cpus, c, k'.cpus[c]);
  }

  /** The scene after CPU `c` changed. */
  lemma SeatOnly(k: Kernel, k': Kernel, c: nat)
    requires DistinctPids(k.procs.table) && k'.procs.table == k.procs.table
    requires c < |k.cpus| == |k'.cpus| && k'.cpus == k.cpus[c := k'.cpus[c]]
    ensures SceneOf(k').people == SceneOf(k).people
    ensures SceneOf(k').seats == SceneOf(k).seats[c := SeatOf(k'.cpus[c])]
  {
    SeatsSet(k.cpus, c, k'.cpus[c]);
  }

  // ---- Dispatching ----

  lemma PopDoes(k: Kernel, c: nat)
    requires DistinctPids(k.procs.table) && c < |k.cpus| && k.cpus[c].mode == Free
    ensures PopStep(k, c).Next? && PopStep(k, c).k.procs == k.procs
    ensures S.Enabled(SceneOf(k), Pop(c)) && S.Does(SceneOf(k), Pop(c), SceneOf(PopStep(k, c).k))
  {
    var k' := PopStep(k, c).k;
    SeatOnly(k, k', c);
    if TopLevel(k.queues, 0).None? {
      assert SceneOf(k).seats[c := S.Vacant] == SceneOf(k).seats;
    }
  }

  lemma ClaimDoes(k: Kernel, c: nat)
    requires DistinctPids(k.procs.table) && Sized(k) && c < |k.cpus| && k.cpus[c].mode.Popped? && ClaimStep(k, c).Next?
    ensures DistinctPids(ClaimStep(k, c).k.procs.table)
    ensures S.Enabled(SceneOf(k), Claim(c)) && S.Does(SceneOf(k), Claim(c), SceneOf(ClaimStep(k, c).k))
  {
    var k' := ClaimStep(k, c).k;
    var i := Find(k.procs.table, k.cpus[c].mode.pid, 0).value;
    RecordAndSeat(k, k', i, k'.procs.table[i].value, c);
  }

  lemma ReleaseDoes(k: Kernel, c: nat)
    requires DistinctPids(k.procs.table) && Sized(k) && At(k, c, AtYieldOff) && ReleaseStep(k, c).Next?
    requires Has(k.procs.table, k.cpus[c].mode.slot, k.cpus[c].mode.pid)
    ensures DistinctPids(ReleaseStep(k, c).k.procs.table)
    ensures S.Enabled(SceneOf(k), Release(c)) && S.Does(SceneOf(k), Release(c), SceneOf(ReleaseStep(k, c).k))
  {
    var k', i := ReleaseStep(k, c).k, k.cpus[c].mode.slot;
    RecordAndSeat(k, k', i, k'.procs.table[i].value, c);
  }

  // ---- Blocking and waking ----

  lemma BeginBlockDoes(k: Kernel, c: nat)
    requires DistinctPids(k.procs.table) && Sized(k) && At(k, c, AtRegistered) && BeginBlockStep(k, c).Next?
    requires Has(k.procs.table, k.cpus[c].mode.slot, k.cpus[c].mode.pid)
    requires k.cpus[c].current == Some(k.cpus[c].mode.slot)
    ensures DistinctPids(BeginBlockStep(k, c).k.procs.table)
    ensures S.Enabled(SceneOf(k), BeginBlocking(c))
    ensures S.Does(SceneOf(k), BeginBlocking(c), SceneOf(BeginBlockStep(k, c).k))
  {
    var k', i := BeginBlockStep(k, c).k, k.cpus[c].mode.slot;
    RecordAndSeat(k, k', i, k'.procs.table[i].value, c);
  }

  lemma FinishBlockDoes(k: Kernel, c: nat)
    requires DistinctPids(k.procs.table) && Sized(k) && At(k, c, AtBlockOff) && FinishBlockStep(k, c).Next?
    requires Has(k.procs.table, k.cpus[c].mode.slot, k.cpus[c].mode.pid)
    ensures DistinctPids(FinishBlockStep(k, c).k.procs.table)
    ensures S.Enabled(SceneOf(k), FinishBlocking(c))
    ensures S.Does(SceneOf(k), FinishBlocking(c), SceneOf(FinishBlockStep(k, c).k))
  {
    var k', i := FinishBlockStep(k, c).k, k.cpus[c].mode.slot;
    RecordAndSeat(k, k', i, k'.procs.table[i].value, c);
  }

  lemma WakeDoes(k: Kernel, p: nat)
    requires TidyTable(k.procs.table, k.nextPid) && Sized(k) && p in k.flights && WakeStep(k, p).Next?
    ensures DistinctPids(WakeStep(k, p).k.procs.table)
    ensures S.Enabled(SceneOf(k), WakeUp(p)) && S.Does(SceneOf(k), WakeUp(p), SceneOf(WakeStep(k, p).k))
  {
    var k', i := WakeStep(k, p).k, Find(k.procs.table, p, 0).value;
    PeopleSet(k.procs.table, i, k'.procs.table[i].value);
    PersonAt(k.procs.table, i, p);
  }

  // ---- Waiting for a child ----

  lemma NoneEnded(t: Table, nextPid: nat, s: S.Scene, p: nat, target: nat)
    requires TidyTable(t, nextPid) && s.people == People(t)
    requires forall i :: 0 <= i < |t| ==> !Collectable(t[i], p, target)
    ensures !S.HasEnded(s, p, target)
  {
    forall q | q in s.people && S.ChildOf(s.people[q], q, p, target) ensures !s.people[q].life.Ended? {
      var j := SlotOf(t, q);
      assert !Collectable(t[j], p, target);
    }
  }

  lemma ChildSeen(t: Table, s: S.Scene, p: nat, target: nat, i: nat)
    requires DistinctPids(t) && s.people == People(t) && i < |t| && IsChild(t[i], p, target)
    ensures S.HasChild(s, p, target)
  {
    PersonAt(t, i, t[i].value.pid);
    assert S.ChildOf(s.people[t[i].value.pid], t[i].value.pid, p, target);
  }

  lemma NoChildSeen(t: Table, nextPid: nat, s: S.Scene, p: nat, target: nat)
    requires TidyTable(t, nextPid) && s.people == People(t)
    requires forall i :: 0 <= i < |t| ==> !Collectable(t[i], p, target)
    requires forall i :: 0 <= i < |t| && IsChild(t[i], p, target) ==> t[i].value.state == Zombie
    ensures !S.HasChild(s, p, target)
  {
    forall q | q in s.people ensures !S.ChildOf(s.people[q], q, p, target) {
      var j := SlotOf(t, q);
      assert !Collectable(t[j], p, target);
    }
  }

  lemma CollectDoes(k: Kernel, s: S.Scene, p: nat, target: nat, i: nat, k': Kernel)
    requires DistinctPids(k.procs.table) && s == SceneOf(k) && i < |k.procs.table|
    requires Collectable(k.procs.table[i], p, target)
    requires var r := k.procs.table[i].value;
             k' == k.(procs := k.procs.(table := k.procs.table[i := None]),
                      delivered := k.delivered + [Receipt(Delivery(p, r.pid, r.exitCode.value), SpecOf(target))])
    ensures DistinctPids(k'.procs.table)
    ensures S.HasEnded(s, p, target) && S.Collected(s, p, target, k.procs.table[i].value.pid, SceneOf(k'))
  {
    var q := k.procs.table[i].value.pid;
    PersonAt(k.procs.table, i, q);
    PeopleGone(k.procs.table, i, q);
    assert S.ChildOf(s.people[q], q, p, target) && s.people[q].life.Ended?;
  }

  lemma SleepDoes(k: Kernel, c: nat, target: nat, k': Kernel)
    requires DistinctPids(k.procs.table) && At(k, c, AtUser)
    requires Has(k.procs.table, k.cpus[c].mode.slot, k.cpus[c].mode.pid)
    requires var m, t := k.cpus[c].mode, k.procs.table;
             && k' == k.(cpus := k.cpus[c := k.cpus[c].(mode := m.(stage := AtRegistered))], procs := k'.procs)
             && k'.procs.table == t[m.slot := Some(t[m.slot].value.(waitTarget := Some(SpecOf(target))))]
    ensures DistinctPids(k'.procs.table)
    ensures var s, p := SceneOf(k), k.cpus[c].mode.pid;
            && p in s.people
            && SceneOf(k') == S.Changed(S.Moved(s, c, AtRegistered), p, s.people[p].(wait := Some(S.AnyOr(target))))
  {
    var i := k.cpus[c].mode.slot;
    var r := k.procs.table[i].value.(waitTarget := Some(SpecOf(target)));
    RecordAndSeat(k, k', i, r, c);
    assert SeenAs(r) == SeenAs(k.procs.table[i].value).(wait := Some(S.AnyOr(target)));
  }

  /** The state after a wait, by what the scan decides. */
  lemma WaitIs(k: Kernel, c: nat, target: nat, nohang: bool)
    requires At(k, c, AtUser) && Has(k.procs.table, k.cpus[c].mode.slot, k.cpus[c].mode.pid)
    ensures var m, t := k.cpus[c].mode, k.procs.table;
            var o, d := WaitStep(k, c, target, nohang), WaitScan(t, m.pid, target, 0, false);
            && o.Next?
            && (d.Collect? ==>
                  o.k == k.(procs := k.procs.(table := t[d.slot := None]),
                            delivered := k.delivered + [Receipt(Delivery(m.pid, d.pid, d.code), SpecOf(target))]))
            && (d.NoChild? || (d.Block? && nohang) ==> o.k == k)
            && (d.Block? && !nohang ==>
                  var me := t[m.slot].value.(waitTarget := Some(SpecOf(target)));
                  o.k == SetMode(k, c, m.(stage := AtRegistered)).(procs := k.procs.(table := t[m.slot := Some(me)])))
  {}

  /** The spec of the case in hand, from what was found out about the scenes. */
  lemma CollectedDoes(s: S.Scene, c: nat, target: nat, nohang: bool, q: nat, s': S.Scene)
    requires S.Sits(s, c, AtUser) && s.seats[c].pid in s.people
    requires S.HasEnded(s, s.seats[c].pid, target) && S.Collected(s, s.seats[c].pid, target, q, s')
    ensures S.Enabled(s, WaitPid(c, target, nohang)) && S.Does(s, WaitPid(c, target, nohang), s')
  {}

  lemma RegisteredDoes(s: S.Scene, c: nat, target: nat, s': S.Scene)
    requires S.Sits(s, c, AtUser) && s.seats[c].pid in s.people
    requires !S.HasEnded(s, s.seats[c].pid, target) && S.HasChild(s, s.seats[c].pid, target)
    requires var p := s.seats[c].pid;
             s' == S.Changed(S.Moved(s, c, AtRegistered), p, s.people[p].(wait := Some(S.AnyOr(target))))
    ensures S.Enabled(s, WaitPid(c, target, false)) && S.Does(s, WaitPid(c, target, false), s')
  {}

  lemma NothingDoes(s: S.Scene, c: nat, target: nat, nohang: bool)
    requires S.Sits(s, c, AtUser) && s.seats[c].pid in s.people
    requires !S.HasEnded(s, s.seats[c].pid, target) && (nohang || !S.HasChild(s, s.seats[c].pid, target))
    ensures S.Enabled(s, WaitPid(c, target, nohang)) && S.Does(s, WaitPid(c, target, nohang), s)
  {}

  lemma WaitCollects(k: Kernel, c: nat, target: nat, nohang: bool)
    requires TidyTable(k.procs.table, k.nextPid) && At(k, c, AtUser)
    requires Has(k.procs.table, k.cpus[c].mode.slot, k.cpus[c].mode.pid)
    requires WaitScan(k.procs.table, k.cpus[c].mode.pid, target, 0, false).Collect?
    ensures WaitStep(k, c, target, nohang).Next? && DistinctPids(WaitStep(k, c, target, nohang).k.procs.table)
    ensures S.Enabled(SceneOf(k), WaitPid(c, target, nohang))
    ensures S.Does(SceneOf(k), WaitPid(c, target, nohang), SceneOf(WaitStep(k, c, target, nohang).k))
  {
    var t, p := k.procs.table, k.cpus[c].mode.pid;
    WaitIs(k, c, target, nohang);
    PersonAt(t, k.cpus[c].mode.slot, p);
    var s, d, k' := SceneOf(k), WaitScan(t, p, target, 0, false), WaitStep(k, c, target, nohang).k;
    CollectDoes(k, s, p, target, d.slot, k');
    CollectedDoes(s, c, target, nohang, d.pid, SceneOf(k'));
  }

  lemma WaitRegisters(k: Kernel, c: nat, target: nat, nohang: bool)
    requires TidyTable(k.procs.table, k.nextPid) && At(k, c, AtUser)
    requires Has(k.procs.table, k.cpus[c].mode.slot, k.cpus[c].mode.pid)
    requires WaitScan(k.procs.table, k.cpus[c].mode.pid, target, 0, false).Block? && !nohang
    ensures WaitStep(k, c, target, nohang).Next? && DistinctPids(WaitStep(k, c, target, nohang).k.procs.table)
    ensures S.Enabled(SceneOf(k), WaitPid(c, target, nohang))
    ensures S.Does(SceneOf(k), WaitPid(c, target, nohang), SceneOf(WaitStep(k, c, target, nohang).k))
  {
    var t, p := k.procs.table, k.cpus[c].mode.pid;
    WaitIs(k, c, target, nohang);
    PersonAt(t, k.cpus[c].mode.slot, p);
    var s, k' := SceneOf(k), WaitStep(k, c, target, nohang).k;
    NoneEnded(t, k.nextPid, s, p, target);
    var i :| 0 <= i < |t| && IsChild(t[i], p, target) && t[i].value.state != Zombie;
    ChildSeen(t, s, p, target, i);
    SleepDoes(k, c, target, k');
    RegisteredDoes(s, c, target, SceneOf(k'));
  }

  lemma WaitNothing(k: Kernel, c: nat, target: nat, nohang: bool)
    requires TidyTable(k.procs.table, k.nextPid) && At(k, c, AtUser)
    requires Has(k.procs.table, k.cpus[c].mode.slot, k.cpus[c].mode.pid)
    requires var d := WaitScan(k.procs.table, k.cpus[c].mode.pid, target, 0, false);
             d.NoChild? || (d.Block? && nohang)
    ensures WaitStep(k, c, target, nohang).Next? && DistinctPids(WaitStep(k, c, target, nohang).k.procs.table)
    ensures S.Enabled(SceneOf(k), WaitPid(c, target, nohang))
    ensures S.Does(SceneOf(k), WaitPid(c, target, nohang), SceneOf(WaitStep(k, c, target, nohang).k))
  {
    var t, p := k.procs.table, k.cpus[c].mode.pid;
    WaitIs(k, c, target, nohang);
    PersonAt(t, k.cpus[c].mode.slot, p);
    NoneEnded(t, k.nextPid, SceneOf(k), p, target);
    if !nohang { NoChildSeen(t, k.nextPid, SceneOf(k), p, target); }
    NothingDoes(SceneOf(k), c, target, nohang);
  }

  lemma WaitDoes(k: Kernel, c: nat, target: nat, nohang: bool)
    requires TidyTable(k.procs.table, k.nextPid) && At(k, c, AtUser)
    requires Has(k.procs.table, k.cpus[c].mode.slot, k.cpus[c].mode.pid)
    ensures WaitStep(k, c, target, nohang).Next? && DistinctPids(WaitStep(k, c, target, nohang).k.procs.table)
    ensures S.Enabled(SceneOf(k), WaitPid(c, target, nohang))
    ensures S.Does(SceneOf(k), WaitPid(c, target, nohang), SceneOf(WaitStep(k, c, target, nohang).k))
  {
    var d := WaitScan(k.procs.table, k.cpus[c].mode.pid, target, 0, false);
    if d.Collect? { WaitCollects(k, c, target, nohang); }
    else if d.Block? && !nohang { WaitRegisters(k, c, target, nohang); }
    else { WaitNothing(k, c, target, nohang); }
  }

  // ---- Creating a process ----

  lemma DistinctFront(t: Table)
    requires t != [] && DistinctPids(t)
    ensures DistinctPids(t[..|t| - 1])
  {}

  /** How many slots are taken. */
  function Taken(t: Table): nat {
    if t == [] then 0 else Taken(t[..|t| - 1]) + if t[|t| - 1].Some? then 1 else 0
  }

  lemma {:induction false} TakenAll(t: Table)
    ensures Taken(t) <= |t|
    ensures Taken(t) == |t| <==> forall i :: 0 <= i < |t| ==> t[i].Some?
  {
    if t != [] {
      var front := t[..|t| - 1];
      TakenAll(front);
      assert forall i :: 0 <= i < |front| ==> front[i] == t[i];
    }
  }

  lemma {:induction false} HeadCount(t: Table)
    requires DistinctPids(t)
    ensures |People(t)| == Taken(t)
    decreases |t|
  {
    if t == [] {
      assert People(t) == map[];
    } else {
      var front, last := t[..|t| - 1], t[|t| - 1];
      DistinctFront(t);
      HeadCount(front);
      assert t == front + [last];
      if last.Some? {
        PeopleNew(front, t, |front|, last.value);
        OneMore(People(front), last.value.pid, SeenAs(last.value));
      } else {
        PeopleSame(front, t);
      }
    }
  }

  lemma OneMore(m: map<nat, S.Person>, p: nat, x: S.Person)
    requires p !in m
    ensures |m[p := x]| == |m| + 1
  {}

  lemma PeopleSame(t: Table, t': Table)
    requires DistinctPids(t) && DistinctPids(t') && t' == t + [None]
    ensures People(t') == People(t)
  {
    forall p | p in People(t') ensures p in People(t) && People(t')[p] == People(t)[p] {
      var j := SlotOf(t', p);
      PersonAt(t, j, p);
    }
    forall p | p in People(t) ensures p in People(t') {
      var j := SlotOf(t, p);
      PersonAt(t', j, p);
    }
  }

  lemma NextPidIs(p: nat)
    ensures NextPidRaw(p) == if p % 0x1_0000 == 0xFFFF then p + 3 else p + 1
  {}

  lemma PlacedAt(procs: Procs, r: Proc) returns (i: nat)
    requires |procs.table| <= MAX_PROCESSES == |procs.owner| && AllocSlot(procs).Some?
    ensures var (procs', slot) := AllocSlot(procs).value;
            i == slot < |procs'.table| && Added(procs.table, procs'.table[slot := Some(r)], i, r)
  {
    var (procs', slot) := AllocSlot(procs).value;
    i := slot;
    if i == |procs.table| {
      assert (procs.table + [None])[i := Some(r)] == procs.table + [Some(r)];
    }
  }

  lemma PidNew(k: Kernel)
    requires TidyTable(k.procs.table, k.nextPid)
    ensures k.nextPid !in People(k.procs.table)
  {
    if k.nextPid in People(k.procs.table) {
      var j := SlotOf(k.procs.table, k.nextPid);
    }
  }

  /** What creating a process comes to: a record for it in a slot that was empty, or none left. */
  lemma CreateIs(k: Kernel, parent: Option<nat>) returns (i: nat)
    requires Sized(k) && k.nextPid < PID_LIMIT
    ensures var o, r := CreateStep(k, parent), NewProc(k.nextPid, parent);
            && o.Next? && o.k.nextPid == NextPidRaw(k.nextPid)
            && (AllocSlot(k.procs).None? ==> o.k == k.(nextPid := o.k.nextPid))
            && (AllocSlot(k.procs).Some? ==>
                  && Added(k.procs.table, o.k.procs.table, i, r)
                  && o.k == k.(nextPid := o.k.nextPid, procs := o.k.procs, born := o.k.born,
                               pushes := k.pushes + multiset{k.nextPid}))
  {
    i := 0;
    if AllocSlot(k.procs).Some? { i := PlacedAt(k.procs, NewProc(k.nextPid, parent)); }
  }

  lemma FullDoes(k: Kernel, parent: Option<nat>, k': Kernel, queued: bool)
    requires DistinctPids(k.procs.table) && k.nextPid !in People(k.procs.table) && |People(k.procs.table)| == 256
    requires k' == k.(nextPid := NextPidRaw(k.nextPid))
    ensures S.Created(SceneOf(k), parent, queued, SceneOf(k'))
  {
    NextPidIs(k.nextPid);
  }

  lemma RoomDoes(k: Kernel, parent: Option<nat>, k': Kernel, queued: bool, i: nat)
    requires DistinctPids(k.procs.table) && k.nextPid !in People(k.procs.table) && |People(k.procs.table)| < 256
    requires Added(k.procs.table, k'.procs.table, i, NewProc(k.nextPid, parent)) && DistinctPids(k'.procs.table)
    requires forall j :: 0 <= j < |k.procs.table| && k.procs.table[j].Some? ==> k.procs.table[j].value.pid < k.nextPid
    requires k' == k.(nextPid := NextPidRaw(k.nextPid), procs := k'.procs, born := k'.born, abandoned := k'.abandoned,
                      pushes := if queued then k.pushes + multiset{k.nextPid} else k.pushes)
    ensures S.Created(SceneOf(k), parent, queued, SceneOf(k'))
  {
    NextPidIs(k.nextPid);
    PeopleNew(k.procs.table, k'.procs.table, i, NewProc(k.nextPid, parent));
  }

  lemma CreateDoes(k: Kernel, parent: Option<nat>, k': Kernel, queued: bool)
    requires TidyTable(k.procs.table, k.nextPid) && Sized(k) && k.nextPid < PID_LIMIT && CreateStep(k, parent).Next?
    requires if queued || AllocSlot(k.procs).None? then k' == CreateStep(k, parent).k
             else k' == CreateStep(k, parent).k.(pushes := k.pushes, abandoned := k'.abandoned)
    requires DistinctPids(k'.procs.table)
    ensures S.Created(SceneOf(k), parent, queued, SceneOf(k'))
  {
    NoRoom(k.procs);
    PidNew(k);
    var i := CreateIs(k, parent);
    if AllocSlot(k.procs).Some? {
      RoomDoes(k, parent, k', queued, i);
    } else {
      FullDoes(k, parent, k', queued);
    }
  }

  lemma NoRoom(procs: Procs)
    requires |procs.table| <= MAX_PROCESSES == |procs.owner| && DistinctPids(procs.table)
    ensures |People(procs.table)| <= 256 && (AllocSlot(procs).None? <==> |People(procs.table)| == 256)
  {
    HeadCount(procs.table);
    TakenAll(procs.table);
  }

  // ---- Exit ----

  lemma LeftBehind(t: Table, i: nat, p: nat, q: nat)
    requires DistinctPids(t) && Has(t, i, p) && DistinctPids(FullReap(t, i)) && q in People(FullReap(t, i))
    ensures q in S.Bereft(People(t), p) && S.Bereft(People(t), p)[q] == People(FullReap(t, i))[q]
  {
    var j := SlotOf(FullReap(t, i), q);
    PersonAt(t, j, q);
  }

  lemma StillThere(t: Table, i: nat, p: nat, q: nat)
    requires DistinctPids(t) && Has(t, i, p) && DistinctPids(FullReap(t, i)) && q in S.Bereft(People(t), p)
    ensures q in People(FullReap(t, i))
  {
    var j := SlotOf(t, q);
    assert j != i;
    PersonAt(FullReap(t, i), j, q);
  }

  lemma PeopleReap(t: Table, i: nat, p: nat)
    requires DistinctPids(t) && Has(t, i, p) && DistinctPids(FullReap(t, i))
    ensures People(FullReap(t, i)) == S.Bereft(People(t), p)
  {
    var t', left := FullReap(t, i), S.Bereft(People(t), p);
    forall q | q in People(t') ensures q in left && left[q] == People(t')[q] { LeftBehind(t, i, p, q); }
    forall q | q in left ensures q in People(t') { StillThere(t, i, p, q); }
  }

  lemma ParentSeen(t: Table, i: nat)
    requires DistinctPids(t) && i < |t| && t[i].Some?
    ensures var me := t[i].value; var par := LiveParent(t, me.parent);
            && (par.Some? <==>
                  me.parent.Some? && me.parent.value in People(t) && !People(t)[me.parent.value].life.Ended?)
            && (par.Some? ==> People(t)[me.parent.value] == SeenAs(t[par.value].value))
  {
    var me := t[i].value;
    if me.parent.Some? {
      var at := Find(t, me.parent.value, 0);
      if at.Some? { PersonAt(t, at.value, me.parent.value); }
      else if me.parent.value in People(t) { var j := SlotOf(t, me.parent.value); }
    }
  }

  /** A process whose exit nobody waits to hear of. */
  lemma ReapDoes(k: Kernel, c: nat, k': Kernel)
    requires DistinctPids(k.procs.table) && c < |k.cpus| && k.cpus[c].mode.On? && k.cpus[c].mode.stage.AtExitFree?
    requires Has(k.procs.table, k.cpus[c].mode.slot, k.cpus[c].mode.pid)
    requires var m := k.cpus[c].mode;
             && |k'.cpus| == |k.cpus| && k'.cpus == k.cpus[c := k'.cpus[c]] && k'.cpus[c].mode.Reaping?
             && k'.procs.table == FullReap(k.procs.table, m.slot) && DistinctPids(k'.procs.table)
             && k' == k.(cpus := k'.cpus, procs := k'.procs, futexes := k.futexes[m.pid := 0], gone := k'.gone)
    requires k.cpus[c].mode.pid in SceneOf(k).people && !S.Missed(SceneOf(k), k.cpus[c].mode.pid)
    ensures S.Died(SceneOf(k), c, SceneOf(k'))
  {
    SeatsSet(k.cpus, c, k'.cpus[c]);
    PeopleReap(k.procs.table, k.cpus[c].mode.slot, k.cpus[c].mode.pid);
  }

  /** Ended in place. */
  function DeadIn(t: Table, i: nat, status: int): Table
    requires i < |t| && t[i].Some?
  {
    t[i := Some(t[i].value.(exitCode := Some(status), state := Zombie))]
  }

  lemma DeadPeople(t: Table, i: nat, p: nat, status: int)
    requires DistinctPids(t) && Has(t, i, p)
    ensures DistinctPids(DeadIn(t, i, status)) && p in People(t)
    ensures People(DeadIn(t, i, status)) == People(t)[p := People(t)[p].(life := S.Ended(status))]
  {
    PersonAt(t, i, p);
    PeopleSet(t, i, t[i].value.(exitCode := Some(status), state := Zombie));
  }

  lemma ToldPeople(t: Table, par: nat, q: nat)
    requires DistinctPids(t) && Has(t, par, q)
    ensures q in People(t) && DistinctPids(Unregistered(t, par))
    ensures People(Unregistered(t, par)) == People(t)[q := People(t)[q].(wait := None)]
  {
    PersonAt(t, par, q);
    PeopleSet(t, par, t[par].value.(waitTarget := None));
  }

  /** An exit while the parent is there and waits for something else, or not at all. */
  lemma ZombieDoes(k: Kernel, c: nat, par: nat, k': Kernel)
    requires DistinctPids(k.procs.table) && c < |k.cpus| && k.cpus[c].mode.On? && k.cpus[c].mode.stage.AtExitFree?
    requires Has(k.procs.table, k.cpus[c].mode.slot, k.cpus[c].mode.pid)
    requires var m, t := k.cpus[c].mode, k.procs.table;
             && m.pid in SceneOf(k).people && S.Missed(SceneOf(k), m.pid)
             && Has(t, par, t[m.slot].value.parent.GetOr(0))
             && (t[par].value.waitTarget.Some? ==> !t[par].value.waitTarget.value.Matches(m.pid))
             && k' == k.(cpus := k.cpus[c := k.cpus[c].(mode := Free)], futexes := k.futexes[m.pid := 0],
                         gone := k'.gone, exits := k'.exits,
                         procs := k.procs.(table := DeadIn(t, m.slot, m.stage.status)))
    ensures DistinctPids(k'.procs.table) && S.Died(SceneOf(k), c, SceneOf(k'))
  {
    var m, t := k.cpus[c].mode, k.procs.table;
    SeatsSet(k.cpus, c, k'.cpus[c]);
    PersonAt(t, m.slot, m.pid);
    PersonAt(t, par, t[m.slot].value.parent.value);
    DeadPeople(t, m.slot, m.pid, m.stage.status);
  }

  /** An exit that the parent waits for. */
  lemma MatchDoes(k: Kernel, c: nat, par: nat, k': Kernel)
    requires DistinctPids(k.procs.table) && c < |k.cpus| && k.cpus[c].mode.On? && k.cpus[c].mode.stage.AtExitFree?
    requires Has(k.procs.table, k.cpus[c].mode.slot, k.cpus[c].mode.pid)
    requires var m, t := k.cpus[c].mode, k.procs.table;
             && m.pid in SceneOf(k).people && S.Missed(SceneOf(k), m.pid) && par != m.slot
             && Has(t, par, t[m.slot].value.parent.GetOr(0))
             && t[par].value.waitTarget.Some? && t[par].value.waitTarget.value.Matches(m.pid)
             && var m' := m.(stage := AtDeliver(t[m.slot].value.parent.value, t[par].value.waitTarget.value));
                k' == k.(cpus := k.cpus[c := k.cpus[c].(mode := m')], futexes := k.futexes[m.pid := 0],
                         gone := k'.gone, exits := k'.exits,
                         procs := k.procs.(table := Unregistered(DeadIn(t, m.slot, m.stage.status), par)))
    ensures DistinctPids(k'.procs.table) && S.Died(SceneOf(k), c, SceneOf(k'))
  {
    var m, t := k.cpus[c].mode, k.procs.table;
    var q := t[m.slot].value.parent.value;
    MatchPeople(t, m.slot, m.pid, par, q, m.stage.status);
    SeatsSet(k.cpus, c, k'.cpus[c]);
    PersonAt(t, m.slot, m.pid);
    PersonAt(t, par, q);
    TellsSpec(SceneOf(k), c, m.pid, q, t[par].value.waitTarget.value, m.stage.status, SceneOf(k'));
  }

  lemma MatchPeople(t: Table, i: nat, p: nat, par: nat, q: nat, status: int)
    requires DistinctPids(t) && Has(t, i, p) && Has(t, par, q) && i != par
    ensures var t' := Unregistered(DeadIn(t, i, status), par);
            && DistinctPids(t') && p in People(t) && q in People(t) && p != q
            && People(t') == People(t)[p := People(t)[p].(life := S.Ended(status))][q := People(t)[q].(wait := None)]
  {
    PersonAt(t, i, p);
    PersonAt(t, par, q);
    DeadPeople(t, i, p, status);
    PersonAt(DeadIn(t, i, status), par, q);
    ToldPeople(DeadIn(t, i, status), par, q);
  }

  lemma TellsSpec(s: S.Scene, c: nat, p: nat, q: nat, w: WaitSpec, status: int, s': S.Scene)
    requires c < |s.seats| && s.seats[c] == S.Seated(p, AtExitFree(status)) && p in s.people && S.Missed(s, p)
    requires s.people[p].parent == Some(q) && s.people[q].wait == Some(w) && w.Matches(p)
    requires s' == s.(seats := s.seats[c := S.Seated(p, AtDeliver(q, w))], futexes := s.futexes[p := 0],
                      people := s.people[p := s.people[p].(life := S.Ended(status))][q := s.people[q].(wait := None)])
    ensures S.Died(s, c, s')
  {}

  lemma DieDoes(k: Kernel, c: nat)
    requires DistinctPids(k.procs.table) && c < |k.cpus| && k.cpus[c].mode.On? && k.cpus[c].mode.stage.AtExitFree?
    requires Has(k.procs.table, k.cpus[c].mode.slot, k.cpus[c].mode.pid) && DieStep(k, c).Next?
    requires k.procs.table[k.cpus[c].mode.slot].value.waitTarget.None? && DistinctPids(DieStep(k, c).k.procs.table)
    ensures S.Enabled(SceneOf(k), Die(c)) && S.Does(SceneOf(k), Die(c), SceneOf(DieStep(k, c).k))
  {
    var m, t, k' := k.cpus[c].mode, k.procs.table, DieStep(k, c).k;
    PersonAt(t, m.slot, m.pid);
    ParentSeen(t, m.slot);
    var par := LiveParent(t, t[m.slot].value.parent);
    if S.Missed(SceneOf(k), m.pid) {
      var w := t[par.value].value.waitTarget;
      if w.Some? && w.value.Matches(m.pid) {
        MatchDoes(k, c, par.value, k');
      } else {
        ZombieDoes(k, c, par.value, k');
      }
    } else {
      ReapDoes(k, c, k');
    }
  }

  lemma DeliverDoes(k: Kernel, c: nat)
    requires DistinctPids(k.procs.table) && c < |k.cpus| && k.cpus[c].mode.On? && k.cpus[c].mode.stage.AtDeliver?
    requires Has(k.procs.table, k.cpus[c].mode.slot, k.cpus[c].mode.pid) && DeliverStep(k, c).Next?
    requires k.procs.table[k.cpus[c].mode.slot].value.state == Zombie
    ensures DistinctPids(DeliverStep(k, c).k.procs.table)
    ensures S.Enabled(SceneOf(k), Deliver(c)) && S.Does(SceneOf(k), Deliver(c), SceneOf(DeliverStep(k, c).k))
  {
    var m, k' := k.cpus[c].mode, DeliverStep(k, c).k;
    PersonAt(k.procs.table, m.slot, m.pid);
    PeopleGone(k.procs.table, m.slot, m.pid);
    SeatsSet(k.cpus, c, k'.cpus[c]);
  }

  // ---- Every step ----

  /** The step applies exactly when it should, and does what it should. */
  ghost predicate Faithful(k: Kernel, a: Action, o: Outcome)
    requires DistinctPids(k.procs.table) && !Clearing(a)
  {
    && (o.Next? <==> S.Enabled(SceneOf(k), a))
    && (o.Next? ==> DistinctPids(o.k.procs.table) && S.Does(SceneOf(k), a, SceneOf(o.k)))
  }

  lemma SeatAt(k: Kernel, c: nat, stage: Stage)
    requires DistinctPids(k.procs.table)
    ensures At(k, c, stage) <==> S.Sits(SceneOf(k), c, stage)
  {}

  /** What the records and the CPUs have to do with each other. */
  lemma Basics(k: Kernel)
    requires Inv(k)
    ensures Sized(k) && TidyTable(k.procs.table, k.nextPid)
    ensures forall c :: 0 <= c < |k.cpus| && k.cpus[c].mode.On? ==>
              Has(k.procs.table, k.cpus[c].mode.slot, k.cpus[c].mode.pid)
  {
    forall c | 0 <= c < |k.cpus| && k.cpus[c].mode.On?
      ensures Has(k.procs.table, k.cpus[c].mode.slot, k.cpus[c].mode.pid)
    {
      HoldsAt(k, c);
    }
  }

  /** A move from one stage to another. */
  lemma StageDoes(k: Kernel, c: nat, k': Kernel, stage: Stage)
    requires DistinctPids(k.procs.table) && c < |k.cpus| == |k'.cpus| && k.cpus[c].mode.On?
    requires k'.cpus == k.cpus[c := k'.cpus[c]] && k'.cpus[c].mode == k.cpus[c].mode.(stage := stage)
    requires k'.procs.table == k.procs.table
    ensures SceneOf(k').people == SceneOf(k).people
    ensures SceneOf(k').seats == S.Moved(SceneOf(k), c, stage).seats
  {
    SeatOnly(k, k', c);
  }

  /** What the steps need of the invariant: they fail no assertion, and a CPU's process is where the CPU has it. */
  ghost predicate Grounded(k: Kernel, a: Action) {
    && Sized(k) && TidyTable(k.procs.table, k.nextPid)
    && (forall c :: 0 <= c < |k.cpus| && k.cpus[c].mode.On? ==>
          Has(k.procs.table, k.cpus[c].mode.slot, k.cpus[c].mode.pid))
    && !Step(k, a).Stale? && (Step(k, a).Failed? ==> Excused(k, a, Step(k, a).why))
  }

  predicate Leaving(a: Action) {
    a.BeginExit? || a.DetachExit? || a.ReleaseOwner?
  }

  lemma LeavingFaithful(k: Kernel, a: Action)
    requires Grounded(k, a) && Leaving(a)
    ensures Faithful(k, a, Step(k, a))
  {
    var o := Step(k, a);
    if o.Next? { StageDoes(k, a.cpu, o.k, o.k.cpus[a.cpu].mode.stage); }
  }

  predicate Detaching(a: Action) {
    a.DetachYield? || a.DetachBlock?
  }

  lemma DetachingFaithful(k: Kernel, a: Action)
    requires Grounded(k, a) && Detaching(a)
    ensures Faithful(k, a, Step(k, a))
  {
    var o := Step(k, a);
    if o.Next? { StageDoes(k, a.cpu, o.k, o.k.cpus[a.cpu].mode.stage); }
  }

  predicate Stepping(a: Action) {
    a.Enter? || a.BeginYield?
  }

  lemma SteppingFaithful(k: Kernel, a: Action)
    requires Grounded(k, a) && Stepping(a)
    ensures Faithful(k, a, Step(k, a))
  {
    var o := Step(k, a);
    if o.Next? { StageDoes(k, a.cpu, o.k, o.k.cpus[a.cpu].mode.stage); }
  }

  predicate Registering(a: Action) {
    a.Register? || a.RegisterFutex? || a.RegisterSleep?
  }

  lemma RegisteringFaithful(k: Kernel, a: Action)
    requires Grounded(k, a) && Registering(a)
    ensures Faithful(k, a, Step(k, a))
  {
    var o := Step(k, a);
    if o.Next? && o.k != k { StageDoes(k, a.cpu, o.k, AtRegistered); }
  }

  predicate Queueing(a: Action) {
    a.TakeEntry? || a.TakeFutex? || a.TakeSleeper? || a.Push?
  }

  lemma QueueingFaithful(k: Kernel, a: Action)
    requires Grounded(k, a) && Queueing(a)
    ensures Faithful(k, a, Step(k, a))
  {}

  lemma PopFaithful(k: Kernel, a: Action)
    requires Grounded(k, a) && a.Pop?
    ensures Faithful(k, a, Step(k, a))
  {
    if a.cpu < |k.cpus| && k.cpus[a.cpu].mode == Free { PopDoes(k, a.cpu); }
  }

  lemma ClaimFaithful(k: Kernel, a: Action)
    requires Grounded(k, a) && a.Claim?
    ensures Faithful(k, a, Step(k, a))
  {
    if a.cpu < |k.cpus| && k.cpus[a.cpu].mode.Popped? { ClaimDoes(k, a.cpu); }
  }

  lemma ReleaseFaithful(k: Kernel, a: Action)
    requires Grounded(k, a) && a.Release?
    ensures Faithful(k, a, Step(k, a))
  {
    if At(k, a.cpu, AtYieldOff) { ReleaseDoes(k, a.cpu); }
  }

  lemma BeginBlockFaithful(k: Kernel, a: Action)
    requires Grounded(k, a) && a.BeginBlocking?
    requires At(k, a.cpu, AtRegistered) ==> k.cpus[a.cpu].current == Some(k.cpus[a.cpu].mode.slot)
    ensures Faithful(k, a, Step(k, a))
  {
    if At(k, a.cpu, AtRegistered) { BeginBlockDoes(k, a.cpu); }
  }

  lemma FinishBlockFaithful(k: Kernel, a: Action)
    requires Grounded(k, a) && a.FinishBlocking?
    ensures Faithful(k, a, Step(k, a))
  {
    if At(k, a.cpu, AtBlockOff) { FinishBlockDoes(k, a.cpu); }
  }

  lemma WakeFaithful(k: Kernel, a: Action)
    requires Grounded(k, a) && a.WakeUp?
    ensures Faithful(k, a, Step(k, a))
  {
    if a.pid in k.flights { WakeDoes(k, a.pid); }
  }

  lemma WaitFaithful(k: Kernel, a: Action)
    requires Grounded(k, a) && a.WaitPid?
    ensures Faithful(k, a, Step(k, a))
  {
    if At(k, a.cpu, AtUser) { WaitDoes(k, a.cpu, a.target, a.nohang); }
  }

  lemma CreateFaithful(k: Kernel, a: Action)
    requires Grounded(k, a) && Creating(a) && (Step(k, a).Next? ==> DistinctPids(Step(k, a).k.procs.table))
    ensures Faithful(k, a, Step(k, a))
  {
    var o := Step(k, a);
    if o.Next? {
      match a
      case Fork(c) => CreateDoes(k, Some(k.cpus[c].mode.pid), o.k, true);
      case Spawn => CreateDoes(k, None, o.k, true);
      case SpawnFails => CreateDoes(k, None, o.k, false);
    }
  }

  lemma ExitFaithful(k: Kernel, a: Action)
    requires Grounded(k, a) && (a.Die? || a.Deliver?) && (Step(k, a).Next? ==> DistinctPids(Step(k, a).k.procs.table))
    requires Step(k, a).Next? ==>
               var r := k.procs.table[k.cpus[a.cpu].mode.slot].value;
               if a.Die? then r.waitTarget.None? else r.state == Zombie
    ensures Faithful(k, a, Step(k, a))
  {
    if Step(k, a).Next? {
      if a.Die? { DieDoes(k, a.cpu); } else { DeliverDoes(k, a.cpu); }
    }
  }

  lemma InvGrounded(k: Kernel, a: Action)
    requires Inv(k) && !Clearing(a)
    ensures Grounded(k, a) && (Step(k, a).Next? ==> DistinctPids(Step(k, a).k.procs.table))
  {
    StepKeeps(k, a);
    Basics(k);
  }

  lemma InvCurrent(k: Kernel, a: Action)
    requires Inv(k) && a.BeginBlocking? && At(k, a.cpu, AtRegistered)
    ensures k.cpus[a.cpu].current == Some(k.cpus[a.cpu].mode.slot)
  {
    HoldsAt(k, a.cpu);
  }

  lemma InvExit(k: Kernel, a: Action)
    requires Inv(k) && (a.Die? || a.Deliver?) && Step(k, a).Next?
    ensures a.cpu < |k.cpus| && k.cpus[a.cpu].mode.On?
    ensures Has(k.procs.table, k.cpus[a.cpu].mode.slot, k.cpus[a.cpu].mode.pid)
    ensures var r := k.procs.table[k.cpus[a.cpu].mode.slot].value;
            if a.Die? then r.waitTarget.None? else r.state == Zombie
  {
    HoldsAt(k, a.cpu);
    if a.Die? { NothingOutstanding(k, a.cpu); }
  }

  /**
   * Refinement: under the invariant every step but the later sections of a reap applies exactly when the
   * specification says so, and changes the processes, the CPUs, the queues, the registrations and the receipts
   * exactly as it says.
   */
  lemma StepFaithful(k: Kernel, a: Action)
    requires Inv(k) && !Clearing(a)
    ensures Faithful(k, a, Step(k, a))
  {
    InvGrounded(k, a);
    if Stepping(a) { SteppingFaithful(k, a); }
    else if Detaching(a) { DetachingFaithful(k, a); }
    else if Leaving(a) { LeavingFaithful(k, a); }
    else if Registering(a) { RegisteringFaithful(k, a); }
    else if Queueing(a) { QueueingFaithful(k, a); }
    else if Creating(a) { CreateFaithful(k, a); }
    else if a.Die? || a.Deliver? {
      if Step(k, a).Next? { InvExit(k, a); }
      ExitFaithful(k, a);
    } else {
      match a
      case Pop(_) => PopFaithful(k, a);
      case Claim(_) => ClaimFaithful(k, a);
      case Release(_) => ReleaseFaithful(k, a);
      case BeginBlocking(c) =>
        if At(k, c, AtRegistered) { InvCurrent(k, a); }
        BeginBlockFaithful(k, a);
      case FinishBlocking(_) => FinishBlockFaithful(k, a);
      case WakeUp(_) => WakeFaithful(k, a);
      case WaitPid(_, _, _) => WaitFaithful(k, a);
    }
  }
}
