/**
 * A blocking wait from beginning to end: the parent blocks, the child exits, and the parent has the status and is
 * queued to run again. From any state of the invariant, by way of `KernelSpec`.
 */
module KernelWaits {
  import opened Common
  import opened Processes
  import opened Kernel
  import opened KernelSafety
  import opened KernelSteps
  import opened KernelReaps
  import opened KernelRuns
  import opened KernelRefines
  import S = KernelSpec

  // ---- Scripts ----

  /** Each action of the script applies when its turn comes, and whatever it may do, the last scene is `g`. */
  ghost predicate Leads(s: S.Scene, script: seq<Action>, g: S.Scene)
    decreases |script|
  {
    if script == [] then s == g
    else
      && !Clearing(script[0]) && S.Enabled(s, script[0])
      && forall s' :: S.Does(s, script[0], s') ==> Leads(s', script[1..], g)
  }

  /** The kernel plays the script. */
  lemma {:induction false} Plays(k: Kernel, script: seq<Action>, g: S.Scene)
    requires Inv(k) && Leads(SceneOf(k), script, g)
    ensures var o := Run(k, script); o.Next? && Inv(o.k) && SceneOf(o.k) == g
    decreases |script|
  {
    if script != [] {
      StepFaithful(k, script[0]);
      StepKeeps(k, script[0]);
      Plays(Step(k, script[0]).k, script[1..], g);
    }
  }

  /** The action applies and can only lead to `s1`. */
  ghost predicate Only(s: S.Scene, a: Action, s1: S.Scene) {
    !Clearing(a) && S.Enabled(s, a) && forall s' :: S.Does(s, a, s') ==> s' == s1
  }

  lemma First(s: S.Scene, a: Action, s1: S.Scene, rest: seq<Action>, g: S.Scene)
    requires Only(s, a, s1) && Leads(s1, rest, g)
    ensures Leads(s, [a] + rest, g)
  {
    assert ([a] + rest)[1..] == rest;
  }

  lemma {:induction false} Then(s: S.Scene, one: seq<Action>, s1: S.Scene, two: seq<Action>, g: S.Scene)
    requires Leads(s, one, s1) && Leads(s1, two, g)
    ensures Leads(s, one + two, g)
    decreases |one|
  {
    if one == [] {
      assert one + two == two;
    } else {
      assert (one + two)[0] == one[0] && (one + two)[1..] == one[1..] + two;
      forall s' | S.Does(s, one[0], s') ensures Leads(s', (one + two)[1..], g) { Then(s', one[1..], s1, two, g); }
    }
  }

  // ---- The parent blocks ----

  /** A process that runs in user mode and has nothing pending. */
  ghost predicate AtEase(s: S.Scene, c: nat, p: nat) {
    && S.Sits(s, c, AtUser) && s.seats[c].pid == p && p in s.people
    && s.people[p].life == S.OnCpu && !s.people[p].intent && !s.people[p].latched && s.people[p].wait == None
  }

  /** Under the invariant every process in user mode is like that. */
  lemma UserAtEase(k: Kernel, c: nat)
    requires Inv(k) && At(k, c, AtUser)
    ensures AtEase(SceneOf(k), c, k.cpus[c].mode.pid)
  {
    NothingOutstanding(k, c);
    HoldsAt(k, c);
    PersonAt(k.procs.table, k.cpus[c].mode.slot, k.cpus[c].mode.pid);
  }

  function With(s: S.Scene, c: nat, seat: S.Seat, p: nat, x: S.Person): S.Scene
    requires c < |s.seats|
  {
    s.(seats := s.seats[c := seat], people := s.people[p := x])
  }

  lemma WithTwice(s: S.Scene, c: nat, seat: S.Seat, p: nat, x: S.Person, seat': S.Seat, x': S.Person)
    requires c < |s.seats|
    ensures With(With(s, c, seat, p, x), c, seat', p, x') == With(s, c, seat', p, x')
    ensures With(s, c, seat, p, x).people[p] == x && With(s, c, seat, p, x).seats[c] == seat
  {
    assert s.seats[c := seat][c := seat'] == s.seats[c := seat'];
    assert s.people[p := x][p := x'] == s.people[p := x'];
  }

  lemma Two(s: S.Scene, a: Action, s1: S.Scene, b: Action, s2: S.Scene)
    requires Only(s, a, s1) && Only(s1, b, s2)
    ensures Leads(s, [a, b], s2)
  {
    First(s1, b, s2, [], s2);
    assert [b] + [] == [b] && [a] + [b] == [a, b];
    First(s, a, s1, [b], s2);
  }

  lemma RegistersWait(s: S.Scene, d: nat, p: nat, target: nat)
    requires AtEase(s, d, p) && S.HasChild(s, p, target) && !S.HasEnded(s, p, target)
    ensures Leads(s, [WaitPid(d, target, false), BeginBlocking(d)],
              With(s, d, S.Seated(p, AtIntent), p, s.people[p].(intent := true, wait := Some(S.AnyOr(target)))))
  {
    var x := s.people[p].(wait := Some(S.AnyOr(target)));
    var s1 := With(s, d, S.Seated(p, AtRegistered), p, x);
    var s2 := With(s, d, S.Seated(p, AtIntent), p, x.(intent := true));
    WithTwice(s, d, S.Seated(p, AtRegistered), p, x, S.Seated(p, AtIntent), x.(intent := true));
    assert Only(s, WaitPid(d, target, false), s1);
    assert Only(s1, BeginBlocking(d), s2);
    Two(s, WaitPid(d, target, false), s1, BeginBlocking(d), s2);
  }

  lemma FallsAsleep(s: S.Scene, d: nat, p: nat)
    requires S.Sits(s, d, AtIntent) && s.seats[d].pid == p && p in s.people && !s.people[p].latched
    ensures Leads(s, [DetachBlock(d), FinishBlocking(d)],
              With(s, d, S.Vacant, p, s.people[p].(life := S.Asleep, intent := false)))
  {
    var x := s.people[p];
    var s1, s2 := S.Moved(s, d, AtBlockOff), With(s, d, S.Vacant, p, x.(life := S.Asleep, intent := false));
    assert s1.seats[d := S.Vacant] == s.seats[d := S.Vacant];
    assert Only(s, DetachBlock(d), s1);
    assert Only(s1, FinishBlocking(d), s2);
    Two(s, DetachBlock(d), s1, FinishBlocking(d), s2);
  }

  function Wait(d: nat, target: nat): seq<Action> {
    [WaitPid(d, target, false), BeginBlocking(d)] + [DetachBlock(d), FinishBlocking(d)]
  }

  lemma ParentBlocks(s: S.Scene, d: nat, p: nat, target: nat)
    requires AtEase(s, d, p) && S.HasChild(s, p, target) && !S.HasEnded(s, p, target)
    ensures Leads(s, Wait(d, target), With(s, d, S.Vacant, p,
              s.people[p].(life := S.Asleep, wait := Some(S.AnyOr(target)))))
  {
    var x := s.people[p].(wait := Some(S.AnyOr(target)));
    var s2 := With(s, d, S.Seated(p, AtIntent), p, x.(intent := true));
    RegistersWait(s, d, p, target);
    FallsAsleep(s2, d, p);
    WithTwice(s, d, S.Seated(p, AtIntent), p, x.(intent := true), S.Vacant, x.(life := S.Asleep));
    Then(s, [WaitPid(d, target, false), BeginBlocking(d)], s2, [DetachBlock(d), FinishBlocking(d)],
      With(s, d, S.Vacant, p, x.(life := S.Asleep)));
  }

  // ---- The child exits ----

  function Exit(c: nat, status: int): seq<Action> {
    [BeginExit(c, status), DetachExit(c)] + ([ReleaseOwner(c), Die(c)] + [Deliver(c)])
  }

  lemma LeavesCpu(s: S.Scene, c: nat, q: nat, status: int)
    requires S.Sits(s, c, AtUser) && s.seats[c].pid == q
    ensures Leads(s, [BeginExit(c, status), DetachExit(c)], s.(seats := s.seats[c := S.Seated(q, AtExitOff(status))]))
  {
    var s1 := S.Moved(s, c, AtExit(status));
    var s2 := s.(seats := s.seats[c := S.Seated(q, AtExitOff(status))]);
    assert s1.seats[c := S.Seated(q, AtExitOff(status))] == s2.seats;
    OnlyExits(s, c, status);
    OnlyDetaches(s1, c, status);
    Two(s, BeginExit(c, status), s1, DetachExit(c), s2);
  }

  lemma OnlyExits(s: S.Scene, c: nat, status: int)
    requires S.Sits(s, c, AtUser)
    ensures Only(s, BeginExit(c, status), S.Moved(s, c, AtExit(status)))
  {}

  lemma OnlyDetaches(s: S.Scene, c: nat, status: int)
    requires S.Sits(s, c, AtExit(status))
    ensures Only(s, DetachExit(c), S.Moved(s, c, AtExitOff(status)))
  {}

  /** The child `q` has ended, and is about to tell its parent `p`, which waited for `spec`. */
  function Telling(s: S.Scene, c: nat, q: nat, p: nat, status: int, spec: WaitSpec): S.Scene
    requires c < |s.seats| && q in s.people && p in s.people
  {
    s.(seats := s.seats[c := S.Seated(q, AtDeliver(p, spec))], futexes := s.futexes[q := 0],
       people := s.people[q := s.people[q].(life := S.Ended(status))][p := s.people[p].(wait := None)])
  }

  /** A child in whose exit its parent `p` is waiting for `spec`. */
  ghost predicate Awaited(s: S.Scene, q: nat, p: nat, spec: WaitSpec) {
    && q != p && q in s.people && p in s.people && s.people[q].parent == Some(p) && !s.people[q].adopted
    && s.people[p].wait == Some(spec) && (spec == Any || spec == Pid(q)) && !s.people[p].life.Ended?
  }

  lemma EndsForParent(s: S.Scene, c: nat, q: nat, p: nat, status: int, spec: WaitSpec)
    requires S.Sits(s, c, AtExitOff(status)) && s.seats[c].pid == q && Awaited(s, q, p, spec)
    ensures Leads(s, [ReleaseOwner(c), Die(c)], Telling(s, c, q, p, status, spec))
  {
    var s1, s2 := S.Moved(s, c, AtExitFree(status)), Telling(s, c, q, p, status, spec);
    assert s1.seats[c := S.Seated(q, AtDeliver(p, spec))] == s2.seats;
    assert Only(s, ReleaseOwner(c), s1);
    assert Only(s1, Die(c), s2);
    Two(s, ReleaseOwner(c), s1, Die(c), s2);
  }

  /** The status is with the parent, which is about to be woken, and the child is gone. */
  function Told(s: S.Scene, c: nat, q: nat, p: nat, status: int, spec: WaitSpec): S.Scene
    requires c < |s.seats| && p in s.people
  {
    s.(seats := s.seats[c := S.Vacant], futexes := s.futexes[q := 0],
       people := (s.people - {q})[p := s.people[p].(wait := None)], flights := s.flights + multiset{p},
       delivered := s.delivered + [Receipt(Delivery(p, q, status), spec)])
  }

  lemma TellsParent(s: S.Scene, c: nat, q: nat, p: nat, status: int, spec: WaitSpec)
    requires c < |s.seats| && q in s.people && p in s.people && q != p
    ensures Leads(Telling(s, c, q, p, status, spec), [Deliver(c)], Told(s, c, q, p, status, spec))
  {
    var s1, s2 := Telling(s, c, q, p, status, spec), Told(s, c, q, p, status, spec);
    assert s1.people - {q} == s2.people;
    assert s1.seats[c := S.Vacant] == s2.seats;
    assert Only(s1, Deliver(c), s2);
    First(s1, Deliver(c), s2, [], s2);
    assert [Deliver(c)] + [] == [Deliver(c)];
  }

  lemma SameButSeat(s: S.Scene, c: nat, seat: S.Seat, q: nat, p: nat, status: int, spec: WaitSpec)
    requires c < |s.seats| && q in s.people && p in s.people
    ensures Telling(s.(seats := s.seats[c := seat]), c, q, p, status, spec) == Telling(s, c, q, p, status, spec)
  {
    assert s.seats[c := seat][c := S.Seated(q, AtDeliver(p, spec))] == s.seats[c := S.Seated(q, AtDeliver(p, spec))];
  }

  lemma ChildExits(s: S.Scene, c: nat, q: nat, p: nat, status: int, spec: WaitSpec)
    requires S.Sits(s, c, AtUser) && s.seats[c].pid == q && Awaited(s, q, p, spec)
    ensures Leads(s, Exit(c, status), Told(s, c, q, p, status, spec))
  {
    var s1 := s.(seats := s.seats[c := S.Seated(q, AtExitOff(status))]);
    var s2, s3 := Telling(s, c, q, p, status, spec), Told(s, c, q, p, status, spec);
    LeavesCpu(s, c, q, status);
    EndsForParent(s1, c, q, p, status, spec);
    SameButSeat(s, c, S.Seated(q, AtExitOff(status)), q, p, status, spec);
    TellsParent(s, c, q, p, status, spec);
    Then(s1, [ReleaseOwner(c), Die(c)], s2, [Deliver(c)], s3);
    Then(s, [BeginExit(c, status), DetachExit(c)], s1, [ReleaseOwner(c), Die(c)] + [Deliver(c)], s3);
  }

  // ---- The parent is woken ----

  function Queue(s: S.Scene, p: nat, level: nat): seq<seq<nat>> {
    var l := if level < 4 then level else 3;
    if l < |s.queues| then s.queues[l := s.queues[l] + [p]] else s.queues
  }

  lemma OnlyWakes(s: S.Scene, p: nat, s': S.Scene)
    requires p in s.people && s.people[p].life == S.Asleep && p in s.flights
    requires s' == s.(people := s.people[p := s.people[p].(life := S.Ready)], flights := s.flights - multiset{p},
                      pushes := s.pushes + multiset{p})
    ensures Only(s, WakeUp(p), s')
  {}

  lemma OnlyPushes(s: S.Scene, p: nat, level: nat, s': S.Scene)
    requires p in s.pushes && |s.queues| == 4
    requires s' == s.(pushes := s.pushes - multiset{p}, queues := Queue(s, p, level))
    ensures Only(s, Push(p, level), s')
  {}

  lemma ParentWakes(s: S.Scene, p: nat, level: nat, flights: multiset<nat>)
    requires p in s.people && s.people[p].life == S.Asleep && s.flights == flights + multiset{p} && |s.queues| == 4
    ensures Leads(s, [WakeUp(p), Push(p, level)],
              s.(people := s.people[p := s.people[p].(life := S.Ready)], flights := flights,
                 queues := Queue(s, p, level)))
  {
    var s1 := s.(people := s.people[p := s.people[p].(life := S.Ready)], flights := flights,
                 pushes := s.pushes + multiset{p});
    var s2 := s1.(pushes := s.pushes, queues := Queue(s, p, level));
    assert flights + multiset{p} - multiset{p} == flights;
    assert s.pushes + multiset{p} - multiset{p} == s.pushes;
    OnlyWakes(s, p, s1);
    OnlyPushes(s1, p, level, s2);
    Two(s, WakeUp(p), s1, Push(p, level), s2);
  }

  // ---- From beginning to end ----

  /** Both are off their CPUs, the child is gone, its status is with the parent, and the parent is queued. */
  function Done(s: S.Scene, c: nat, d: nat, q: nat, p: nat, target: nat, status: int, level: nat): S.Scene
    requires c < |s.seats| && d < |s.seats| && p in s.people
  {
    s.(seats := s.seats[d := S.Vacant][c := S.Vacant], futexes := s.futexes[q := 0],
       people := (s.people - {q})[p := s.people[p].(life := S.Ready)], queues := Queue(s, p, level),
       delivered := s.delivered + [Receipt(Delivery(p, q, status), if target == 0 then Any else Pid(target))])
  }

  function Story(c: nat, d: nat, p: nat, target: nat, status: int, level: nat): seq<Action> {
    Wait(d, target) + (Exit(c, status) + [WakeUp(p), Push(p, level)])
  }

  lemma DoneIs(s: S.Scene, c: nat, d: nat, q: nat, p: nat, target: nat, status: int, level: nat)
    requires c != d && c < |s.seats| && d < |s.seats| && p in s.people && q in s.people && p != q
    requires s.people[p].wait == None
    ensures var x := s.people[p].(life := S.Asleep, wait := Some(S.AnyOr(target)));
            var s2 := Told(With(s, d, S.Vacant, p, x), c, q, p, status, S.AnyOr(target));
            && p in s2.people && s2.people[p] == x.(wait := None)
            && s2.(people := s2.people[p := s2.people[p].(life := S.Ready)], flights := s.flights,
                   queues := Queue(s2, p, level)) == Done(s, c, d, q, p, target, status, level)
  {
    var x := s.people[p].(life := S.Asleep, wait := Some(S.AnyOr(target)));
    var s1 := With(s, d, S.Vacant, p, x);
    var s2 := Told(s1, c, q, p, status, S.AnyOr(target));
    assert s2.people[p := s.people[p].(life := S.Ready)] == (s.people - {q})[p := s.people[p].(life := S.Ready)];
  }

  lemma StoryScenes(s: S.Scene, c: nat, d: nat, q: nat, p: nat, target: nat, status: int, level: nat)
    requires AtEase(s, d, p) && AtEase(s, c, q) && c != d && p != q && |s.queues| == 4
    requires s.people[q].parent == Some(p) && !s.people[q].adopted && (target == 0 || target == q)
    requires !S.HasEnded(s, p, target)
    ensures Leads(s, Story(c, d, p, target, status, level), Done(s, c, d, q, p, target, status, level))
  {
    var x := s.people[p].(life := S.Asleep, wait := Some(S.AnyOr(target)));
    var s1 := With(s, d, S.Vacant, p, x);
    var s2, g := Told(s1, c, q, p, status, S.AnyOr(target)), Done(s, c, d, q, p, target, status, level);
    assert S.ChildOf(s.people[q], q, p, target);
    ParentBlocks(s, d, p, target);
    ChildExits(s1, c, q, p, status, S.AnyOr(target));
    DoneIs(s, c, d, q, p, target, status, level);
    ParentWakes(s2, p, level, s.flights);
    Then(s1, Exit(c, status), s2, [WakeUp(p), Push(p, level)], g);
    Then(s, Wait(d, target), s1, Exit(c, status) + [WakeUp(p), Push(p, level)], g);
  }

  /**
   * From any state of the invariant, with a parent on CPU `d`, its child on CPU `c` and no child ended that it asks
   * for: the parent waits and blocks, the child exits, and the wake is carried out. Then the child is gone, its
   * status is the parent's last receipt, and the parent is at the end of its queue. Nothing else has changed.
   */
  lemma WaitCompletes(k: Kernel, c: nat, d: nat, target: nat, status: int, level: nat)
    requires Inv(k) && At(k, c, AtUser) && At(k, d, AtUser) && c != d
    requires var s, p, q := SceneOf(k), k.cpus[d].mode.pid, k.cpus[c].mode.pid;
             && q in s.people && s.people[q].parent == Some(p) && !s.people[q].adopted && p != q
             && (target == 0 || target == q) && !S.HasEnded(s, p, target)
    ensures var p, q := k.cpus[d].mode.pid, k.cpus[c].mode.pid;
            var o := Run(k, Story(c, d, p, target, status, level));
            && p in SceneOf(k).people && o.Next? && Inv(o.k)
            && SceneOf(o.k) == Done(SceneOf(k), c, d, q, p, target, status, level)
  {
    var p, q := k.cpus[d].mode.pid, k.cpus[c].mode.pid;
    UserAtEase(k, c);
    UserAtEase(k, d);
    StoryScenes(SceneOf(k), c, d, q, p, target, status, level);
    Plays(k, Story(c, d, p, target, status, level), Done(SceneOf(k), c, d, q, p, target, status, level));
  }
}
