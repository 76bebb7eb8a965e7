/**
 * The kernel as its processes see it: by pid, without slots, owners or searches. What each action does to the
 * processes, the CPUs and the queues is written out here once more, and `KernelRefines` proves that the steps of
 * `Kernel` do just that.
 */
module KernelSpec {
  import opened Common
  import opened Processes
  import opened Kernel

  datatype Life = Ready | OnCpu | Asleep | Ended(status: int)

  /** `intent`: it is about to block; `latched`: it was woken meanwhile; `wait`: the children it is blocked on. */
  datatype Person = Person(
    life: Life, intent: bool, latched: bool, parent: Option<nat>, adopted: bool, wait: Option<WaitSpec>)

  datatype Seat = Vacant | Called(pid: nat) | Seated(pid: nat, stage: Stage) | Cleaning

  datatype Scene = Scene(
    people: map<nat, Person>, seats: seq<Seat>, queues: seq<seq<nat>>, pushes: multiset<nat>,
    entries: multiset<nat>, futexes: multiset<nat>, sleepers: multiset<nat>, flights: multiset<nat>,
    nextPid: nat, delivered: seq<Receipt>)

  predicate Sits(s: Scene, c: nat, stage: Stage) {
    c < |s.seats| && s.seats[c].Seated? && s.seats[c].stage == stage
  }

  function Moved(s: Scene, c: nat, stage: Stage): Scene
    requires c < |s.seats| && s.seats[c].Seated?
  {
    s.(seats := s.seats[c := Seated(s.seats[c].pid, stage)])
  }

  function Stood(s: Scene, c: nat, seat: Seat): Scene
    requires c < |s.seats|
  {
    s.(seats := s.seats[c := seat])
  }

  function Changed(s: Scene, p: nat, x: Person): Scene {
    s.(people := s.people[p := x])
  }

  // ---- When an action applies ----

  predicate InExit(s: Scene, c: nat) {
    c < |s.seats| && s.seats[c].Seated? && s.seats[c].stage.AtExit?
  }

  predicate InExitOff(s: Scene, c: nat) {
    c < |s.seats| && s.seats[c].Seated? && s.seats[c].stage.AtExitOff?
  }

  predicate InExitFree(s: Scene, c: nat) {
    c < |s.seats| && s.seats[c].Seated? && s.seats[c].stage.AtExitFree?
  }

  predicate InDeliver(s: Scene, c: nat) {
    c < |s.seats| && s.seats[c].Seated? && s.seats[c].stage.AtDeliver?
  }

  /** The actions other than the later sections of a reap. */
  predicate Enabled(s: Scene, a: Action)
    requires !Clearing(a)
  {
    match a
    case Pop(c) => c < |s.seats| && s.seats[c] == Vacant
    case Claim(c) => c < |s.seats| && s.seats[c].Called?
    case Enter(c) => Sits(s, c, AtClaimed)
    case BeginYield(c) => Sits(s, c, AtUser)
    case DetachYield(c) => Sits(s, c, AtYield)
    case Release(c) => Sits(s, c, AtYieldOff)
    case Register(c) => Sits(s, c, AtUser)
    case RegisterFutex(c) => Sits(s, c, AtUser)
    case RegisterSleep(c) => Sits(s, c, AtUser) && |s.sleepers| < 128
    case WaitPid(c, _, _) => Sits(s, c, AtUser)
    case BeginBlocking(c) => Sits(s, c, AtRegistered)
    case DetachBlock(c) => Sits(s, c, AtIntent)
    case FinishBlocking(c) => Sits(s, c, AtBlockOff)
    case Fork(c) => Sits(s, c, AtUser) && s.nextPid < 0x1_0000_0000
    case Spawn => s.nextPid < 0x1_0000_0000
    case SpawnFails => s.nextPid < 0x1_0000_0000
    case BeginExit(c, _) => Sits(s, c, AtUser)
    case DetachExit(c) => InExit(s, c)
    case ReleaseOwner(c) => InExitOff(s, c)
    case Die(c) => InExitFree(s, c)
    case Deliver(c) => InDeliver(s, c)
    case TakeEntry(p) => p in s.entries
    case TakeFutex(p) => p in s.futexes
    case TakeSleeper(p) => p in s.sleepers
    case WakeUp(p) => p in s.flights
    case Push(p, _) => p in s.pushes
  }

  // ---- What it does ----

  /** The pid at the head of the first level that is not empty goes to the CPU. */
  ghost predicate Dispatched(s: Scene, c: nat, s': Scene)
    requires c < |s.seats|
  {
    if forall l :: 0 <= l < |s.queues| ==> s.queues[l] == [] then s' == s
    else
      exists l: nat ::
        && l < |s.queues| && s.queues[l] != [] && (forall j :: 0 <= j < l ==> s.queues[j] == [])
        && s' == Stood(s, c, Called(s.queues[l][0])).(queues := s.queues[l := s.queues[l][1..]])
  }

  ghost predicate Claiming(s: Scene, c: nat, s': Scene)
    requires c < |s.seats| && s.seats[c].Called?
  {
    var p := s.seats[c].pid;
    && p in s.people && s.people[p].life == Ready
    && s' == Changed(Stood(s, c, Seated(p, AtClaimed)), p,
                     s.people[p].(life := OnCpu, intent := false, latched := false))
  }

  ghost predicate Yielded(s: Scene, c: nat, s': Scene)
    requires c < |s.seats| && s.seats[c].Seated?
  {
    var p := s.seats[c].pid;
    && p in s.people
    && s' == Changed(Stood(s, c, Vacant), p, s.people[p].(life := Ready, intent := false, latched := false)).(
               pushes := s.pushes + multiset{p})
  }

  /** Blocked; or back in the queue, if it was woken after it had registered. */
  ghost predicate Blocked(s: Scene, c: nat, s': Scene)
    requires c < |s.seats| && s.seats[c].Seated?
  {
    var p := s.seats[c].pid;
    && p in s.people
    && if s.people[p].latched then Yielded(s, c, s')
       else s' == Changed(Stood(s, c, Vacant), p, s.people[p].(life := Asleep, intent := false))
  }

  predicate ChildOf(x: Person, q: nat, p: nat, target: nat) {
    x.parent == Some(p) && (target == 0 || q == target)
  }

  function AnyOr(target: nat): WaitSpec {
    if target == 0 then Any else Pid(target)
  }

  ghost predicate HasChild(s: Scene, p: nat, target: nat) {
    exists q :: q in s.people && ChildOf(s.people[q], q, p, target)
  }

  ghost predicate HasEnded(s: Scene, p: nat, target: nat) {
    exists q :: q in s.people && ChildOf(s.people[q], q, p, target) && s.people[q].life.Ended?
  }

  /** The ended child `q` goes, and its status is the caller's last receipt. */
  ghost predicate Collected(s: Scene, p: nat, target: nat, q: nat, s': Scene) {
    && q in s.people && ChildOf(s.people[q], q, p, target) && s.people[q].life.Ended?
    && s' == s.(people := s.people - {q},
                delivered := s.delivered + [Receipt(Delivery(p, q, s.people[q].life.status), AnyOr(target))])
  }

  /** An ended child is collected; else, with a child left and no `nohang`, the wait is registered; else nothing. */
  ghost predicate Waited(s: Scene, c: nat, target: nat, nohang: bool, s': Scene)
    requires c < |s.seats| && s.seats[c].Seated?
  {
    var p := s.seats[c].pid;
    && p in s.people
    && if HasEnded(s, p, target) then exists q :: Collected(s, p, target, q, s')
       else if HasChild(s, p, target) && !nohang then
         s' == Changed(Moved(s, c, AtRegistered), p, s.people[p].(wait := Some(AnyOr(target))))
       else s' == s
  }

  /** A new process under the next pid, or nothing but the pid used up if there are 256 already. */
  ghost predicate Created(s: Scene, parent: Option<nat>, queued: bool, s': Scene) {
    var p := s.nextPid;
    var next := if p % 0x1_0000 == 0xFFFF then p + 3 else p + 1;
    && p !in s.people && |s.people| <= 256
    && if |s.people| == 256 then s' == s.(nextPid := next)
       else s' == Changed(s, p, Person(Ready, false, false, parent, false, None)).(
                    nextPid := next, pushes := if queued then s.pushes + multiset{p} else s.pushes)
  }

  /** The process has a parent of its own that is still there to collect its status. */
  predicate Missed(s: Scene, p: nat)
    requires p in s.people
  {
    var x := s.people[p];
    !x.adopted && x.parent.Some? && x.parent.value in s.people && !s.people[x.parent.value].life.Ended?
  }

  /** Without the process and its ended children; the others become children of init. */
  function Bereft(people: map<nat, Person>, p: nat): map<nat, Person> {
    map q | q in people && q != p && !(people[q].parent == Some(p) && people[q].life.Ended?) ::
      if people[q].parent == Some(p) then people[q].(parent := Some(2), adopted := true) else people[q]
  }

  ghost predicate Died(s: Scene, c: nat, s': Scene)
    requires InExitFree(s, c)
  {
    var p, status, s1 := s.seats[c].pid, s.seats[c].stage.status, s.(futexes := s.futexes[s.seats[c].pid := 0]);
    && p in s.people
    && if !Missed(s, p) then s' == Stood(s1, c, Cleaning).(people := Bereft(s.people, p))
       else
         var x, par := s.people[p], s.people[p].parent.value;
         var w, s2 := s.people[par].wait, Changed(s1, p, x.(life := Ended(status)));
         if w == Some(Any) || w == Some(Pid(p)) then
           s' == Changed(Moved(s2, c, AtDeliver(par, w.value)), par, s.people[par].(wait := None))
         else s' == Stood(s2, c, Vacant)
  }

  ghost predicate HandedOver(s: Scene, c: nat, s': Scene)
    requires InDeliver(s, c)
  {
    var p, par, spec := s.seats[c].pid, s.seats[c].stage.parent, s.seats[c].stage.spec;
    && p in s.people && s.people[p].life.Ended?
    && s' == Stood(s, c, Vacant).(
               people := s.people - {p}, flights := s.flights + multiset{par},
               delivered := s.delivered + [Receipt(Delivery(par, p, s.people[p].life.status), spec)])
  }

  /** A sleeper becomes ready and is to be queued; on one that is still on its CPU the wake latches. */
  ghost predicate Woken(s: Scene, p: nat, s': Scene) {
    var s1 := s.(flights := s.flights - multiset{p});
    && p in s.people
    && match s.people[p].life
       case Asleep => s' == Changed(s1, p, s.people[p].(life := Ready)).(pushes := s.pushes + multiset{p})
       case OnCpu => s' == Changed(s1, p, s.people[p].(latched := true))
       case _ => false
  }

  ghost predicate Does(s: Scene, a: Action, s': Scene)
    requires !Clearing(a) && Enabled(s, a)
  {
    match a
    case Pop(c) => Dispatched(s, c, s')
    case Claim(c) => Claiming(s, c, s')
    case Enter(c) => s' == Moved(s, c, AtUser)
    case BeginYield(c) => s' == Moved(s, c, AtYield)
    case DetachYield(c) => s' == Moved(s, c, AtYieldOff)
    case Release(c) => Yielded(s, c, s')
    case Register(c) => s' == Moved(s, c, AtRegistered).(entries := s.entries + multiset{s.seats[c].pid})
    case RegisterFutex(c) =>
      s' == if |s.futexes| >= 128 then s
            else Moved(s, c, AtRegistered).(futexes := s.futexes + multiset{s.seats[c].pid})
    case RegisterSleep(c) => s' == Moved(s, c, AtRegistered).(sleepers := s.sleepers + multiset{s.seats[c].pid})
    case WaitPid(c, target, nohang) => Waited(s, c, target, nohang, s')
    case BeginBlocking(c) =>
      var p := s.seats[c].pid;
      p in s.people && s' == Changed(Moved(s, c, AtIntent), p, s.people[p].(intent := true))
    case DetachBlock(c) => s' == Moved(s, c, AtBlockOff)
    case FinishBlocking(c) => Blocked(s, c, s')
    case Fork(c) => Created(s, Some(s.seats[c].pid), true, s')
    case Spawn => Created(s, None, true, s')
    case SpawnFails => Created(s, None, false, s')
    case BeginExit(c, status) => s' == Moved(s, c, AtExit(status))
    case DetachExit(c) => s' == Moved(s, c, AtExitOff(s.seats[c].stage.status))
    case ReleaseOwner(c) => s' == Moved(s, c, AtExitFree(s.seats[c].stage.status))
    case Die(c) => Died(s, c, s')
    case Deliver(c) => HandedOver(s, c, s')
    case TakeEntry(p) => s' == s.(entries := s.entries - multiset{p}, flights := s.flights + multiset{p})
    case TakeFutex(p) => s' == s.(futexes := s.futexes - multiset{p}, flights := s.flights + multiset{p})
    case TakeSleeper(p) => s' == s.(sleepers := s.sleepers - multiset{p}, flights := s.flights + multiset{p})
    case WakeUp(p) => Woken(s, p, s')
    case Push(p, level) =>
      var l := if level < 4 then level else 3;
      l < |s.queues| && s' == s.(pushes := s.pushes - multiset{p}, queues := s.queues[l := s.queues[l] + [p]])
  }
}
