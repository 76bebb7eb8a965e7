/**
 * The process table of `microkernel/src/process.rs`: the transitions that run under its lock.
 * Each is a function of the table and the owner array; an `Assertion` is one of the source's
 * own asserts, panics or unwraps failing.
 */
module Processes {
  import opened Common

  const MAX_PROCESSES: nat := 256
  const INIT_PID: nat := 2

  datatype ProcState = Runnable | Running | Blocked | Zombie

  datatype WaitSpec = Any | Pid(pid: nat) {
    predicate Matches(dying: nat) {
      Any? || pid == dying
    }
  }

  datatype Proc = Proc(
    pid: nat, state: ProcState, blockIntent: bool, wakePending: bool,
    parent: Option<nat>, adopted: bool, exitCode: Option<int>, waitTarget: Option<WaitSpec>)

  type Table = seq<Option<Proc>>

  /** The CPU that owns each slot, if any. */
  type Owners = seq<Option<nat>>

  datatype Assertion =
    | StillOwned | OwnerMismatch | NoRecord | NotRunning | InvalidHandoff
    | NoCurrent | DetachMismatch | RunQueueFull | SleepQueueFull | PidSpace

  datatype Procs = Procs(table: Table, owner: Owners)

  predicate Has(t: Table, i: nat, pid: nat) {
    i < |t| && t[i].Some? && t[i].value.pid == pid
  }

  /** No two records have the same pid. */
  ghost predicate DistinctPids(t: Table) {
    forall i, j :: 0 <= i < j < |t| && t[i].Some? && t[j].Some? ==> t[i].value.pid != t[j].value.pid
  }

  /** The first slot whose record has the pid. */
  function Find(t: Table, pid: nat, from: nat): (r: Option<nat>)
    requires from <= |t|
    ensures r.Some? ==> from <= r.value && Has(t, r.value, pid)
    ensures r.None? ==> forall i :: from <= i < |t| ==> !Has(t, i, pid)
    decreases |t| - from
  {
    if from == |t| then None
    else if Has(t, from, pid) then Some(from)
    else Find(t, pid, from + 1)
  }

  lemma FindIs(t: Table, pid: nat, i: nat)
    requires DistinctPids(t) && Has(t, i, pid)
    ensures Find(t, pid, 0) == Some(i)
  {
    var r := Find(t, pid, 0);
    if r.value < i {
    } else if i < r.value {
    }
  }

  function Put(p: Procs, i: nat, r: Proc, owner: Option<nat>): Procs
    requires i < |p.table| && i < |p.owner|
  {
    Procs(p.table[i := Some(r)], p.owner[i := owner])
  }

  // ---- Claiming and releasing ----

  datatype Claim = Claimed(procs: Procs, slot: nat) | NotClaimed | ClaimFailed(why: Assertion)

  /** `claim_runnable` */
  function ClaimRunnable(p: Procs, pid: nat, cpu: nat): Claim
    requires |p.table| <= |p.owner|
  {
    match Find(p.table, pid, 0)
    case None => NotClaimed
    case Some(i) =>
      var r := p.table[i].value;
      if r.state != Runnable then NotClaimed
      else if p.owner[i].Some? then ClaimFailed(StillOwned)
      else Claimed(Put(p, i, r.(state := Running, blockIntent := false, wakePending := false), Some(cpu)), i)
  }

  datatype Release = Released(procs: Procs, pid: nat) | NotReleased | ReleaseFailed(why: Assertion)

  /** `release_running` */
  function ReleaseRunning(p: Procs, slot: nat, cpu: nat): Release
    requires |p.table| <= |p.owner|
  {
    if slot >= |p.table| || p.table[slot].None? then NotReleased
    else
      var r := p.table[slot].value;
      if r.state != Running then NotReleased
      else if p.owner[slot] != Some(cpu) then ReleaseFailed(OwnerMismatch)
      else Released(Put(p, slot, r.(state := Runnable, blockIntent := false, wakePending := false), None), r.pid)
  }

  /** `release_owner_for_exit` */
  function ReleaseOwnerForExit(p: Procs, slot: nat, cpu: nat): Result<Procs, Assertion>
    requires |p.table| <= |p.owner|
  {
    if slot >= |p.table| || p.table[slot].None? then Err(NoRecord)
    else if p.table[slot].value.state != Running then Err(NotRunning)
    else if p.owner[slot] != Some(cpu) then Err(OwnerMismatch)
    else Ok(p.(owner := p.owner[slot := None]))
  }

  // ---- Waking and blocking ----

  datatype Wake = Enqueue(procs: Procs, pid: nat) | Pending(procs: Procs) | Ignore | WakeFailed(why: Assertion)

  /** `request_wake` */
  function RequestWake(p: Procs, pid: nat): Wake
    requires |p.table| <= |p.owner|
  {
    match Find(p.table, pid, 0)
    case None => Ignore
    case Some(i) =>
      var r := p.table[i].value;
      match r.state
      case Blocked =>
        if p.owner[i].Some? then WakeFailed(StillOwned)
        else Enqueue(Put(p, i, r.(state := Runnable, blockIntent := false, wakePending := false), p.owner[i]), pid)
      case Running => Pending(Put(p, i, r.(wakePending := true), p.owner[i]))
      case _ => Ignore
  }

  /** `begin_block`; `Err(NotRunning)` is the caller's assert on a false return. */
  function BeginBlock(p: Procs, slot: nat, cpu: nat): Result<Procs, Assertion>
    requires |p.table| <= |p.owner|
  {
    if slot >= |p.table| || p.table[slot].None? || p.table[slot].value.state != Running then Err(NotRunning)
    else if p.owner[slot] != Some(cpu) then Err(OwnerMismatch)
    else Ok(Put(p, slot, p.table[slot].value.(blockIntent := true), p.owner[slot]))
  }

  datatype Finish = NowBlocked(procs: Procs) | Requeue(procs: Procs, pid: nat) | FinishFailed(why: Assertion)

  /** `finish_block`; an invalid hand-off is the caller's panic. */
  function FinishBlock(p: Procs, slot: nat, cpu: nat): Finish
    requires |p.table| <= |p.owner|
  {
    if slot >= |p.table| || p.table[slot].None? then FinishFailed(InvalidHandoff)
    else
      var r := p.table[slot].value;
      if r.state != Running || !r.blockIntent then FinishFailed(InvalidHandoff)
      else if p.owner[slot] != Some(cpu) then FinishFailed(OwnerMismatch)
      else if r.wakePending then
        Requeue(Put(p, slot, r.(state := Runnable, blockIntent := false, wakePending := false), None), r.pid)
      else NowBlocked(Put(p, slot, r.(state := Blocked, blockIntent := false), None))
  }

  // ---- Pids and slots ----

  /** `next_pid_raw`: sixteen bits of sequence number from 2 up, the generation above them. */
  function NextPidRaw(cur: nat): (next: nat)
    ensures next > cur
    ensures 2 <= cur % 0x1_0000 ==> 2 <= next % 0x1_0000
  {
    var sequence, generation := cur % 0x1_0000 + 1, cur / 0x1_0000;
    if sequence > 0xFFFF then (generation + 1) * 0x1_0000 + 2 else generation * 0x1_0000 + sequence
  }

  function FirstFree(t: Table, from: nat): (r: Option<nat>)
    requires from <= |t|
    ensures r.Some? ==> from <= r.value < |t| && t[r.value].None?
    ensures r.None? ==> forall i :: from <= i < |t| ==> t[i].Some?
    decreases |t| - from
  {
    if from == |t| then None else if t[from].None? then Some(from) else FirstFree(t, from + 1)
  }

  /** `alloc_table_slot_locked`: reuse a hole, else grow up to the limit; the owner entry is reset. */
  function AllocSlot(p: Procs): (r: Option<(Procs, nat)>)
    requires |p.table| <= MAX_PROCESSES == |p.owner|
    ensures r.None? <==> |p.table| == MAX_PROCESSES && forall i :: 0 <= i < |p.table| ==> p.table[i].Some?
  {
    match FirstFree(p.table, 0)
    case Some(i) => Some((p.(owner := p.owner[i := None]), i))
    case None =>
      if |p.table| < MAX_PROCESSES then Some((Procs(p.table + [None], p.owner[|p.table| := None]), |p.table|))
      else None
  }

  // ---- Waiting for children ----

  datatype WaitDecision = Collect(slot: nat, pid: nat, code: int) | Block | NoChild

  predicate IsChild(e: Option<Proc>, caller: nat, target: nat) {
    e.Some? && e.value.parent == Some(caller) && (target == 0 || e.value.pid == target)
  }

  predicate Collectable(e: Option<Proc>, caller: nat, target: nat) {
    IsChild(e, caller, target) && e.value.state == Zombie && e.value.exitCode.Some?
  }

  /** `wait_scan` over the table: a zombie child is collected before a live one is waited for. */
  function WaitScan(t: Table, caller: nat, target: nat, from: nat, live: bool): (d: WaitDecision)
    requires from <= |t|
    ensures d.Collect? ==> from <= d.slot < |t| && Collectable(t[d.slot], caller, target)
                           && t[d.slot].value.pid == d.pid && t[d.slot].value.exitCode == Some(d.code)
    ensures !d.Collect? <==> forall i :: from <= i < |t| ==> !Collectable(t[i], caller, target)
    ensures d.NoChild? ==>
              !live && forall i :: from <= i < |t| && IsChild(t[i], caller, target) ==> t[i].value.state == Zombie
    ensures d.Block? ==>
              live || exists i :: from <= i < |t| && IsChild(t[i], caller, target) && t[i].value.state != Zombie
    decreases |t| - from
  {
    if from == |t| then (if live then Block else NoChild)
    else if !IsChild(t[from], caller, target) then WaitScan(t, caller, target, from + 1, live)
    else if t[from].value.state == Zombie then
      if t[from].value.exitCode.Some? then Collect(from, t[from].value.pid, t[from].value.exitCode.value)
      else WaitScan(t, caller, target, from + 1, live)
    else WaitScan(t, caller, target, from + 1, true)
  }

  function SpecOf(target: nat): WaitSpec {
    if target == 0 then Any else Pid(target)
  }

  // ---- Exiting ----

  /** `exit_disposition`: whether the process stays as a zombie for its parent to collect. */
  predicate StaysZombie(parent: Option<nat>, parentAlive: bool, adopted: bool) {
    !adopted && parent.Some? && parentAlive
  }

  /** The slot of the parent, if the parent is there and not itself a zombie. */
  function LiveParent(t: Table, parent: Option<nat>): (r: Option<nat>)
    ensures r.Some? ==> parent.Some? && Has(t, r.value, parent.value) && t[r.value].value.state != Zombie
  {
    if parent.None? then None
    else
      match Find(t, parent.value, 0)
      case Some(i) => if t[i].value.state == Zombie then None else Some(i)
      case None => None
  }

  /** What becomes of a record when its parent `dying` is reaped. */
  function Orphaned(e: Option<Proc>, dying: nat): Option<Proc> {
    if e.None? || e.value.parent != Some(dying) then e
    else if e.value.state == Zombie then None
    else Some(e.value.(parent := Some(INIT_PID), adopted := true))
  }

  /** The slots of the zombie children of `dying` from `from` on. */
  function Cleared(t: Table, dying: nat, from: nat): seq<nat>
    requires from <= |t|
    decreases |t| - from
  {
    if from == |t| then []
    else
      (if t[from].Some? && t[from].value.parent == Some(dying) && t[from].value.state == Zombie then [from] else [])
      + Cleared(t, dying, from + 1)
  }

  lemma {:induction false} ClearedExactly(t: Table, dying: nat, from: nat, s: nat)
    requires from <= |t|
    ensures s in Cleared(t, dying, from) <==>
              from <= s < |t| && t[s].Some? && t[s].value.parent == Some(dying) && t[s].value.state == Zombie
    decreases |t| - from
  {
    if from < |t| { ClearedExactly(t, dying, from + 1, s); }
  }

  /**
   * One locked section of `full_reap`: the record goes, its zombie children go with it, the live ones are adopted by
   * init.
   */
  function FullReap(t: Table, slot: nat): (r: Table)
    requires slot < |t| && t[slot].Some?
    ensures |r| == |t|
  {
    seq(|t|, i requires 0 <= i < |t| => if i == slot then None else Orphaned(t[i], t[slot].value.pid))
  }
}
