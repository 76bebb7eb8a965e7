/** The process table of `microkernel/src/process.rs` in place: the methods that run under its lock. */
module ProcessTables {
  import opened Common
  import opened Processes

  lemma ClearedNext(t: Table, dying: nat, i: nat, before: seq<nat>)
    requires i < |t|
    ensures var here := t[i].Some? && t[i].value.parent == Some(dying) && t[i].value.state == Zombie;
            before + Cleared(t, dying, i) == (if here then before + [i] else before) + Cleared(t, dying, i + 1)
  {
  }

  class ProcessTable {
    var table: Table
    var owner: Owners

    ghost predicate Valid()
      reads this
    {
      |table| <= MAX_PROCESSES == |owner|
    }

    ghost function Value(): Procs
      reads this
    {
      Procs(table, owner)
    }

    constructor ()
      ensures Valid() && Value() == Procs([], seq(MAX_PROCESSES, i => None))
    {
      table, owner := [], seq(MAX_PROCESSES, i => None);
    }

    method FindPid(pid: nat) returns (r: Option<nat>)
      ensures r == Find(table, pid, 0)
    {
      for i := 0 to |table|
        invariant Find(table, pid, 0) == Find(table, pid, i)
      {
        if table[i].Some? && table[i].value.pid == pid {
          return Some(i);
        }
      }
      r := None;
    }

    /** `Err` is the assertion that fails. */
    method Claim(pid: nat, cpu: nat) returns (r: Result<Option<nat>, Assertion>)
      requires Valid()
      modifies this
      ensures Valid()
      ensures match ClaimRunnable(old(Value()), pid, cpu)
              case Claimed(p, slot) => r == Ok(Some(slot)) && Value() == p
              case NotClaimed => r == Ok(None) && Value() == old(Value())
              case ClaimFailed(why) => r == Err(why)
    {
      var found := FindPid(pid);
      if found.None? {
        return Ok(None);
      }
      var i := found.value;
      var record := table[i].value;
      if record.state != Runnable {
        return Ok(None);
      }
      if owner[i].Some? {
        return Err(StillOwned);
      }
      owner := owner[i := Some(cpu)];
      table := table[i := Some(record.(state := Running, blockIntent := false, wakePending := false))];
      r := Ok(Some(i));
    }

    method Release(slot: nat, cpu: nat) returns (r: Result<Option<nat>, Assertion>)
      requires Valid()
      modifies this
      ensures Valid()
      ensures match ReleaseRunning(old(Value()), slot, cpu)
              case Released(p, pid) => r == Ok(Some(pid)) && Value() == p
              case NotReleased => r == Ok(None) && Value() == old(Value())
              case ReleaseFailed(why) => r == Err(why)
    {
      if slot >= |table| || table[slot].None? || table[slot].value.state != Running {
        return Ok(None);
      }
      if owner[slot] != Some(cpu) {
        return Err(OwnerMismatch);
      }
      var record := table[slot].value;
      owner := owner[slot := None];
      table := table[slot := Some(record.(state := Runnable, blockIntent := false, wakePending := false))];
      r := Ok(Some(record.pid));
    }

    method ReleaseForExit(slot: nat, cpu: nat) returns (r: Result<(), Assertion>)
      requires Valid()
      modifies this
      ensures Valid()
      ensures match ReleaseOwnerForExit(old(Value()), slot, cpu)
              case Ok(p) => r == Ok(()) && Value() == p
              case Err(why) => r == Err(why) && Value() == old(Value())
    {
      if slot >= |table| || table[slot].None? {
        return Err(NoRecord);
      }
      if table[slot].value.state != Running {
        return Err(NotRunning);
      }
      if owner[slot] != Some(cpu) {
        return Err(OwnerMismatch);
      }
      owner := owner[slot := None];
      r := Ok(());
    }

    /** `Some(pid)`: enqueue it; `None`: latched or ignored. */
    method RequestWakeUp(pid: nat) returns (r: Result<Option<nat>, Assertion>)
      requires Valid()
      modifies this
      ensures Valid()
      ensures match RequestWake(old(Value()), pid)
              case Enqueue(p, q) => r == Ok(Some(q)) && Value() == p
              case Pending(p) => r == Ok(None) && Value() == p
              case Ignore => r == Ok(None) && Value() == old(Value())
              case WakeFailed(why) => r == Err(why)
    {
      var found := FindPid(pid);
      if found.None? {
        return Ok(None);
      }
      var i := found.value;
      var record := table[i].value;
      if record.state == Blocked {
        if owner[i].Some? {
          return Err(StillOwned);
        }
        table := table[i := Some(record.(state := Runnable, blockIntent := false, wakePending := false))];
        assert owner[i := owner[i]] == owner;
        return Ok(Some(pid));
      }
      if record.state == Running {
        table := table[i := Some(record.(wakePending := true))];
        assert owner[i := owner[i]] == owner;
      }
      r := Ok(None);
    }

    method StartBlock(slot: nat, cpu: nat) returns (r: Result<(), Assertion>)
      requires Valid()
      modifies this
      ensures Valid()
      ensures match BeginBlock(old(Value()), slot, cpu)
              case Ok(p) => r == Ok(()) && Value() == p
              case Err(why) => r == Err(why) && Value() == old(Value())
    {
      if slot >= |table| || table[slot].None? || table[slot].value.state != Running {
        return Err(NotRunning);
      }
      if owner[slot] != Some(cpu) {
        return Err(OwnerMismatch);
      }
      table := table[slot := Some(table[slot].value.(blockIntent := true))];
      assert owner[slot := owner[slot]] == owner;
      r := Ok(());
    }

    /** `Some(pid)`: requeue it; `None`: it is blocked. */
    method EndBlock(slot: nat, cpu: nat) returns (r: Result<Option<nat>, Assertion>)
      requires Valid()
      modifies this
      ensures Valid()
      ensures match FinishBlock(old(Value()), slot, cpu)
              case NowBlocked(p) => r == Ok(None) && Value() == p
              case Requeue(p, pid) => r == Ok(Some(pid)) && Value() == p
              case FinishFailed(why) => r == Err(why)
    {
      if slot >= |table| || table[slot].None? || table[slot].value.state != Running || !table[slot].value.blockIntent {
        return Err(InvalidHandoff);
      }
      if owner[slot] != Some(cpu) {
        return Err(OwnerMismatch);
      }
      var record := table[slot].value;
      owner := owner[slot := None];
      if record.wakePending {
        table := table[slot := Some(record.(state := Runnable, blockIntent := false, wakePending := false))];
        return Ok(Some(record.pid));
      }
      table := table[slot := Some(record.(state := Blocked, blockIntent := false))];
      r := Ok(None);
    }

    method AllocateSlot() returns (r: Option<nat>)
      requires Valid()
      modifies this
      ensures Valid()
      ensures match AllocSlot(old(Value()))
              case Some((p, slot)) => r == Some(slot) && Value() == p
              case None => r == None && Value() == old(Value())
    {
      for i := 0 to |table|
        invariant table == old(table) && owner == old(owner) && FirstFree(table, 0) == FirstFree(table, i)
      {
        if table[i].None? {
          owner := owner[i := None];
          return Some(i);
        }
      }
      if |table| < MAX_PROCESSES {
        var i := |table|;
        owner := owner[i := None];
        table := table + [None];
        return Some(i);
      }
      r := None;
    }

    /** Scans the table for what `wait` should do. */
    method Scan(caller: nat, target: nat) returns (d: WaitDecision)
      ensures d == WaitScan(table, caller, target, 0, false)
    {
      var live := false;
      for i := 0 to |table|
        invariant WaitScan(table, caller, target, 0, false) == WaitScan(table, caller, target, i, live)
      {
        if IsChild(table[i], caller, target) {
          if table[i].value.state == Zombie {
            if table[i].value.exitCode.Some? {
              return Collect(i, table[i].value.pid, table[i].value.exitCode.value);
            }
          } else {
            live := true;
          }
        }
      }
      d := if live then Block else NoChild;
    }

    /** What becomes of the children of `dying`. */
    method Orphan(dying: nat) returns (cleared: seq<nat>)
      requires Valid()
      modifies this`table
      ensures Valid() && |table| == |old(table)| && cleared == Cleared(old(table), dying, 0)
      ensures forall j :: 0 <= j < |table| ==> table[j] == Orphaned(old(table)[j], dying)
    {
      cleared := [];
      ghost var t := table;
      for i := 0 to |table|
        invariant |table| == |t|
        invariant forall j :: 0 <= j < i ==> table[j] == Orphaned(t[j], dying)
        invariant forall j :: i <= j < |table| ==> table[j] == t[j]
        invariant cleared + Cleared(t, dying, i) == Cleared(t, dying, 0)
      {
        ClearedNext(t, dying, i, cleared);
        if table[i].Some? && table[i].value.parent == Some(dying) {
          if table[i].value.state == Zombie {
            table, cleared := table[i := None], cleared + [i];
          } else {
            table := table[i := Some(table[i].value.(parent := Some(INIT_PID), adopted := true))];
          }
        }
      }
    }

    /**
     * One locked section of `full_reap`: the record goes, zombie children go with it and their slots are returned,
     * live children are adopted. An empty slot is skipped.
     */
    method Reap(slot: nat) returns (cleared: seq<nat>)
      requires Valid() && slot < |table|
      modifies this`table
      ensures Valid()
      ensures old(table)[slot].None? ==> table == old(table) && cleared == []
      ensures old(table)[slot].Some? ==>
                && table == FullReap(old(table), slot)
                && cleared == Cleared(old(table)[slot := None], old(table)[slot].value.pid, 0)
    {
      cleared := [];
      if table[slot].Some? {
        var dying := table[slot].value.pid;
        table := table[slot := None];
        cleared := Orphan(dying);
      }
    }
  }
}
