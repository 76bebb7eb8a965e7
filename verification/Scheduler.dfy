/** The queues of `microkernel/src/scheduler.rs`, in place. */
module Scheduler {
  import opened Common
  import opened Processes
  import Ring
  import Kernel

  /** Queue elements as they sit in the ring. */
  ghost function Wrapped(q: seq<nat>): (w: seq<Option<nat>>)
    ensures |w| == |q|
  {
    seq(|q|, i requires 0 <= i < |q| => Some(q[i]))
  }

  lemma WrappedPush(q: seq<nat>, x: nat)
    ensures Wrapped(q + [x]) == Wrapped(q) + [Some(x)]
  {}

  lemma WrappedPop(q: seq<nat>)
    requires q != []
    ensures Wrapped(q)[0] == Some(q[0]) && Wrapped(q[1..]) == Wrapped(q)[1..]
  {}

  /** One level of the run queue: a ring with head, tail and length. */
  class RunQueue {
    const buf: array<Option<nat>>
    var head: nat
    var tail: nat
    var len: nat
    /** The queued pids, first come first. */
    ghost var queued: seq<nat>

    ghost predicate Valid()
      reads this, buf
    {
      && buf.Length == MAX_PROCESSES && len == |queued|
      && Ring.Spells(buf[..], head, Wrapped(queued)) && tail == Ring.At(head, len, buf.Length)
    }

    constructor ()
      ensures Valid() && queued == [] && fresh(buf)
    {
      buf := new Option<nat>[MAX_PROCESSES](i => None);
      head, tail, len, queued := 0, 0, 0, [];
    }

    /** The assert on a full queue is the precondition. */
    method Push(pid: nat)
      requires Valid() && len < MAX_PROCESSES
      modifies this`tail, this`len, this`queued, buf
      ensures Valid() && queued == old(queued) + [pid]
    {
      Ring.SpellsPush(buf[..], head, Wrapped(queued), Some(pid));
      WrappedPush(queued, pid);
      ghost var after := buf[..][tail := Some(pid)];
      buf[tail] := Some(pid);
      assert buf[..] == after;
      tail := (tail + 1) % buf.Length;
      len := len + 1;
      queued := queued + [pid];
    }

    method Pop() returns (r: Option<nat>)
      requires Valid()
      modifies this`head, this`len, this`queued, buf
      ensures Valid()
      ensures if old(queued) == [] then r == None && queued == []
              else r == Some(old(queued)[0]) && queued == old(queued)[1..]
    {
      if len == 0 {
        return None;
      }
      Ring.SpellsPop(buf[..], head, Wrapped(queued), None);
      WrappedPop(queued);
      ghost var after := buf[..][head := None];
      r := buf[head];
      buf[head] := None;
      assert buf[..] == after;
      head := (head + 1) % buf.Length;
      len := len - 1;
      queued := queued[1..];
    }
  }

  /** The multi-level queue: level 0 first, first come first served within a level. */
  class Mlfq {
    const levels: seq<RunQueue>

    ghost predicate Valid()
      reads this, levels, set l | l in levels :: l.buf
    {
      && |levels| == Kernel.LEVELS
      && (forall i :: 0 <= i < |levels| ==> levels[i].Valid())
      && (forall i, j :: 0 <= i < j < |levels| ==> levels[i] != levels[j] && levels[i].buf != levels[j].buf)
    }

    /** The queues as the state machine sees them. */
    ghost function Queues(): seq<seq<nat>>
      reads this, levels
    {
      seq(|levels|, i requires 0 <= i < |levels| reads this, levels => levels[i].queued)
    }

    constructor ()
      ensures Valid() && forall l :: l in levels ==> l.queued == []
    {
      var a := new RunQueue();
      var b := new RunQueue();
      var c := new RunQueue();
      var d := new RunQueue();
      levels := [a, b, c, d];
    }

    method PushAt(pid: nat, level: nat)
      requires Valid() && levels[if level < |levels| then level else |levels| - 1].len < MAX_PROCESSES
      modifies levels, set l | l in levels :: l.buf
      ensures Valid()
      ensures var l := if level < |levels| then level else |levels| - 1;
              Queues() == old(Queues())[l := old(Queues())[l] + [pid]]
    {
      var l := if level < |levels| - 1 then level else |levels| - 1;
      levels[l].Push(pid);
    }

    /** Takes from the highest non-empty level. */
    method Pop() returns (r: Option<nat>)
      requires Valid()
      modifies levels, set l | l in levels :: l.buf
      ensures Valid()
      ensures match Kernel.TopLevel(old(Queues()), 0)
              case None => r == None && Queues() == old(Queues())
              case Some(l) => r == Some(old(Queues())[l][0]) && Queues() == old(Queues())[l := old(Queues())[l][1..]]
    {
      ghost var before := Queues();
      for i := 0 to |levels|
        invariant Valid() && forall j :: 0 <= j < |levels| ==> levels[j].queued == before[j]
        invariant Kernel.TopLevel(before, 0) == Kernel.TopLevel(before, i)
      {
        r := PopLevel(i);
        if r.Some? {
          assert Queues() == before[i := before[i][1..]];
          return;
        }
      }
      r := None;
      assert Queues() == before;
    }

    method PopLevel(i: nat) returns (r: Option<nat>)
      requires Valid() && i < |levels|
      modifies levels, set l | l in levels :: l.buf
      ensures Valid()
      ensures forall j :: 0 <= j < |levels| && j != i ==> levels[j].queued == old(levels[j].queued)
      ensures if old(levels[i].queued) == [] then r == None && levels[i].queued == []
              else r == Some(old(levels[i].queued)[0]) && levels[i].queued == old(levels[i].queued)[1..]
    {
      r := levels[i].Pop();
    }
  }

  datatype SleepEntry = SleepEntry(wakeAt: nat, start: nat, pid: nat)

  /** The sleepers, ordered by the tick at which they are due. */
  class SleepQueue {
    var entries: seq<SleepEntry>

    ghost predicate Valid()
      reads this
    {
      forall i, j :: 0 <= i < j < |entries| ==> entries[i].wakeAt <= entries[j].wakeAt
    }

    constructor ()
      ensures Valid() && entries == []
    {
      entries := [];
    }

    /** Enters a sleeper after all that are due no later. The assert on a full queue is the precondition. */
    method Insert(start: nat, ticks: nat, pid: nat) returns (ghost at: nat)
      requires Valid() && |entries| < Kernel.SLEEP_QUEUE_CAP
      modifies this
      ensures Valid() && at <= |old(entries)|
      ensures entries == old(entries)[..at] + [SleepEntry(start + ticks, start, pid)] + old(entries)[at..]
      ensures forall i :: 0 <= i < |old(entries)| ==> (i < at <==> old(entries)[i].wakeAt <= start + ticks)
    {
      var pos := 0;
      while pos < |entries| && entries[pos].wakeAt <= start + ticks
        invariant pos <= |entries| && forall i :: 0 <= i < pos ==> entries[i].wakeAt <= start + ticks
      {
        pos := pos + 1;
      }
      entries := entries[..pos] + [SleepEntry(start + ticks, start, pid)] + entries[pos..];
      at := pos;
    }

    /** Takes out everyone who is due, and no one else. */
    method Tick(now: nat) returns (due: seq<SleepEntry>)
      requires Valid()
      modifies this
      ensures Valid() && due + entries == old(entries)
      ensures forall e :: e in due ==> e.wakeAt <= now
      ensures forall e :: e in entries ==> now < e.wakeAt
    {
      due := [];
      while entries != [] && entries[0].wakeAt <= now
        invariant Valid() && due + entries == old(entries) && forall e :: e in due ==> e.wakeAt <= now
        decreases |entries|
      {
        assert entries == [entries[0]] + entries[1..];
        due := due + [entries[0]];
        entries := entries[1..];
      }
    }
  }

  // ---- Futexes ----

  datatype FutexWaiter = FutexWaiter(uaddr: nat, pid: nat)

  /** The first `max` waiters on `uaddr`, in order of arrival. */
  function Woken(t: seq<FutexWaiter>, uaddr: nat, max: nat): seq<nat> {
    if t == [] || max == 0 then []
    else if t[0].uaddr == uaddr then [t[0].pid] + Woken(t[1..], uaddr, max - 1)
    else Woken(t[1..], uaddr, max)
  }

  /** The waiters that are left, in order of arrival. */
  function Left(t: seq<FutexWaiter>, uaddr: nat, max: nat): seq<FutexWaiter> {
    if t == [] || max == 0 then t
    else if t[0].uaddr == uaddr then Left(t[1..], uaddr, max - 1)
    else [t[0]] + Left(t[1..], uaddr, max)
  }

  ghost function Registered(t: seq<FutexWaiter>, w: FutexWaiter): nat {
    multiset(t)[w]
  }

  lemma HeadCount<T>(t: seq<T>, x: T)
    requires t != []
    ensures multiset(t)[x] == (if t[0] == x then 1 else 0) + multiset(t[1..])[x]
  {
    assert t == [t[0]] + t[1..];
  }

  /** Each waiter is woken or left, never both. */
  lemma {:induction false} WokenOrLeft(t: seq<FutexWaiter>, uaddr: nat, max: nat, w: FutexWaiter)
    ensures Registered(t, w)
            == Registered(Left(t, uaddr, max), w)
              + (if w.uaddr == uaddr then multiset(Woken(t, uaddr, max))[w.pid] else 0)
    decreases |t|
  {
    if t != [] && max != 0 {
      HeadCount(t, w);
      if t[0].uaddr == uaddr {
        WokenOrLeft(t[1..], uaddr, max - 1, w);
        HeadCount(Woken(t, uaddr, max), w.pid);
      } else {
        WokenOrLeft(t[1..], uaddr, max, w);
        HeadCount(Left(t, uaddr, max), w);
      }
    }
  }

  /** At most `max` are woken, and fewer only if no one is left to wake. */
  lemma {:induction false} WokenEnough(t: seq<FutexWaiter>, uaddr: nat, max: nat)
    ensures |Woken(t, uaddr, max)| <= max
    ensures |Woken(t, uaddr, max)| < max ==> forall x :: x in Left(t, uaddr, max) ==> x.uaddr != uaddr
    decreases |t|
  {
    if t != [] && max != 0 {
      WokenEnough(t[1..], uaddr, if t[0].uaddr == uaddr then max - 1 else max);
    }
  }

  function Others(t: seq<FutexWaiter>, uaddr: nat): seq<FutexWaiter> {
    if t == [] then [] else (if t[0].uaddr != uaddr then [t[0]] else []) + Others(t[1..], uaddr)
  }

  function Arrived(t: seq<FutexWaiter>, uaddr: nat): seq<nat> {
    if t == [] then [] else (if t[0].uaddr == uaddr then [t[0].pid] else []) + Arrived(t[1..], uaddr)
  }

  /** First come, first woken: up to some point all waiters on the address are woken, in order, and none after it. */
  lemma {:induction false} WokenFirst(t: seq<FutexWaiter>, uaddr: nat, max: nat) returns (n: nat)
    ensures n <= |t| && Woken(t, uaddr, max) == Arrived(t[..n], uaddr)
    ensures Left(t, uaddr, max) == Others(t[..n], uaddr) + t[n..]
    decreases |t|
  {
    n := 0;
    if t != [] && max != 0 {
      var m := WokenFirst(t[1..], uaddr, if t[0].uaddr == uaddr then max - 1 else max);
      n := m + 1;
      assert t[..n][1..] == t[1..][..m] && t[n..] == t[1..][m..];
    }
  }

  /** What is woken and kept so far, with the waiters from `i` on still to be looked at. */
  ghost predicate Halfway(t0: seq<FutexWaiter>, t: seq<FutexWaiter>, i: nat, woken: seq<nat>, uaddr: nat, max: nat) {
    && i <= |t| && |woken| <= max
    && woken + Woken(t[i..], uaddr, max - |woken|) == Woken(t0, uaddr, max)
    && t[..i] + Left(t[i..], uaddr, max - |woken|) == Left(t0, uaddr, max)
  }

  lemma HalfwayNext(t0: seq<FutexWaiter>, t: seq<FutexWaiter>, i: nat, woken: seq<nat>, uaddr: nat, max: nat)
    requires Halfway(t0, t, i, woken, uaddr, max) && i < |t| && |woken| < max
    ensures if t[i].uaddr == uaddr then Halfway(t0, t[..i] + t[i + 1..], i, woken + [t[i].pid], uaddr, max)
            else Halfway(t0, t, i + 1, woken, uaddr, max)
  {
    var rest := t[i..];
    assert rest[1..] == t[i + 1..];
    if t[i].uaddr == uaddr {
      var t' := t[..i] + t[i + 1..];
      assert t'[..i] == t[..i] && t'[i..] == rest[1..];
      Regroup(woken, [t[i].pid], Woken(rest[1..], uaddr, max - |woken| - 1));
    } else {
      assert t[..i + 1] == t[..i] + [t[i]];
      Regroup(t[..i], [t[i]], Left(rest[1..], uaddr, max - |woken|));
    }
  }

  class FutexTable {
    var waiters: seq<FutexWaiter>

    constructor ()
      ensures waiters == []
    {
      waiters := [];
    }

    /**
     * The part of `futex_wait_check` under the table lock: `actual` is the value read again there.
     * A waiter is entered only if the value is still the expected one.
     */
    method Enter(uaddr: nat, pid: nat, expected: nat, actual: nat) returns (r: Result<Option<nat>, ()>)
      modifies this
      ensures r == if actual != expected then Ok(Some(actual))
                   else if |old(waiters)| >= Kernel.FUTEX_TABLE_CAP then Err(()) else Ok(None)
      ensures waiters == if r == Ok(None) then old(waiters) + [FutexWaiter(uaddr, pid)] else old(waiters)
    {
      if actual != expected {
        return Ok(Some(actual));
      }
      if |waiters| >= Kernel.FUTEX_TABLE_CAP {
        return Err(());
      }
      waiters := waiters + [FutexWaiter(uaddr, pid)];
      r := Ok(None);
    }

    method Wake(uaddr: nat, max: nat) returns (woken: seq<nat>)
      modifies this
      ensures woken == Woken(old(waiters), uaddr, max) && waiters == Left(old(waiters), uaddr, max)
    {
      woken := [];
      var i := 0;
      while i < |waiters| && |woken| < max
        invariant Halfway(old(waiters), waiters, i, woken, uaddr, max)
        decreases |waiters| - i
      {
        HalfwayNext(old(waiters), waiters, i, woken, uaddr, max);
        if waiters[i].uaddr == uaddr {
          woken := woken + [waiters[i].pid];
          waiters := waiters[..i] + waiters[i + 1..];
        } else {
          i := i + 1;
        }
      }
      assert woken + [] == woken;
      assert waiters[..i] + waiters[i..] == waiters;
    }

    /** Drops every registration of a process that is exiting. */
    method Detach(pid: nat)
      modifies this
      ensures forall w :: w in waiters ==> w in old(waiters) && w.pid != pid
      ensures forall w: FutexWaiter :: w.pid != pid ==> Registered(waiters, w) == Registered(old(waiters), w)
    {
      var kept: seq<FutexWaiter> := [];
      for i := 0 to |waiters|
        invariant waiters == old(waiters)
        invariant forall w :: w in kept ==> w in waiters && w.pid != pid
        invariant forall w: FutexWaiter :: w.pid != pid ==> Registered(kept, w) == Registered(waiters[..i], w)
      {
        assert waiters[..i + 1] == waiters[..i] + [waiters[i]];
        if waiters[i].pid != pid {
          kept := kept + [waiters[i]];
        }
      }
      assert waiters[..|waiters|] == waiters;
      waiters := kept;
    }
  }
}
