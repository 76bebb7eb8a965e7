/** Message channels: the queue, the waiters and the operations of `microkernel/src/ipc.rs`. */
module Ipc {
  import opened Common
  import Ring

  const MAX_QUEUE: nat := 16
  const WAITERS_PER_CHANNEL: nat := 4

  datatype IpcError = ChannelBusy | Empty | AccessDenied | PolicyDenied

  /** `target` 0 addresses any reader. */
  datatype Envelope = Envelope(sender: nat, target: nat, message: nat)

  // ---- The message queue ----

  predicate Eligible(e: Envelope, caller: nat) {
    e.target == 0 || (caller != 0 && e.target == caller)
  }

  /** The first envelope that `caller` may take. */
  function FirstFor(q: seq<Envelope>, caller: nat): (r: Option<nat>)
    ensures r.Some? ==> r.value < |q| && Eligible(q[r.value], caller)
    ensures r.Some? ==> forall i :: 0 <= i < r.value ==> !Eligible(q[i], caller)
    ensures r.None? ==> forall i :: 0 <= i < |q| ==> !Eligible(q[i], caller)
  {
    if q == [] then None
    else if Eligible(q[0], caller) then Some(0)
    else
      match FirstFor(q[1..], caller)
      case None => None
      case Some(i) => Some(i + 1)
  }

  function Without(q: seq<Envelope>, i: nat): seq<Envelope>
    requires i < |q|
  {
    q[..i] + q[i + 1..]
  }

  class MessageQueue {
    const buf: array<Envelope>
    var head: nat
    var tail: nat
    var len: nat
    /** The queued envelopes, oldest first. */
    ghost var queued: seq<Envelope>

    ghost predicate Valid()
      reads this, buf
    {
      && buf.Length == MAX_QUEUE && len == |queued|
      && Ring.Spells(buf[..], head, queued) && tail == Ring.At(head, len, MAX_QUEUE)
    }

    constructor ()
      ensures Valid() && queued == [] && fresh(buf)
    {
      buf := new Envelope[MAX_QUEUE](i => Envelope(0, 0, 0));
      head, tail, len, queued := 0, 0, 0, [];
    }

    method Push(e: Envelope, capacity: nat) returns (r: Result<(), IpcError>)
      requires Valid() && len <= capacity <= MAX_QUEUE
      modifies this`tail, this`len, this`queued, buf
      ensures Valid()
      ensures r == if |old(queued)| == capacity then Err(ChannelBusy) else Ok(())
      ensures queued == if r.Ok? then old(queued) + [e] else old(queued)
    {
      if len == capacity {
        return Err(ChannelBusy);
      }
      Ring.SpellsPush(buf[..], head, queued, e);
      ghost var after := buf[..][tail := e];
      buf[tail] := e;
      assert buf[..] == after;
      tail := (tail + 1) % MAX_QUEUE;
      len := len + 1;
      queued := queued + [e];
      r := Ok(());
    }

    /** Where the first envelope that `caller` may take is, counted from the head. */
    method Search(caller: nat) returns (found: Option<nat>)
      requires Valid()
      ensures found == FirstFor(queued, caller)
    {
      for off := 0 to len
        invariant forall i :: 0 <= i < off ==> !Eligible(queued[i], caller)
      {
        Ring.Wrap(head, off, MAX_QUEUE);
        if Eligible(buf[(head + off) % MAX_QUEUE], caller) {
          return Some(off);
        }
      }
      return None;
    }

    /** Moves one envelope up by one place. */
    method MoveUp(j: nat, ghost off: nat)
      requires buf.Length == MAX_QUEUE && off <= j && j + 1 < |queued| && Ring.Shifted(buf[..], head, queued, off, j)
      modifies buf
      ensures Ring.Shifted(buf[..], head, queued, off, j + 1)
    {
      Ring.Wrap(head, j + 1, MAX_QUEUE);
      Ring.Wrap(head, j, MAX_QUEUE);
      Ring.ShiftNext(buf[..], head, queued, off, j);
      var from, to := (head + j + 1) % MAX_QUEUE, (head + j) % MAX_QUEUE;
      ghost var after := buf[..][to := buf[from]];
      buf[to] := buf[from];
      assert buf[..] == after;
    }

    method MoveAllUp(off: nat)
      requires Valid() && off < len
      modifies buf
      ensures Ring.Shifted(buf[..], head, queued, off, len - 1)
    {
      Ring.ShiftStart(buf[..], head, queued, off);
      for j := off to len - 1
        modifies buf
        invariant Ring.Shifted(buf[..], head, queued, off, j)
      {
        MoveUp(j, off);
      }
    }

    /** Takes out envelope `off` by moving the later ones up. */
    method Compact(off: nat)
      requires Valid() && off < len
      modifies this`tail, this`len, this`queued, buf
      ensures Valid() && queued == Without(old(queued), off)
    {
      MoveAllUp(off);
      Ring.ShiftedOut(buf[..], head, queued, off);
      tail := (tail + MAX_QUEUE - 1) % MAX_QUEUE;
      len := len - 1;
      queued := Without(queued, off);
    }

    /** Takes out the first envelope that `caller` may take; the others keep their order. */
    method PopFor(caller: nat) returns (r: Result<Envelope, IpcError>)
      requires Valid()
      modifies this`tail, this`len, this`queued, buf
      ensures Valid()
      ensures match FirstFor(old(queued), caller)
              case None => r == Err(Empty) && queued == old(queued)
              case Some(i) => r == Ok(old(queued)[i]) && queued == Without(old(queued), i)
    {
      if len == 0 {
        return Err(Empty);
      }
      var found := Search(caller);
      if found.None? {
        return Err(Empty);
      }
      Ring.Wrap(head, found.value, MAX_QUEUE);
      r := Ok(buf[(head + found.value) % MAX_QUEUE]);
      Compact(found.value);
    }
  }

  // ---- Channels ----

  /** A channel as a value: the queue, the four waiter places, and the capacity. */
  datatype Channel = Channel(queue: seq<Envelope>, waiters: seq<Option<nat>>, capacity: nat)

  ghost predicate Proper(c: Channel) {
    |c.waiters| == WAITERS_PER_CHANNEL && |c.queue| <= c.capacity && 1 <= c.capacity <= MAX_QUEUE
  }

  function Place(ws: seq<Option<nat>>, w: Option<nat>): (r: Option<nat>)
    ensures r.Some? ==> r.value < |ws| && ws[r.value] == w
    ensures r.Some? ==> forall i :: 0 <= i < r.value ==> ws[i] != w
    ensures r.None? ==> w !in ws
  {
    if ws == [] then None
    else if ws[0] == w then Some(0)
    else
      match Place(ws[1..], w)
      case None => None
      case Some(i) => Some(i + 1)
  }

  function FirstWaiter(ws: seq<Option<nat>>): (r: Option<nat>)
    ensures r.Some? ==> r.value < |ws| && ws[r.value].Some?
    ensures r.Some? ==> forall i :: 0 <= i < r.value ==> ws[i].None?
    ensures r.None? ==> forall i :: 0 <= i < |ws| ==> ws[i].None?
  {
    if ws == [] then None
    else if ws[0].Some? then Some(0)
    else
      match FirstWaiter(ws[1..])
      case None => None
      case Some(i) => Some(i + 1)
  }

  /** `pop_waiter_for`: the place of the waiter that a send wakes. */
  function WaiterFor(ws: seq<Option<nat>>, target: Option<nat>): Option<nat> {
    if target.Some? then Place(ws, target) else FirstWaiter(ws)
  }

  /** `send`, once access is granted: the new channel and the waiter to wake. */
  function Send(c: Channel, caller: nat, target: Option<nat>, message: nat)
    : (r: Result<(Channel, Option<nat>), IpcError>)
  {
    if |c.queue| == c.capacity then Err(ChannelBusy)
    else
      var c1 := c.(queue := c.queue + [Envelope(caller, target.GetOr(0), message)]);
      match WaiterFor(c.waiters, target)
      case None => Ok((c1, None))
      case Some(i) => Ok((c1.(waiters := c.waiters[i := None]), c.waiters[i]))
  }

  /** `receive_or_register_waiter`, once access is granted. */
  function ReceiveOrRegister(c: Channel, caller: nat): Result<(Channel, Option<Envelope>), IpcError> {
    match FirstFor(c.queue, caller)
    case Some(i) => Ok((c.(queue := Without(c.queue, i)), Some(c.queue[i])))
    case None =>
      if Some(caller) in c.waiters then Ok((c, None))
      else
        match Place(c.waiters, None)
        case None => Err(ChannelBusy)
        case Some(i) => Ok((c.(waiters := c.waiters[i := Some(caller)]), None))
  }

  /** No process that is registered as a waiter has an envelope addressed to it in the queue. */
  ghost predicate NothingMissed(c: Channel) {
    forall w: nat, i :: w != 0 && Some(w) in c.waiters && 0 <= i < |c.queue| ==> c.queue[i].target != w
  }

  /** Waiter places hold distinct processes. */
  ghost predicate DistinctWaiters(c: Channel) {
    forall i, j :: 0 <= i < j < |c.waiters| && c.waiters[i].Some? ==> c.waiters[i] != c.waiters[j]
  }

  lemma SendKeeps(c: Channel, caller: nat, target: Option<nat>, message: nat)
    requires Proper(c) && NothingMissed(c) && DistinctWaiters(c)
    ensures var r := Send(c, caller, target, message);
            r.Ok? ==> Proper(r.value.0) && NothingMissed(r.value.0) && DistinctWaiters(r.value.0)
  {
    var r := Send(c, caller, target, message);
    if r.Ok? {
      var c' := r.value.0;
      forall w: nat, i | w != 0 && Some(w) in c'.waiters && 0 <= i < |c'.queue| ensures c'.queue[i].target != w {
        var k :| 0 <= k < |c'.waiters| && c'.waiters[k] == Some(w);
        assert c.waiters[k] == Some(w);
      }
    }
  }

  /** The waiter at place `i`, and no other, is no longer waiting. */
  ghost predicate Woke(ws: seq<Option<nat>>, ws': seq<Option<nat>>, i: nat, w: nat) {
    i < |ws| && ws[i] == Some(w) && ws' == ws[i := None]
  }

  /**
   * A send fails if and only if the queue is at its capacity. Otherwise the envelope goes to the end, and one waiter
   * is woken: the addressee if there is one and it waits, the one in the lowest place if there is none.
   */
  lemma SendExactly(c: Channel, caller: nat, target: Option<nat>, message: nat)
    ensures var r := Send(c, caller, target, message);
            && (r.Err? <==> |c.queue| == c.capacity) && (r.Err? ==> r.error == ChannelBusy)
            && (r.Ok? ==> r.value.0.capacity == c.capacity && |r.value.0.queue| == |c.queue| + 1
                          && r.value.0.queue[..|c.queue|] == c.queue)
            && (r.Ok? ==> var e := r.value.0.queue[|c.queue|];
                          e.sender == caller && e.message == message
                          && e.target == (if target.Some? then target.value else 0))
            && (r.Ok? && r.value.1 == None ==>
                  && r.value.0.waiters == c.waiters
                  && (if target.Some? then target !in c.waiters
                      else forall i :: 0 <= i < |c.waiters| ==> c.waiters[i].None?))
            && (r.Ok? && r.value.1.Some? ==>
                  exists i: nat :: Woke(c.waiters, r.value.0.waiters, i, r.value.1.value)
                                   && (if target.Some? then target == r.value.1
                                       else forall j :: 0 <= j < i ==> c.waiters[j].None?))
  {
    var i, r := WaiterFor(c.waiters, target), Send(c, caller, target, message);
    if r.Ok? && i.Some? {
      assert Woke(c.waiters, r.value.0.waiters, i.value, r.value.1.value);
    }
  }

  /**
   * A receive takes the oldest envelope for nobody in particular or for the caller. With none, the caller is
   * registered once; that fails if and only if four others are.
   */
  lemma ReceiveExactly(c: Channel, caller: nat)
    requires Proper(c)
    ensures var r := ReceiveOrRegister(c, caller);
            && (r.Ok? && r.value.1.Some? <==> exists e :: e in c.queue && (e.target == 0 || e.target == caller))
            && (r.Ok? && r.value.1.Some? ==>
                  exists i: nat :: i < |c.queue| && r.value.1 == Some(c.queue[i])
                                   && (forall j :: 0 <= j < i ==> c.queue[j].target != 0 && c.queue[j].target != caller)
                                   && r.value.0 == c.(queue := c.queue[..i] + c.queue[i + 1..]))
            && (r.Ok? && r.value.1 == None ==>
                  && r.value.0.queue == c.queue && r.value.0.capacity == c.capacity && Some(caller) in r.value.0.waiters
                  && (forall i :: 0 <= i < 4 && c.waiters[i].Some? ==> r.value.0.waiters[i] == c.waiters[i])
                  && (forall w :: Some(w) in r.value.0.waiters ==> w == caller || Some(w) in c.waiters))
            && (r.Err? <==>
                  && (forall e :: e in c.queue ==> e.target != 0 && e.target != caller)
                  && (forall i :: 0 <= i < 4 ==> c.waiters[i].Some? && c.waiters[i] != Some(caller)))
  {
    var first, place := FirstFor(c.queue, caller), Place(c.waiters, None);
    if first.Some? {
      assert c.queue[first.value] in c.queue;
    } else {
      assert forall e :: e in c.queue ==> e.target != 0 && e.target != caller;
      assert forall i :: 0 <= i < 4 ==> c.waiters[i] in c.waiters;
      if Some(caller) !in c.waiters && place.Some? {
        assert c.waiters[place.value := Some(caller)][place.value] == Some(caller);
      }
    }
  }

  lemma ReceiveKeeps(c: Channel, caller: nat)
    requires Proper(c) && NothingMissed(c) && DistinctWaiters(c)
    ensures var r := ReceiveOrRegister(c, caller);
            r.Ok? ==> Proper(r.value.0) && NothingMissed(r.value.0) && DistinctWaiters(r.value.0)
    ensures var r := ReceiveOrRegister(c, caller);
            r.Ok? && r.value.1.Some? ==> r.value.1.value.target == 0 || r.value.1.value.target == caller
  {
    var r, first := ReceiveOrRegister(c, caller), FirstFor(c.queue, caller);
    if r.Ok? {
      var c' := r.value.0;
      forall w: nat, i | w != 0 && Some(w) in c'.waiters && 0 <= i < |c'.queue| ensures c'.queue[i].target != w {
        if first.Some? {
          assert c'.queue[i] == if i < first.value then c.queue[i] else c.queue[i + 1];
        } else if w != caller {
          var k :| 0 <= k < |c'.waiters| && c'.waiters[k] == Some(w);
          assert c.waiters[k] == Some(w);
        }
      }
    }
  }

  // ---- Any use of a channel ----

  datatype Use = Sends(caller: nat, target: Option<nat>, message: nat) | Takes(caller: nat) | Asks(caller: nat)

  /** The channel, the envelopes it accepted so far, and those it handed out, with who took them. */
  datatype Flow = Flow(channel: Channel, accepted: seq<Envelope>, taken: seq<Envelope>, takers: seq<nat>)

  function Taken(f: Flow, caller: nat, i: nat): Flow
    requires i < |f.channel.queue|
  {
    Flow(f.channel.(queue := Without(f.channel.queue, i)), f.accepted, f.taken + [f.channel.queue[i]],
      f.takers + [caller])
  }

  function Used(f: Flow, u: Use): Flow {
    match u
    case Sends(caller, target, message) =>
      (match Send(f.channel, caller, target, message)
       case Err(_) => f
       case Ok((c, _)) => f.(channel := c, accepted := f.accepted + [Envelope(caller, target.GetOr(0), message)]))
    case Takes(caller) =>
      (match FirstFor(f.channel.queue, caller)
       case None => f
       case Some(i) => Taken(f, caller, i))
    case Asks(caller) =>
      match FirstFor(f.channel.queue, caller)
      case Some(i) => Taken(f, caller, i)
      case None =>
        match ReceiveOrRegister(f.channel, caller)
        case Err(_) => f
        case Ok((c, _)) => f.(channel := c)
  }

  /** No envelope is lost or made up, each went to someone it was for, and no waiter has one waiting. */
  ghost predicate Conserved(f: Flow) {
    && Proper(f.channel) && NothingMissed(f.channel) && DistinctWaiters(f.channel)
    && multiset(f.accepted) == multiset(f.channel.queue) + multiset(f.taken)
    && |f.takers| == |f.taken| && forall i :: 0 <= i < |f.taken| ==> Eligible(f.taken[i], f.takers[i])
  }

  lemma WithoutOne(q: seq<Envelope>, i: nat)
    requires i < |q|
    ensures multiset(q) == multiset(Without(q, i)) + multiset{q[i]}
  {
    assert q == q[..i] + [q[i]] + q[i + 1..];
  }

  lemma TakenKeeps(f: Flow, caller: nat)
    requires Conserved(f) && FirstFor(f.channel.queue, caller).Some?
    ensures Conserved(Taken(f, caller, FirstFor(f.channel.queue, caller).value))
  {
    var i := FirstFor(f.channel.queue, caller).value;
    ReceiveKeeps(f.channel, caller);
    WithoutOne(f.channel.queue, i);
  }

  lemma UsedKeeps(f: Flow, u: Use)
    requires Conserved(f)
    ensures Conserved(Used(f, u))
  {
    match u
    case Sends(caller, target, message) => SendKeeps(f.channel, caller, target, message);
    case Takes(caller) =>
      if FirstFor(f.channel.queue, caller).Some? { TakenKeeps(f, caller); }
    case Asks(caller) =>
      if FirstFor(f.channel.queue, caller).Some? {
        TakenKeeps(f, caller);
      } else {
        ReceiveKeeps(f.channel, caller);
      }
  }

  function NewFlow(capacity: nat): Flow {
    Flow(Channel([], seq(WAITERS_PER_CHANNEL, i => None), capacity), [], [], [])
  }

  ghost function Uses(f: Flow, us: seq<Use>): Flow {
    if us == [] then f else Used(Uses(f, us[..|us| - 1]), us[|us| - 1])
  }

  /** From a new channel on, over any sends, targeted or not, and any receives. */
  lemma {:induction false} EveryUse(capacity: nat, us: seq<Use>)
    requires 1 <= capacity <= MAX_QUEUE
    ensures Conserved(Uses(NewFlow(capacity), us))
  {
    if us != [] {
      EveryUse(capacity, us[..|us| - 1]);
      UsedKeeps(Uses(NewFlow(capacity), us[..|us| - 1]), us[|us| - 1]);
    }
  }

  // ---- The channel in place ----

  /** `ensure_access` and `ensure_groups`; capability masks are sets of bit numbers. */
  function Denied(owner: Option<nat>, caller: nat, groups: set<nat>, caps: set<nat>): Option<IpcError> {
    if owner.Some? && owner.value != caller then Some(AccessDenied)
    else if groups != {} && groups * caps == {} then Some(PolicyDenied)
    else None
  }

  lemma NoneInCommon(groups: set<nat>, caps: set<nat>)
    ensures groups * caps == {} <==> forall b :: b in groups ==> b !in caps
  {
    if b :| b in groups && b in caps { assert b in groups * caps; }
  }

  class Port {
    const queue: MessageQueue
    const capacity: nat
    const owner: Option<nat>
    const txGroups: set<nat>
    const rxGroups: set<nat>
    var waiters: seq<Option<nat>>

    ghost function Value(): Channel
      reads this, queue
    {
      Channel(queue.queued, waiters, capacity)
    }

    ghost predicate Valid()
      reads this, queue, queue.buf
    {
      queue.Valid() && Proper(Value()) && NothingMissed(Value()) && DistinctWaiters(Value())
    }

    constructor (capacity: nat, owner: Option<nat>, txGroups: set<nat>, rxGroups: set<nat>)
      ensures Valid() && Value().queue == [] && fresh(queue) && fresh(queue.buf)
      ensures forall i :: 0 <= i < |waiters| ==> waiters[i].None?
      ensures this.owner == owner && this.txGroups == txGroups && this.rxGroups == rxGroups
      ensures 1 <= capacity <= 16 ==> this.capacity == capacity
      ensures (capacity == 0 ==> this.capacity == 1) && (capacity > 16 ==> this.capacity == 16)
    {
      this.capacity := if capacity > MAX_QUEUE then MAX_QUEUE else if capacity == 0 then 1 else capacity;
      this.owner, this.txGroups, this.rxGroups := owner, txGroups, rxGroups;
      waiters := seq(WAITERS_PER_CHANNEL, i => None);
      queue := new MessageQueue();
    }

    /** `Some(pid)` is the waiter that the caller must wake. */
    method SendMessage(caller: nat, target: Option<nat>, message: nat, caps: set<nat>)
      returns (r: Result<Option<nat>, IpcError>)
      requires Valid()
      modifies this`waiters, queue`tail, queue`len, queue`queued, queue.buf
      ensures Valid()
      ensures r == Err(AccessDenied) <==> owner.Some? && owner.value != caller
      ensures r == Err(PolicyDenied) <==>
                (owner == None || owner == Some(caller)) && txGroups != {} && forall b :: b in txGroups ==> b !in caps
      ensures match Denied(owner, caller, txGroups, caps)
              case Some(why) => r == Err(why) && Value() == old(Value())
              case None =>
                match Send(old(Value()), caller, target, message)
                case Err(why) => r == Err(why) && Value() == old(Value())
                case Ok((c, w)) => r == Ok(w) && Value() == c
    {
      NoneInCommon(txGroups, caps);
      var denied := Denied(owner, caller, txGroups, caps);
      if denied.Some? {
        return Err(denied.value);
      }
      SendKeeps(Value(), caller, target, message);
      var pushed := queue.Push(Envelope(caller, target.GetOr(0), message), capacity);
      if pushed.Err? {
        return Err(pushed.error);
      }
      var i := WaiterFor(waiters, target);
      if i.None? {
        return Ok(None);
      }
      r := Ok(waiters[i.value]);
      waiters := waiters[i.value := None];
    }

    method Receive(caller: nat, caps: set<nat>) returns (r: Result<Envelope, IpcError>)
      requires Valid()
      modifies queue`tail, queue`len, queue`queued, queue.buf
      ensures Valid() && waiters == old(waiters)
      ensures r == Err(AccessDenied) <==> owner.Some? && owner.value != caller
      ensures r == Err(PolicyDenied) <==>
                (owner == None || owner == Some(caller)) && rxGroups != {} && forall b :: b in rxGroups ==> b !in caps
      ensures match Denied(owner, caller, rxGroups, caps)
              case Some(why) => r == Err(why) && Value() == old(Value())
              case None =>
                match FirstFor(old(Value()).queue, caller)
                case None => r == Err(Empty) && Value() == old(Value())
                case Some(i) => r == Ok(old(Value()).queue[i]) && Value().queue == Without(old(Value()).queue, i)
    {
      NoneInCommon(rxGroups, caps);
      var denied := Denied(owner, caller, rxGroups, caps);
      if denied.Some? {
        return Err(denied.value);
      }
      ReceiveKeeps(Value(), caller);
      r := queue.PopFor(caller);
    }

    /** `Ok(None)`: the caller is now a waiter and goes on to block. */
    method ReceiveOrWait(caller: nat, caps: set<nat>) returns (r: Result<Option<Envelope>, IpcError>)
      requires Valid()
      modifies this`waiters, queue`tail, queue`len, queue`queued, queue.buf
      ensures Valid()
      ensures r == Err(AccessDenied) <==> owner.Some? && owner.value != caller
      ensures r == Err(PolicyDenied) <==>
                (owner == None || owner == Some(caller)) && rxGroups != {} && forall b :: b in rxGroups ==> b !in caps
      ensures match Denied(owner, caller, rxGroups, caps)
              case Some(why) => r == Err(why) && Value() == old(Value())
              case None =>
                match ReceiveOrRegister(old(Value()), caller)
                case Err(why) => r == Err(why) && Value() == old(Value())
                case Ok((c, e)) => r == Ok(e) && Value() == c
    {
      NoneInCommon(rxGroups, caps);
      var denied := Denied(owner, caller, rxGroups, caps);
      if denied.Some? {
        return Err(denied.value);
      }
      ReceiveKeeps(Value(), caller);
      var got := queue.PopFor(caller);
      if got.Ok? {
        return Ok(Some(got.value));
      }
      if Some(caller) in waiters {
        return Ok(None);
      }
      var i := Place(waiters, None);
      if i.None? {
        return Err(ChannelBusy);
      }
      waiters := waiters[i.value := Some(caller)];
      r := Ok(None);
    }
  }

  // ---- Runs with untargeted sends only ----

  /** The channel, and the receivers that were woken and have not run again yet. */
  datatype Traffic = Traffic(channel: Channel, woken: multiset<nat>)

  datatype Event = Sent(caller: nat, message: nat) | Ran(receiver: nat) | Polled(receiver: nat)

  /**
   * A send without a target; a receiver that asks for a message and waits if there is none, woken or for the first
   * time; or one that asks and does not wait.
   */
  function Happen(t: Traffic, e: Event): Traffic {
    match e
    case Sent(caller, message) =>
      (match Send(t.channel, caller, None, message)
       case Err(_) => t
       case Ok((c, None)) => t.(channel := c)
       case Ok((c, Some(w))) => Traffic(c, t.woken + multiset{w}))
    case Ran(p) =>
      var t1 := t.(woken := t.woken - multiset{p});
      (match ReceiveOrRegister(t.channel, p)
       case Err(_) => t1
       case Ok((c, _)) => t1.(channel := c))
    case Polled(p) =>
      match FirstFor(t.channel.queue, p)
      case None => t
      case Some(i) => t.(channel := t.channel.(queue := Without(t.channel.queue, i)))
  }

  /** While someone waits, every queued message has a receiver on its way to take it. */
  ghost predicate Served(t: Traffic) {
    && Proper(t.channel) && (forall i :: 0 <= i < |t.channel.queue| ==> t.channel.queue[i].target == 0)
    && ((exists w: nat :: Some(w) in t.channel.waiters) ==> |t.channel.queue| <= |t.woken|)
  }

  lemma SentServed(t: Traffic, caller: nat, message: nat)
    requires Served(t)
    ensures Served(Happen(t, Sent(caller, message)))
  {
    var t' := Happen(t, Sent(caller, message));
    if w: nat :| Some(w) in t'.channel.waiters {
      var k :| 0 <= k < |t'.channel.waiters| && t'.channel.waiters[k] == Some(w);
      assert t.channel.waiters[k] == Some(w);
    }
  }

  lemma RanServed(t: Traffic, p: nat)
    requires Served(t)
    ensures Served(Happen(t, Ran(p)))
  {
    var q, first := t.channel.queue, FirstFor(t.channel.queue, p);
    assert q != [] ==> Eligible(q[0], p);
    if first.Some? {
      assert |Without(q, first.value)| == |q| - 1;
    }
  }

  lemma PolledServed(t: Traffic, p: nat)
    requires Served(t)
    ensures Served(Happen(t, Polled(p)))
  {
    var q, first := t.channel.queue, FirstFor(t.channel.queue, p);
    if first.Some? {
      var q' := Without(q, first.value);
      assert forall i :: 0 <= i < |q'| ==> q'[i] == q[if i < first.value then i else i + 1];
    }
  }

  lemma HappenServed(t: Traffic, e: Event)
    requires Served(t)
    ensures Served(Happen(t, e))
  {
    match e
    case Sent(caller, message) => SentServed(t, caller, message);
    case Ran(p) => RanServed(t, p);
    case Polled(p) => PolledServed(t, p);
  }

  ghost function Play(t: Traffic, events: seq<Event>): Traffic {
    if events == [] then t else Happen(Play(t, events[..|events| - 1]), events[|events| - 1])
  }

  /** Over any run with untargeted sends only. */
  lemma {:induction false} AlwaysServed(t: Traffic, events: seq<Event>)
    requires Served(t)
    ensures Served(Play(t, events))
  {
    if events != [] {
      AlwaysServed(t, events[..|events| - 1]);
      HappenServed(Play(t, events[..|events| - 1]), events[|events| - 1]);
    }
  }

  /** A channel as it is created, over any run with untargeted sends only. */
  lemma NewServed(c: Channel, events: seq<Event>)
    requires Proper(c) && c.queue == []
    ensures Served(Play(Traffic(c, multiset{}), events))
  {
    AlwaysServed(Traffic(c, multiset{}), events);
  }
}
