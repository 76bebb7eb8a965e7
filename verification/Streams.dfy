/**
 * Which domain a requester's stream table entry leads to (`create_domain` and `destroy_domain` of
 * `microkernel/src/iommu.rs`). The list of domains and the stream table have locks of their own, and neither call
 * holds both. Each locked section is one step, and what a call still has to do after it is a pending task.
 */
module Streams {
  import opened Common

  datatype Task =
    | Attaches(sid: nat, id: nat)   // the requester had no domain; its entry is to be written,
    | Enters(sid: nat, id: nat)     //   and the domain then to be listed
    | Detaches(sid: nat)            // the domain was taken off the list; the entry is to be set to bypass

  /** What came of writing the entry: not in the table, written and not acknowledged, or written. */
  datatype Reply = OutOfRange | Refused | Done

  /** `domains` maps the id of each listed domain to its requester; `entries` has no key for a requester in bypass. */
  datatype System = System(domains: map<nat, nat>, entries: map<nat, nat>, nextId: nat, tasks: multiset<Task>)

  datatype Action = Create(sid: nat) | Destroy(id: nat) | Do(task: Task, reply: Reply)

  function Pend(y: System, t: Task): System {
    y.(tasks := y.tasks + multiset{t})
  }

  predicate Listed(domains: map<nat, nat>, sid: nat) {
    exists id :: id in domains && domains[id] == sid
  }

  function Finish(y: System, t: Task, reply: Reply): System {
    match t
    case Attaches(sid, id) =>
      (match reply
       case OutOfRange => y
       case Refused => y.(entries := y.entries - {sid})
       case Done => Pend(y.(entries := y.entries[sid := id]), Enters(sid, id)))
    case Enters(sid, id) => y.(domains := y.domains[id := sid])
    case Detaches(sid) => y.(entries := y.entries - {sid})
  }

  function Act(y: System, a: Action): System {
    match a
    case Create(sid) =>
      if Listed(y.domains, sid) then y else Pend(y, Attaches(sid, y.nextId)).(nextId := y.nextId + 1)
    case Destroy(id) =>
      if id !in y.domains then y else Pend(y, Detaches(y.domains[id])).(domains := y.domains - {id})
    case Do(t, reply) => if t in y.tasks then Finish(y.(tasks := y.tasks - multiset{t}), t, reply) else y
  }

  // ---- Every domain is reached ----

  /** The domain is listed for the requester, or about to be. */
  ghost predicate Holder(y: System, sid: nat, id: nat) {
    (id in y.domains && y.domains[id] == sid) || Enters(sid, id) in y.tasks
  }

  /** The entry of every such requester leads to its domain. */
  ghost predicate Settled(y: System) {
    forall sid, id :: Holder(y, sid, id) ==> sid in y.entries && y.entries[sid] == id
  }

  /** So no requester has two. */
  lemma OneDomain(y: System, sid: nat, a: nat, b: nat)
    requires Settled(y) && Holder(y, sid, a) && Holder(y, sid, b)
    ensures a == b
  {}

  /** An entry is written over while another domain is listed for the requester, or about to be. */
  ghost predicate Clashes(y: System, a: Action) {
    && a.Do? && a.task in y.tasks && !a.task.Enters? && !(a.task.Attaches? && a.reply.OutOfRange?)
    && exists id :: Holder(y, a.task.sid, id) && !(a.task.Attaches? && a.reply.Done? && id == a.task.id)
  }

  lemma HolderBefore(y: System, a: Action, sid: nat, id: nat)
    requires Holder(Act(y, a), sid, id)
    ensures Holder(y, sid, id) || (a.Do? && a.task == Attaches(sid, id) && a.task in y.tasks && a.reply.Done?)
  {}

  lemma HolderAfter(y: System, a: Action, sid: nat, id: nat)
    requires Holder(y, sid, id) && a.Do? && !a.task.Enters?
    ensures Holder(Act(y, a), sid, id)
  {}

  lemma ClashBreaks(y: System, a: Action)
    requires Clashes(y, a)
    ensures !Settled(Act(y, a))
  {
    var id :| Holder(y, a.task.sid, id) && !(a.task.Attaches? && a.reply.Done? && id == a.task.id);
    HolderAfter(y, a, a.task.sid, id);
  }

  /** A step leaves the entry of every domain in place, if and only if it is not a clash. */
  lemma ActSettled(y: System, a: Action)
    requires Settled(y)
    ensures Settled(Act(y, a)) <==> !Clashes(y, a)
  {
    var y' := Act(y, a);
    if Clashes(y, a) {
      ClashBreaks(y, a);
    } else {
      forall sid, id | Holder(y', sid, id) ensures sid in y'.entries && y'.entries[sid] == id {
        HolderBefore(y, a, sid, id);
      }
    }
  }

  ghost function Acts(y: System, actions: seq<Action>): System {
    if actions == [] then y else Act(Acts(y, actions[..|actions| - 1]), actions[|actions| - 1])
  }

  function Start(): System {
    System(map[], map[], 1, multiset{})
  }

  ghost predicate AlwaysSettled(actions: seq<Action>) {
    Settled(Acts(Start(), actions)) && (actions != [] ==> AlwaysSettled(actions[..|actions| - 1]))
  }

  ghost predicate NeverClashes(actions: seq<Action>) {
    actions != [] ==>
      var before := actions[..|actions| - 1];
      NeverClashes(before) && !Clashes(Acts(Start(), before), actions[|actions| - 1])
  }

  /** Over every interleaving of any number of calls. */
  lemma {:induction false} EveryInterleaving(actions: seq<Action>)
    ensures AlwaysSettled(actions) <==> NeverClashes(actions)
  {
    if actions != [] {
      var before, a := actions[..|actions| - 1], actions[|actions| - 1];
      EveryInterleaving(before);
      if AlwaysSettled(before) {
        assert Settled(Acts(Start(), before));
        ActSettled(Acts(Start(), before), a);
      }
    }
  }

  // ---- One call at a time ----

  /** With nothing pending, a whole call that is not interrupted keeps it. */
  lemma CreateAlone(y: System, sid: nat, reply: Reply)
    requires Settled(y) && y.tasks == multiset{} && !Listed(y.domains, sid)
    ensures var y1 := Act(y, Create(sid));
            var y2 := Act(y1, Do(Attaches(sid, y.nextId), reply));
            Settled(y1) && Settled(y2) && Settled(Act(y2, Do(Enters(sid, y.nextId), Done)))
  {
    ActSettled(y, Create(sid));
    var y1 := Act(y, Create(sid));
    assert forall id :: !Holder(y1, sid, id);
    ActSettled(y1, Do(Attaches(sid, y.nextId), reply));
    ActSettled(Act(y1, Do(Attaches(sid, y.nextId), reply)), Do(Enters(sid, y.nextId), Done));
  }

  lemma DestroyAlone(y: System, id: nat)
    requires Settled(y) && y.tasks == multiset{} && id in y.domains
    ensures var y1 := Act(y, Destroy(id)); Settled(y1) && Settled(Act(y1, Do(Detaches(y.domains[id]), Done)))
  {
    var sid, y1 := y.domains[id], Act(y, Destroy(id));
    ActSettled(y, Destroy(id));
    forall other ensures !Holder(y1, sid, other) {
      if Holder(y1, sid, other) { OneDomain(y, sid, id, other); }
    }
    ActSettled(y1, Do(Detaches(sid), Done));
  }

  /** What a whole call does: the domain is listed and its requester's entry leads to it, or neither. */
  lemma CreateExactly(y: System, sid: nat, reply: Reply)
    requires y.tasks == multiset{} && !Listed(y.domains, sid)
    ensures var id := y.nextId;
            var y2 := Act(Act(y, Create(sid)), Do(Attaches(sid, id), reply));
            match reply
            case OutOfRange => y2 == y.(nextId := id + 1)
            case Refused => y2 == y.(nextId := id + 1, entries := y.entries - {sid})
            case Done =>
              Act(y2, Do(Enters(sid, id), Done)) ==
                y.(nextId := id + 1, entries := y.entries[sid := id], domains := y.domains[id := sid])
  {
    var id, y1 := y.nextId, Act(y, Create(sid));
    assert y1.tasks - multiset{Attaches(sid, id)} == multiset{};
    var y2 := Act(y1, Do(Attaches(sid, id), reply));
    if reply.Done? { assert y2.tasks - multiset{Enters(sid, id)} == multiset{}; }
  }

  lemma DestroyExactly(y: System, id: nat)
    requires y.tasks == multiset{} && id in y.domains
    ensures Act(Act(y, Destroy(id)), Do(Detaches(y.domains[id]), Done)) ==
              y.(domains := y.domains - {id}, entries := y.entries - {y.domains[id]})
  {
    assert Act(y, Destroy(id)).tasks - multiset{Detaches(y.domains[id])} == multiset{};
  }

  // ---- Two runs ----

  lemma ActsMore(actions: seq<Action>, a: Action)
    ensures Acts(Start(), actions + [a]) == Act(Acts(Start(), actions), a)
  {
    assert (actions + [a])[..|actions|] == actions;
  }

  lemma DoMore(actions: seq<Action>, y: System, t: Task)
    requires Acts(Start(), actions) == Pend(y, t)
    ensures Acts(Start(), actions + [Do(t, Done)]) == Finish(y, t, Done)
  {
    ActsMore(actions, Do(t, Done));
    assert Pend(y, t).tasks - multiset{t} == y.tasks;
    assert Pend(y, t).(tasks := y.tasks) == y;
  }

  lemma GetFirst(sid: nat) returns (actions: seq<Action>)
    ensures Acts(Start(), actions) == Pend(System(map[], map[], 2, multiset{}), Attaches(sid, 1))
  {
    ActsMore([], Create(sid));
    actions := [] + [Create(sid)];
  }

  lemma GetBoth(sid: nat) returns (actions: seq<Action>)
    ensures Acts(Start(), actions) == Pend(System(map[], map[], 3, multiset{Attaches(sid, 2)}), Attaches(sid, 1))
  {
    actions := GetFirst(sid);
    ActsMore(actions, Create(sid));
    actions := actions + [Create(sid)];
  }

  lemma GetOneIn(sid: nat) returns (actions: seq<Action>)
    ensures Acts(Start(), actions) == System(map[1 := sid], map[sid := 1], 3, multiset{Attaches(sid, 2)})
  {
    actions := GetBoth(sid);
    var y := System(map[], map[], 3, multiset{Attaches(sid, 2)});
    DoMore(actions, y, Attaches(sid, 1));
    actions := actions + [Do(Attaches(sid, 1), Done)];
    DoMore(actions, y.(entries := map[sid := 1]), Enters(sid, 1));
    actions := actions + [Do(Enters(sid, 1), Done)];
  }

  /** Two calls test the requester before either lists its domain: it has two, and its entry leads to one of them. */
  lemma TwoDomains(sid: nat) returns (actions: seq<Action>)
    ensures Acts(Start(), actions) == System(map[1 := sid, 2 := sid], map[sid := 2], 3, multiset{})
  {
    actions := GetOneIn(sid);
    var y := System(map[1 := sid], map[sid := 1], 3, multiset{});
    DoMore(actions, y, Attaches(sid, 2));
    actions := actions + [Do(Attaches(sid, 2), Done)];
    DoMore(actions, y.(entries := map[sid := 2]), Enters(sid, 2));
    actions := actions + [Do(Enters(sid, 2), Done)];
  }

  lemma GetListed(sid: nat) returns (actions: seq<Action>)
    ensures Acts(Start(), actions) == System(map[1 := sid], map[sid := 1], 2, multiset{})
  {
    actions := GetFirst(sid);
    var y := System(map[], map[], 2, multiset{});
    DoMore(actions, y, Attaches(sid, 1));
    actions := actions + [Do(Attaches(sid, 1), Done)];
    DoMore(actions, y.(entries := map[sid := 1]), Enters(sid, 1));
    actions := actions + [Do(Enters(sid, 1), Done)];
  }

  lemma GetReplaced(sid: nat) returns (actions: seq<Action>)
    ensures Acts(Start(), actions) == Pend(System(map[], map[sid := 1], 3, multiset{Detaches(sid)}), Attaches(sid, 2))
  {
    actions := GetListed(sid);
    ActsMore(actions, Destroy(1));
    actions := actions + [Destroy(1)];
    assert map[1 := sid] - {1} == map[];
    ActsMore(actions, Create(sid));
    actions := actions + [Create(sid)];
  }

  lemma GetRelisted(sid: nat) returns (actions: seq<Action>)
    ensures Acts(Start(), actions) == Pend(System(map[2 := sid], map[sid := 2], 3, multiset{}), Detaches(sid))
  {
    actions := GetReplaced(sid);
    var y := System(map[], map[sid := 1], 3, multiset{Detaches(sid)});
    DoMore(actions, y, Attaches(sid, 2));
    actions := actions + [Do(Attaches(sid, 2), Done)];
    assert map[sid := 1][sid := 2] == map[sid := 2];
    DoMore(actions, y.(entries := map[sid := 2]), Enters(sid, 2));
    actions := actions + [Do(Enters(sid, 2), Done)];
  }

  /** A domain is attached between the two sections of a destruction: it is listed, and its requester is in bypass. */
  lemma LeftInBypass(sid: nat) returns (actions: seq<Action>)
    ensures Acts(Start(), actions) == System(map[2 := sid], map[], 3, multiset{})
  {
    actions := GetRelisted(sid);
    DoMore(actions, System(map[2 := sid], map[sid := 2], 3, multiset{}), Detaches(sid));
    actions := actions + [Do(Detaches(sid), Done)];
    assert map[sid := 2] - {sid} == map[];
  }
}
