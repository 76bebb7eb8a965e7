/** The grants of processes that are gone, and the sixteen places of the book. */
module Grants {
  import opened Common
  import opened Ledger
  import opened Sessions

  ghost predicate HasGrant(b: Book, p: nat) {
    exists g :: g in b.grants && g.pid == p
  }

  /** Every grant is one of a process that has a record, or whose hook is still to come. */
  ghost predicate Attached(y: System) {
    forall g :: g in y.book.grants ==> g.pid in y.fields || Hooks(g.pid) in y.tasks
  }

  /** A record goes without the hook while the process has a grant, or a grant is issued after the hook. */
  ghost predicate Detaches(y: System, a: Action) {
    || (a.Drop? && a.pid in y.fields && HasGrant(y.book, a.pid))
    || (a.Do? && a.task.Issues? && a.task in y.tasks && a.task.target !in y.fields && Hooks(a.task.target) !in y.tasks
        && Issue(y.book, a.task.target, a.task.caps, a.task.ttl, a.task.sid, a.now).1.Ok?)
  }

  /** Where the grants of the book come from after a step. */
  lemma GrantsChange(y: System, a: Action, g: Grant)
    requires Sound(y) && g in Act(y, a).book.grants
    ensures || (g in y.book.grants && !(a.Do? && a.task == Hooks(g.pid) && a.task in y.tasks))
            || (a.Do? && a.task.Issues? && a.task in y.tasks && a.task.target == g.pid
                && Issue(y.book, g.pid, a.task.caps, a.task.ttl, a.task.sid, a.now).1.Ok?)
  {
    match a
    case RevokeIt(token) => KeepSome(y.book, NotToken(token));
    case LogIn(c, token, now) => BeginKeeps(y.book, c, token, now);
    case Do(t, now) =>
      if t in y.tasks && t.Hooks? {
        GoneKeeps(y.book, t.pid);
      } else if t in y.tasks && t.Issues? {
        assert TaskOk(y, t);
        IssueKeeps(y.book, t.target, t.caps, t.ttl, t.sid, now);
      }
    case _ =>
  }

  lemma DetachedBy(y: System, a: Action)
    requires Sound(y) && Detaches(y, a)
    ensures !Attached(Act(y, a))
  {
    var y' := Act(y, a);
    if a.Drop? {
      NoHookYet(y, a.pid);
      var g :| g in y.book.grants && g.pid == a.pid;
      assert g in y'.book.grants;
    } else {
      var t := a.task;
      assert TaskOk(y, t);
      IssueKeeps(y.book, t.target, t.caps, t.ttl, t.sid, a.now);
      var g :| g in y'.book.grants && g.pid == t.target;
      HooksChange(y, a, t.target);
    }
  }

  /** A step leaves every grant with its process, if and only if it is neither of these. */
  lemma ActAttached(y: System, a: Action)
    requires Sound(y) && Attached(y)
    ensures Attached(Act(y, a)) <==> !Detaches(y, a)
  {
    var y' := Act(y, a);
    if Detaches(y, a) {
      DetachedBy(y, a);
    } else {
      forall g | g in y'.book.grants ensures g.pid in y'.fields || Hooks(g.pid) in y'.tasks {
        GrantsChange(y, a, g);
        RecordsChange(y, a, g.pid);
        HooksChange(y, a, g.pid);
      }
    }
  }

  ghost predicate AlwaysAttached(actions: seq<Action>) {
    Attached(Acts(Start(), actions)) && (actions != [] ==> AlwaysAttached(actions[..|actions| - 1]))
  }

  ghost predicate NeverDetaches(actions: seq<Action>) {
    actions != [] ==>
      var before := actions[..|actions| - 1];
      NeverDetaches(before) && !Detaches(Acts(Start(), before), actions[|actions| - 1])
  }

  /** Over every interleaving from an empty book. */
  lemma {:induction false} EveryGrant(actions: seq<Action>)
    ensures AlwaysAttached(actions) <==> NeverDetaches(actions)
  {
    if actions != [] {
      var before, a := actions[..|actions| - 1], actions[|actions| - 1];
      EveryGrant(before);
      EveryInterleaving(before);
      if AlwaysAttached(before) {
        assert Attached(Acts(Start(), before));
        ActAttached(Acts(Start(), before), a);
      }
    }
  }

  // ---- A grant without its process stays ----

  /** The process is gone for good, and the grant neither expires nor is bound to a session. */
  ghost predicate Ownerless(y: System, g: Grant) {
    && g in y.book.grants && g.expiresAt == NEVER && g.session == 0
    && Departed(y, g.pid) && Hooks(g.pid) !in y.tasks
  }

  /** Before the end of time, and not that token's revocation. */
  predicate Ordinary(a: Action, token: nat) {
    (a.Do? ==> a.now < NEVER) && a != RevokeIt(token)
  }

  lemma PurgeLeaves(b: Book, sid: nat, g: Grant)
    requires g in b.grants && g.session == 0
    ensures g in Purge(b, sid).grants
  {
    FilterHas(b.grants, NotBound(sid), g);
  }

  lemma IssueLeaves(b: Book, g: Grant, target: nat, caps: set<nat>, ttl: nat, session: nat, now: nat)
    requires g in b.grants && now < g.expiresAt
    ensures g in Issue(b, target, caps, ttl, session, now).0.grants
  {
    FilterHas(b.grants, Unexpired(now), g);
  }

  lemma GoneLeaves(b: Book, g: Grant, pid: nat)
    requires g in b.grants && g.session == 0 && g.pid != pid
    ensures g in Gone(b, pid).0.grants
  {
    FilterHas(b.grants, NotOf(pid), g);
    var led := LedBy(b.sessions, pid);
    if led.Some? { PurgeLeaves(b.(grants := Filter(b.grants, NotOf(pid))), led.value.id, g); }
  }

  lemma BeginLeaves(b: Book, g: Grant, caller: nat, token: nat, now: nat)
    requires g in b.grants && g.session == 0 && g.pid != caller
    ensures g in Begin(b, caller, token, now).0.grants
  {
    if Begin(b, caller, token, now).1.Ok? {
      var i := TokenGrant(b.grants, token).value;
      var gs := b.grants[..i] + b.grants[i + 1..];
      var k :| 0 <= k < |b.grants| && b.grants[k] == g;
      assert gs[if k < i then k else k - 1] == g;
      var led := LedBy(b.sessions, caller);
      if led.Some? { PurgeLeaves(b.(grants := gs), led.value.id, g); }
    }
  }

  lemma OwnerlessBook(y: System, a: Action, g: Grant)
    requires Sound(y) && Ownerless(y, g) && Ordinary(a, g.token)
    ensures g in Act(y, a).book.grants
  {
    match a
    case RevokeIt(token) => FilterHas(y.book.grants, NotToken(token), g);
    case LogIn(c, token, now) => if c in y.fields { BeginLeaves(y.book, g, c, token, now); }
    case Do(t, now) =>
      if t in y.tasks && t.Hooks? {
        GoneLeaves(y.book, g, t.pid);
      } else if t in y.tasks && t.Issues? {
        IssueLeaves(y.book, g, t.target, t.caps, t.ttl, t.sid, now);
      }
    case _ =>
  }

  lemma OwnerlessStays(y: System, a: Action, g: Grant)
    requires Sound(y) && Ownerless(y, g) && Ordinary(a, g.token)
    ensures Ownerless(Act(y, a), g)
  {
    OwnerlessBook(y, a, g);
    RecordsChange(y, a, g.pid);
    HooksChange(y, a, g.pid);
  }

  /** It has its place in the book until it is revoked. */
  lemma {:induction false} OwnerlessForGood(y: System, actions: seq<Action>, g: Grant)
    requires Sound(y) && Ownerless(y, g) && forall a :: a in actions ==> Ordinary(a, g.token)
    ensures Sound(Acts(y, actions)) && Ownerless(Acts(y, actions), g)
  {
    if actions != [] {
      var before, a := actions[..|actions| - 1], actions[|actions| - 1];
      OwnerlessForGood(y, before, g);
      ActSound(Acts(y, before), a);
      OwnerlessStays(Acts(y, before), a, g);
    }
  }

  // ---- The book fills up ----

  /** All sixteen places are taken by grants without a process. */
  ghost predicate Clogged(y: System) {
    |y.book.grants| == MAX_GRANTS && forall g :: g in y.book.grants ==> Ownerless(y, g)
  }

  lemma {:induction false} AllKept<T>(s: seq<T>, keep: T -> bool)
    requires forall x :: x in s ==> keep(x)
    ensures Filter(s, keep) == s
  {
    if s != [] {
      var front, last := s[..|s| - 1], s[|s| - 1];
      assert last in s && forall x :: x in front ==> x in s;
      AllKept(front, keep);
      assert front + [last] == s;
    }
  }

  lemma CloggedRefuses(y: System, target: nat, caps: set<nat>, ttl: nat, session: nat, now: nat)
    requires Clogged(y) && now < NEVER
    ensures Issue(y.book, target, caps, ttl, session, now) ==
              (y.book, Err(if caps == {} || CAP_ISSUER in caps then InvalidScope else GrantsFull))
  {
    AllKept(y.book.grants, Unexpired(now));
  }

  lemma CloggedGone(y: System, pid: nat)
    requires Clogged(y) && Hooks(pid) in y.tasks
    ensures Gone(y.book, pid).0.grants == y.book.grants
  {
    AllKept(y.book.grants, NotOf(pid));
    var led := LedBy(y.book.sessions, pid);
    if led.Some? && led.value.id != 0 { AllKept(y.book.grants, NotBound(led.value.id)); }
  }

  lemma CloggedLogIn(y: System, c: nat, token: nat, now: nat)
    requires Clogged(y) && c in y.fields
    ensures Begin(y.book, c, token, now).1.Err?
  {
    var i := TokenGrant(y.book.grants, token);
    if i.Some? { assert Ownerless(y, y.book.grants[i.value]); }
  }

  lemma CloggedGrants(y: System, a: Action)
    requires Clogged(y) && !a.RevokeIt? && (a.Do? ==> a.now < NEVER)
    ensures Act(y, a).book.grants == y.book.grants
  {
    match a
    case LogIn(c, token, now) => if c in y.fields { CloggedLogIn(y, c, token, now); }
    case Do(t, now) =>
      if t in y.tasks && t.Hooks? {
        CloggedGone(y, t.pid);
      } else if t in y.tasks && t.Issues? {
        CloggedRefuses(y, t.target, t.caps, t.ttl, t.sid, now);
      }
    case _ =>
  }

  lemma CloggedStep(y: System, a: Action)
    requires Sound(y) && Clogged(y) && !a.RevokeIt? && (a.Do? ==> a.now < NEVER)
    ensures Clogged(Act(y, a))
  {
    CloggedGrants(y, a);
    forall g | g in y.book.grants ensures Ownerless(Act(y, a), g) { OwnerlessStays(y, a, g); }
  }

  /** No grant is ever issued again, unless one is revoked. */
  lemma {:induction false} CloggedForGood(y: System, actions: seq<Action>)
    requires Sound(y) && Clogged(y) && forall a :: a in actions ==> !a.RevokeIt? && (a.Do? ==> a.now < NEVER)
    ensures Sound(Acts(y, actions)) && Clogged(Acts(y, actions))
  {
    if actions != [] {
      var before, a := actions[..|actions| - 1], actions[|actions| - 1];
      CloggedForGood(y, before);
      ActSound(Acts(y, before), a);
      CloggedStep(Acts(y, before), a);
    }
  }

  // ---- A run that gets there ----

  /** Process 1 has `n` grants that never expire, and nothing is pending. */
  ghost predicate Hoards(y: System, n: nat) {
    && y.fields == map[1 := 0] && 1 in y.used && y.unborn == {} && y.tasks == multiset{} && |y.book.grants| == n
    && forall g :: g in y.book.grants ==> g.pid == 1 && g.session == 0 && g.expiresAt == NEVER
  }

  const PLAIN: set<nat> := {0}

  lemma OneMoreGrant(y: System, n: nat)
    requires Hoards(y, n) && n < MAX_GRANTS
    ensures Issue(y.book, 1, PLAIN, 0, 0, 0).1.Ok?
    ensures Hoards(y.(book := Issue(y.book, 1, PLAIN, 0, 0, 0).0), n + 1)
  {
    AllKept(y.book.grants, Unexpired(0));
    assert 0 in PLAIN && CAP_ISSUER !in PLAIN;
  }

  lemma GetOneMore(actions: seq<Action>, y: System, n: nat) returns (actions': seq<Action>, y': System)
    requires Acts(Start(), actions) == y && Hoards(y, n) && n < MAX_GRANTS
    ensures Acts(Start(), actions') == y' && Hoards(y', n + 1)
  {
    OneMoreGrant(y, n);
    ActsMore(Start(), actions, LookUp(1, PLAIN, 0));
    actions' := actions + [LookUp(1, PLAIN, 0)];
    DoMore(Start(), actions', y, Finds(1, PLAIN, 0));
    actions' := actions' + [Do(Finds(1, PLAIN, 0), 0)];
    DoMore(Start(), actions', y, Issues(1, 0, PLAIN, 0));
    actions' := actions' + [Do(Issues(1, 0, PLAIN, 0), 0)];
    y' := y.(book := Issue(y.book, 1, PLAIN, 0, 0, 0).0);
  }

  lemma {:induction false} GetHoard(n: nat) returns (actions: seq<Action>, y: System)
    requires n <= MAX_GRANTS
    ensures Acts(Start(), actions) == y && Hoards(y, n)
  {
    if n == 0 {
      actions := GetCreated();
      y := Acts(Start(), actions);
    } else {
      actions, y := GetHoard(n - 1);
      actions, y := GetOneMore(actions, y, n - 1);
    }
  }

  /** A process is given sixteen grants, and its exit status is delivered: the record goes without the hook. */
  lemma BookLost() returns (actions: seq<Action>)
    ensures Sound(Acts(Start(), actions)) && Clogged(Acts(Start(), actions))
  {
    var y;
    actions, y := GetHoard(MAX_GRANTS);
    ActsMore(Start(), actions, Drop(1));
    actions := actions + [Drop(1)];
    EveryInterleaving(actions);
  }
}
