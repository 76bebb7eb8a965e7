/**
 * The session fields of the processes together with the ledger: `microkernel/src/security.rs` and its callers in
 * `process.rs` and `syscalls.rs`. The process table and the book have locks of their own, and no call holds both.
 * Each locked section is one step, and what a call still has to do after it is a pending task.
 */
module Sessions {
  import opened Common
  import opened Ledger

  datatype Task =
    | Forks(child: nat, sid: nat)               // the parent's record was read, the child's is to be inserted
    | Inherits(child: nat, sid: nat)            // a spawner's session was read, the child's is to be set
    | Finds(target: nat, caps: set<nat>, ttl: nat)             // `issue_grant` found the target,
    | Issues(target: nat, sid: nat, caps: set<nat>, ttl: nat)  //   and has read its session
    | Ends(dead: nat, keep: nat, next: Option<nat>)  // the session ended in the book, its members are to be cleared,
    | Enters(caller: nat, sid: nat)                  //   and the caller's field is to be set to its new session
    | Hooks(pid: nat)                           // the record was taken out, `on_process_gone` is to come

  /**
   * `fields` maps each process that has a record to its session field; `unborn` are the pids allocated for records
   * still to be inserted, `used` all pids so far; `started` lists the tokens that began a session.
   */
  datatype System = System(
    book: Book, fields: map<nat, nat>, unborn: set<nat>, used: set<nat>, started: seq<(nat, nat)>,
    tasks: multiset<Task>)

  datatype Action =
    | Create(child: nat) | ForkFrom(parent: nat, child: nat) | SpawnFrom(parent: nat, child: nat)
    | LookUp(target: nat, caps: set<nat>, ttl: nat) | RevokeIt(token: nat) | LogIn(caller: nat, token: nat, now: nat)
    | Remove(pid: nat) | Drop(pid: nat) | Do(task: Task, now: nat)

  function Pend(y: System, t: Task): System {
    y.(tasks := y.tasks + multiset{t})
  }

  /** `set_session`; a process without a record is skipped. */
  function Written(y: System, p: nat, sid: nat): System {
    if p in y.fields then y.(fields := y.fields[p := sid]) else y
  }

  /** `clear_session_members` */
  function Cleared(fields: map<nat, nat>, sid: nat, keep: nat): map<nat, nat> {
    map p | p in fields :: if fields[p] == sid && p != keep then 0 else fields[p]
  }

  /** The section that a pending task comes to. */
  function Finish(y: System, t: Task, now: nat): System {
    match t
    case Forks(c, sid) => if c in y.unborn then y.(fields := y.fields[c := sid], unborn := y.unborn - {c}) else y
    case Inherits(c, sid) => Written(y, c, sid)
    case Finds(p, caps, ttl) => Pend(y, Issues(p, if p in y.fields then y.fields[p] else 0, caps, ttl))
    case Issues(p, sid, caps, ttl) => y.(book := Issue(y.book, p, caps, ttl, sid, now).0)
    case Ends(d, keep, next) =>
      var y1 := y.(fields := Cleared(y.fields, d, keep));
      if next.Some? then Pend(y1, Enters(keep, next.value)) else y1
    case Enters(c, sid) => Written(y, c, sid)
    case Hooks(p) =>
      var (b, dead) := Gone(y.book, p);
      if dead.Some? then Pend(y.(book := b), Ends(dead.value, p, None)) else y.(book := b)
  }

  /** `Remove` is followed by the hook; `Drop` takes a record out without it. */
  function Act(y: System, a: Action): System {
    match a
    case Create(c) => if c in y.used then y else y.(fields := y.fields[c := 0], used := y.used + {c})
    case ForkFrom(p, c) =>
      if p !in y.fields || c in y.used then y
      else Pend(y, Forks(c, y.fields[p])).(unborn := y.unborn + {c}, used := y.used + {c})
    case SpawnFrom(p, c) => if p !in y.fields || y.fields[p] == 0 then y else Pend(y, Inherits(c, y.fields[p]))
    case LookUp(p, caps, ttl) => if p in y.fields then Pend(y, Finds(p, caps, ttl)) else y
    case RevokeIt(token) => y.(book := Revoke(y.book, token))
    case LogIn(c, token, now) =>
      var (b, r) := Begin(y.book, c, token, now);
      if c !in y.fields || r.Err? then y
      else
        Pend(y, if r.value.1.Some? then Ends(r.value.1.value, c, Some(r.value.0)) else Enters(c, r.value.0)).(
          book := b, started := y.started + [(token, r.value.0)])
    case Remove(p) => if p in y.fields then Pend(y, Hooks(p)).(fields := y.fields - {p}) else y
    case Drop(p) => y.(fields := y.fields - {p})
    case Do(t, now) => if t in y.tasks then Finish(y.(tasks := y.tasks - multiset{t}), t, now) else y
  }

  // ---- Whole calls ----

  lemma Undone(y: System, t: Task)
    ensures Pend(y, t).(tasks := Pend(y, t).tasks - multiset{t}) == y
    ensures t in Pend(y, t).tasks
  {
    assert Pend(y, t).tasks - multiset{t} == y.tasks;
  }

  /** The pending task is taken up next. */
  lemma DoNext(y: System, t: Task, now: nat)
    ensures Act(Pend(y, t), Do(t, now)) == Finish(y, t, now)
  {
    Undone(y, t);
  }

  /** The fields after a login: the caller's is the new session, those of the session it led before are cleared. */
  ghost predicate FieldsAfter(fields: map<nat, nat>, fields': map<nat, nat>, caller: nat, sid: nat, dead: Option<nat>) {
    && fields'.Keys == fields.Keys && caller in fields && fields'[caller] == sid
    && forall p :: p in fields && p != caller ==>
         fields'[p] == if dead == Some(fields[p]) then 0 else fields[p]
  }

  /** A login without interruption. */
  lemma LogInAlone(y: System, c: nat, token: nat, now: nat)
    requires c in y.fields && Begin(y.book, c, token, now).1.Ok?
    ensures var (b, r) := Begin(y.book, c, token, now);
            var (sid, dead) := r.value;
            var y1 := Act(y, LogIn(c, token, now));
            var y2 := if dead.Some? then Act(y1, Do(Ends(dead.value, c, Some(sid)), now)) else y1;
            var y3 := Act(y2, Do(Enters(c, sid), now));
            && y3 == y.(book := b, started := y.started + [(token, sid)], fields := y3.fields)
            && FieldsAfter(y.fields, y3.fields, c, sid, dead)
  {
    var (b, r) := Begin(y.book, c, token, now);
    var (sid, dead) := r.value;
    var y0 := y.(book := b, started := y.started + [(token, sid)]);
    if dead.Some? {
      DoNext(y0, Ends(dead.value, c, Some(sid)), now);
      DoNext(y0.(fields := Cleared(y.fields, dead.value, c)), Enters(c, sid), now);
    } else {
      DoNext(y0, Enters(c, sid), now);
    }
  }

  /** A departure without interruption: the record, the grants and the session it led go, with its members' fields. */
  lemma RemoveAlone(y: System, p: nat, now: nat)
    requires p in y.fields
    ensures var (b, dead) := Gone(y.book, p);
            var y1 := Act(Act(y, Remove(p)), Do(Hooks(p), now));
            var y2 := if dead.Some? then Act(y1, Do(Ends(dead.value, p, None), now)) else y1;
            && y2 == y.(book := b, fields := y2.fields) && y2.fields.Keys == y.fields.Keys - {p}
            && forall q :: q in y2.fields ==> y2.fields[q] == if dead == Some(y.fields[q]) then 0 else y.fields[q]
  {
    var (b, dead) := Gone(y.book, p);
    var y0 := y.(fields := y.fields - {p});
    DoNext(y0, Hooks(p), now);
    if dead.Some? { DoNext(y0.(book := b), Ends(dead.value, p, None), now); }
  }

  /** A grant without interruption: it is bound to the session that the target is in. */
  lemma GrantAlone(y: System, p: nat, caps: set<nat>, ttl: nat, now: nat)
    requires p in y.fields
    ensures var y1 := Act(Act(y, LookUp(p, caps, ttl)), Do(Finds(p, caps, ttl), now));
            Act(y1, Do(Issues(p, y.fields[p], caps, ttl), now)) ==
            y.(book := Issue(y.book, p, caps, ttl, y.fields[p], now).0)
  {
    DoNext(y, Finds(p, caps, ttl), now);
    DoNext(y, Issues(p, y.fields[p], caps, ttl), now);
  }

  /** A fork or a spawn without interruption: the child is in its parent's session. */
  lemma ChildAlone(y: System, p: nat, c: nat, now: nat)
    requires p in y.fields && c !in y.used && p != c && y.fields[p] != 0
    ensures Act(Act(y, ForkFrom(p, c)), Do(Forks(c, y.fields[p]), now)) ==
              y.(fields := y.fields[c := y.fields[p]], used := y.used + {c}, unborn := y.unborn - {c})
    ensures Act(Act(Act(y, Create(c)), SpawnFrom(p, c)), Do(Inherits(c, y.fields[p]), now)) ==
              y.(fields := y.fields[c := y.fields[p]], used := y.used + {c})
  {
    var y0 := y.(unborn := y.unborn + {c}, used := y.used + {c});
    assert Act(y, ForkFrom(p, c)) == Pend(y0, Forks(c, y.fields[p]));
    DoNext(y0, Forks(c, y.fields[p]), now);
    assert y.unborn + {c} - {c} == y.unborn - {c};
    var y1 := y.(fields := y.fields[c := 0], used := y.used + {c});
    DoNext(y1, Inherits(c, y.fields[p]), now);
    assert y.fields[c := 0][c := y.fields[p]] == y.fields[c := y.fields[p]];
  }

  // ---- What every interleaving keeps ----

  /** Each token started at most one session, and none that did is still in the book. */
  ghost predicate Spent(b: Book, started: seq<(nat, nat)>) {
    && DistinctBy(started, UsedToken)
    && forall u :: u in started ==> u.0 < b.nextToken && forall g :: g in b.grants ==> g.token != u.0
  }

  ghost predicate PidsOk(y: System) {
    && y.fields.Keys <= y.used && y.unborn <= y.used && y.fields.Keys !! y.unborn
    && (forall p :: p in y.fields ==> y.fields[p] < y.book.nextSession)
    && (forall s :: s in y.book.sessions ==> s.leader in y.used)
  }

  /** The process had a record and has none any more. */
  predicate Departed(y: System, p: nat) {
    p in y.used && p !in y.fields && p !in y.unborn
  }

  ghost predicate TaskOk(y: System, t: Task) {
    match t
    case Forks(c, sid) => c in y.used && sid < y.book.nextSession
    case Inherits(_, sid) => sid < y.book.nextSession
    case Finds(_, _, _) => true
    case Issues(_, sid, _, _) => sid < y.book.nextSession
    case Ends(d, keep, next) =>
      && 1 <= d < y.book.nextSession && !Live(y.book.sessions, d)
      && (if next.Some? then next.value < y.book.nextSession else Departed(y, keep))
    case Enters(_, sid) => sid < y.book.nextSession
    case Hooks(p) => Departed(y, p)
  }

  ghost predicate Sound(y: System) {
    BookOk(y.book) && Spent(y.book, y.started) && PidsOk(y) && forall t :: t in y.tasks ==> TaskOk(y, t)
  }

  /** What no step takes back: session numbers and pids are not used again. */
  ghost predicate Onward(y: System, y': System) {
    && y.book.nextSession <= y'.book.nextSession && y.used <= y'.used
    && (forall x: nat :: x < y.book.nextSession && Live(y'.book.sessions, x) ==> Live(y.book.sessions, x))
    && (forall p :: Departed(y, p) ==> Departed(y', p))
  }

  lemma OnwardTasks(y: System, y': System, more: multiset<Task>)
    requires Onward(y, y') && (forall t :: t in y.tasks ==> TaskOk(y, t))
    requires y'.tasks <= y.tasks + more && forall t :: t in more ==> TaskOk(y', t)
    ensures forall t :: t in y'.tasks ==> TaskOk(y', t)
  {
    forall t | t in y'.tasks ensures TaskOk(y', t) {
      if t in y.tasks { assert TaskOk(y, t); }
    }
  }

  /** Steps in the process table. */
  lemma TableSound(y: System, a: Action)
    requires Sound(y) && (a.Create? || a.ForkFrom? || a.SpawnFrom? || a.LookUp? || a.Remove? || a.Drop?)
    ensures Sound(Act(y, a))
  {
    var y' := Act(y, a);
    if y'.tasks == y.tasks {
      OnwardTasks(y, y', multiset{});
    } else {
      var t := if a.ForkFrom? then Forks(a.child, y.fields[a.parent])
               else if a.SpawnFrom? then Inherits(a.child, y.fields[a.parent])
               else if a.LookUp? then Finds(a.target, a.caps, a.ttl) else Hooks(a.pid);
      OnwardTasks(y, y', multiset{t});
    }
  }

  /** The book changes without a new session. */
  lemma BookSound(y: System, y': System, more: multiset<Task>)
    requires Sound(y) && BookOk(y'.book) && y'.started == y.started
    requires y'.fields == y.fields && y'.unborn == y.unborn && y'.used == y.used
    requires y'.book.nextSession == y.book.nextSession && y.book.nextToken <= y'.book.nextToken
    requires forall g :: g in y'.book.grants ==> g in y.book.grants || g.token == y.book.nextToken
    requires forall s :: s in y'.book.sessions ==> s in y.book.sessions
    requires y'.tasks <= y.tasks + more && forall t :: t in more ==> TaskOk(y', t)
    ensures Sound(y')
  {
    OnwardTasks(y, y', more);
  }

  lemma RevokeSound(y: System, token: nat)
    requires Sound(y)
    ensures Sound(Act(y, RevokeIt(token)))
  {
    KeepSome(y.book, NotToken(token));
    BookSound(y, Act(y, RevokeIt(token)), multiset{});
  }

  lemma SpentOnceMore(b: Book, b': Book, started: seq<(nat, nat)>, token: nat, sid: nat)
    requires Spent(b, started) && b'.nextToken == b.nextToken && token < b.nextToken
    requires forall g :: g in b'.grants ==> g in b.grants && g.token != token
    requires exists g :: g in b.grants && g.token == token
    ensures Spent(b', started + [(token, sid)])
  {
    var started' := started + [(token, sid)];
    forall i, j | 0 <= i < j < |started'| ensures UsedToken(started'[i]) != UsedToken(started'[j]) {
      if j < |started| {
        assert UsedToken(started[i]) != UsedToken(started[j]);
      } else {
        assert started[i] in started;
      }
    }
  }

  lemma LogInSound(y: System, c: nat, token: nat, now: nat)
    requires Sound(y)
    ensures Sound(Act(y, LogIn(c, token, now)))
  {
    var r := Begin(y.book, c, token, now).1;
    if c in y.fields && r.Ok? {
      BeginKeeps(y.book, c, token, now);
      var y' := Act(y, LogIn(c, token, now));
      var g :| g in y.book.grants && g.token == token;
      assert GrantOk(g, y.book);
      SpentOnceMore(y.book, y'.book, y.started, token, r.value.0);
      OnwardTasks(y, y',
        multiset{if r.value.1.Some? then Ends(r.value.1.value, c, Some(r.value.0)) else Enters(c, r.value.0)});
    }
  }

  lemma ForksSound(y: System, t: Task, now: nat)
    requires Sound(y) && t in y.tasks && t.Forks?
    ensures Sound(Act(y, Do(t, now)))
  {
    assert TaskOk(y, t);
    OnwardTasks(y, Act(y, Do(t, now)), multiset{});
  }

  lemma WritesSound(y: System, t: Task, now: nat)
    requires Sound(y) && t in y.tasks && (t.Inherits? || t.Enters?)
    ensures Sound(Act(y, Do(t, now)))
  {
    assert TaskOk(y, t);
    var y' := Act(y, Do(t, now));
    assert y'.fields.Keys == y.fields.Keys;
    OnwardTasks(y, y', multiset{});
  }

  lemma FindsSound(y: System, t: Task, now: nat)
    requires Sound(y) && t in y.tasks && t.Finds?
    ensures Sound(Act(y, Do(t, now)))
  {
    var sid := if t.target in y.fields then y.fields[t.target] else 0;
    OnwardTasks(y, Act(y, Do(t, now)), multiset{Issues(t.target, sid, t.caps, t.ttl)});
  }

  lemma EndsSound(y: System, t: Task, now: nat)
    requires Sound(y) && t in y.tasks && t.Ends?
    ensures Sound(Act(y, Do(t, now)))
  {
    assert TaskOk(y, t);
    var y' := Act(y, Do(t, now));
    assert y'.fields.Keys == y.fields.Keys;
    if t.next.Some? {
      OnwardTasks(y, y', multiset{Enters(t.keep, t.next.value)});
    } else {
      OnwardTasks(y, y', multiset{});
    }
  }

  lemma IssuesSound(y: System, t: Task, now: nat)
    requires Sound(y) && t in y.tasks && t.Issues?
    ensures Sound(Act(y, Do(t, now)))
  {
    assert TaskOk(y, t);
    IssueKeeps(y.book, t.target, t.caps, t.ttl, t.sid, now);
    BookSound(y, Act(y, Do(t, now)), multiset{});
  }

  lemma PendSound(y: System, t: Task)
    requires Sound(y) && TaskOk(y, t)
    ensures Sound(Pend(y, t))
  {
    OnwardTasks(y, Pend(y, t), multiset{t});
  }

  lemma HooksSound(y: System, t: Task, now: nat)
    requires Sound(y) && t in y.tasks && t.Hooks?
    ensures Sound(Act(y, Do(t, now)))
  {
    assert TaskOk(y, t);
    GoneKeeps(y.book, t.pid);
    var (b, dead) := Gone(y.book, t.pid);
    var y1 := y.(book := b, tasks := y.tasks - multiset{t});
    BookSound(y, y1, multiset{});
    if dead.Some? { PendSound(y1, Ends(dead.value, t.pid, None)); }
  }

  /** Tokens begin one session each, leaders lead one each, and nobody gains the right to issue: after every step. */
  lemma ActSound(y: System, a: Action)
    requires Sound(y)
    ensures Sound(Act(y, a))
  {
    match a
    case RevokeIt(token) => RevokeSound(y, token);
    case LogIn(c, token, now) => LogInSound(y, c, token, now);
    case Do(t, now) =>
      if t in y.tasks {
        match t
        case Forks(_, _) => ForksSound(y, t, now);
        case Finds(_, _, _) => FindsSound(y, t, now);
        case Issues(_, _, _, _) => IssuesSound(y, t, now);
        case Ends(_, _, _) => EndsSound(y, t, now);
        case Hooks(_) => HooksSound(y, t, now);
        case _ => WritesSound(y, t, now);
      }
    case _ => TableSound(y, a);
  }

  // ---- Live sessions ----

  /** The task will still rewrite the field of `p` while it holds `sid`. */
  predicate Rewrites(t: Task, p: nat, sid: nat) {
    match t
    case Ends(d, keep, next) => if keep == p then next.Some? else d == sid
    case Enters(c, _) => c == p
    case _ => false
  }

  ghost predicate Due(tasks: multiset<Task>, p: nat, sid: nat) {
    exists t :: t in tasks && Rewrites(t, p, sid)
  }

  ghost predicate FieldOk(y: System, p: nat, sid: nat) {
    sid == 0 || Live(y.book.sessions, sid) || Due(y.tasks, p, sid)
  }

  /** Every bound grant names a live session, and so does every field that is not about to be rewritten. */
  ghost predicate Settled(y: System) {
    Bound(y.book) && forall p :: p in y.fields ==> FieldOk(y, p, y.fields[p])
  }

  /** The step writes a session number that was read before, and that session has ended and been cleared since. */
  ghost predicate StaleWrite(y: System, a: Action) {
    && a.Do? && a.task in y.tasks
    && var rest := y.(tasks := y.tasks - multiset{a.task});
       match a.task
       case Forks(c, sid) => c in y.unborn && !FieldOk(rest, c, sid)
       case Inherits(c, sid) => c in y.fields && !FieldOk(rest, c, sid)
       case Enters(c, sid) => c in y.fields && !FieldOk(rest, c, sid)
       case Issues(p, sid, caps, ttl) =>
         Issue(y.book, p, caps, ttl, sid, a.now).1.Ok? && sid != 0 && !Live(y.book.sessions, sid)
       case _ => false
  }

  lemma DueMore(tasks: multiset<Task>, tasks': multiset<Task>, p: nat, sid: nat)
    requires Due(tasks, p, sid) && forall t :: t in tasks && Rewrites(t, p, sid) ==> t in tasks'
    ensures Due(tasks', p, sid)
  {
    var t :| t in tasks && Rewrites(t, p, sid);
    assert t in tasks';
  }

  /** Nothing is written and no session ends. */
  lemma QuietSettled(y: System, y': System)
    requires Settled(y) && Bound(y'.book)
             && (forall p :: p in y'.fields ==> p in y.fields && y'.fields[p] == y.fields[p])
    requires forall x: nat :: Live(y.book.sessions, x) ==> Live(y'.book.sessions, x)
    requires forall t :: t in y.tasks && (t.Ends? || t.Enters?) ==> t in y'.tasks
    ensures Settled(y')
  {
    forall p | p in y'.fields ensures FieldOk(y', p, y'.fields[p]) {
      assert FieldOk(y, p, y.fields[p]);
      if Due(y.tasks, p, y.fields[p]) { DueMore(y.tasks, y'.tasks, p, y.fields[p]); }
    }
  }

  lemma TableSettled(y: System, a: Action)
    requires Sound(y) && Settled(y) && (a.Create? || a.ForkFrom? || a.SpawnFrom? || a.LookUp? || a.Remove? || a.Drop?)
    ensures Settled(Act(y, a))
  {
    var y' := Act(y, a);
    if a.Create? && a.child !in y.used {
      QuietSettled(y, y'.(fields := y.fields));
      forall p | p in y'.fields ensures FieldOk(y', p, y'.fields[p]) {
        if p != a.child { assert FieldOk(y'.(fields := y.fields), p, y.fields[p]); }
      }
    } else {
      QuietSettled(y, y');
    }
  }

  lemma RevokeSettled(y: System, token: nat)
    requires Sound(y) && Settled(y)
    ensures Settled(Act(y, RevokeIt(token)))
  {
    KeepSome(y.book, NotToken(token));
    QuietSettled(y, Act(y, RevokeIt(token)));
  }

  /** A session that ends leaves a task that clears its members. */
  lemma EndedSettled(y: System, y': System, dead: nat, t: Task)
    requires Settled(y) && Bound(y'.book) && y'.fields == y.fields && y.tasks <= y'.tasks && t in y'.tasks
    requires forall x: nat :: Live(y.book.sessions, x) && x != dead ==> Live(y'.book.sessions, x)
    requires t.Ends? && t.dead == dead && (t.keep in y.fields ==> t.next.Some?)
    ensures Settled(y')
  {
    forall p | p in y'.fields ensures FieldOk(y', p, y'.fields[p]) {
      assert FieldOk(y, p, y.fields[p]);
      if Due(y.tasks, p, y.fields[p]) {
        DueMore(y.tasks, y'.tasks, p, y.fields[p]);
      } else if y.fields[p] == dead {
        assert Rewrites(t, p, dead);
      }
    }
  }

  lemma LogInSettled(y: System, c: nat, token: nat, now: nat)
    requires Sound(y) && Settled(y)
    ensures Settled(Act(y, LogIn(c, token, now)))
  {
    var r, y' := Begin(y.book, c, token, now).1, Act(y, LogIn(c, token, now));
    BeginKeeps(y.book, c, token, now);
    if c in y.fields && r.Ok? {
      if r.value.1.Some? {
        EndedSettled(y, y', r.value.1.value, Ends(r.value.1.value, c, Some(r.value.0)));
      } else {
        QuietSettled(y, y');
      }
    }
  }

  lemma HooksSettled(y: System, t: Task, now: nat)
    requires Sound(y) && Settled(y) && t in y.tasks && t.Hooks?
    ensures Settled(Act(y, Do(t, now)))
  {
    assert TaskOk(y, t);
    GoneKeeps(y.book, t.pid);
    var y1, y', dead := y.(tasks := y.tasks - multiset{t}), Act(y, Do(t, now)), Gone(y.book, t.pid).1;
    QuietSettled(y, y1);
    if dead.Some? {
      EndedSettled(y1, y', dead.value, Ends(dead.value, t.pid, None));
    } else {
      QuietSettled(y1, y');
    }
  }

  /** Clearing the members of a session that ended. */
  lemma EndsSettled(y: System, t: Task, now: nat)
    requires Sound(y) && Settled(y) && t in y.tasks && t.Ends?
    ensures Settled(Act(y, Do(t, now)))
  {
    assert TaskOk(y, t);
    var y' := Act(y, Do(t, now));
    forall p | p in y'.fields ensures FieldOk(y', p, y'.fields[p]) {
      assert FieldOk(y, p, y.fields[p]);
      if p == t.keep {
        assert Enters(p, t.next.value) in y'.tasks;
        assert Rewrites(Enters(p, t.next.value), p, y'.fields[p]);
      } else if y.fields[p] != t.dead && Due(y.tasks, p, y.fields[p]) {
        DueMore(y.tasks, y'.tasks, p, y.fields[p]);
      }
    }
  }

  /**
   * One field is written: it is settled exactly when what was read is still a live session, or is about to be cleared.
   */
  lemma WriteSettled(y: System, y': System, t: Task, c: nat, sid: nat)
    requires Settled(y) && t in y.tasks && !t.Ends? && (t.Enters? ==> t.caller == c)
    requires y'.book == y.book && y'.tasks == y.tasks - multiset{t} && y'.fields == y.fields[c := sid]
    ensures Settled(y') <==> FieldOk(y.(tasks := y'.tasks), c, sid)
  {
    forall p | p in y.fields && p != c ensures FieldOk(y', p, y'.fields[p]) {
      assert FieldOk(y, p, y.fields[p]);
      if Due(y.tasks, p, y.fields[p]) { DueMore(y.tasks, y'.tasks, p, y.fields[p]); }
    }
    assert FieldOk(y', c, sid) <==> FieldOk(y.(tasks := y'.tasks), c, sid);
    assert Settled(y') ==> FieldOk(y', c, y'.fields[c]);
  }

  lemma FieldTaskSettled(y: System, t: Task, now: nat)
    requires Sound(y) && Settled(y) && t in y.tasks && (t.Forks? || t.Inherits? || t.Enters?)
    ensures Settled(Act(y, Do(t, now))) <==> !StaleWrite(y, Do(t, now))
  {
    var y' := Act(y, Do(t, now));
    var c := if t.Enters? then t.caller else t.child;
    if (if t.Forks? then c in y.unborn else c in y.fields) {
      WriteSettled(y, y', t, c, t.sid);
    } else {
      SkipSettled(y, y', t, c);
    }
  }

  /** The write is for a process that has no record. */
  lemma SkipSettled(y: System, y': System, t: Task, c: nat)
    requires Settled(y) && !t.Ends? && (t.Enters? ==> t.caller == c && c !in y.fields)
    requires y' == y.(tasks := y.tasks - multiset{t})
    ensures Settled(y')
  {
    forall p | p in y.fields ensures FieldOk(y', p, y.fields[p]) {
      assert FieldOk(y, p, y.fields[p]);
      if Due(y.tasks, p, y.fields[p]) { DueMore(y.tasks, y'.tasks, p, y.fields[p]); }
    }
  }

  lemma IssuesSettled(y: System, t: Task, now: nat)
    requires Sound(y) && Settled(y) && t in y.tasks && t.Issues?
    ensures Settled(Act(y, Do(t, now))) <==> !StaleWrite(y, Do(t, now))
  {
    assert TaskOk(y, t);
    var y' := Act(y, Do(t, now));
    IssueKeeps(y.book, t.target, t.caps, t.ttl, t.sid, now);
    if Bound(y'.book) { QuietSettled(y, y'); }
  }

  /** A step leaves only live sessions named, if and only if it is not a stale write. */
  lemma ActSettled(y: System, a: Action)
    requires Sound(y) && Settled(y)
    ensures Settled(Act(y, a)) <==> !StaleWrite(y, a)
  {
    match a
    case RevokeIt(token) => RevokeSettled(y, token);
    case LogIn(c, token, now) => LogInSettled(y, c, token, now);
    case Do(t, now) =>
      if t in y.tasks {
        match t
        case Finds(_, _, _) => QuietSettled(y, Act(y, a));
        case Issues(_, _, _, _) => IssuesSettled(y, t, now);
        case Ends(_, _, _) => EndsSettled(y, t, now);
        case Hooks(_) => HooksSettled(y, t, now);
        case _ => FieldTaskSettled(y, t, now);
      }
    case _ => TableSettled(y, a);
  }

  /** Once nothing is being ended or entered, only live sessions are named. */
  lemma SettledAtRest(y: System, p: nat)
    requires Settled(y) && p in y.fields && y.fields[p] != 0
    requires forall t :: t in y.tasks ==> !t.Ends? && !t.Enters?
    ensures Live(y.book.sessions, y.fields[p])
  {
    assert FieldOk(y, p, y.fields[p]);
  }

  // ---- Runs ----

  ghost function Acts(y: System, actions: seq<Action>): System {
    if actions == [] then y else Act(Acts(y, actions[..|actions| - 1]), actions[|actions| - 1])
  }

  function Start(): System {
    System(Book([], [], 1, 1), map[], {}, {}, [], multiset{})
  }

  ghost predicate AlwaysSettled(actions: seq<Action>) {
    Settled(Acts(Start(), actions)) && (actions != [] ==> AlwaysSettled(actions[..|actions| - 1]))
  }

  ghost predicate NoStaleWrite(actions: seq<Action>) {
    actions != [] ==>
      var before := actions[..|actions| - 1];
      NoStaleWrite(before) && !StaleWrite(Acts(Start(), before), actions[|actions| - 1])
  }

  /**
   * From an empty book, over every interleaving; and only live sessions are named all along, if and only if no write
   * was stale.
   */
  lemma {:induction false} EveryInterleaving(actions: seq<Action>)
    ensures Sound(Acts(Start(), actions))
    ensures AlwaysSettled(actions) <==> NoStaleWrite(actions)
  {
    if actions != [] {
      var before, a := actions[..|actions| - 1], actions[|actions| - 1];
      EveryInterleaving(before);
      var y := Acts(Start(), before);
      ActSound(y, a);
      if AlwaysSettled(before) {
        assert Settled(y);
        ActSettled(y, a);
      }
    }
  }

  // ---- A stale field stays ----

  /** The field names a session that ended, and nothing is left to clear it. */
  ghost predicate Stale(y: System, p: nat, sid: nat) {
    p in y.fields && y.fields[p] == sid && !FieldOk(y, p, sid)
  }

  /** What gives the field another value: the process goes, logs in, or has a session set for it. */
  predicate Touches(a: Action, p: nat) {
    || ((a.Remove? || a.Drop?) && a.pid == p) || (a.LogIn? && a.caller == p)
    || (a.Do? && a.task.Inherits? && a.task.child == p)
  }

  lemma StaleBook(y: System, a: Action, sid: nat)
    requires Sound(y) && sid < y.book.nextSession && !Live(y.book.sessions, sid)
    ensures !Live(Act(y, a).book.sessions, sid)
  {
    match a
    case LogIn(c, token, now) => BeginKeeps(y.book, c, token, now);
    case Do(t, now) =>
      if t in y.tasks && t.Issues? {
        assert TaskOk(y, t);
        IssueKeeps(y.book, t.target, t.caps, t.ttl, t.sid, now);
      } else if t.Hooks? {
        GoneKeeps(y.book, t.pid);
      }
    case _ =>
  }

  /** No step but those brings a task that would clear it. */
  lemma StaleTasks(y: System, a: Action, p: nat, sid: nat, t: Task)
    requires Sound(y) && Stale(y, p, sid) && !Touches(a, p) && t in Act(y, a).tasks && t !in y.tasks
    ensures !Rewrites(t, p, sid)
  {
    if a.LogIn? {
      BeginKeeps(y.book, a.caller, a.token, a.now);
    } else if a.Do? {
      StaleFinish(y, a.task, a.now, p, sid, t);
    }
  }

  lemma StaleFinish(y: System, u: Task, now: nat, p: nat, sid: nat, t: Task)
    requires Sound(y) && Stale(y, p, sid) && u in y.tasks && t in Act(y, Do(u, now)).tasks && t !in y.tasks
    ensures !Rewrites(t, p, sid)
  {
    assert TaskOk(y, u) && !Rewrites(u, p, sid);
    match u
    case Finds(_, _, _) =>
    case Ends(_, keep, next) =>
    case Hooks(q) => GoneKeeps(y.book, q);
    case _ =>
  }

  lemma StaleField(y: System, a: Action, p: nat, sid: nat)
    requires Sound(y) && Stale(y, p, sid) && !Touches(a, p)
    ensures p in Act(y, a).fields && Act(y, a).fields[p] == sid
  {
    if a.Do? && a.task in y.tasks { assert TaskOk(y, a.task) && !Rewrites(a.task, p, sid); }
  }

  lemma StaleStays(y: System, a: Action, p: nat, sid: nat)
    requires Sound(y) && Stale(y, p, sid) && !Touches(a, p)
    ensures Stale(Act(y, a), p, sid)
  {
    StaleBook(y, a, sid);
    StaleField(y, a, p, sid);
    forall t | t in Act(y, a).tasks ensures !Rewrites(t, p, sid) {
      if t !in y.tasks { StaleTasks(y, a, p, sid, t); }
    }
  }

  /** Over any run in which the process neither goes nor gets another session. */
  lemma {:induction false} StaleForGood(y: System, actions: seq<Action>, p: nat, sid: nat)
    requires Sound(y) && Stale(y, p, sid) && forall a :: a in actions ==> !Touches(a, p)
    ensures Sound(Acts(y, actions)) && Stale(Acts(y, actions), p, sid)
  {
    if actions != [] {
      var before, a := actions[..|actions| - 1], actions[|actions| - 1];
      StaleForGood(y, before, p, sid);
      ActSound(Acts(y, before), a);
      StaleStays(Acts(y, before), a, p, sid);
    }
  }

  // ---- Leaders ----

  /** Every live session is led by a process that has a record, or whose hook is still to come. */
  ghost predicate Led(y: System) {
    forall s :: s in y.book.sessions ==> s.leader in y.fields || Hooks(s.leader) in y.tasks
  }

  predicate Ending(y: System, a: Action, leader: nat) {
    (a.LogIn? && a.caller == leader && leader in y.fields) || (a.Do? && a.task == Hooks(leader) && a.task in y.tasks)
  }

  lemma LogInSessions(y: System, c: nat, token: nat, now: nat, s: Session)
    requires Sound(y)
    ensures var y' := Act(y, LogIn(c, token, now));
            && (s in y.book.sessions && !(s.leader == c && c in y.fields) ==> s in y'.book.sessions)
            && (s in y'.book.sessions ==> s in y.book.sessions || (s.leader == c && c in y.fields))
  {
    BeginKeeps(y.book, c, token, now);
  }

  lemma TaskSessions(y: System, t: Task, now: nat, s: Session)
    requires Sound(y) && t in y.tasks
    ensures s in Act(y, Do(t, now)).book.sessions <==> s in y.book.sessions && t != Hooks(s.leader)
  {
    if t.Hooks? {
      GoneKeeps(y.book, t.pid);
    } else if t.Issues? {
      assert TaskOk(y, t);
      IssueKeeps(y.book, t.target, t.caps, t.ttl, t.sid, now);
    }
  }

  /** Sessions begin and end with their leader only. */
  lemma SessionsChange(y: System, a: Action, s: Session)
    requires Sound(y)
    ensures s in y.book.sessions && !Ending(y, a, s.leader) ==> s in Act(y, a).book.sessions
    ensures s in Act(y, a).book.sessions ==>
              (s in y.book.sessions && !(a.Do? && Ending(y, a, s.leader))) || (a.LogIn? && Ending(y, a, s.leader))
  {
    if a.LogIn? {
      LogInSessions(y, a.caller, a.token, a.now, s);
    } else if a.Do? && a.task in y.tasks {
      TaskSessions(y, a.task, a.now, s);
    }
  }

  lemma FinishRecords(y: System, t: Task, now: nat, p: nat)
    ensures p in y.fields ==> p in Finish(y, t, now).fields
    ensures Departed(y, p) ==> Departed(Finish(y, t, now), p)
  {
  }

  lemma RecordsChange(y: System, a: Action, p: nat)
    requires Sound(y)
    ensures p in y.fields && !((a.Remove? || a.Drop?) && a.pid == p) ==> p in Act(y, a).fields
    ensures Departed(y, p) ==> Departed(Act(y, a), p)
  {
    if a.Do? && a.task in y.tasks { FinishRecords(y.(tasks := y.tasks - multiset{a.task}), a.task, a.now, p); }
  }

  lemma PendHas(y: System, t: Task, u: Task)
    ensures u in Pend(y, t).tasks <==> u == t || u in y.tasks
  {
  }

  lemma FinishHooks(y: System, t: Task, now: nat, p: nat)
    ensures Hooks(p) in Finish(y, t, now).tasks <==> Hooks(p) in y.tasks
  {
  }

  lemma TaskHooks(y: System, t: Task, now: nat, p: nat)
    ensures Hooks(p) in y.tasks && t != Hooks(p) ==> Hooks(p) in Act(y, Do(t, now)).tasks
    ensures Hooks(p) in Act(y, Do(t, now)).tasks ==> Hooks(p) in y.tasks
  {
    if t in y.tasks { FinishHooks(y.(tasks := y.tasks - multiset{t}), t, now, p); }
  }

  lemma HooksChange(y: System, a: Action, p: nat)
    ensures Hooks(p) in y.tasks && !(a.Do? && a.task == Hooks(p)) ==> Hooks(p) in Act(y, a).tasks
    ensures Hooks(p) in Act(y, a).tasks ==> Hooks(p) in y.tasks || (a == Remove(p) && p in y.fields)
    ensures a == Remove(p) && p in y.fields ==> Hooks(p) in Act(y, a).tasks
  {
    match a
    case Do(t, now) => TaskHooks(y, t, now, p);
    case Remove(q) => PendHas(y, Hooks(q), Hooks(p));
    case _ =>
  }

  lemma NoHookYet(y: System, p: nat)
    requires Sound(y) && p in y.fields
    ensures Hooks(p) !in y.tasks
  {
    assert Hooks(p) in y.tasks ==> TaskOk(y, Hooks(p));
  }

  /** A session loses its leader for good if and only if the leader's record is taken out without the hook. */
  lemma ActLed(y: System, a: Action)
    requires Sound(y) && Led(y)
    ensures Led(Act(y, a)) <==> !(a.Drop? && a.pid in y.fields && LedBy(y.book.sessions, a.pid).Some?)
  {
    var y' := Act(y, a);
    if a.Drop? && a.pid in y.fields && LedBy(y.book.sessions, a.pid).Some? {
      assert LedBy(y.book.sessions, a.pid).value in y'.book.sessions;
      NoHookYet(y, a.pid);
    } else {
      forall s | s in y'.book.sessions ensures s.leader in y'.fields || Hooks(s.leader) in y'.tasks {
        SessionsChange(y, a, s);
        RecordsChange(y, a, s.leader);
        HooksChange(y, a, s.leader);
      }
    }
  }

  /** A session whose leader went without the hook. */
  ghost predicate Leaderless(y: System, s: Session) {
    s in y.book.sessions && Departed(y, s.leader) && Hooks(s.leader) !in y.tasks
  }

  lemma LeaderlessStays(y: System, a: Action, s: Session)
    requires Sound(y) && Leaderless(y, s)
    ensures Leaderless(Act(y, a), s)
  {
    SessionsChange(y, a, s);
    RecordsChange(y, a, s.leader);
    HooksChange(y, a, s.leader);
  }

  /** It is never ended, whatever happens. */
  lemma {:induction false} LeaderlessForGood(y: System, actions: seq<Action>, s: Session)
    requires Sound(y) && Leaderless(y, s)
    ensures Sound(Acts(y, actions)) && Leaderless(Acts(y, actions), s)
  {
    if actions != [] {
      var before, a := actions[..|actions| - 1], actions[|actions| - 1];
      LeaderlessForGood(y, before, s);
      ActSound(Acts(y, before), a);
      LeaderlessStays(Acts(y, before), a, s);
    }
  }

  // ---- Two runs ----

  lemma ActsMore(y: System, actions: seq<Action>, a: Action)
    ensures Acts(y, actions + [a]) == Act(Acts(y, actions), a)
  {
    assert (actions + [a])[..|actions|] == actions;
  }

  /** Process 1 has a login token. */
  function Granted(): System {
    System(Book([Grant(1, 1, {CAP_SESSION}, NEVER, 0, true)], [], 2, 1), map[1 := 0], {}, {1}, [], multiset{})
  }

  /** Process 1 leads session 1. */
  function LoggedIn(): System {
    System(Book([], [Session(1, 1)], 2, 2), map[1 := 1], {}, {1}, [(1, 1)], multiset{})
  }

  lemma FirstIssue()
    ensures Issue(Book([], [], 1, 1), 1, {CAP_SESSION}, 0, 0, 0) == (Granted().book, Ok(1))
  {
    var grants: seq<Grant> := [];
    assert Filter(grants, Unexpired(0)) == [] && grants + Granted().book.grants == Granted().book.grants;
  }

  lemma FirstLogIn()
    ensures Begin(Granted().book, 1, 1, 0) == (LoggedIn().book, Ok((1, None)))
  {
    var b := Granted().book;
    assert TokenGrant(b.grants, 1) == Some(0) && LedBy(b.sessions, 1) == None;
    assert b.grants[..0] + b.grants[1..] == [] && b.sessions + [Session(1, 1)] == [Session(1, 1)];
  }

  /** A pending task comes to its section. */
  lemma DoMore(y: System, actions: seq<Action>, y1: System, t: Task)
    requires Acts(y, actions) == Pend(y1, t)
    ensures Acts(y, actions + [Do(t, 0)]) == Finish(y1, t, 0)
  {
    ActsMore(y, actions, Do(t, 0));
    assert Pend(y1, t).tasks - multiset{t} == y1.tasks;
    assert Pend(y1, t).(tasks := y1.tasks) == y1;
  }

  lemma GetCreated() returns (actions: seq<Action>)
    ensures Acts(Start(), actions) == System(Book([], [], 1, 1), map[1 := 0], {}, {1}, [], multiset{})
  {
    ActsMore(Start(), [], Create(1));
    actions := [] + [Create(1)];
  }

  lemma GetGranted() returns (actions: seq<Action>)
    ensures Acts(Start(), actions) == Granted()
  {
    actions := GetCreated();
    var caps, y := {CAP_SESSION}, Acts(Start(), actions);
    ActsMore(Start(), actions, LookUp(1, caps, 0));
    actions := actions + [LookUp(1, caps, 0)];
    DoMore(Start(), actions, y, Finds(1, caps, 0));
    actions := actions + [Do(Finds(1, caps, 0), 0)];
    DoMore(Start(), actions, y, Issues(1, 0, caps, 0));
    actions := actions + [Do(Issues(1, 0, caps, 0), 0)];
    FirstIssue();
  }

  lemma GetLoggedIn() returns (actions: seq<Action>)
    ensures Acts(Start(), actions) == LoggedIn()
  {
    actions := GetGranted();
    FirstLogIn();
    ActsMore(Start(), actions, LogIn(1, 1, 0));
    actions := actions + [LogIn(1, 1, 0)];
    var y := LoggedIn().(fields := map[1 := 0]);
    assert Granted().started + [(1, 1)] == y.started;
    DoMore(Start(), actions, y, Enters(1, 1));
    actions := actions + [Do(Enters(1, 1), 0)];
    assert map[1 := 0][1 := 1] == map[1 := 1];
  }

  /** Process 3, forked from the leader, has read its session for the process 2 that it spawned. */
  function Spawning(): System {
    System(Book([], [Session(1, 1)], 2, 2), map[1 := 1, 3 := 1, 2 := 0], {}, {1, 3, 2}, [(1, 1)],
      multiset{Inherits(2, 1)})
  }

  lemma GetForked() returns (actions: seq<Action>)
    ensures Acts(Start(), actions) == LoggedIn().(fields := map[1 := 1, 3 := 1], used := {1, 3})
  {
    actions := GetLoggedIn();
    ActsMore(Start(), actions, ForkFrom(1, 3));
    actions := actions + [ForkFrom(1, 3)];
    ActsMore(Start(), actions, Do(Forks(3, 1), 0));
    actions := actions + [Do(Forks(3, 1), 0)];
  }

  lemma GetSpawning() returns (actions: seq<Action>)
    ensures Acts(Start(), actions) == Spawning()
  {
    actions := GetForked();
    ActsMore(Start(), actions, Create(2));
    actions := actions + [Create(2)];
    ActsMore(Start(), actions, SpawnFrom(3, 2));
    actions := actions + [SpawnFrom(3, 2)];
    assert map[1 := 1, 3 := 1][2 := 0] == Spawning().fields;
  }

  function Closed(): Book {
    Book([], [], 2, 2)
  }

  lemma FirstGone()
    ensures Gone(LoggedIn().book, 1) == (Closed(), Some(1))
  {
    var b, alive := LoggedIn().book, NotId(1);
    assert b.sessions[..0] == [] && Filter(b.sessions[..0], alive) == [] && !alive(b.sessions[0]);
    assert Filter(b.sessions, alive) == [];
    assert Filter(b.grants, NotOf(1)) == [] && LedBy(b.sessions, 1) == Some(Session(1, 1));
    assert b.(grants := []) == b && Purge(b, 1) == Closed();
  }

  lemma FirstCleared()
    ensures Cleared(map[3 := 1, 2 := 0], 1, 1) == map[3 := 0, 2 := 0]
  {
  }

  lemma GetRemoved() returns (actions: seq<Action>)
    ensures Acts(Start(), actions) == Pend(Spawning().(fields := map[3 := 1, 2 := 0]), Hooks(1))
  {
    actions := GetSpawning();
    ActsMore(Start(), actions, Remove(1));
    actions := actions + [Remove(1)];
    assert Spawning().fields - {1} == map[3 := 1, 2 := 0];
  }

  /** The leader goes, and its session ends in the book. */
  lemma GetEnded() returns (actions: seq<Action>)
    ensures Acts(Start(), actions) ==
              Pend(Spawning().(book := Closed(), fields := map[3 := 1, 2 := 0]), Ends(1, 1, None))
  {
    actions := GetRemoved();
    FirstGone();
    DoMore(Start(), actions, Spawning().(fields := map[3 := 1, 2 := 0]), Hooks(1));
    actions := actions + [Do(Hooks(1), 0)];
  }

  /** Its members are cleared, before the spawner's write. */
  lemma GetCleared() returns (actions: seq<Action>)
    ensures Acts(Start(), actions) == Spawning().(book := Closed(), fields := map[3 := 0, 2 := 0])
  {
    actions := GetEnded();
    FirstCleared();
    DoMore(Start(), actions, Spawning().(book := Closed(), fields := map[3 := 1, 2 := 0]), Ends(1, 1, None));
    actions := actions + [Do(Ends(1, 1, None), 0)];
  }

  /** A run after which a process is in a session that has ended, with nothing pending. */
  lemma SpawnRace() returns (actions: seq<Action>)
    ensures var y := Acts(Start(), actions); Stale(y, 2, 1) && y.tasks == multiset{}
  {
    actions := GetCleared();
    ActsMore(Start(), actions, Do(Inherits(2, 1), 0));
    actions := actions + [Do(Inherits(2, 1), 0)];
  }

  /**
   * A run after which a session has no leader: the leader's exit status was delivered and its record taken without the
   * hook.
   */
  lemma DeliveredLeader() returns (actions: seq<Action>)
    ensures Leaderless(Acts(Start(), actions), Session(1, 1))
  {
    actions := GetLoggedIn();
    ActsMore(Start(), actions, Drop(1));
    actions := actions + [Drop(1)];
  }
}
