/** The capability and session ledger of `microkernel/src/security.rs`. */
module Ledger {
  import opened Common

  const MAX_GRANTS: nat := 16
  const MAX_SESSIONS: nat := 8
  /** Bit numbers; a capability mask is the set of its bits. */
  const CAP_ISSUER: nat := 5
  const CAP_SESSION: nat := 6
  const NEVER: nat := U64 - 1

  datatype Grant = Grant(token: nat, pid: nat, caps: set<nat>, expiresAt: nat, session: nat, loginOnce: bool) {
    predicate Covers(p: nat, sid: nat, now: nat) {
      pid == p && now < expiresAt && (session == 0 || session == sid)
    }
  }

  datatype Session = Session(id: nat, leader: nat)

  datatype IssueError = InvalidScope | NoSuchProcess | GrantsFull

  datatype SessionError = NoSuchToken | NotYours | Expired | SessionsFull

  datatype Book = Book(grants: seq<Grant>, sessions: seq<Session>, nextToken: nat, nextSession: nat)

  // ---- Keeping some and dropping the rest ----

  function Filter<T>(s: seq<T>, keep: T -> bool): seq<T> {
    if s == [] then []
    else Filter(s[..|s| - 1], keep) + if keep(s[|s| - 1]) then [s[|s| - 1]] else []
  }

  lemma {:induction false} FilterHas<T>(s: seq<T>, keep: T -> bool, x: T)
    ensures x in Filter(s, keep) <==> x in s && keep(x)
  {
    if s != [] {
      assert s == s[..|s| - 1] + [s[|s| - 1]];
      FilterHas(s[..|s| - 1], keep, x);
    }
  }

  lemma {:induction false} FilterShorter<T>(s: seq<T>, keep: T -> bool)
    ensures |Filter(s, keep)| <= |s|
    ensures |Filter(s, keep)| == |s| <==> forall x :: x in s ==> keep(x)
  {
    if s != [] {
      assert s == s[..|s| - 1] + [s[|s| - 1]];
      FilterShorter(s[..|s| - 1], keep);
    }
  }

  method Retain<T>(s: seq<T>, keep: T -> bool) returns (r: seq<T>)
    ensures r == Filter(s, keep)
  {
    r := [];
    for i := 0 to |s|
      invariant r == Filter(s[..i], keep)
    {
      assert s[..i + 1][..i] == s[..i];
      if keep(s[i]) {
        r := r + [s[i]];
      }
    }
    assert s[..|s|] == s;
  }

  // ---- The book's operations ----

  function Unexpired(now: nat): Grant -> bool { (g: Grant) => now < g.expiresAt }

  function NotToken(token: nat): Grant -> bool { (g: Grant) => g.token != token }

  function NotBound(sid: nat): Grant -> bool { (g: Grant) => g.session != sid }

  function NotOf(pid: nat): Grant -> bool { (g: Grant) => g.pid != pid }

  function NotId(sid: nat): Session -> bool { (s: Session) => s.id != sid }

  function Swept(b: Book, now: nat): Book {
    b.(grants := Filter(b.grants, Unexpired(now)))
  }

  function Deadline(ttl: nat, now: nat): nat {
    if ttl == 0 || now + ttl > NEVER then NEVER else now + ttl
  }

  function Issue(b: Book, target: nat, caps: set<nat>, ttl: nat, session: nat, now: nat)
    : (Book, Result<nat, IssueError>)
  {
    if caps == {} || CAP_ISSUER in caps then (b, Err(InvalidScope))
    else
      var b1 := Swept(b, now);
      if |b1.grants| >= MAX_GRANTS then (b1, Err(GrantsFull))
      else
        var g := Grant(b.nextToken, target, caps, Deadline(ttl, now), session, CAP_SESSION in caps);
        (b1.(grants := b1.grants + [g], nextToken := b.nextToken + 1), Ok(b.nextToken))
  }

  function Revoke(b: Book, token: nat): Book {
    b.(grants := Filter(b.grants, NotToken(token)))
  }

  function Effective(grants: seq<Grant>, pid: nat, base: set<nat>, session: nat, now: nat): set<nat> {
    if grants == [] then base
    else
      var g := grants[|grants| - 1];
      Effective(grants[..|grants| - 1], pid, base, session, now) + if g.Covers(pid, session, now) then g.caps else {}
  }

  function Purge(b: Book, sid: nat): Book {
    if sid == 0 then b
    else
      b.(grants := Filter(b.grants, NotBound(sid)),
         sessions := Filter(b.sessions, NotId(sid)))
  }

  function LedBy(sessions: seq<Session>, leader: nat): (r: Option<Session>)
    ensures r.Some? ==> r.value in sessions && r.value.leader == leader
    ensures r.None? ==> forall s :: s in sessions ==> s.leader != leader
  {
    if sessions == [] then None
    else if sessions[0].leader == leader then Some(sessions[0])
    else LedBy(sessions[1..], leader)
  }

  function TokenGrant(grants: seq<Grant>, token: nat): (r: Option<nat>)
    ensures r.Some? ==> r.value < |grants| && grants[r.value].token == token
    ensures r.None? ==> forall g :: g in grants ==> g.token != token
  {
    if grants == [] then None
    else if grants[0].token == token then Some(0)
    else
      match TokenGrant(grants[1..], token)
      case None => None
      case Some(i) => Some(i + 1)
  }

  /** A new session for the holder of a login token; the session the caller led before ends. */
  function Begin(b: Book, caller: nat, token: nat, now: nat): (Book, Result<(nat, Option<nat>), SessionError>) {
    match TokenGrant(b.grants, token)
    case None => (b, Err(NoSuchToken))
    case Some(i) =>
      var g := b.grants[i];
      if g.pid != caller || !g.loginOnce then (b, Err(NotYours))
      else if now >= g.expiresAt then (b, Err(Expired))
      else
        var led := LedBy(b.sessions, caller);
        if led.None? && |b.sessions| >= MAX_SESSIONS then (b, Err(SessionsFull))
        else
          var b1 := b.(grants := b.grants[..i] + b.grants[i + 1..]);
          var b2 := if led.Some? then Purge(b1, led.value.id) else b1;
          (b2.(sessions := b2.sessions + [Session(b.nextSession, caller)], nextSession := b.nextSession + 1),
           Ok((b.nextSession, if led.Some? then Some(led.value.id) else None)))
  }

  /** The grants of a process that is gone go; so does a session it led. */
  function Gone(b: Book, pid: nat): (Book, Option<nat>) {
    var b1 := b.(grants := Filter(b.grants, NotOf(pid)));
    match LedBy(b.sessions, pid)
    case None => (b1, None)
    case Some(s) => (Purge(b1, s.id), Some(s.id))
  }

  // ---- The book in place ----

  class GrantBook {
    var grants: seq<Grant>
    var sessions: seq<Session>
    var nextToken: nat
    var nextSession: nat

    ghost function Value(): Book
      reads this
    {
      Book(grants, sessions, nextToken, nextSession)
    }

    constructor ()
      ensures Value() == Book([], [], 1, 1)
    {
      grants, sessions, nextToken, nextSession := [], [], 1, 1;
    }

    method IssueGrant(target: nat, caps: set<nat>, ttl: nat, session: nat, now: nat)
      returns (r: Result<nat, IssueError>)
      modifies this
      ensures (Value(), r) == Issue(old(Value()), target, caps, ttl, session, now)
    {
      if caps == {} || CAP_ISSUER in caps {
        return Err(InvalidScope);
      }
      grants := Retain(grants, Unexpired(now));
      if |grants| >= MAX_GRANTS {
        return Err(GrantsFull);
      }
      var token := nextToken;
      nextToken := nextToken + 1;
      grants := grants + [Grant(token, target, caps, Deadline(ttl, now), session, CAP_SESSION in caps)];
      r := Ok(token);
    }

    method RevokeToken(token: nat) returns (found: bool)
      modifies this
      ensures Value() == Revoke(old(Value()), token)
      ensures found <==> exists g :: g in old(grants) && g.token == token
    {
      var before := |grants|;
      FilterShorter(grants, NotToken(token));
      grants := Retain(grants, NotToken(token));
      found := before != |grants|;
    }

    method EffectiveCaps(pid: nat, base: set<nat>, session: nat, now: nat) returns (caps: set<nat>)
      ensures caps == Effective(grants, pid, base, session, now)
    {
      caps := base;
      for i := 0 to |grants|
        invariant caps == Effective(grants[..i], pid, base, session, now)
      {
        assert grants[..i + 1][..i] == grants[..i];
        if grants[i].Covers(pid, session, now) {
          caps := caps + grants[i].caps;
        }
      }
      assert grants[..|grants|] == grants;
    }

    method PurgeSession(sid: nat)
      modifies this
      ensures Value() == Purge(old(Value()), sid)
    {
      if sid == 0 {
        return;
      }
      grants := Retain(grants, NotBound(sid));
      sessions := Retain(sessions, NotId(sid));
    }

    method BeginSession(caller: nat, token: nat, now: nat) returns (r: Result<(nat, Option<nat>), SessionError>)
      modifies this
      ensures (Value(), r) == Begin(old(Value()), caller, token, now)
    {
      var found := TokenGrant(grants, token);
      if found.None? {
        return Err(NoSuchToken);
      }
      var i := found.value;
      var grant := grants[i];
      if grant.pid != caller || !grant.loginOnce {
        return Err(NotYours);
      }
      if now >= grant.expiresAt {
        return Err(Expired);
      }
      var led := LedBy(sessions, caller);
      if led.None? && |sessions| >= MAX_SESSIONS {
        return Err(SessionsFull);
      }
      grants := grants[..i] + grants[i + 1..];
      var dead := None;
      if led.Some? {
        dead := Some(led.value.id);
        PurgeSession(led.value.id);
      }
      var sid := nextSession;
      nextSession := nextSession + 1;
      sessions := sessions + [Session(sid, caller)];
      r := Ok((sid, dead));
    }

    method ProcessGone(pid: nat) returns (dead: Option<nat>)
      modifies this
      ensures (Value(), dead) == Gone(old(Value()), pid)
    {
      grants := Retain(grants, NotOf(pid));
      var led := LedBy(sessions, pid);
      if led.None? {
        return None;
      }
      PurgeSession(led.value.id);
      dead := Some(led.value.id);
    }
  }

  // ---- What every operation keeps ----

  function TokenOf(g: Grant): nat { g.token }

  function IdOf(s: Session): nat { s.id }

  function LeaderOf(s: Session): nat { s.leader }

  function UsedToken(u: (nat, nat)): nat { u.0 }

  ghost predicate DistinctBy<T(!new)>(s: seq<T>, key: T -> nat) {
    forall i, j :: 0 <= i < j < |s| ==> key(s[i]) != key(s[j])
  }

  ghost predicate Live(sessions: seq<Session>, sid: nat) {
    exists s :: s in sessions && s.id == sid
  }

  ghost predicate GrantOk(g: Grant, b: Book) {
    1 <= g.token < b.nextToken && CAP_ISSUER !in g.caps && g.session < b.nextSession
  }

  ghost predicate BookOk(b: Book) {
    && DistinctBy(b.grants, TokenOf) && DistinctBy(b.sessions, IdOf) && DistinctBy(b.sessions, LeaderOf)
    && (forall g :: g in b.grants ==> GrantOk(g, b))
    && (forall s :: s in b.sessions ==> 1 <= s.id < b.nextSession)
    && |b.grants| <= MAX_GRANTS && |b.sessions| <= MAX_SESSIONS && 1 <= b.nextToken && 1 <= b.nextSession
  }

  /** Every bound grant names a session that is alive. */
  ghost predicate Bound(b: Book) {
    forall g :: g in b.grants && g.session != 0 ==> Live(b.sessions, g.session)
  }

  lemma {:induction false} FilterDistinct<T(!new)>(s: seq<T>, keep: T -> bool, key: T -> nat)
    requires DistinctBy(s, key)
    ensures DistinctBy(Filter(s, keep), key)
  {
    if s != [] {
      var front, last := s[..|s| - 1], s[|s| - 1];
      FilterDistinct(front, keep, key);
      var kept := Filter(front, keep);
      forall i | 0 <= i < |kept| ensures key(kept[i]) != key(last) {
        FilterHas(front, keep, kept[i]);
      }
    }
  }

  lemma KeepSome(b: Book, keep: Grant -> bool)
    requires BookOk(b)
    ensures BookOk(b.(grants := Filter(b.grants, keep)))
    ensures forall g :: g in Filter(b.grants, keep) ==> g in b.grants && keep(g)
  {
    FilterDistinct(b.grants, keep, TokenOf);
    FilterShorter(b.grants, keep);
    forall g | g in Filter(b.grants, keep) ensures g in b.grants && keep(g) { FilterHas(b.grants, keep, g); }
  }

  lemma StillLive(sessions: seq<Session>, dead: nat, sid: nat)
    ensures Live(Filter(sessions, NotId(dead)), sid) <==> Live(sessions, sid) && sid != dead
  {
    var alive := NotId(dead);
    if Live(sessions, sid) && sid != dead {
      var s :| s in sessions && s.id == sid;
      FilterHas(sessions, alive, s);
    }
    if Live(Filter(sessions, alive), sid) {
      var s :| s in Filter(sessions, alive) && s.id == sid;
      FilterHas(sessions, alive, s);
    }
  }

  /** Purging ends just that session, and no grant stays bound to it. */
  lemma PurgeKeeps(b: Book, sid: nat)
    requires BookOk(b) && sid != 0
    ensures var b' := Purge(b, sid);
            && BookOk(b') && (Bound(b) ==> Bound(b'))
            && (forall g :: g in b'.grants <==> g in b.grants && g.session != sid)
            && (forall x :: Live(b'.sessions, x) <==> Live(b.sessions, x) && x != sid)
            && (forall s :: s in b'.sessions <==> s in b.sessions && s.id != sid)
  {
    var keep, alive := NotBound(sid), NotId(sid);
    KeepSome(b, keep);
    forall g ensures g in Filter(b.grants, keep) <==> g in b.grants && g.session != sid {
      FilterHas(b.grants, keep, g);
    }
    FilterDistinct(b.sessions, alive, IdOf);
    FilterDistinct(b.sessions, alive, LeaderOf);
    FilterShorter(b.sessions, alive);
    forall s ensures s in Filter(b.sessions, alive) <==> s in b.sessions && s.id != sid {
      FilterHas(b.sessions, alive, s);
    }
    forall x ensures Live(Purge(b, sid).sessions, x) <==> Live(b.sessions, x) && x != sid {
      StillLive(b.sessions, sid, x);
    }
  }

  lemma AppendGrant(b: Book, g: Grant)
    requires BookOk(b) && |b.grants| < MAX_GRANTS && b.nextToken == g.token && CAP_ISSUER !in g.caps
    requires g.session < b.nextSession
    ensures BookOk(b.(grants := b.grants + [g], nextToken := b.nextToken + 1))
  {
    var b' := b.(grants := b.grants + [g], nextToken := b.nextToken + 1);
    forall h | h in b'.grants ensures GrantOk(h, b') {
      if h != g { assert GrantOk(h, b); }
    }
    forall i, j | 0 <= i < j < |b'.grants| ensures TokenOf(b'.grants[i]) != TokenOf(b'.grants[j]) {
      if j < |b.grants| {
        assert TokenOf(b.grants[i]) != TokenOf(b.grants[j]);
      } else {
        assert GrantOk(b.grants[i], b);
      }
    }
  }

  /** A new grant is bound to a live session exactly when the session it is issued for is alive. */
  lemma IssueKeeps(b: Book, target: nat, caps: set<nat>, ttl: nat, session: nat, now: nat)
    requires BookOk(b) && session < b.nextSession
    ensures var (b', r) := Issue(b, target, caps, ttl, session, now);
            && BookOk(b') && b'.sessions == b.sessions && b.nextToken <= b'.nextToken && b'.nextSession == b.nextSession
            && (forall g :: g in b'.grants ==> g in b.grants || (g.token == b.nextToken && g.pid == target && r.Ok?))
            && (r.Ok? ==> exists g :: g in b'.grants && g.pid == target)
            && (Bound(b) ==> (Bound(b') <==> r.Err? || session == 0 || Live(b.sessions, session)))
  {
    if caps != {} && CAP_ISSUER !in caps {
      KeepSome(b, Unexpired(now));
      var b1 := Swept(b, now);
      if |b1.grants| < MAX_GRANTS {
        var g := Grant(b.nextToken, target, caps, Deadline(ttl, now), session, CAP_SESSION in caps);
        AppendGrant(b1, g);
        assert g in b1.grants + [g];
      }
    }
  }

  /** A process that is gone leaves no grant of its own and no session that it led. */
  lemma GoneKeeps(b: Book, pid: nat)
    requires BookOk(b)
    ensures var (b', dead) := Gone(b, pid);
            && BookOk(b') && (Bound(b) ==> Bound(b')) && b'.nextToken == b.nextToken && b'.nextSession == b.nextSession
            && (forall g :: g in b'.grants ==> g in b.grants && g.pid != pid)
            && (forall x: nat :: Live(b'.sessions, x) <==> Live(b.sessions, x) && Some(x) != dead)
            && (forall s :: s in b'.sessions <==> s in b.sessions && s.leader != pid)
            && (dead.Some? ==> 1 <= dead.value < b.nextSession)
  {
    var b1 := b.(grants := Filter(b.grants, NotOf(pid)));
    KeepSome(b, NotOf(pid));
    var led := LedBy(b.sessions, pid);
    if led.Some? {
      PurgeKeeps(b1, led.value.id);
      forall s | s in b.sessions ensures s.leader == pid <==> s.id == led.value.id {
        OneLeader(b.sessions, s, led.value);
      }
    }
  }

  lemma DropAtHas(grants: seq<Grant>, i: nat, g: Grant)
    requires DistinctBy(grants, TokenOf) && i < |grants|
    ensures g in grants[..i] + grants[i + 1..] <==> g in grants && g.token != grants[i].token
  {
    var gs := grants[..i] + grants[i + 1..];
    if g in gs {
      var k :| 0 <= k < |gs| && gs[k] == g;
      assert k < i ==> TokenOf(grants[k]) != TokenOf(grants[i]);
      assert k >= i ==> TokenOf(grants[i]) != TokenOf(grants[k + 1]);
    }
    if g in grants && g.token != grants[i].token {
      var k :| 0 <= k < |grants| && grants[k] == g;
      assert gs[if k < i then k else k - 1] == g;
    }
  }

  lemma DropAt(b: Book, i: nat)
    requires BookOk(b) && i < |b.grants|
    ensures var gs := b.grants[..i] + b.grants[i + 1..];
            && BookOk(b.(grants := gs))
            && forall g :: g in gs <==> g in b.grants && g.token != b.grants[i].token
  {
    var gs := b.grants[..i] + b.grants[i + 1..];
    forall k | 0 <= k < |gs| ensures gs[k] == b.grants[if k < i then k else k + 1] {}
    forall j, k | 0 <= j < k < |gs| ensures TokenOf(gs[j]) != TokenOf(gs[k]) {
      assert TokenOf(b.grants[if j < i then j else j + 1]) != TokenOf(b.grants[if k < i then k else k + 1]);
    }
    forall g ensures g in gs <==> g in b.grants && g.token != b.grants[i].token {
      DropAtHas(b.grants, i, g);
    }
  }

  lemma NewSession(b: Book, caller: nat)
    requires BookOk(b) && |b.sessions| < MAX_SESSIONS
    requires forall s :: s in b.sessions ==> s.leader != caller
    ensures var b' := b.(sessions := b.sessions + [Session(b.nextSession, caller)], nextSession := b.nextSession + 1);
            && BookOk(b') && (Bound(b) ==> Bound(b'))
            && (forall x :: Live(b'.sessions, x) <==> Live(b.sessions, x) || x == b.nextSession)
            && (forall s :: s in b'.sessions <==> s in b.sessions || s == Session(b.nextSession, caller))
  {
    var b' := b.(sessions := b.sessions + [Session(b.nextSession, caller)], nextSession := b.nextSession + 1);
    assert b'.sessions[|b.sessions|] == Session(b.nextSession, caller);
    forall x | Live(b.sessions, x) ensures Live(b'.sessions, x) {
      var s :| s in b.sessions && s.id == x;
      assert s in b'.sessions;
    }
  }

  /** The book between taking the token and opening the session: nothing is led by the caller any more. */
  lemma EndOld(b: Book, caller: nat)
    requires BookOk(b)
    ensures var led := LedBy(b.sessions, caller);
            var b' := if led.Some? then Purge(b, led.value.id) else b;
            && BookOk(b') && (Bound(b) ==> Bound(b')) && b'.nextToken == b.nextToken && b'.nextSession == b.nextSession
            && (forall s :: s in b'.sessions <==> s in b.sessions && s.leader != caller)
            && (forall g :: g in b'.grants ==> g in b.grants)
            && (forall x :: Live(b'.sessions, x) <==> Live(b.sessions, x) && (led.Some? ==> x != led.value.id))
            && (led.Some? ==> |b'.sessions| < |b.sessions|)
  {
    var led := LedBy(b.sessions, caller);
    if led.Some? {
      var sid, alive := led.value.id, NotId(led.value.id);
      PurgeKeeps(b, sid);
      FilterShorter(b.sessions, alive);
      assert !alive(led.value);
      forall s | s in b.sessions ensures s.leader == caller <==> s.id == sid { OneLeader(b.sessions, s, led.value); }
    }
  }

  lemma OneLeader(sessions: seq<Session>, s: Session, t: Session)
    requires DistinctBy(sessions, LeaderOf) && DistinctBy(sessions, IdOf) && s in sessions && t in sessions
    ensures s.leader == t.leader <==> s.id == t.id
  {
    var i :| 0 <= i < |sessions| && sessions[i] == s;
    var j :| 0 <= j < |sessions| && sessions[j] == t;
    assert i < j ==> LeaderOf(sessions[i]) != LeaderOf(sessions[j]) && IdOf(sessions[i]) != IdOf(sessions[j]);
    assert j < i ==> LeaderOf(sessions[j]) != LeaderOf(sessions[i]) && IdOf(sessions[j]) != IdOf(sessions[i]);
  }

  /** What a new session leaves of the grants and sessions that were there. */
  ghost predicate Renewed(b: Book, b': Book, caller: nat, token: nat, sid: nat, dead: Option<nat>) {
    && BookOk(b') && (Bound(b) ==> Bound(b')) && b'.nextToken == b.nextToken && b'.nextSession == b.nextSession + 1
    && sid == b.nextSession && (dead.Some? ==> 1 <= dead.value < b.nextSession)
    && (forall g :: g in b'.grants ==> g in b.grants && g.token != token)
    && (forall x: nat :: Live(b'.sessions, x) <==> x == sid || (Live(b.sessions, x) && Some(x) != dead))
    && (forall s :: s in b'.sessions <==> s == Session(sid, caller) || (s in b.sessions && s.leader != caller))
  }

  /** With the token taken, and the old session ended if there was one. */
  lemma Reopened(b: Book, b2: Book, caller: nat, token: nat, dead: Option<nat>)
    requires BookOk(b2) && |b2.sessions| < MAX_SESSIONS && b2.nextToken == b.nextToken
    requires b2.nextSession == b.nextSession
    requires (Bound(b) ==> Bound(b2)) && (dead.Some? ==> 1 <= dead.value < b.nextSession)
    requires forall g :: g in b2.grants ==> g in b.grants && g.token != token
    requires forall x: nat :: Live(b2.sessions, x) <==> Live(b.sessions, x) && Some(x) != dead
    requires forall s :: s in b2.sessions <==> s in b.sessions && s.leader != caller
    ensures Renewed(b, b2.(sessions := b2.sessions + [Session(b.nextSession, caller)],
                           nextSession := b.nextSession + 1),
                    caller, token, b.nextSession, dead)
  {
    NewSession(b2, caller);
  }

  lemma BeginFrom(b: Book, caller: nat, i: nat, led: Option<Session>, b1: Book)
    requires BookOk(b) && i < |b.grants| && led == LedBy(b.sessions, caller)
    requires led.None? ==> |b.sessions| < MAX_SESSIONS
    requires b1 == b.(grants := b.grants[..i] + b.grants[i + 1..])
    ensures var b2 := if led.Some? then Purge(b1, led.value.id) else b1;
            Renewed(b, b2.(sessions := b2.sessions + [Session(b.nextSession, caller)],
                           nextSession := b.nextSession + 1),
                    caller, b.grants[i].token, b.nextSession, if led.Some? then Some(led.value.id) else None)
  {
    DropAt(b, i);
    assert Bound(b) ==> Bound(b1);
    EndOld(b1, caller);
    if led.Some? {
      Reopened(b, Purge(b1, led.value.id), caller, b.grants[i].token, Some(led.value.id));
    } else {
      Reopened(b, b1, caller, b.grants[i].token, None);
    }
  }

  /** A token begins a session once: it is taken out of the book, and tokens are never issued twice. */
  lemma BeginKeeps(b: Book, caller: nat, token: nat, now: nat)
    requires BookOk(b)
    ensures var (b', r) := Begin(b, caller, token, now);
            && (r.Ok? ==> Renewed(b, b', caller, token, r.value.0, r.value.1))
            && (r.Ok? ==> exists g :: g in b.grants && g.token == token)
            && (r.Err? ==> b' == b)
  {
    if Begin(b, caller, token, now).1.Ok? {
      var i := TokenGrant(b.grants, token).value;
      assert b.grants[i] in b.grants;
      BeginFrom(b, caller, i, LedBy(b.sessions, caller), b.(grants := b.grants[..i] + b.grants[i + 1..]));
    }
  }

  /** The grant is the caller's login token, and has not run out. */
  ghost predicate Usable(g: Grant, caller: nat, token: nat, now: nat) {
    g.token == token && g.pid == caller && g.loginOnce && now < g.expiresAt
  }

  /** There is room for a session, or one of the caller's own to replace. */
  ghost predicate Seat(b: Book, caller: nat) {
    |b.sessions| < 8 || exists s :: s in b.sessions && s.leader == caller
  }

  /** A login succeeds if and only if the token is the caller's, is for logging in, is in time, and there is room. */
  lemma BeginWhen(b: Book, caller: nat, token: nat, now: nat)
    requires BookOk(b)
    ensures var r := Begin(b, caller, token, now).1;
            && (r.Ok? <==> exists g :: g in b.grants && Usable(g, caller, token, now) && Seat(b, caller))
            && (r == Err(NoSuchToken) <==> forall g :: g in b.grants ==> g.token != token)
            && (r == Err(NotYours) <==>
                  exists g :: g in b.grants && g.token == token && (g.pid != caller || !g.loginOnce))
            && (r == Err(SessionsFull) <==>
                  exists g :: g in b.grants && Usable(g, caller, token, now) && !Seat(b, caller))
  {
    var found := TokenGrant(b.grants, token);
    if found.Some? {
      var i := found.value;
      forall g | g in b.grants && g.token == token ensures g == b.grants[i] {
        var k :| 0 <= k < |b.grants| && b.grants[k] == g;
        assert k < i ==> TokenOf(b.grants[k]) != TokenOf(b.grants[i]);
        assert i < k ==> TokenOf(b.grants[i]) != TokenOf(b.grants[k]);
      }
      assert b.grants[i] in b.grants;
    }
  }

  /** The grant has nothing to do with the session that ended. */
  ghost predicate Unbound(g: Grant, dead: Option<nat>) {
    dead.Some? ==> g.session != dead.value
  }

  /** A login costs the token and what was bound to the caller's old session, and no other grant. */
  lemma BeginLeaves(b: Book, caller: nat, token: nat, now: nat)
    requires BookOk(b) && Begin(b, caller, token, now).1.Ok?
    ensures var (b', r) := Begin(b, caller, token, now);
            && (forall g :: g in b'.grants <==> g in b.grants && g.token != token && Unbound(g, r.value.1))
            && (r.value.1.Some? <==> exists s :: s in b.sessions && s.leader == caller)
  {
    var i := TokenGrant(b.grants, token).value;
    DropAt(b, i);
    EndLeaves(b, b.(grants := b.grants[..i] + b.grants[i + 1..]), caller, token);
  }

  lemma EndLeaves(b: Book, b1: Book, caller: nat, token: nat)
    requires BookOk(b1) && b1.sessions == b.sessions
    requires forall g :: g in b1.grants <==> g in b.grants && g.token != token
    ensures var led := LedBy(b.sessions, caller);
            var dead := if led.Some? then Some(led.value.id) else None;
            var b2 := if led.Some? then Purge(b1, led.value.id) else b1;
            forall g :: g in b2.grants <==> g in b.grants && g.token != token && Unbound(g, dead)
  {
    var led := LedBy(b.sessions, caller);
    if led.Some? { PurgeKeeps(b1, led.value.id); }
  }

  /** A departure costs the grants of that process and what was bound to the session it led, and no other grant. */
  lemma GoneLeaves(b: Book, pid: nat)
    requires BookOk(b)
    ensures var (b', dead) := Gone(b, pid);
            && (forall g :: g in b'.grants <==> g in b.grants && g.pid != pid && Unbound(g, dead))
            && (dead.Some? <==> exists s :: s in b.sessions && s.leader == pid)
  {
    var b1 := b.(grants := Filter(b.grants, NotOf(pid)));
    forall g ensures g in b1.grants <==> g in b.grants && g.pid != pid { FilterHas(b.grants, NotOf(pid), g); }
    KeepSome(b, NotOf(pid));
    var led := LedBy(b.sessions, pid);
    if led.Some? { PurgeKeeps(b1, led.value.id); }
  }

  // ---- What an issued grant is worth ----

  ghost function InForce(grants: seq<Grant>, now: nat): set<nat> {
    set i | 0 <= i < |grants| && now < grants[i].expiresAt
  }

  lemma {:induction false} FilterCount(grants: seq<Grant>, now: nat)
    ensures |Filter(grants, Unexpired(now))| == |InForce(grants, now)|
  {
    if grants != [] {
      var n := |grants| - 1;
      FilterCount(grants[..n], now);
      assert InForce(grants, now) == InForce(grants[..n], now) + if now < grants[n].expiresAt then {n} else {};
    }
  }

  /** The new grant: whose, which capabilities, for which session, whether it is a login, and whether good at `u`. */
  ghost predicate Granted(g: Grant, target: nat, caps: set<nat>, ttl: nat, session: nat, now: nat, u: nat) {
    && g.pid == target && g.caps == caps && g.session == session && (g.loginOnce <==> 6 in caps)
    && (u < U64 - 1 ==> (u < g.expiresAt <==> ttl == 0 || u < now + ttl))
  }

  /**
   * Issuing fails if and only if nothing or the issuer bit is asked for, or 16 grants are in force. Otherwise the
   * book has the grants in force and the new one, which is good for `ttl` milliseconds, or for ever if that is 0.
   */
  lemma IssueExactly(b: Book, target: nat, caps: set<nat>, ttl: nat, session: nat, now: nat, u: nat)
    ensures var (b', r) := Issue(b, target, caps, ttl, session, now);
            && (r == Err(InvalidScope) <==> caps == {} || 5 in caps)
            && (r == Err(GrantsFull) <==> caps != {} && 5 !in caps && |InForce(b.grants, now)| >= 16)
            && (r.Err? ==> r.error in {InvalidScope, GrantsFull})
            && (r == Err(InvalidScope) ==> b' == b)
            && (r != Err(InvalidScope) ==> forall g :: g in b'.grants && g.token != b.nextToken <==>
                  g in b.grants && now < g.expiresAt && g.token != b.nextToken)
            && (r.Ok? ==> r.value == b.nextToken && b'.nextToken == b.nextToken + 1)
            && (r.Ok? ==> exists g :: g in b'.grants && g.token == b.nextToken
                                      && Granted(g, target, caps, ttl, session, now, u))
  {
    if caps != {} && CAP_ISSUER !in caps {
      var b1 := Swept(b, now);
      FilterCount(b.grants, now);
      forall g ensures g in b1.grants <==> g in b.grants && now < g.expiresAt {
        FilterHas(b.grants, Unexpired(now), g);
      }
      if |b1.grants| < MAX_GRANTS {
        var g := Grant(b.nextToken, target, caps, Deadline(ttl, now), session, CAP_SESSION in caps);
        assert (b1.grants + [g])[|b1.grants|] == g;
        assert Granted(g, target, caps, ttl, session, now, u);
      }
    }
  }

  lemma RevokeExactly(b: Book, token: nat)
    ensures forall g :: g in Revoke(b, token).grants <==> g in b.grants && g.token != token
    ensures Revoke(b, token) == b.(grants := Revoke(b, token).grants)
  {
    forall g ensures g in Revoke(b, token).grants <==> g in b.grants && g.token != token {
      FilterHas(b.grants, NotToken(token), g);
    }
  }

  /** The effective capabilities are the base ones and those of the grants in force, and no others. */
  lemma {:induction false} EffectiveExactly(grants: seq<Grant>, pid: nat, base: set<nat>, session: nat, now: nat,
                                            cap: nat)
    ensures cap in Effective(grants, pid, base, session, now) <==>
            || cap in base
            || exists g :: g in grants && g.pid == pid && now < g.expiresAt && (g.session == 0 || g.session == session)
                           && cap in g.caps
  {
    if grants != [] {
      var rest, g := grants[..|grants| - 1], grants[|grants| - 1];
      assert grants == rest + [g];
      EffectiveExactly(rest, pid, base, session, now, cap);
    }
  }

  /** A process that is gone has nothing beyond its base, and a session that ended gives nothing to anyone. */
  lemma GoneLosesAll(b: Book, pid: nat, member: nat, base: set<nat>, session: nat, now: nat)
    ensures var (b', dead) := Gone(b, pid);
            && Effective(b'.grants, pid, base, session, now) == base
            && (dead.Some? && dead.value != 0 ==>
                  Effective(b'.grants, member, base, dead.value, now) == Effective(b'.grants, member, base, 0, now))
  {
    var (b', dead) := Gone(b, pid);
    forall g | g in b'.grants ensures g.pid != pid && (dead.Some? && dead.value != 0 ==> g.session != dead.value) {
      FilterHas(b.grants, NotOf(pid), g);
      if dead.Some? && dead.value != 0 { FilterHas(Filter(b.grants, NotOf(pid)), NotBound(dead.value), g); }
    }
    forall cap ensures cap in Effective(b'.grants, pid, base, session, now) <==> cap in base {
      EffectiveExactly(b'.grants, pid, base, session, now, cap);
    }
    if dead.Some? && dead.value != 0 {
      forall cap
        ensures cap in Effective(b'.grants, member, base, dead.value, now) <==>
                  cap in Effective(b'.grants, member, base, 0, now)
      {
        EffectiveExactly(b'.grants, member, base, dead.value, now, cap);
        EffectiveExactly(b'.grants, member, base, 0, now, cap);
      }
    }
  }

  /** The right to issue is never gained beyond the base capabilities. */
  lemma IssuerNotGained(b: Book, pid: nat, base: set<nat>, session: nat, now: nat)
    requires BookOk(b)
    ensures CAP_ISSUER in Effective(b.grants, pid, base, session, now) <==> CAP_ISSUER in base
  {
    EffectiveExactly(b.grants, pid, base, session, now, CAP_ISSUER);
  }
}
