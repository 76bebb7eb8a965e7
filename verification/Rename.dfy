/** Moving a subtree of paths: the key rewriting of `rename_path` in `libs/zfs-core/src/volume.rs`. */
module Rename {
  import opened Common
  import opened Directory
  import opened Codec

  /** What the keys strictly below `root` start with. */
  function Prefix(root: string): string {
    if root == "/" then "/" else root + "/"
  }

  predicate Under(root: string, p: string) {
    p == root || StartsWith(p, Prefix(root))
  }

  /** The key that `p` gets when the subtree at `o` becomes the subtree at `n`. */
  function NewKey(o: string, n: string, p: string): string {
    if p == o then n
    else if StartsWith(p, Prefix(o)) then Prefix(n) + p[|Prefix(o)|..]
    else p
  }

  ghost predicate NormalKeys<V>(m: map<string, V>) {
    forall p :: p in m ==> Normal(p)
  }

  /** No key of the subtree moves onto an existing key. */
  ghost predicate NoClash<V>(m: map<string, V>, o: string, n: string) {
    forall p :: p in m && Under(o, p) ==> NewKey(o, n, p) !in m
  }

  lemma NewKeyNormal(o: string, n: string, p: string)
    requires Normal(o) && Normal(n) && Normal(p)
    ensures Normal(NewKey(o, n, p))
  {}

  /** Within the subtree the rewriting is one-to-one. */
  lemma NewKeyInjective(o: string, n: string, p: string, q: string)
    requires Normal(o) && Normal(n) && Normal(p) && Normal(q)
    requires Under(o, p) && Under(o, q) && NewKey(o, n, p) == NewKey(o, n, q)
    ensures p == q
  {
    if p != o && q != o {
      assert p == Prefix(o) + p[|Prefix(o)|..];
      assert q == Prefix(o) + q[|Prefix(o)|..];
      assert NewKey(o, n, p)[|Prefix(n)|..] == p[|Prefix(o)|..];
      assert NewKey(o, n, q)[|Prefix(n)|..] == q[|Prefix(o)|..];
    }
  }

  lemma MoveInjective<V>(m: map<string, V>, o: string, n: string, p: string, q: string)
    requires Normal(o) && Normal(n) && NormalKeys(m) && NoClash(m, o, n) && p in m && q in m
    requires NewKey(o, n, p) == NewKey(o, n, q)
    ensures p == q
  {
    if Under(o, p) && Under(o, q) { NewKeyInjective(o, n, p, q); }
  }

  ghost predicate Movable<V>(m: map<string, V>, o: string, n: string) {
    Normal(o) && Normal(n) && NormalKeys(m) && NoClash(m, o, n)
  }

  ghost predicate OneToOne<V>(m: map<string, V>, key: string -> string) {
    forall p, q :: p in m && q in m && key(p) == key(q) ==> p == q
  }

  /** Every key rewritten, every value kept. */
  ghost function Rekey<V>(m: map<string, V>, key: string -> string): map<string, V>
    requires OneToOne(m, key)
  {
    map p | p in m :: key(p) := m[p]
  }

  lemma RekeyValue<V>(m: map<string, V>, key: string -> string, p: string)
    requires OneToOne(m, key) && p in m
    ensures key(p) in Rekey(m, key) && Rekey(m, key)[key(p)] == m[p]
  {}

  lemma RekeyOrigin<V>(m: map<string, V>, key: string -> string, k: string) returns (p: string)
    requires OneToOne(m, key) && k in Rekey(m, key)
    ensures p in m && key(p) == k && Rekey(m, key)[k] == m[p]
  {
    p :| p in m && key(p) == k;
  }

  lemma RekeySize<V>(m: map<string, V>, key: string -> string)
    requires OneToOne(m, key)
    ensures |Rekey(m, key)| == |m|
  {
    SameSize(m, key, m.Keys);
    assert Rekey(m, key).Keys == set p | p in m.Keys :: key(p);
  }

  lemma {:induction false} SameSize<V>(m: map<string, V>, key: string -> string, keys: set<string>)
    requires OneToOne(m, key) && keys <= m.Keys
    ensures |set p | p in keys :: key(p)| == |keys|
    decreases keys
  {
    var image := set p | p in keys :: key(p);
    if keys != {} {
      var x :| x in keys;
      SameSize(m, key, keys - {x});
      var rest := set p | p in keys - {x} :: key(p);
      assert image == rest + {key(x)};
      assert key(x) !in rest;
    } else {
      assert image == {};
    }
  }

  function Mover(o: string, n: string): string -> string {
    p => NewKey(o, n, p)
  }

  lemma MoverOneToOne<V>(m: map<string, V>, o: string, n: string)
    requires Movable(m, o, n)
    ensures OneToOne(m, Mover(o, n))
  {
    forall p, q | p in m && q in m && Mover(o, n)(p) == Mover(o, n)(q) ensures p == q {
      MoveInjective(m, o, n, p, q);
    }
  }

  lemma NewKeyUnder(o: string, n: string, p: string)
    requires Under(o, p)
    ensures Under(n, NewKey(o, n, p))
  {}

  /**
   * `r` is `m` with the subtree at `o` moved to `n`, one-to-one: keys outside the subtree keep
   * their value, every key of the subtree reappears under `n`, and no entry is lost or merged.
   */
  ghost predicate MovesSubtree<V>(m: map<string, V>, r: map<string, V>, o: string, n: string) {
    && |r| == |m|
    && (forall p :: p in m && !Under(o, p) ==> p in r && r[p] == m[p])
    && (forall p :: p in m && Under(o, p) ==>
          Under(n, NewKey(o, n, p)) && NewKey(o, n, p) in r && r[NewKey(o, n, p)] == m[p])
  }

  lemma MovedExactly<V>(m: map<string, V>, o: string, n: string)
    requires Movable(m, o, n) && OneToOne(m, Mover(o, n))
    ensures MovesSubtree(m, Rekey(m, Mover(o, n)), o, n)
  {
    var r := Rekey(m, Mover(o, n));
    RekeySize(m, Mover(o, n));
    forall p | p in m && Under(o, p)
      ensures Under(n, NewKey(o, n, p)) && NewKey(o, n, p) in r
      ensures r[NewKey(o, n, p)] == m[p]
    {
      NewKeyUnder(o, n, p);
      RekeyValue(m, Mover(o, n), p);
    }
    forall p | p in m && !Under(o, p) ensures p in r && r[p] == m[p] {
      RekeyValue(m, Mover(o, n), p);
    }
  }

  // ---- The rewriting as the volume performs it ----

  function TrimSlashes(v: string): string {
    if v != "" && v[|v| - 1] == '/' then TrimSlashes(v[..|v| - 1]) else v
  }

  /** A path argument that starts at the root, so that its trimmed form is a prefix of its subtree. */
  predicate Anchored(path: string) {
    path == "" || path[0] == '/'
  }

  lemma {:induction false} TrimStrip(v: string)
    requires v != "" && v[0] == '/'
    ensures TrimSlashes(v) + "/" == Prefix(StripSlashes(v))
    decreases |v|
  {
    if |v| > 1 && v[|v| - 1] == '/' { TrimStrip(v[..|v| - 1]); }
  }

  lemma AnchoredPrefix(path: string)
    requires Anchored(path)
    ensures TrimSlashes(path) + "/" == Prefix(Normalize(path))
  {
    if path != "" { TrimStrip(path); }
  }

  lemma {:induction false} TrimKeepsHead(v: string)
    requires v != "" && v[0] != '/'
    ensures TrimSlashes(v) != "" && TrimSlashes(v)[0] == v[0]
    decreases |v|
  {
    if v[|v| - 1] == '/' { TrimKeepsHead(v[..|v| - 1]); }
  }

  /** A path that is not anchored names no subtree: only the entry itself is rewritten. */
  lemma UnanchoredPrefix(path: string, p: string)
    requires !Anchored(path) && Normal(p)
    ensures !StartsWith(p, TrimSlashes(path) + "/")
  {
    TrimKeepsHead(path);
    assert (TrimSlashes(path) + "/")[0] == path[0];
  }

  function Single(o: string, n: string): string -> string {
    p => if p == o then n else p
  }

  /** How `rename_path` rewrites the keys when the entry at `old` is a directory. */
  function Rewriting(old': string, new': string): string -> string {
    if Anchored(old') then Mover(Normalize(old'), Normalize(new')) else Single(Normalize(old'), Normalize(new'))
  }

  datatype Move = Move(src: string, dst: string, entry: Entry)

  function KeyOf(m: Move, target: bool): string {
    Normalize(if target then m.dst else m.src)
  }

  ghost function Keys(ms: seq<Move>, target: bool): set<string> {
    if ms == [] then {} else Keys(ms[..|ms| - 1], target) + {KeyOf(ms[|ms| - 1], target)}
  }

  ghost function Inserted(d: Dir, ms: seq<Move>, target: bool): Dir {
    if ms == [] then d
    else var m := ms[|ms| - 1]; Inserted(d, ms[..|ms| - 1], target)[KeyOf(m, target) := m.entry]
  }

  method RemoveAll(d: Dir, ms: seq<Move>, target: bool) returns (r: Dir)
    ensures r == d - Keys(ms, target)
  {
    r := d;
    for i := 0 to |ms|
      invariant r == d - Keys(ms[..i], target)
    {
      var k := ComputeNormalize(if target then ms[i].dst else ms[i].src);
      assert ms[..i + 1][..i] == ms[..i];
      r := r - {k};
    }
    assert ms[..|ms|] == ms;
  }

  method InsertAll(d: Dir, ms: seq<Move>, target: bool) returns (r: Dir)
    ensures r == Inserted(d, ms, target)
  {
    r := d;
    for i := 0 to |ms|
      invariant r == Inserted(d, ms[..i], target)
    {
      var k := ComputeNormalize(if target then ms[i].dst else ms[i].src);
      assert ms[..i + 1][..i] == ms[..i];
      r := r[k := ms[i].entry];
    }
    assert ms[..|ms|] == ms;
  }

  lemma {:induction false} KeysMember(ms: seq<Move>, target: bool, m: Move)
    requires m in ms
    ensures KeyOf(m, target) in Keys(ms, target)
  {
    var front := ms[..|ms| - 1];
    assert ms == front + [ms[|ms| - 1]];
    if m in front { KeysMember(front, target, m); }
  }

  lemma {:induction false} KeysOrigin(ms: seq<Move>, target: bool, k: string) returns (m: Move)
    requires k in Keys(ms, target)
    ensures m in ms && KeyOf(m, target) == k
  {
    var front := ms[..|ms| - 1];
    m := ms[|ms| - 1];
    if KeyOf(m, target) != k { m := KeysOrigin(front, target, k); }
  }

  lemma {:induction false} InsertedAt(d: Dir, ms: seq<Move>, target: bool, k: string)
    ensures k in Inserted(d, ms, target) <==> k in d || k in Keys(ms, target)
    ensures k in d && k !in Keys(ms, target) ==> Inserted(d, ms, target)[k] == d[k]
    ensures k in Keys(ms, target) ==>
              exists m :: m in ms && KeyOf(m, target) == k && Inserted(d, ms, target)[k] == m.entry
  {
    if ms != [] {
      var m := ms[|ms| - 1];
      InsertedAt(d, ms[..|ms| - 1], target, k);
      assert m in ms;
    }
  }

  /** The moves say, for each key of `d` that changes, where it goes; no target exists yet. */
  ghost predicate Describes(ms: seq<Move>, d: Dir, key: string -> string) {
    && OneToOne(d, key)
    && (forall m :: m in ms ==> Describe(m, d, key))
    && (forall p :: p in d && p !in Keys(ms, false) ==> key(p) == p)
  }

  ghost predicate Describe(m: Move, d: Dir, key: string -> string) {
    var k := KeyOf(m, false);
    k in d && m.entry == d[k] && KeyOf(m, true) == key(k) && key(k) !in d
  }

  /** Removing the sources and inserting the targets rewrites the keys. */
  lemma MovedForward(ms: seq<Move>, d: Dir, key: string -> string)
    requires Describes(ms, d, key)
    ensures Inserted(d - Keys(ms, false), ms, true) == Rekey(d, key)
  {
    var mid := d - Keys(ms, false);
    var r := Inserted(mid, ms, true);
    forall k | k in r ensures k in Rekey(d, key) && Rekey(d, key)[k] == r[k] {
      InsertedAt(mid, ms, true, k);
      if k in Keys(ms, true) {
        var m :| m in ms && KeyOf(m, true) == k && r[k] == m.entry;
        RekeyValue(d, key, KeyOf(m, false));
      } else {
        RekeyValue(d, key, k);
      }
    }
    forall k | k in Rekey(d, key) ensures k in r {
      var p := RekeyOrigin(d, key, k);
      InsertedAt(mid, ms, true, k);
      if p in Keys(ms, false) {
        var m := KeysOrigin(ms, false, p);
        KeysMember(ms, true, m);
      }
    }
  }

  lemma BackFrom(ms: seq<Move>, d: Dir, key: string -> string, k: string)
    requires Describes(ms, d, key) && k in Rekey(d, key) && k !in Keys(ms, true)
    ensures k in d && Rekey(d, key)[k] == d[k] && k !in Keys(ms, false)
  {
    var p := RekeyOrigin(d, key, k);
    if p in Keys(ms, false) {
      var m := KeysOrigin(ms, false, p);
      KeysMember(ms, true, m);
    }
  }

  lemma BackTo(ms: seq<Move>, d: Dir, key: string -> string, k: string)
    requires Describes(ms, d, key) && k in d && k !in Keys(ms, false)
    ensures k in Rekey(d, key) && k !in Keys(ms, true)
  {
    RekeyValue(d, key, k);
    if k in Keys(ms, true) { var m := KeysOrigin(ms, true, k); }
  }

  /** Undoing it, as after a failed commit, restores the directory exactly. */
  lemma MovedBack(ms: seq<Move>, d: Dir, key: string -> string, moved: Dir)
    requires Describes(ms, d, key) && moved == Rekey(d, key)
    ensures Inserted(moved - Keys(ms, true), ms, false) == d
  {
    var mid := moved - Keys(ms, true);
    var r := Inserted(mid, ms, false);
    forall k | k in r ensures k in d && d[k] == r[k] {
      InsertedAt(mid, ms, false, k);
      if k !in Keys(ms, false) { BackFrom(ms, d, key, k); }
    }
    forall k | k in d ensures k in r {
      InsertedAt(mid, ms, false, k);
      if k !in Keys(ms, false) { BackTo(ms, d, key, k); }
    }
  }

  lemma StripOne(n: string)
    requires Normal(n)
    ensures Normalize(n + "/") == n
  {
    var v := n + "/";
    assert v[0] == '/' && v[..|n|] == n;
    assert StripSlashes(v) == StripSlashes(n) == n;
  }

  lemma BelowKey(o: string, n: string, p: string, dest: string)
    requires Normal(o) && Normal(n) && Normal(p) && StartsWith(p, Prefix(o))
    requires dest == Prefix(n) + p[|Prefix(o)|..]
    ensures Normalize(dest) == NewKey(o, n, p)
    ensures p != o ==> dest == NewKey(o, n, p)
    ensures p == o ==> !Normal(dest) || dest == n
  {
    if p == o {
      assert dest == Prefix(n);
      if n != "/" { StripOne(n); }
    } else {
      NewKeyNormal(o, n, p);
      NormalizeIsNormal(dest);
    }
  }

  /** A key below the prefix: it is in the subtree, and unless it is the root it goes to `dest`. */
  lemma BelowPrefix(from: string, to: string, p: string, dest: string)
    requires Anchored(to) && Normal(p) && StartsWith(p, TrimSlashes(from) + "/")
    requires dest == TrimSlashes(to) + "/" + p[|TrimSlashes(from) + "/"|..]
    ensures Anchored(from) && Under(Normalize(from), p)
    ensures Normalize(dest) == NewKey(Normalize(from), Normalize(to), p)
    ensures p != Normalize(from) ==> dest == NewKey(Normalize(from), Normalize(to), p)
    ensures p == Normalize(from) ==> !Normal(dest) || dest == Normalize(to)
  {
    if !Anchored(from) { UnanchoredPrefix(from, p); }
    AnchoredPrefix(from);
    AnchoredPrefix(to);
    NormalizeIsNormal(from);
    NormalizeIsNormal(to);
    BelowKey(Normalize(from), Normalize(to), p, dest);
  }

  lemma OutsidePrefix(from: string, to: string, p: string)
    requires Normal(p) && p != Normalize(from) && !StartsWith(p, TrimSlashes(from) + "/")
    ensures Rewriting(from, to)(p) == p
    ensures Anchored(from) ==> !Under(Normalize(from), p)
  {
    if Anchored(from) { AnchoredPrefix(from); }
  }

  lemma RewritingOneToOne(d: Dir, from: string, to: string)
    requires NormalKeys(d) && Normalize(to) !in d
    requires Anchored(from) ==> NoClash(d, Normalize(from), Normalize(to))
    ensures OneToOne(d, Rewriting(from, to))
  {
    if Anchored(from) {
      NormalizeIsNormal(from);
      NormalizeIsNormal(to);
      MoverOneToOne(d, Normalize(from), Normalize(to));
    }
  }

  lemma Clash(d: Dir, from: string, to: string, p: string, dest: string)
    requires NormalKeys(d) && p in d && dest in d && Anchored(to) && Normalize(to) !in d
    requires StartsWith(p, TrimSlashes(from) + "/")
    requires dest == TrimSlashes(to) + "/" + p[|TrimSlashes(from) + "/"|..]
    ensures Anchored(from) && !NoClash(d, Normalize(from), Normalize(to))
  {
    BelowPrefix(from, to, p, dest);
  }

  /** Where the moves collected so far stand after the keys `ks[..i]`. */
  ghost predicate Collected(ms: seq<Move>, d: Dir, from: string, to: string, ks: seq<string>) {
    && Normalize(from) in Keys(ms, false)
    && (forall m :: m in ms ==> Describe(m, d, Rewriting(from, to)))
    && (forall p :: p in ks && StartsWith(p, TrimSlashes(from) + "/") ==> p in Keys(ms, false))
  }

  lemma BelowDescribed(d: Dir, from: string, to: string, p: string, dest: string)
    requires NormalKeys(d) && p in d && Anchored(to) && Normalize(to) !in d
    requires StartsWith(p, TrimSlashes(from) + "/")
    requires dest == TrimSlashes(to) + "/" + p[|TrimSlashes(from) + "/"|..] && dest !in d
    ensures Describe(Move(p, dest, d[p]), d, Rewriting(from, to))
  {
    BelowPrefix(from, to, p, dest);
    NormalizeIsNormal(p);
  }

  lemma CollectedNext(ms: seq<Move>, d: Dir, from: string, to: string, ks: seq<string>, p: string, dest: string)
    requires NormalKeys(d) && p in d && Anchored(to) && Normalize(to) !in d
    requires Collected(ms, d, from, to, ks) && StartsWith(p, TrimSlashes(from) + "/")
    requires dest == TrimSlashes(to) + "/" + p[|TrimSlashes(from) + "/"|..] && dest !in d
    ensures Collected(ms + [Move(p, dest, d[p])], d, from, to, ks + [p])
  {
    var m := Move(p, dest, d[p]);
    BelowDescribed(d, from, to, p, dest);
    assert (ms + [m])[..|ms|] == ms;
  }

  lemma CollectedAll(ms: seq<Move>, d: Dir, from: string, to: string, ks: seq<string>)
    requires NormalKeys(d) && Normalize(to) !in d && (forall p :: p in d ==> p in ks)
    requires Collected(ms, d, from, to, ks)
    ensures Describes(ms, d, Rewriting(from, to))
    ensures Anchored(from) ==> NoClash(d, Normalize(from), Normalize(to))
  {
    var o, n := Normalize(from), Normalize(to);
    forall p | p in d && Anchored(from) && Under(o, p) ensures NewKey(o, n, p) !in d {
      if p !in Keys(ms, false) { OutsidePrefix(from, to, p); }
      var m := KeysOrigin(ms, false, p);
    }
    RewritingOneToOne(d, from, to);
    forall p | p in d && p !in Keys(ms, false) ensures Rewriting(from, to)(p) == p {
      OutsidePrefix(from, to, p);
    }
  }

  /** Collecting the moves, in key order: the root first, then the keys below it. */
  method Collect(d: Dir, from: string, to: string) returns (r: Result<seq<Move>, Error>)
    requires NormalKeys(d) && Normalize(from) in d && Normalize(to) !in d && Anchored(to)
    ensures r.Ok? ==> Describes(r.value, d, Rewriting(from, to))
    ensures r.Err? <==> Anchored(from) && !NoClash(d, Normalize(from), Normalize(to))
    ensures r.Err? ==> r.error == DirectoryConflict
  {
    var prefix, newPrefix := TrimSlashes(from) + "/", TrimSlashes(to) + "/";
    var root := Move(from, to, d[Normalize(from)]);
    var ms := [root];
    var ks := Sorted(d.Keys);
    SortedLists(d.Keys);
    assert Collected(ms, d, from, to, ks[..0]) by {
      KeysMember(ms, false, root);
      assert Describe(root, d, Rewriting(from, to));
    }
    for i := 0 to |ks|
      invariant Collected(ms, d, from, to, ks[..i])
    {
      var p := ks[i];
      assert p in d.Keys;
      assert ks[..i + 1] == ks[..i] + [p];
      if StartsWith(p, prefix) {
        var dest := newPrefix + p[|prefix|..];
        if dest in d {
          Clash(d, from, to, p, dest);
          return Err(DirectoryConflict);
        }
        CollectedNext(ms, d, from, to, ks[..i], p, dest);
        ms := ms + [Move(p, dest, d[p])];
      }
    }
    assert ks[..|ks|] == ks;
    CollectedAll(ms, d, from, to, ks);
    return Ok(ms);
  }

  lemma SingleExactly(d: Dir, o: string, n: string)
    requires Movable(d, o, n) && o in d && OneToOne(d, Single(o, n))
    requires forall p :: p in d && Under(o, p) ==> p == o
    ensures MovesSubtree(d, Rekey(d, Single(o, n)), o, n)
  {
    var r := Rekey(d, Single(o, n));
    RekeySize(d, Single(o, n));
    RekeyValue(d, Single(o, n), o);
    NewKeyUnder(o, n, o);
    forall p | p in d && !Under(o, p) ensures p in r && r[p] == d[p] { RekeyValue(d, Single(o, n), p); }
  }

  lemma SingleLeaves(d: Dir, o: string, n: string, p: string)
    requires Movable(d, o, n) && o in d && OneToOne(d, Single(o, n))
    requires p in d && Under(o, p) && p != o
    ensures !MovesSubtree(d, Rekey(d, Single(o, n)), o, n)
  {
    var r, k := Rekey(d, Single(o, n)), NewKey(o, n, p);
    if k in r {
      var q := RekeyOrigin(d, Single(o, n), k);
      NewKeyInjective(o, n, p, o);
    }
  }

  /**
   * A directory rename onto free keys moves exactly the subtree, one-to-one, if and only if the
   * old path is written from the root or the directory has nothing below it.
   */
  lemma RenameScope(d: Dir, from: string, to: string)
    requires NormalKeys(d) && Normalize(from) in d && NoClash(d, Normalize(from), Normalize(to))
    requires OneToOne(d, Rewriting(from, to))
    ensures MovesSubtree(d, Rekey(d, Rewriting(from, to)), Normalize(from), Normalize(to))
            <==> Anchored(from) || forall p :: p in d && Under(Normalize(from), p) ==> p == Normalize(from)
  {
    var o, n := Normalize(from), Normalize(to);
    NormalizeIsNormal(from);
    NormalizeIsNormal(to);
    if Anchored(from) {
      MovedExactly(d, o, n);
    } else if p :| p in d && Under(o, p) && p != o {
      SingleLeaves(d, o, n, p);
    } else {
      SingleExactly(d, o, n);
    }
  }

  /** Renaming "a" instead of "/a" leaves "/a/b" behind. */
  lemma UnanchoredExample(d: Dir)
    requires d.Keys == {"/a", "/a/b"}
    ensures OneToOne(d, Rewriting("a", "/c"))
    ensures !MovesSubtree(d, Rekey(d, Rewriting("a", "/c")), "/a", "/c")
  {
    var from, to, o, n, p := "a", "/c", "/a", "/c", "/a/b";
    assert Normalize(from) == o && Normalize(to) == n && !Anchored(from);
    assert n !in d.Keys && p in d.Keys && o in d.Keys;
    RewritingOneToOne(d, from, to);
    assert Prefix(o) == "/a/" && StartsWith(p, Prefix(o)) && Under(o, p);
    assert NewKey(o, n, p) == "/c/b";
    SingleLeaves(d, o, n, p);
  }
}
