/** The abstract life of a volume: a tree of paths, and the events that change it. */
module History {
  import opened Common
  import opened Disk
  import opened Directory
  import opened Files
  import opened Rename

  /** `Renamed` covers the subtree when `whole`, and the entry alone otherwise. */
  datatype Event =
    | Wrote(path: string, bytes: seq<byte>)
    | Removed(path: string)
    | Made(path: string)
    | Renamed(from: string, to: string, whole: bool)

  function KeyChange(from: string, to: string, whole: bool): string -> string {
    if whole then Rewriting(from, to) else Single(Normalize(from), Normalize(to))
  }

  ghost function Effect(t: Tree, ev: Event): Tree {
    match ev
    case Wrote(p, bytes) => t[p := FileNode(bytes)]
    case Removed(p) => t - {p}
    case Made(p) => t[p := OtherNode(Kind.Directory)]
    case Renamed(from, to, whole) =>
      var key := KeyChange(from, to, whole);
      if OneToOne(t, key) then Rekey(t, key) else t
  }

  ghost function Replay(t: Tree, events: seq<Event>): Tree {
    if events == [] then t else Effect(Replay(t, events[..|events| - 1]), events[|events| - 1])
  }

  lemma ReplayNext(t: Tree, events: seq<Event>, ev: Event)
    ensures Replay(t, events + [ev]) == Effect(Replay(t, events), ev)
  {
    assert (events + [ev])[..|events|] == events;
  }

  /** An event that has nothing to do with the file at `p`. */
  ghost predicate Elsewhere(ev: Event, p: string) {
    match ev
    case Wrote(q, _) => q != p
    case Removed(q) => q != p
    case Made(q) => q != p
    case Renamed(from, to, whole) => KeyChange(from, to, whole)(p) == p
  }

  /** The file at `p` is what was last written there, whatever happened to other paths since. */
  lemma {:induction false} LastWriteWins(t: Tree, events: seq<Event>, i: nat, p: string)
    requires i < |events| && events[i].Wrote? && events[i].path == p
    requires forall j :: i < j < |events| ==> Elsewhere(events[j], p)
    ensures p in Replay(t, events) && Replay(t, events)[p] == FileNode(events[i].bytes)
    decreases |events|
  {
    var ev := events[|events| - 1];
    var before := events[..|events| - 1];
    if i < |before| {
      LastWriteWins(t, before, i, p);
      if ev.Renamed? {
        var key := KeyChange(ev.from, ev.to, ev.whole);
        if OneToOne(Replay(t, before), key) { RekeyValue(Replay(t, before), key, p); }
      }
    }
  }

  // ---- Directory updates as tree updates ----

  lemma TreeInsert(dev: Dev, d: Dir, p: string, e: Entry)
    ensures TreeOf(dev, d[p := e]) == TreeOf(dev, d)[p := NodeOf(dev, e)]
  {}

  lemma TreeRemove(dev: Dev, d: Dir, p: string)
    ensures TreeOf(dev, d - {p}) == TreeOf(dev, d) - {p}
  {}

  lemma TreeRekey(dev: Dev, d: Dir, key: string -> string)
    requires OneToOne(d, key)
    ensures OneToOne(TreeOf(dev, d), key)
    ensures TreeOf(dev, Rekey(d, key)) == Rekey(TreeOf(dev, d), key)
  {
    var t, r := TreeOf(dev, d), Rekey(d, key);
    forall k | k in r ensures k in Rekey(t, key) && Rekey(t, key)[k] == NodeOf(dev, r[k]) {
      var p := RekeyOrigin(d, key, k);
      RekeyValue(t, key, p);
    }
    forall k | k in Rekey(t, key) ensures k in r {
      var p := RekeyOrigin(t, key, k);
      RekeyValue(d, key, p);
    }
  }
}
