/** Inodes, directory entries and path normalisation: `on_disk.rs` and `directory.rs` of zfs-core. */
module Directory {
  import opened Common

  datatype Kind = File | Directory | Symlink | AppBundle

  datatype Inode = Inode(
    id: u64, kind: Kind, size: u64, mode: word, uid: word, gid: word, links: word,
    data: seq<u64>, extentRoot: u64, ctime: u64, mtime: u64)

  datatype Entry = Entry(inode: Inode, blocks: seq<u64>, signature: Option<seq<byte>>)

  type Dir = map<string, Entry>

  /** The twelve inline block pointers of an inode. */
  function Direct(blocks: seq<u64>): (data: seq<u64>)
    ensures |data| == 12
  {
    seq(12, i => if 0 <= i < |blocks| then blocks[i] else 0)
  }

  /** What every entry the volume builds looks like. */
  ghost predicate WellFormed(e: Entry) {
    && e.inode.data == Direct(e.blocks)
    && e.inode.extentRoot == 0
    && (e.signature.Some? ==> |e.signature.value| == 32)
  }

  ghost predicate WellFormedDir(d: Dir) {
    forall p :: p in d ==> WellFormed(d[p])
  }

  // ---- Paths ----

  function StripSlashes(v: string): (r: string)
    ensures v != "" ==> r != "" && r[0] == v[0]
    ensures |r| <= 1 || r[|r| - 1] != '/'
  {
    if |v| > 1 && v[|v| - 1] == '/' then StripSlashes(v[..|v| - 1]) else v
  }

  function Normalize(path: string): string {
    if path == "" then "/"
    else StripSlashes(if path[0] == '/' then path else "/" + path)
  }

  /** A stored key: absolute, and without a trailing slash unless it is the root. */
  predicate Normal(p: string) {
    p != "" && p[0] == '/' && (|p| == 1 || p[|p| - 1] != '/')
  }

  method ComputeNormalize(path: string) returns (value: string)
    ensures value == Normalize(path)
  {
    if path == "" {
      return "/";
    }
    value := path;
    if value[0] != '/' {
      value := "/" + value;
    }
    while value[|value| - 1] == '/' && |value| > 1
      invariant value != "" && Normalize(path) == StripSlashes(value)
      decreases |value|
    {
      value := value[..|value| - 1];
    }
  }

  /** Normalising yields a stored key, and leaves exactly the stored keys alone. */
  lemma NormalizeIsNormal(path: string)
    ensures Normal(Normalize(path))
    ensures Normalize(path) == path <==> Normal(path)
  {}

  /** The path with a slash in front, if it had none, and without the slashes at its end. */
  lemma NormalizeStrips(path: string)
    ensures path == "" ==> Normalize(path) == "/"
    ensures path != "" ==>
              var v, r := if path[0] == '/' then path else "/" + path, Normalize(path);
              r <= v && (|r| == 1 || r[|r| - 1] != '/') && forall i :: |r| <= i < |v| ==> v[i] == '/'
  {
    if path != "" { StripIs(if path[0] == '/' then path else "/" + path); }
  }

  lemma {:induction false} StripIs(v: string)
    ensures StripSlashes(v) <= v && forall i :: |StripSlashes(v)| <= i < |v| ==> v[i] == '/'
  {
    if |v| > 1 && v[|v| - 1] == '/' { StripIs(v[..|v| - 1]); }
  }

  predicate StartsWith(s: string, prefix: string) {
    |prefix| <= |s| && s[..|prefix|] == prefix
  }

  predicate ContainsDotDot(s: string) {
    exists i :: 0 <= i < |s| - 1 && s[i] == '.' && s[i + 1] == '.'
  }

  /** The paths that the metadata decoder accepts. */
  predicate PathOk(p: string) {
    p != "" && p[0] == '/' && !ContainsDotDot(p)
  }

  predicate PathsOk(d: Dir) {
    forall p :: p in d ==> PathOk(p)
  }
}
