/** Ring buffers: what the slots of a fixed array say about a queue. */
module Ring {
  import opened Common

  /** The slot `i` places after `head` in a ring of `n`. */
  function At(head: nat, i: nat, n: nat): nat
    requires head < n && i <= n
  {
    if head + i < n then head + i else head + i - n
  }

  /** The ring holds the elements of `q`, in order, from `head` on. */
  ghost predicate Spells<T(!new)>(b: seq<T>, head: nat, q: seq<T>) {
    && head < |b| && |q| <= |b|
    && forall i :: 0 <= i < |q| ==> b[At(head, i, |b|)] == q[i]
  }

  lemma OneTurn(x: nat, n: nat, q: nat, r: nat)
    requires 0 < n && x < 2 * n && x == n * q + r && r < n
    ensures r == if x < n then x else x - n
  {
    if q >= 2 { Twice(n, q); }
  }

  lemma Twice(n: nat, q: nat)
    requires q >= 2
    ensures n * q >= 2 * n
  {}

  lemma Wrap(head: nat, i: nat, n: nat)
    requires head < n && i <= n
    ensures (head + i) % n == At(head, i, n)
  {
    OneTurn(head + i, n, (head + i) / n, (head + i) % n);
  }

  lemma SpellsPush<T(!new)>(b: seq<T>, head: nat, q: seq<T>, x: T)
    requires Spells(b, head, q) && |q| < |b|
    ensures Spells(b[At(head, |q|, |b|) := x], head, q + [x])
    ensures (At(head, |q|, |b|) + 1) % |b| == At(head, |q| + 1, |b|)
  {
    Wrap(At(head, |q|, |b|), 1, |b|);
  }

  lemma SpellsPop<T(!new)>(b: seq<T>, head: nat, q: seq<T>, none: T)
    requires Spells(b, head, q) && q != []
    ensures b[head] == q[0] && Spells(b[head := none], (head + 1) % |b|, q[1..])
    ensures At(head, |q|, |b|) == At((head + 1) % |b|, |q| - 1, |b|)
  {
    Wrap(head, 1, |b|);
    assert b[At(head, 0, |b|)] == q[0];
    var b', head', q' := b[head := none], At(head, 1, |b|), q[1..];
    forall i | 0 <= i < |q'| ensures b'[At(head', i, |b'|)] == q'[i] {
      assert At(head', i, |b|) == At(head, i + 1, |b|);
      assert b[At(head, i + 1, |b|)] == q[i + 1];
    }
  }

  /** Where element `i` of the queue comes from when those from `off` up to `j` have been moved up. */
  function Moved(off: nat, j: nat, i: nat): nat {
    if off <= i < j then i + 1 else i
  }

  /** Taking element `off` out by moving the later ones up: those before `j` have been moved. */
  ghost predicate Shifted<T(!new)>(b: seq<T>, head: nat, q: seq<T>, off: nat, j: nat) {
    && head < |b| && |q| <= |b| && j < |q|
    && forall i :: 0 <= i < |q| ==> b[At(head, i, |b|)] == q[Moved(off, j, i)]
  }

  lemma ShiftStart<T(!new)>(b: seq<T>, head: nat, q: seq<T>, off: nat)
    requires Spells(b, head, q) && off < |q|
    ensures Shifted(b, head, q, off, off)
  {}

  lemma ShiftNext<T(!new)>(b: seq<T>, head: nat, q: seq<T>, off: nat, j: nat)
    requires Shifted(b, head, q, off, j) && off <= j && j + 1 < |q|
    ensures Shifted(b[At(head, j, |b|) := b[At(head, j + 1, |b|)]], head, q, off, j + 1)
  {
    assert b[At(head, j + 1, |b|)] == q[Moved(off, j, j + 1)];
    var b' := b[At(head, j, |b|) := b[At(head, j + 1, |b|)]];
    forall i | 0 <= i < |q| ensures b'[At(head, i, |b'|)] == q[Moved(off, j + 1, i)] {
      assert b[At(head, i, |b|)] == q[Moved(off, j, i)];
    }
  }

  lemma ShiftedOut<T(!new)>(b: seq<T>, head: nat, q: seq<T>, off: nat)
    requires off < |q| && Shifted(b, head, q, off, |q| - 1)
    ensures Spells(b, head, q[..off] + q[off + 1..])
    ensures (At(head, |q|, |b|) + |b| - 1) % |b| == At(head, |q| - 1, |b|)
  {
    Wrap(At(head, |q|, |b|), |b| - 1, |b|);
    var q' := q[..off] + q[off + 1..];
    forall i | 0 <= i < |q'| ensures b[At(head, i, |b|)] == q'[i] {
      assert b[At(head, i, |b|)] == q[Moved(off, |q| - 1, i)];
    }
  }
}
