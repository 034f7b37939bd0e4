/** Rows, columns and chunks of tensors. A two-dimensional tensor is the sequence of its rows. */
module Tensors {
  import opened Arith

  type Vector = seq<real>
  type Matrix = seq<Vector>

  predicate Rect(m: Matrix, width: nat) { forall i :: 0 <= i < |m| ==> |m[i]| == width }

  /** Concatenation of all parts, in order. */
  function Concat<T>(parts: seq<seq<T>>): seq<T> {
    if parts == [] then [] else Concat(parts[..|parts| - 1]) + parts[|parts| - 1]
  }

  /** Piece i of n equal pieces; a chunk of a tensor that splits evenly. */
  function Chunk<T>(s: seq<T>, n: nat, i: nat): (c: seq<T>)
    requires i < n && |s| % n == 0
    ensures |c| == |s| / n
  {
    ChunkBounds(|s|, n, i);
    s[i * (|s| / n)..(i + 1) * (|s| / n)]
  }

  lemma ChunkBounds(size: nat, n: nat, i: nat)
    requires i < n && size % n == 0
    ensures size == n * (size / n)
    ensures 0 <= i * (size / n) <= (i + 1) * (size / n) <= size
    ensures (i + 1) * (size / n) - i * (size / n) == size / n
  {
    var w := size / n;
    assert size == n * w + size % n;
    assert (i + 1) * w == i * w + w;
    MulMonotone(i + 1, n, w);
  }

  lemma ChunkAt<T>(s: seq<T>, n: nat, i: nat, k: nat)
    requires i < n && |s| % n == 0 && k < |s| / n
    ensures 0 <= i * (|s| / n) + k < |s| && Chunk(s, n, i)[k] == s[i * (|s| / n) + k]
  {
    ChunkBounds(|s|, n, i);
  }

  function Chunks<T>(s: seq<T>, n: nat): (parts: seq<seq<T>>)
    requires n > 0 && |s| % n == 0
    ensures |parts| == n
  {
    seq(n, i requires 0 <= i < n => Chunk(s, n, i))
  }

  lemma {:induction false} ChunksPrefix<T>(s: seq<T>, n: nat, k: nat)
    requires n > 0 && |s| % n == 0 && k <= n
    ensures 0 <= k * (|s| / n) <= |s|
    ensures Concat(Chunks(s, n)[..k]) == s[..k * (|s| / n)]
  {
    var w := |s| / n;
    if k == 0 {
      assert 0 * w == 0;
    } else {
      ChunksPrefix(s, n, k - 1);
      ChunkBounds(|s|, n, k - 1);
      var parts := Chunks(s, n)[..k];
      assert parts[..k - 1] == Chunks(s, n)[..k - 1];
      assert parts[k - 1] == s[(k - 1) * w..k * w];
      assert s[..(k - 1) * w] + s[(k - 1) * w..k * w] == s[..k * w];
    }
  }

  /** Cutting into equal pieces and concatenating them again changes nothing. */
  lemma ChunksConcat<T>(s: seq<T>, n: nat)
    requires n > 0 && |s| % n == 0
    ensures Concat(Chunks(s, n)) == s
  {
    ChunksPrefix(s, n, n);
    ChunkBounds(|s|, n, n - 1);
    assert Chunks(s, n)[..n] == Chunks(s, n) && s[..|s|] == s;
  }

  lemma ConcatOne<T>(a: seq<T>)
    ensures Concat([a]) == a
  {
    assert [a][..0] == [];
    assert Concat([a]) == Concat<T>([]) + a;
  }

  lemma {:induction false} ConcatJoin<T>(a: seq<seq<T>>, b: seq<seq<T>>)
    ensures Concat(a + b) == Concat(a) + Concat(b)
    decreases |b|
  {
    if b == [] {
      assert a + b == a;
    } else {
      var front, last := b[..|b| - 1], b[|b| - 1];
      ConcatJoin(a, front);
      assert (a + b)[..|a + b| - 1] == a + front;
      assert Concat(a) + (Concat(front) + last) == (Concat(a) + Concat(front)) + last;
    }
  }

  /** Columns lo .. hi of every row. */
  function Columns(m: Matrix, lo: nat, hi: nat): (c: Matrix)
    requires lo <= hi && forall i :: 0 <= i < |m| ==> hi <= |m[i]|
    ensures |c| == |m| && Rect(c, hi - lo)
  {
    seq(|m|, i requires 0 <= i < |m| => m[i][lo..hi])
  }

  // ----- parts of equal size

  predicate EqualParts<T>(parts: seq<seq<T>>, w: nat) { forall j :: 0 <= j < |parts| ==> |parts[j]| == w }

  lemma {:induction false} ConcatAt<T>(parts: seq<seq<T>>, w: nat, j: nat, x: nat)
    requires EqualParts(parts, w) && j < |parts| && x < w
    ensures |Concat(parts)| == |parts| * w && 0 <= j * w + x < |Concat(parts)| && Concat(parts)[j * w + x] == parts[j][x]
  {
    var m := |parts| - 1;
    ConcatLength(parts[..m], w);
    assert |parts| * w == m * w + w;
    SlotBound(j, w, |parts|, x);
    if j < m { ConcatAt(parts[..m], w, j, x); }
  }

  lemma {:induction false} ConcatLength<T>(parts: seq<seq<T>>, w: nat)
    requires EqualParts(parts, w)
    ensures |Concat(parts)| == |parts| * w
  {
    if parts != [] {
      var m := |parts| - 1;
      ConcatLength(parts[..m], w);
      assert |parts| * w == m * w + w;
    }
  }

  /** The size of a chunk is the same whether the parts or the whole are cut. */
  lemma PartSize(w: nat, n: nat, shards: nat)
    requires n > 0 && shards > 0 && w % n == 0
    ensures shards * n > 0 && (shards * w) % (shards * n) == 0 && (shards * w) / (shards * n) == w / n
  {
    var q := w / n;
    ChunkBounds(w, n, 0);
    SlotBound(shards - 1, n, shards, n - 1);
    assert shards * w == q * (shards * n) by {
      assert w == n * q;
      assert shards * (n * q) == (shards * n) * q;
    }
    DivModUnique(shards * w, shards * n, q, 0);
  }

  lemma PartOffset(j: nat, n: nat, i: nat, q: nat, w: nat, x: nat)
    requires w == n * q
    ensures (j * n + i) * q + x == j * w + (i * q + x)
  {
    assert (j * n + i) * q == j * n * q + i * q;
    assert j * (n * q) == j * n * q;
  }

  /** Cutting the whole into shards * n chunks gives the chunks of the parts, one part after the other. */
  lemma ShardChunk<T>(parts: seq<seq<T>>, w: nat, n: nat, j: nat, i: nat)
    requires EqualParts(parts, w) && n > 0 && w % n == 0 && j < |parts| && i < n
    ensures |Concat(parts)| == |parts| * w && j * n + i < |parts| * n && (|parts| * w) % (|parts| * n) == 0
    ensures Chunk(Concat(parts), |parts| * n, j * n + i) == Chunk(parts[j], n, i)
  {
    var q, whole := w / n, Concat(parts);
    ConcatLength(parts, w);
    PartSize(w, n, |parts|);
    SlotBound(j, n, |parts|, i);
    ChunkBounds(w, n, i);
    forall x | 0 <= x < q ensures Chunk(whole, |parts| * n, j * n + i)[x] == Chunk(parts[j], n, i)[x] {
      ChunkAt(whole, |parts| * n, j * n + i, x);
      ChunkAt(parts[j], n, i, x);
      PartOffset(j, n, i, q, w, x);
      ConcatAt(parts, w, j, i * q + x);
    }
  }
}
