/** Column- and row-parallel linear layers, the collectives between them, and the fused gated MLP built from them
    (src/layers/linear_impl.cpp, src/layers/model_parallel.cpp, src/models/huggingface/llama.h), over exact numbers and
    one row of the input at a time. */
module TensorParallel {
  import opened Arith
  import opened Tensors
  import opened WeightLoading
  import opened FusedLoading

  // ----- one linear map

  function Dot(a: Vector, b: Vector): real
    requires |a| == |b|
  {
    if a == [] then 0.0 else Dot(a[..|a| - 1], b[..|b| - 1]) + a[|a| - 1] * b[|b| - 1]
  }

  /** x times the transpose of w. */
  function Linear(x: Vector, w: Matrix): (y: Vector)
    requires Rect(w, |x|)
    ensures |y| == |w|
  {
    seq(|w|, i requires 0 <= i < |w| => Dot(x, w[i]))
  }

  function Add(a: Vector, b: Vector): (c: Vector)
    requires |a| == |b|
    ensures |c| == |a| && forall i :: 0 <= i < |a| ==> c[i] == a[i] + b[i]
  {
    seq(|a|, i requires 0 <= i < |a| => a[i] + b[i])
  }

  function Zero(size: nat): (z: Vector)
    ensures |z| == size && forall i :: 0 <= i < size ==> z[i] == 0.0
  {
    seq(size, _ => 0.0)
  }

  // ----- what the linear map is: fixed by linearity and its values on the unit vectors

  function Unit(size: nat, k: nat): (u: Vector)
    ensures |u| == size && forall i :: 0 <= i < size ==> u[i] == if i == k then 1.0 else 0.0
  {
    seq(size, i => if i == k then 1.0 else 0.0)
  }

  function Scaled(t: real, a: Vector): (c: Vector)
    ensures |c| == |a| && forall i :: 0 <= i < |a| ==> c[i] == t * a[i]
  {
    seq(|a|, i requires 0 <= i < |a| => t * a[i])
  }

  lemma Distribute(x: real, y: real, z: real)
    ensures (x + y) * z == x * z + y * z && z * (x + y) == z * x + z * y
  {
  }

  lemma Regroup(t: real, x: real, z: real)
    ensures (t * x) * z == t * (x * z)
  {
  }

  lemma {:induction false} DotAdds(a: Vector, c: Vector, b: Vector)
    requires |a| == |b| == |c|
    ensures Dot(Add(a, c), b) == Dot(a, b) + Dot(c, b)
  {
    if a != [] {
      var n := |a| - 1;
      DotAdds(a[..n], c[..n], b[..n]);
      assert Add(a, c)[..n] == Add(a[..n], c[..n]);
      Distribute(a[n], c[n], b[n]);
    }
  }

  lemma {:induction false} DotScales(t: real, a: Vector, b: Vector)
    requires |a| == |b|
    ensures Dot(Scaled(t, a), b) == t * Dot(a, b)
  {
    if a != [] {
      var n := |a| - 1;
      DotScales(t, a[..n], b[..n]);
      assert Scaled(t, a)[..n] == Scaled(t, a[..n]) by {
        forall i | 0 <= i < n ensures Scaled(t, a)[..n][i] == Scaled(t, a[..n])[i] {
          assert a[..n][i] == a[i];
        }
      }
      Regroup(t, a[n], b[n]);
      Distribute(Dot(a[..n], b[..n]), a[n] * b[n], t);
    }
  }

  lemma {:induction false} DotUnit(b: Vector, k: nat)
    ensures Dot(Unit(|b|, k), b) == if k < |b| then b[k] else 0.0
  {
    if b != [] {
      var n := |b| - 1;
      DotUnit(b[..n], k);
      assert Unit(|b|, k)[..n] == Unit(n, k);
    }
  }

  /** The plain layer is the linear map of its matrix: additive, homogeneous, and taking unit vector k to column k. */
  lemma LinearIsTheMatrix(x: Vector, y: Vector, t: real, w: Matrix, i: nat, k: nat)
    requires |x| == |y| && Rect(w, |x|) && i < |w| && k < |x|
    ensures Linear(Add(x, y), w)[i] == Linear(x, w)[i] + Linear(y, w)[i]
    ensures Linear(Scaled(t, x), w)[i] == t * Linear(x, w)[i]
    ensures Linear(Unit(|x|, k), w)[i] == w[i][k]
  {
    DotAdds(x, y, w[i]);
    DotScales(t, x, w[i]);
    DotUnit(w[i], k);
  }

  // ----- collectives; outputs[r] is what rank r brings

  /** gather: the outputs of all ranks side by side. */
  function Gather(outputs: seq<Vector>, rank: nat): Vector
    requires rank < |outputs|
  {
    if |outputs| == 1 then outputs[rank] else Concat(outputs)
  }

  function Sum(outputs: seq<Vector>, size: nat): (s: Vector)
    requires Rect(outputs, size)
    ensures |s| == size
  {
    if outputs == [] then Zero(size) else Add(Sum(outputs[..|outputs| - 1], size), outputs[|outputs| - 1])
  }

  /** reduce: the sum of the outputs of all ranks. */
  function Reduce(outputs: seq<Vector>, rank: nat): (s: Vector)
    requires rank < |outputs| && Rect(outputs, |outputs[rank]|)
    ensures |s| == |outputs[rank]|
  {
    if |outputs| == 1 then outputs[rank] else Sum(outputs, |outputs[rank]|)
  }

  /** scatter: the share of one rank of the last dimension. */
  function Scatter(x: Vector, n: nat, rank: nat): Vector
    requires rank < n && |x| % n == 0
  {
    if n == 1 then x else Chunk(x, n, rank)
  }

  lemma GatherIsConcat(outputs: seq<Vector>, rank: nat)
    requires rank < |outputs|
    ensures Gather(outputs, rank) == Concat(outputs)
  {
    if |outputs| == 1 {
      assert outputs == [outputs[0]];
      ConcatOne(outputs[0]);
    }
  }

  lemma ReduceIsSum(outputs: seq<Vector>, rank: nat)
    requires rank < |outputs| && Rect(outputs, |outputs[rank]|)
    ensures Reduce(outputs, rank) == Sum(outputs, |outputs[rank]|)
  {
    if |outputs| == 1 {
      assert outputs[..0] == [];
      assert Sum(outputs, |outputs[rank]|) == outputs[0];
    }
  }

  lemma ScatterIsChunk(x: Vector, n: nat, rank: nat)
    requires rank < n && |x| % n == 0
    ensures Scatter(x, n, rank) == Chunk(x, n, rank)
  {
    if n == 1 {
      ChunkBounds(|x|, 1, 0);
      assert x[0..|x|] == x;
    }
  }

  // ----- the column-parallel layer

  lemma ChunkRect(w: Matrix, width: nat, n: nat, rank: nat)
    requires rank < n && |w| % n == 0 && Rect(w, width)
    ensures Rect(Chunk(w, n, rank), width)
  {
    ChunkBounds(|w|, n, rank);
  }

  /** What rank `rank` computes with its rows of the weight and of the bias. */
  function ColumnOutput(x: Vector, w: Matrix, bias: Vector, n: nat, rank: nat): Vector
    requires rank < n && |w| % n == 0 && Rect(w, |x|) && |bias| == |w|
  {
    ChunkRect(w, |x|, n, rank);
    Add(Linear(x, Chunk(w, n, rank)), Chunk(bias, n, rank))
  }

  function ColumnOutputs(x: Vector, w: Matrix, bias: Vector, n: nat): (outputs: seq<Vector>)
    requires 0 < n && |w| % n == 0 && Rect(w, |x|) && |bias| == |w|
    ensures |outputs| == n
  {
    seq(n, r requires 0 <= r < n => ColumnOutput(x, w, bias, n, r))
  }

  lemma ColumnOutputIsChunk(x: Vector, w: Matrix, bias: Vector, n: nat, rank: nat)
    requires rank < n && |w| % n == 0 && Rect(w, |x|) && |bias| == |w|
    ensures ColumnOutput(x, w, bias, n, rank) == Chunk(Add(Linear(x, w), bias), n, rank)
  {
    ChunkRect(w, |x|, n, rank);
    ChunkBounds(|w|, n, rank);
  }

  /** Column parallelism with gathered output is the plain layer, on every rank. */
  lemma ColumnParallelIsLinear(x: Vector, w: Matrix, bias: Vector, n: nat, rank: nat)
    requires rank < n && |w| % n == 0 && Rect(w, |x|) && |bias| == |w|
    ensures Gather(ColumnOutputs(x, w, bias, n), rank) == Add(Linear(x, w), bias)
  {
    var y := Add(Linear(x, w), bias);
    forall r | 0 <= r < n ensures ColumnOutput(x, w, bias, n, r) == Chunk(y, n, r) {
      ColumnOutputIsChunk(x, w, bias, n, r);
    }
    assert ColumnOutputs(x, w, bias, n) == Chunks(y, n);
    ChunksConcat(y, n);
    GatherIsConcat(ColumnOutputs(x, w, bias, n), rank);
  }

  // ----- the row-parallel layer

  /** Columns of the weight that belong to a rank: the share of the second dimension. */
  function ColumnShare(w: Matrix, width: nat, n: nat, rank: nat): (c: Matrix)
    requires rank < n && width % n == 0 && Rect(w, width)
    ensures |c| == |w| && Rect(c, width / n)
  {
    seq(|w|, i requires 0 <= i < |w| => Chunk(w[i], n, rank))
  }

  function RowPartial(x: Vector, w: Matrix, n: nat, rank: nat): (y: Vector)
    requires rank < n && |x| % n == 0 && Rect(w, |x|)
    ensures |y| == |w|
  {
    ScatterIsChunk(x, n, rank);
    Linear(Scatter(x, n, rank), ColumnShare(w, |x|, n, rank))
  }

  function RowPartials(x: Vector, w: Matrix, n: nat): (outputs: seq<Vector>)
    requires 0 < n && |x| % n == 0 && Rect(w, |x|)
    ensures |outputs| == n && Rect(outputs, |w|)
  {
    seq(n, r requires 0 <= r < n => RowPartial(x, w, n, r))
  }

  lemma {:induction false} DotJoin(a: Vector, b: Vector, c: Vector, d: Vector)
    requires |a| == |b| && |c| == |d|
    ensures Dot(a + c, b + d) == Dot(a, b) + Dot(c, d)
    decreases |c|
  {
    if c == [] {
      assert a + c == a && b + d == b;
    } else {
      var m := |c| - 1;
      DotJoin(a, b, c[..m], d[..m]);
      assert (a + c)[..|a + c| - 1] == a + c[..m];
      assert (b + d)[..|b + d| - 1] == b + d[..m];
    }
  }

  /** The dot products of the first k chunks add up to that of the joined chunks. */
  lemma {:induction false} PartialDots(x: Vector, row: Vector, n: nat, k: nat, partials: seq<real>)
    requires 0 < n && |x| == |row| && |x| % n == 0 && k <= n && |partials| == n
    requires forall r :: 0 <= r < n ==> partials[r] == Dot(Chunk(x, n, r), Chunk(row, n, r))
    ensures 0 <= k * (|x| / n) <= |x|
    ensures SumTo(partials, k) == Dot(x[..k * (|x| / n)], row[..k * (|x| / n)])
  {
    var w := |x| / n;
    if k == 0 {
      assert 0 * w == 0;
    } else {
      PartialDots(x, row, n, k - 1, partials);
      ChunkBounds(|x|, n, k - 1);
      var m := (k - 1) * w;
      assert k * w == m + w;
      DotJoin(x[..m], row[..m], x[m..m + w], row[m..m + w]);
      assert x[..m] + x[m..m + w] == x[..m + w] && row[..m] + row[m..m + w] == row[..m + w];
    }
  }

  function SumTo(xs: seq<real>, k: nat): real
    requires k <= |xs|
  {
    if k == 0 then 0.0 else SumTo(xs, k - 1) + xs[k - 1]
  }

  lemma {:induction false} SumAt(outputs: seq<Vector>, size: nat, i: nat, column: seq<real>)
    requires Rect(outputs, size) && i < size && |column| >= |outputs|
    requires forall r :: 0 <= r < |outputs| ==> column[r] == outputs[r][i]
    ensures Sum(outputs, size)[i] == SumTo(column, |outputs|)
  {
    if outputs != [] {
      SumAt(outputs[..|outputs| - 1], size, i, column);
    }
  }

  lemma RowReducesAt(x: Vector, w: Matrix, n: nat, i: nat)
    requires 0 < n && |x| % n == 0 && Rect(w, |x|) && i < |w|
    ensures Sum(RowPartials(x, w, n), |w|)[i] == Dot(x, w[i])
  {
    var partials := seq(n, r requires 0 <= r < n => Dot(Chunk(x, n, r), Chunk(w[i], n, r)));
    var outputs := RowPartials(x, w, n);
    forall r | 0 <= r < n ensures partials[r] == outputs[r][i] {
      ScatterIsChunk(x, n, r);
    }
    SumAt(outputs, |w|, i, partials);
    PartialDots(x, w[i], n, n, partials);
    ChunkBounds(|x|, n, n - 1);
    assert x[..|x|] == x && w[i][..|x|] == w[i];
  }

  lemma RowReduces(x: Vector, w: Matrix, n: nat, rank: nat)
    requires rank < n && |x| % n == 0 && Rect(w, |x|)
    ensures Reduce(RowPartials(x, w, n), rank) == Linear(x, w)
  {
    ReduceIsSum(RowPartials(x, w, n), rank);
    forall i | 0 <= i < |w| ensures Sum(RowPartials(x, w, n), |w|)[i] == Linear(x, w)[i] {
      RowReducesAt(x, w, n, i);
    }
  }

  /** Row parallelism, with the bias added after the reduction, is the plain layer, on every rank. */
  lemma RowParallelIsLinear(x: Vector, w: Matrix, bias: Vector, n: nat, rank: nat)
    requires rank < n && |x| % n == 0 && Rect(w, |x|) && |bias| == |w|
    ensures Add(Reduce(RowPartials(x, w, n), rank), bias) == Add(Linear(x, w), bias)
  {
    RowReduces(x, w, n, rank);
  }

  /** Each rank's output with the bias added before the reduction. */
  function EarlyBias(outputs: seq<Vector>, bias: Vector): (biased: seq<Vector>)
    requires Rect(outputs, |bias|)
    ensures |biased| == |outputs| && Rect(biased, |bias|)
  {
    seq(|outputs|, r requires 0 <= r < |outputs| => Add(outputs[r], bias))
  }

  /** b added to itself n times. */
  function Times(n: nat, b: real): real { if n == 0 then 0.0 else Times(n - 1, b) + b }

  lemma {:induction false} TimesGrows(n: nat, b: real)
    requires n > 0
    ensures b > 0.0 ==> Times(n, b) >= b
    ensures b < 0.0 ==> Times(n, b) <= b
    ensures b == 0.0 ==> Times(n, b) == b
  {
    if n > 1 { TimesGrows(n - 1, b); } else { assert Times(0, b) == 0.0; }
  }

  lemma TimesIsOnce(n: nat, b: real)
    requires n > 0
    ensures Times(n, b) == b <==> n == 1 || b == 0.0
  {
    if n == 1 { assert Times(0, b) == 0.0; } else { TimesGrows(n - 1, b); }
  }

  lemma {:induction false} EarlyBiasAt(outputs: seq<Vector>, bias: Vector, i: nat)
    requires Rect(outputs, |bias|) && i < |bias|
    ensures Sum(EarlyBias(outputs, bias), |bias|)[i] == Sum(outputs, |bias|)[i] + Times(|outputs|, bias[i])
  {
    if outputs != [] {
      var m := |outputs| - 1;
      EarlyBiasAt(outputs[..m], bias, i);
      assert EarlyBias(outputs, bias)[..m] == EarlyBias(outputs[..m], bias);
    }
  }

  /** Why the bias comes after the reduction: before it, the result is right only on one rank or for a zero bias. */
  lemma EarlyBiasIsWrong(outputs: seq<Vector>, bias: Vector)
    requires outputs != [] && Rect(outputs, |bias|)
    ensures Sum(EarlyBias(outputs, bias), |bias|) == Add(Sum(outputs, |bias|), bias)
            <==> |outputs| == 1 || (forall i :: 0 <= i < |bias| ==> bias[i] == 0.0)
  {
    var early, late := Sum(EarlyBias(outputs, bias), |bias|), Add(Sum(outputs, |bias|), bias);
    forall i | 0 <= i < |bias| ensures early[i] == late[i] <==> |outputs| == 1 || bias[i] == 0.0 {
      EarlyBiasAt(outputs, bias, i);
      TimesIsOnce(|outputs|, bias[i]);
    }
    assert early == late <==> forall i :: 0 <= i < |bias| ==> early[i] == late[i];
  }

  // ----- the fused gated MLP

  function Gated(act: real -> real, g: real, u: real): (h: real)
    ensures h == act(g) * u
  {
    act(g) * u
  }

  /** Split in two halves, apply the activation to the first and multiply by the second. */
  function ActWithMul(act: real -> real, y: Vector): (h: Vector)
    requires |y| % 2 == 0
    ensures |h| == |y| / 2
  {
    seq(|y| / 2, i requires 0 <= i < |y| / 2 => Gated(act, y[i], y[|y| / 2 + i]))
  }

  /** The activation goes to the first half, and the second half multiplies it. */
  lemma ActivationFirst(act: real -> real, y: Vector, i: nat)
    requires |y| % 2 == 0 && i < |y| / 2
    ensures ActWithMul(act, y)[i] == act(y[i]) * y[|y| / 2 + i]
  {
  }

  /** The gated activations of the unsharded MLP: feature i from row i of gate and row i of up. */
  function Gates(act: real -> real, x: Vector, gate: Matrix, up: Matrix): (h: Vector)
    requires Rect(gate, |x|) && Rect(up, |x|) && |gate| == |up|
    ensures |h| == |gate|
  {
    seq(|gate|, i requires 0 <= i < |gate| => Gated(act, Dot(x, gate[i]), Dot(x, up[i])))
  }

  /** Feature i is the activation of row i of gate, times row i of up. */
  lemma GatesAt(act: real -> real, x: Vector, gate: Matrix, up: Matrix, i: nat, h: real, g: real, u: real)
    requires Rect(gate, |x|) && Rect(up, |x|) && |gate| == |up| && i < |gate|
    requires h == Gates(act, x, gate, up)[i] && g == Dot(x, gate[i]) && u == Dot(x, up[i])
    ensures h == act(g) * u
  {
    GatedIs(act, g, u, h);
  }

  lemma GatedIs(act: real -> real, g: real, u: real, h: real)
    requires h == Gated(act, g, u)
    ensures h == act(g) * u
  {
  }

  /** The MLP with the whole weights. */
  function Mlp(act: real -> real, x: Vector, gate: Matrix, up: Matrix, down: Matrix): Vector
    requires Rect(gate, |x|) && Rect(up, |x|) && |gate| == |up| && Rect(down, |gate|)
  {
    Linear(Gates(act, x, gate, up), down)
  }

  /** The hidden row of a rank, from its fused shares of gate and up. */
  function Hidden(act: real -> real, x: Vector, gate: Matrix, up: Matrix, n: nat, rank: nat): (h: Vector)
    requires rank < n && |gate| % n == 0 && |gate| == |up| && Rect(gate, |x|) && Rect(up, |x|)
    ensures |h| == |gate| / n
  {
    ChunkRect(gate, |x|, n, rank);
    ChunkRect(up, |x|, n, rank);
    ActWithMul(act, Linear(x, Chunk(gate, n, rank) + Chunk(up, n, rank)))
  }

  lemma LinearHalves(x: Vector, a: Matrix, b: Matrix, i: nat)
    requires Rect(a, |x|) && Rect(b, |x|) && |a| == |b| && i < |a|
    ensures Linear(x, a + b)[i] == Dot(x, a[i]) && Linear(x, a + b)[|a| + i] == Dot(x, b[i])
    ensures |Linear(x, a + b)| % 2 == 0 && |Linear(x, a + b)| / 2 == |a|
  {
  }

  lemma HiddenAt(act: real -> real, x: Vector, a: Matrix, b: Matrix, i: nat)
    requires Rect(a, |x|) && Rect(b, |x|) && |a| == |b| && i < |a|
    ensures ActWithMul(act, Linear(x, a + b))[i] == Gated(act, Dot(x, a[i]), Dot(x, b[i]))
  {
    LinearHalves(x, a, b, i);
  }

  /** Fusing the shares of gate and up keeps each rank's activations together: its hidden row is its share of the
      unsharded one. */
  lemma HiddenIsChunk(act: real -> real, x: Vector, gate: Matrix, up: Matrix, n: nat, rank: nat)
    requires rank < n && |gate| % n == 0 && |gate| == |up| && Rect(gate, |x|) && Rect(up, |x|)
    ensures Hidden(act, x, gate, up, n, rank) == Chunk(Gates(act, x, gate, up), n, rank)
  {
    var whole, mine := Gates(act, x, gate, up), Hidden(act, x, gate, up, n, rank);
    var a, b, w := Chunk(gate, n, rank), Chunk(up, n, rank), |gate| / n;
    ChunkRect(gate, |x|, n, rank);
    ChunkRect(up, |x|, n, rank);
    forall i | 0 <= i < w ensures mine[i] == Chunk(whole, n, rank)[i] {
      ChunkAt(gate, n, rank, i);
      ChunkAt(up, n, rank, i);
      ChunkAt(whole, n, rank, i);
      HiddenAt(act, x, a, b, i);
    }
  }

  /** What each rank computes between the two weights and hands to the reduction. */
  function MlpPartials(act: real -> real, x: Vector, gate: Matrix, up: Matrix, down: Matrix, n: nat): (outputs: seq<Vector>)
    requires 0 < n && |gate| % n == 0 && |gate| == |up| && Rect(gate, |x|) && Rect(up, |x|) && Rect(down, |gate|)
    ensures |outputs| == n && Rect(outputs, |down|)
  {
    seq(n, r requires 0 <= r < n => Linear(Hidden(act, x, gate, up, n, r), ColumnShare(down, |gate|, n, r)))
  }

  /** The sharded fused MLP is the unsharded MLP, on every rank and for every world size that divides the hidden
      dimension. */
  lemma ShardedMlpIsMlp(act: real -> real, x: Vector, gate: Matrix, up: Matrix, down: Matrix, n: nat, rank: nat)
    requires rank < n && |gate| % n == 0 && |gate| == |up| && Rect(gate, |x|) && Rect(up, |x|) && Rect(down, |gate|)
    ensures Reduce(MlpPartials(act, x, gate, up, down, n), rank) == Mlp(act, x, gate, up, down)
  {
    var hidden := Gates(act, x, gate, up);
    forall r | 0 <= r < n ensures MlpPartials(act, x, gate, up, down, n)[r] == RowPartial(hidden, down, n, r) {
      HiddenIsChunk(act, x, gate, up, n, r);
      ScatterIsChunk(hidden, n, r);
    }
    assert MlpPartials(act, x, gate, up, down, n) == RowPartials(hidden, down, n);
    RowReduces(hidden, down, n, rank);
  }

  // ----- from the checkpoint

  /** One rank's pass through the MLP with the weights it holds; weights of the wrong shape give nothing. */
  function RankMlp(act: real -> real, x: Vector, fused: Matrix, down: Matrix): Vector {
    if Rect(fused, |x|) && |fused| % 2 == 0 && Rect(down, |fused| / 2) then Linear(ActWithMul(act, Linear(x, fused)), down)
    else []
  }

  lemma RankMlpIsPartial(act: real -> real, x: Vector, gate: Matrix, up: Matrix, down: Matrix, n: nat, rank: nat)
    requires rank < n && |gate| % n == 0 && |gate| == |up| && Rect(gate, |x|) && Rect(up, |x|) && Rect(down, |gate|)
    ensures RankMlp(act, x, Chunk(gate, n, rank) + Chunk(up, n, rank), ColumnShare(down, |gate|, n, rank))
            == MlpPartials(act, x, gate, up, down, n)[rank]
  {
    ChunkRect(gate, |x|, n, rank);
    ChunkRect(up, |x|, n, rank);
  }

  const FUSED := ["gate_proj.weight", "up_proj.weight"]
  const DOWN := "down_proj.weight"

  /** The fused weight of a rank after it has visited all files. */
  function FusedWeight(files: seq<StateDict<Vector>>, initial: Matrix, rank: nat, worldSize: nat): Matrix
    requires forall f :: 0 <= f < |files| ==> ForWorld(files[f], rank, worldSize)
  {
    MergeAll(Loader([], initial, false), PieceLists(files, FUSED, rank, worldSize)).weight
  }

  /** The row-parallel weight of a rank after it has visited all files: whatever a file answers is copied over. */
  function DownWeight(files: seq<StateDict<Vector>>, initial: Matrix, rank: nat, worldSize: nat): Matrix
    requires forall f :: 0 <= f < |files| ==> ForWorld(files[f], rank, worldSize) && Rectangular(files[f])
  {
    if files == [] then initial
    else
      var m := |files| - 1;
      var a := GetShardedColumns(files[m], DOWN, rank, worldSize);
      if a.Piece? then a.rows else DownWeight(files[..m], initial, rank, worldSize)
  }

  /** A checkpoint of the MLP: for each shard a part of gate and of up, `size` rows each, and a part of down, `size` columns
      wide, each of them in one of the shard's files. */
  datatype Checkpoint = Checkpoint(gate: seq<Matrix>, up: seq<Matrix>, down: seq<Matrix>, size: nat, rows: nat)

  predicate Shaped(cp: Checkpoint, width: nat) {
    && |cp.gate| == |cp.up| == |cp.down| > 0
    && (forall s :: 0 <= s < |cp.gate| ==>
          && |cp.gate[s]| == |cp.up[s]| == cp.size && Rect(cp.gate[s], width) && Rect(cp.up[s], width)
          && |cp.down[s]| == cp.rows && Rect(cp.down[s], cp.size))
  }

  /** The files hold the parts of each shard under their names. */
  predicate Stored(files: seq<StateDict<Vector>>, cp: Checkpoint) {
    && |cp.gate| == |cp.up| == |cp.down|
    && (forall f :: 0 <= f < |files| ==> files[f].shardId < files[f].numShards == |cp.gate| && Rectangular(files[f]))
    && (forall s :: 0 <= s < |cp.gate| ==> InOneFile(files, s, "gate_proj.weight", cp.gate[s]))
    && (forall s :: 0 <= s < |cp.up| ==> InOneFile(files, s, "up_proj.weight", cp.up[s]))
    && (forall s :: 0 <= s < |cp.down| ==> InOneFile(files, s, "down_proj.weight", cp.down[s]))
  }

  lemma StoredDivided(files: seq<StateDict<Vector>>, cp: Checkpoint)
    requires Stored(files, cp)
    ensures Divided(files, FUSED, |cp.gate|, GateUp(cp))
  {
    forall s, i | 0 <= s < |cp.gate| && 0 <= i < |FUSED| ensures InOneFile(files, s, FUSED[i], GateUp(cp)[s][i]) {
      assert InOneFile(files, s, "gate_proj.weight", cp.gate[s]) && InOneFile(files, s, "up_proj.weight", cp.up[s]);
    }
  }

  function GateUp(cp: Checkpoint): (tensors: seq<seq<Matrix>>)
    requires |cp.gate| == |cp.up|
    ensures |tensors| == |cp.gate|
  {
    seq(|cp.gate|, s requires 0 <= s < |cp.gate| => [cp.gate[s], cp.up[s]])
  }

  /** Row i of the whole down matrix: the rows i of its parts side by side. */
  function DownRow(cp: Checkpoint, i: nat): Vector
    requires forall s :: 0 <= s < |cp.down| ==> i < |cp.down[s]|
  {
    Concat(DownRows(cp, i))
  }

  function DownRows(cp: Checkpoint, i: nat): (rows: seq<Vector>)
    requires forall s :: 0 <= s < |cp.down| ==> i < |cp.down[s]|
    ensures |rows| == |cp.down|
  {
    seq(|cp.down|, s requires 0 <= s < |cp.down| => cp.down[s][i])
  }

  function WholeDown(cp: Checkpoint, width: nat): (down: Matrix)
    requires Shaped(cp, width)
    ensures |down| == cp.rows && Rect(down, |cp.down| * cp.size)
  {
    assert forall i, s :: 0 <= i < cp.rows && 0 <= s < |cp.down| ==> |DownRows(cp, i)[s]| == cp.size;
    DownWidths(cp, width);
    seq(cp.rows, i requires 0 <= i < cp.rows => DownRow(cp, i))
  }

  lemma DownWidths(cp: Checkpoint, width: nat)
    requires Shaped(cp, width)
    ensures forall i :: 0 <= i < cp.rows ==> EqualParts(DownRows(cp, i), cp.size) && |DownRow(cp, i)| == |cp.down| * cp.size
  {
    forall i | 0 <= i < cp.rows
      ensures EqualParts(DownRows(cp, i), cp.size) && |DownRow(cp, i)| == |cp.down| * cp.size
    {
      ConcatLength(DownRows(cp, i), cp.size);
    }
  }

  lemma TwoPieces(a: Matrix, b: Matrix)
    ensures Concat([a, b]) == a + b
  {
    assert [a, b][..1] == [a];
    ConcatOne(a);
  }

  /** The fused weight of a rank: its chunks of its shard's gate and up. */
  lemma FusedShares(files: seq<StateDict<Vector>>, cp: Checkpoint, width: nat, initial: Matrix, rank: nat, worldSize: nat)
    requires Shaped(cp, width) && Stored(files, cp) && World(|cp.gate|, rank, worldSize)
    requires var n := worldSize / |cp.gate|; Splits(cp.size, n) && cp.size % n == 0 && |initial| == 2 * (cp.size / n)
    requires forall f :: 0 <= f < |files| ==> ForWorld(files[f], rank, worldSize)
    ensures var n := worldSize / |cp.gate|;
            FusedWeight(files, initial, rank, worldSize)
            == Chunk(cp.gate[rank / n], n, rank % n) + Chunk(cp.up[rank / n], n, rank % n)
  {
    var n := worldSize / |cp.gate|;
    FusedSharesAt(files, cp, width, initial, rank, worldSize, n, rank / n, rank % n);
  }

  lemma FusedSharesAt(files: seq<StateDict<Vector>>, cp: Checkpoint, width: nat, initial: Matrix, rank: nat, worldSize: nat,
                      n: nat, home: nat, local: nat)
    requires Shaped(cp, width) && Stored(files, cp) && World(|cp.gate|, rank, worldSize)
    requires n == worldSize / |cp.gate| && home == rank / n && local == rank % n
    requires Splits(cp.size, n) && cp.size % n == 0 && |initial| == 2 * (cp.size / n)
    requires forall f :: 0 <= f < |files| ==> ForWorld(files[f], rank, worldSize)
    ensures FusedWeight(files, initial, rank, worldSize) == Chunk(cp.gate[home], n, local) + Chunk(cp.up[home], n, local)
  {
    var tensors, l := GateUp(cp), Loader([], initial, false);
    assert tensors[home] == [cp.gate[home], cp.up[home]];
    PairPieces(cp.gate[home], cp.up[home], local, n);
    StoredDivided(files, cp);
    FusedWeightOfRank(l, files, FUSED, |cp.gate|, tensors, rank, worldSize, n, home, local);
  }

  lemma PairPieces(a: Matrix, b: Matrix, local: nat, n: nat)
    requires local < n && |a| == |b| && Splits(|a|, n) && |a| % n == 0
    ensures (forall i :: 0 <= i < 2 ==> Splits(|[a, b][i]|, n))
    ensures Concat(RankPieces([a, b], local, n)) == Chunk(a, n, local) + Chunk(b, n, local)
    ensures |Concat(RankPieces([a, b], local, n))| == 2 * (|a| / n)
  {
    assert RankPieces([a, b], local, n) == [Chunk(a, n, local), Chunk(b, n, local)];
    TwoPieces(Chunk(a, n, local), Chunk(b, n, local));
  }

  /** What a file answers for the second dimension. */
  lemma ColumnAnswer(sd: StateDict<Vector>, name: string, width: nat, rank: nat, worldSize: nat)
    requires ForWorld(sd, rank, worldSize) && Rectangular(sd)
    requires var n := worldSize / sd.numShards;
             n > 0 && (Has(sd, rank / n, name) ==> Rect(sd.dict[name], width) && Splits(width, n) && width % n == 0)
    ensures var n := worldSize / sd.numShards;
            && (Has(sd, rank / n, name) && sd.dict[name] != [] ==>
                  GetShardedColumns(sd, name, rank, worldSize) == Piece(ColumnShare(sd.dict[name], width, n, rank % n)))
            && (!Has(sd, rank / n, name) ==> GetShardedColumns(sd, name, rank, worldSize) == Missing)
  {
    HomeShard(worldSize, sd.numShards, rank, sd.shardId);
    var n := worldSize / sd.numShards;
    if Has(sd, rank / n, name) && sd.dict[name] != [] {
      ColumnPiece(sd.dict[name], width, n, rank % n);
    }
  }

  lemma ColumnPiece(m: Matrix, width: nat, n: nat, local: nat)
    requires local < n && m != [] && Rect(m, width) && Splits(width, n) && width % n == 0
    ensures var r := LocalRange(n, local, width); r.Span? && Columns(m, r.lo, r.hi) == ColumnShare(m, width, n, local)
  {
    ChunkBounds(width, n, local);
    var r := LocalRange(n, local, width);
    forall i | 0 <= i < |m| ensures Columns(m, r.lo, r.hi)[i] == ColumnShare(m, width, n, local)[i] {
      ShareIsChunk(m[i], n, local);
    }
  }

  /** The row-parallel weight of a rank: its columns of its shard's part of down. */
  lemma {:induction false} DownShare(files: seq<StateDict<Vector>>, m: Matrix, width: nat, shards: nat, initial: Matrix,
                                     rank: nat, worldSize: nat, n: nat, home: nat, local: nat)
    requires World(shards, rank, worldSize) && n == worldSize / shards && home == rank / n && local == rank % n
    requires m != [] && Rect(m, width) && Splits(width, n) && width % n == 0
    requires forall f :: 0 <= f < |files| ==> ForWorld(files[f], rank, worldSize) && Rectangular(files[f])
    requires forall f :: 0 <= f < |files| ==> files[f].numShards == shards
    requires forall f :: 0 <= f < |files| && Has(files[f], home, DOWN) ==> files[f].dict[DOWN] == m
    requires exists f :: 0 <= f < |files| && Has(files[f], home, DOWN)
    ensures DownWeight(files, initial, rank, worldSize) == ColumnShare(m, width, n, local)
  {
    var k := |files| - 1;
    ColumnAnswer(files[k], DOWN, width, rank, worldSize);
    if !Has(files[k], home, DOWN) {
      var f :| 0 <= f < |files| && Has(files[f], home, DOWN);
      assert files[..k][f] == files[f];
      DownShare(files[..k], m, width, shards, initial, rank, worldSize, n, home, local);
    }
  }

  /** The columns of a rank in its shard's part are its columns of the whole. */
  lemma WholeColumns(cp: Checkpoint, width: nat, rank: nat, worldSize: nat)
    requires Shaped(cp, width) && World(|cp.gate|, rank, worldSize) && cp.size % (worldSize / |cp.gate|) == 0
    ensures (|cp.down| * cp.size) % worldSize == 0
    ensures var n := worldSize / |cp.gate|;
            ColumnShare(cp.down[rank / n], cp.size, n, rank % n)
            == ColumnShare(WholeDown(cp, width), |cp.down| * cp.size, worldSize, rank)
  {
    var n, shards := worldSize / |cp.gate|, |cp.gate|;
    RankParts(shards, rank, worldSize);
    PartSize(cp.size, n, shards);
    DownWidths(cp, width);
    forall i | 0 <= i < cp.rows
      ensures Chunk(cp.down[rank / n][i], n, rank % n) == Chunk(DownRow(cp, i), worldSize, rank)
    {
      ShardChunk(DownRows(cp, i), cp.size, n, rank / n, rank % n);
    }
  }

  lemma RankParts(shards: nat, rank: nat, worldSize: nat)
    requires World(shards, rank, worldSize)
    ensures var n := worldSize / shards; worldSize == shards * n && rank == (rank / n) * n + rank % n
  {
  }

  lemma WholeRows(parts: seq<Matrix>, size: nat, width: nat, rank: nat, worldSize: nat)
    requires World(|parts|, rank, worldSize) && size % (worldSize / |parts|) == 0
    requires EqualParts(parts, size) && forall s :: 0 <= s < |parts| ==> Rect(parts[s], width)
    ensures |Concat(parts)| == |parts| * size && (|parts| * size) % worldSize == 0 && Rect(Concat(parts), width)
    ensures var n := worldSize / |parts|; Chunk(parts[rank / n], n, rank % n) == Chunk(Concat(parts), worldSize, rank)
  {
    var n := worldSize / |parts|;
    RankParts(|parts|, rank, worldSize);
    PartSize(size, n, |parts|);
    ShardChunk(parts, size, n, rank / n, rank % n);
    ConcatRect(parts, width);
  }

  lemma {:induction false} ConcatRect(parts: seq<Matrix>, width: nat)
    requires forall s :: 0 <= s < |parts| ==> Rect(parts[s], width)
    ensures Rect(Concat(parts), width)
  {
    if parts != [] { ConcatRect(parts[..|parts| - 1], width); }
  }

  /** The whole matrices fit each other and the world. */
  predicate WholeFits(cp: Checkpoint, width: nat, worldSize: nat)
    requires Shaped(cp, width)
  {
    && worldSize > 0 && |Concat(cp.gate)| % worldSize == 0 && |Concat(cp.gate)| == |Concat(cp.up)| == |cp.down| * cp.size
    && Rect(Concat(cp.gate), width) && Rect(Concat(cp.up), width)
  }

  lemma InWorld(shards: nat, rank: nat, worldSize: nat)
    requires shards > 0 && rank < worldSize && worldSize % shards == 0
    ensures World(shards, rank, worldSize)
  {
    HomeShard(worldSize, shards, rank, 0);
  }

  lemma LoadedGateUp(files: seq<StateDict<Vector>>, cp: Checkpoint, width: nat, fused: Matrix, rank: nat, worldSize: nat)
    requires Shaped(cp, width) && Stored(files, cp) && World(|cp.gate|, rank, worldSize)
    requires var n := worldSize / |cp.gate|; Splits(cp.size, n) && cp.size % n == 0 && |fused| == 2 * (cp.size / n)
    requires forall f :: 0 <= f < |files| ==> ForWorld(files[f], rank, worldSize)
    ensures WholeFits(cp, width, worldSize)
    ensures FusedWeight(files, fused, rank, worldSize)
            == Chunk(Concat(cp.gate), worldSize, rank) + Chunk(Concat(cp.up), worldSize, rank)
  {
    FusedShares(files, cp, width, fused, rank, worldSize);
    WholeRows(cp.gate, cp.size, width, rank, worldSize);
    WholeRows(cp.up, cp.size, width, rank, worldSize);
  }

  lemma LoadedDown(files: seq<StateDict<Vector>>, cp: Checkpoint, width: nat, down: Matrix, rank: nat, worldSize: nat)
    requires Shaped(cp, width) && cp.rows > 0 && Stored(files, cp) && World(|cp.gate|, rank, worldSize)
    requires var n := worldSize / |cp.gate|; Splits(cp.size, n) && cp.size % n == 0
    requires forall f :: 0 <= f < |files| ==> ForWorld(files[f], rank, worldSize)
    ensures (|cp.down| * cp.size) % worldSize == 0
    ensures DownWeight(files, down, rank, worldSize)
            == ColumnShare(WholeDown(cp, width), |cp.down| * cp.size, worldSize, rank)
  {
    var n := worldSize / |cp.gate|;
    StoredDown(files, cp, width, down, rank, worldSize, n, rank / n, rank % n);
    WholeColumns(cp, width, rank, worldSize);
  }

  lemma StoredDown(files: seq<StateDict<Vector>>, cp: Checkpoint, width: nat, down: Matrix, rank: nat, worldSize: nat,
                   n: nat, home: nat, local: nat)
    requires Shaped(cp, width) && cp.rows > 0 && Stored(files, cp) && World(|cp.gate|, rank, worldSize)
    requires n == worldSize / |cp.gate| && home == rank / n && local == rank % n && Splits(cp.size, n) && cp.size % n == 0
    requires forall f :: 0 <= f < |files| ==> ForWorld(files[f], rank, worldSize)
    ensures DownWeight(files, down, rank, worldSize) == ColumnShare(cp.down[home], cp.size, n, local)
  {
    assert InOneFile(files, home, DOWN, cp.down[home]);
    DownShare(files, cp.down[home], cp.size, |cp.gate|, down, rank, worldSize, n, home, local);
  }

  /** What a rank computes with the weights it has loaded is its part of the sharded MLP. */
  lemma LoadedRank(act: real -> real, x: Vector, files: seq<StateDict<Vector>>, cp: Checkpoint, fused: Matrix, down: Matrix,
                   rank: nat, worldSize: nat)
    requires Shaped(cp, |x|) && cp.rows > 0 && Stored(files, cp) && World(|cp.gate|, rank, worldSize)
    requires var n := worldSize / |cp.gate|; Splits(cp.size, n) && cp.size % n == 0 && |fused| == 2 * (cp.size / n)
    requires forall f :: 0 <= f < |files| ==> ForWorld(files[f], rank, worldSize)
    ensures WholeFits(cp, |x|, worldSize)
    ensures RankMlp(act, x, FusedWeight(files, fused, rank, worldSize), DownWeight(files, down, rank, worldSize))
            == MlpPartials(act, x, Concat(cp.gate), Concat(cp.up), WholeDown(cp, |x|), worldSize)[rank]
  {
    LoadedGateUp(files, cp, |x|, fused, rank, worldSize);
    LoadedDown(files, cp, |x|, down, rank, worldSize);
    RankMlpIsPartial(act, x, Concat(cp.gate), Concat(cp.up), WholeDown(cp, |x|), worldSize, rank);
  }

  /** Every rank's output comes from the weights it has loaded from the files. */
  ghost predicate FromFiles(act: real -> real, x: Vector, files: seq<StateDict<Vector>>, cp: Checkpoint, worldSize: nat,
                      outputs: seq<Vector>)
    requires |cp.gate| > 0 && worldSize % |cp.gate| == 0 && worldSize / |cp.gate| > 0 && |outputs| == worldSize
    requires forall f :: 0 <= f < |files| ==> Rectangular(files[f])
    requires forall r, f :: 0 <= r < worldSize && 0 <= f < |files| ==> ForWorld(files[f], r, worldSize)
  {
    forall r :: 0 <= r < worldSize ==> RankOutput(act, x, files, cp, worldSize, r, outputs[r])
  }

  /** The output of a rank, from parameters of the allocated size and whatever they held before. */
  ghost predicate RankOutput(act: real -> real, x: Vector, files: seq<StateDict<Vector>>, cp: Checkpoint, worldSize: nat,
                             r: nat, output: Vector)
    requires |cp.gate| > 0 && worldSize / |cp.gate| > 0 && r < worldSize
    requires forall f :: 0 <= f < |files| ==> ForWorld(files[f], r, worldSize) && Rectangular(files[f])
  {
    exists fused, down :: |fused| == 2 * (cp.size / (worldSize / |cp.gate|))
      && output == RankMlp(act, x, FusedWeight(files, fused, r, worldSize), DownWeight(files, down, r, worldSize))
  }

  lemma OutputIsPartial(act: real -> real, x: Vector, files: seq<StateDict<Vector>>, cp: Checkpoint, worldSize: nat, r: nat,
                        output: Vector)
    requires Shaped(cp, |x|) && cp.rows > 0 && Stored(files, cp)
    requires r < worldSize && worldSize % |cp.gate| == 0 && worldSize / |cp.gate| > 0 && Splits(cp.size, worldSize / |cp.gate|)
    requires forall f :: 0 <= f < |files| ==> ForWorld(files[f], r, worldSize)
    requires RankOutput(act, x, files, cp, worldSize, r, output)
    ensures WholeFits(cp, |x|, worldSize)
    ensures output == MlpPartials(act, x, Concat(cp.gate), Concat(cp.up), WholeDown(cp, |x|), worldSize)[r]
  {
    SplitsEvenly(cp.size, worldSize / |cp.gate|);
    InWorld(|cp.gate|, r, worldSize);
    var fused, down :| |fused| == 2 * (cp.size / (worldSize / |cp.gate|))
      && output == RankMlp(act, x, FusedWeight(files, fused, r, worldSize), DownWeight(files, down, r, worldSize));
    LoadedRank(act, x, files, cp, fused, down, r, worldSize);
  }

  /** From the checkpoint files to the output: each rank merges whatever pieces of gate and up the files hold, copies its
      columns of down, and the reduced output is that of the unsharded MLP, for any number of shards, any split of a shard
      into files, any order of files and every world size. */
  lemma LoadedMlpIsMlp(act: real -> real, x: Vector, files: seq<StateDict<Vector>>, cp: Checkpoint, worldSize: nat, rank: nat,
                       outputs: seq<Vector>)
    requires Shaped(cp, |x|) && cp.rows > 0 && Stored(files, cp)
    requires rank < worldSize == |outputs| && worldSize % |cp.gate| == 0 && worldSize / |cp.gate| > 0
    requires Splits(cp.size, worldSize / |cp.gate|)
    requires forall r, f :: 0 <= r < worldSize && 0 <= f < |files| ==> ForWorld(files[f], r, worldSize)
    requires FromFiles(act, x, files, cp, worldSize, outputs)
    ensures WholeFits(cp, |x|, worldSize) && Rect(outputs, cp.rows)
    ensures Reduce(outputs, rank) == Mlp(act, x, Concat(cp.gate), Concat(cp.up), WholeDown(cp, |x|))
  {
    OutputIsPartial(act, x, files, cp, worldSize, rank, outputs[rank]);
    var partials := MlpPartials(act, x, Concat(cp.gate), Concat(cp.up), WholeDown(cp, |x|), worldSize);
    forall r | 0 <= r < worldSize ensures outputs[r] == partials[r] {
      assert RankOutput(act, x, files, cp, worldSize, r, outputs[r]);
      OutputIsPartial(act, x, files, cp, worldSize, r, outputs[r]);
    }
    assert outputs == partials;
    ShardedMlpIsMlp(act, x, Concat(cp.gate), Concat(cp.up), WholeDown(cp, |x|), worldSize, rank);
  }

  // ----- the steps that work in place

  /** gather_from_model_parallel_region: collect the outputs of the ranks and put them side by side. */
  method GatherFromRegion(outputs: seq<Vector>, rank: nat) returns (y: Vector)
    requires rank < |outputs|
    ensures y == Gather(outputs, rank)
  {
    if |outputs| == 1 { return outputs[rank]; }
    y := [];
    for i := 0 to |outputs|
      invariant y == Concat(outputs[..i])
    {
      assert outputs[..i + 1][..i] == outputs[..i];
      y := y + outputs[i];
    }
    assert outputs[..|outputs|] == outputs;
  }

  /** b[..] := b[..] + v. */
  method AddInPlace(b: array<real>, v: Vector)
    requires |v| == b.Length
    modifies b
    ensures b[..] == Add(old(b[..]), v)
  {
    for i := 0 to b.Length
      invariant forall k :: 0 <= k < b.Length ==> b[k] == if k < i then old(b[k]) + v[k] else old(b[k])
    {
      b[i] := b[i] + v[i];
    }
  }

  /** reduce_from_model_parallel_region: the rank's own output is overwritten with the sum over all ranks. */
  method ReduceFromRegion(input: array<real>, outputs: seq<Vector>, rank: nat)
    requires rank < |outputs| && outputs[rank] == input[..] && Rect(outputs, input.Length)
    modifies input
    ensures input[..] == Reduce(outputs, rank)
  {
    if |outputs| == 1 { return; }
    for i := 0 to input.Length
      invariant forall k :: 0 <= k < i ==> input[k] == 0.0
    {
      input[i] := 0.0;
    }
    assert input[..] == Sum(outputs[..0], input.Length);
    for r := 0 to |outputs|
      invariant input[..] == Sum(outputs[..r], input.Length)
    {
      AddInPlace(input, outputs[r]);
      assert outputs[..r + 1][..r] == outputs[..r];
    }
    assert outputs[..|outputs|] == outputs;
  }

  /** The tail of the row-parallel forward: reduce, then add the bias in place. */
  method RowForward(output: array<real>, outputs: seq<Vector>, rank: nat, bias: Vector)
    requires rank < |outputs| && outputs[rank] == output[..] && Rect(outputs, output.Length) && |bias| == output.Length
    modifies output
    ensures output[..] == Add(Reduce(outputs, rank), bias)
  {
    ReduceFromRegion(output, outputs, rank);
    AddInPlace(output, bias);
  }
}
