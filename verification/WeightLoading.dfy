/** Loading a checkpoint that may be split over files and sharded over ranks (src/model_loader/state_dict.cpp,
    src/layers/linear_impl.cpp). A tensor is the sequence of its slices along the dimension it is sharded on. */
module WeightLoading {
  import opened Arith
  import opened Tensors

  /** The part of a dimension that a file gives to a rank: none, a fatal uneven split, or a range. */
  datatype Range = Absent | Uneven | Span(lo: nat, hi: nat)

  /** get_sharded_tensor, as a range of the sharded dimension. */
  function ShardRange(shardId: nat, numShards: nat, rank: nat, worldSize: nat, dimSize: nat): (r: Range)
    requires shardId < numShards && rank < worldSize && worldSize % numShards == 0
    ensures r.Span? ==> r.lo <= r.hi <= dimSize
  {
    RanksPerShard(worldSize, numShards);
    var n := worldSize / numShards;
    var start := shardId * n;
    if rank < start || rank >= start + n then Absent else LocalRange(n, rank - start, dimSize)
  }

  /** The range of local rank `local` among the n ranks that share a file. */
  function LocalRange(n: nat, local: nat, dimSize: nat): (r: Range)
    requires local < n
    ensures r.Span? ==> r.lo <= r.hi <= dimSize
  {
    if dimSize <= n then Span(0, dimSize)
    else if dimSize % n != 0 then Uneven
    else
      ChunkBounds(dimSize, n, local);
      Span(local * (dimSize / n), (local + 1) * (dimSize / n))
  }

  lemma RanksPerShard(worldSize: nat, numShards: nat)
    requires 0 < numShards && 0 < worldSize && worldSize % numShards == 0
    ensures worldSize / numShards > 0 && worldSize == numShards * (worldSize / numShards)
  {
    assert worldSize == numShards * (worldSize / numShards);
    assert worldSize / numShards != 0;
  }

  /** A rank lies in exactly one file's range of ranks. */
  lemma HomeShard(worldSize: nat, numShards: nat, rank: nat, shardId: nat)
    requires rank < worldSize && shardId < numShards && worldSize % numShards == 0
    ensures worldSize / numShards > 0 && rank / (worldSize / numShards) < numShards
    ensures var n := worldSize / numShards;
            (shardId * n <= rank < shardId * n + n) <==> shardId == rank / n
    ensures var n := worldSize / numShards; rank - (rank / n) * n == rank % n
  {
    RanksPerShard(worldSize, numShards);
    var n := worldSize / numShards;
    BlockIndexBound(rank, n, numShards);
    assert rank == (rank / n) * n + rank % n;
    if shardId * n <= rank < shardId * n + n {
      DivModUnique(rank, n, shardId, rank - shardId * n);
    }
  }

  // ----- state dictionaries

  datatype Answer<T> = Missing | Abort | Piece(rows: seq<T>)

  /** One file: its tensors by name, and which shard of how many it is. */
  datatype StateDict<T> = StateDict(dict: map<string, seq<T>>, shardId: nat, numShards: nat)

  predicate ForWorld<T>(sd: StateDict<T>, rank: nat, worldSize: nat) {
    sd.shardId < sd.numShards && rank < worldSize && worldSize % sd.numShards == 0
  }

  function Cut<T>(t: seq<T>, r: Range): Answer<T>
    requires r.Span? ==> r.lo <= r.hi <= |t|
  {
    match r case Absent => Missing case Uneven => Abort case Span(lo, hi) => Piece(t[lo..hi])
  }

  /** get_sharded_tensor along the first dimension. */
  function GetShardedTensor<T>(sd: StateDict<T>, name: string, rank: nat, worldSize: nat): Answer<T>
    requires ForWorld(sd, rank, worldSize)
  {
    if name !in sd.dict then Missing
    else Cut(sd.dict[name], ShardRange(sd.shardId, sd.numShards, rank, worldSize, |sd.dict[name]|))
  }

  function Width(m: Matrix): nat { if m == [] then 0 else |m[0]| }

  predicate Rectangular(sd: StateDict<Vector>) { forall name <- sd.dict :: Rect(sd.dict[name], Width(sd.dict[name])) }

  /** get_sharded_tensor along the second dimension. */
  function GetShardedColumns(sd: StateDict<Vector>, name: string, rank: nat, worldSize: nat): Answer<Vector>
    requires ForWorld(sd, rank, worldSize) && Rectangular(sd)
  {
    if name !in sd.dict then Missing
    else
      var m := sd.dict[name];
      assert Rect(m, Width(m));
      match ShardRange(sd.shardId, sd.numShards, rank, worldSize, Width(m))
      case Absent => Missing
      case Uneven => Abort
      case Span(lo, hi) => Piece(Columns(m, lo, hi))
  }

  /** What the n ranks of one file get of a tensor. */
  function Share<T>(t: seq<T>, n: nat, local: nat): Answer<T>
    requires local < n
  {
    Cut(t, LocalRange(n, local, |t|))
  }

  function Shares<T>(t: seq<T>, n: nat): (parts: seq<seq<T>>)
    ensures |parts| == n
  {
    seq(n, i requires 0 <= i < n => if Share(t, n, i).Piece? then Share(t, n, i).rows else [])
  }

  predicate AllServed<T>(t: seq<T>, n: nat) { forall i :: 0 <= i < n ==> Share(t, n, i).Piece? }

  /** A dimension that can be split among n ranks: even, and not so small that every rank gets all of it. */
  predicate Splits(size: nat, n: nat)
    requires n > 0
  {
    n == 1 || size == 0 || (size > n && size % n == 0)
  }

  lemma {:induction false} CopiesLength<T>(t: seq<T>, n: nat)
    ensures |Concat(seq(n, _ => t))| == n * |t|
  {
    if n > 0 {
      CopiesLength(t, n - 1);
      assert seq(n, _ => t)[..n - 1] == seq(n - 1, _ => t);
      assert n * |t| == (n - 1) * |t| + |t|;
    }
  }

  lemma ManyCopiesDiffer(n: nat, size: nat)
    requires n > 1 && size > 0
    ensures n * size > size
  {
    MulMonotone(2, n, size);
  }

  /** The ranks of one file get the whole tensor between them, in order, exactly when its size splits. A tensor no
      larger than the number of ranks is handed out whole to each of them instead. */
  lemma SharesReassemble<T>(t: seq<T>, n: nat)
    requires n > 0
    ensures (AllServed(t, n) && Concat(Shares(t, n)) == t) <==> Splits(|t|, n)
  {
    var parts := Shares(t, n);
    if |t| <= n {
      assert t[0..|t|] == t;
      assert parts == seq(n, _ => t);
      CopiesLength(t, n);
      if n == 1 {
        assert parts[..0] == [];
        assert Concat(parts) == [] + t;
      } else if |t| > 0 {
        ManyCopiesDiffer(n, |t|);
      }
    } else if |t| % n == 0 {
      assert parts == Chunks(t, n);
      ChunksConcat(t, n);
    } else {
      assert !Share(t, n, 0).Piece?;
    }
  }

  // ----- a checkpoint of several shards

  /** File i is shard i of |files|, and each holds its part of the tensor. */
  predicate Sharded<T>(files: seq<StateDict<T>>, name: string) {
    forall i :: 0 <= i < |files| ==>
      files[i].shardId == i && files[i].numShards == |files| && name in files[i].dict
  }

  /** For every rank exactly one file answers: the one whose range of ranks holds it; and it gives the rank its share. */
  lemma OneFileAnswers<T>(files: seq<StateDict<T>>, name: string, rank: nat, worldSize: nat, i: nat)
    requires Sharded(files, name) && i < |files| && rank < worldSize && worldSize % |files| == 0
    ensures var n := worldSize / |files|;
            && n > 0 && rank / n < |files|
            && (!GetShardedTensor(files[i], name, rank, worldSize).Missing? <==> i == rank / n)
            && GetShardedTensor(files[rank / n], name, rank, worldSize) == Share(files[rank / n].dict[name], n, rank % n)
  {
    HomeShard(worldSize, |files|, rank, i);
    HomeShard(worldSize, |files|, rank, rank / (worldSize / |files|));
  }

  function FileTensors<T>(files: seq<StateDict<T>>, name: string): seq<seq<T>>
    requires Sharded(files, name)
  {
    seq(|files|, i requires 0 <= i < |files| => files[i].dict[name])
  }

  /** What each rank gets, asking every file in turn. */
  function Loaded<T>(files: seq<StateDict<T>>, name: string, rank: nat, worldSize: nat): Answer<T>
    requires Sharded(files, name) && rank < worldSize && |files| > 0 && worldSize % |files| == 0
  {
    FirstAnswer(files, name, rank, worldSize, 0)
  }

  function FirstAnswer<T>(files: seq<StateDict<T>>, name: string, rank: nat, worldSize: nat, from: nat): Answer<T>
    requires Sharded(files, name) && rank < worldSize && |files| > 0 && worldSize % |files| == 0 && from <= |files|
    decreases |files| - from
  {
    if from == |files| then Missing
    else
      var a := GetShardedTensor(files[from], name, rank, worldSize);
      if a.Missing? then FirstAnswer(files, name, rank, worldSize, from + 1) else a
  }

  lemma {:induction false} FirstAnswerIsShare<T>(files: seq<StateDict<T>>, name: string, rank: nat, worldSize: nat, from: nat)
    requires Sharded(files, name) && rank < worldSize && |files| > 0 && worldSize % |files| == 0
    requires worldSize / |files| > 0 && from <= rank / (worldSize / |files|) < |files|
    ensures var n := worldSize / |files|;
            FirstAnswer(files, name, rank, worldSize, from) == Share(files[rank / n].dict[name], n, rank % n)
    decreases |files| - from
  {
    OneFileAnswers(files, name, rank, worldSize, from);
    if from < rank / (worldSize / |files|) {
      FirstAnswerIsShare(files, name, rank, worldSize, from + 1);
    }
  }

  function LoadedParts<T>(files: seq<StateDict<T>>, name: string, worldSize: nat): (parts: seq<seq<T>>)
    requires Sharded(files, name) && |files| > 0 && worldSize % |files| == 0
    ensures |parts| == worldSize
  {
    seq(worldSize, rank requires 0 <= rank < worldSize =>
      var a := Loaded(files, name, rank, worldSize); if a.Piece? then a.rows else [])
  }

  lemma PartIsShare<T>(files: seq<StateDict<T>>, name: string, worldSize: nat, j: nat, i: nat)
    requires Sharded(files, name) && j < |files| && 0 < worldSize && worldSize % |files| == 0
    requires i < worldSize / |files|
    ensures var n := worldSize / |files|;
            && 0 <= j * n + i < worldSize
            && LoadedParts(files, name, worldSize)[j * n + i] == Shares(files[j].dict[name], n)[i]
            && Loaded(files, name, j * n + i, worldSize) == Share(files[j].dict[name], n, i)
  {
    RanksPerShard(worldSize, |files|);
    var n := worldSize / |files|;
    SlotBound(j, n, |files|, i);
    DivModUnique(j * n + i, n, j, i);
    FirstAnswerIsShare(files, name, j * n + i, worldSize, 0);
  }

  lemma PartsOfFile<T>(files: seq<StateDict<T>>, name: string, worldSize: nat, j: nat)
    requires Sharded(files, name) && j < |files| && 0 < worldSize && worldSize % |files| == 0
    ensures var n := worldSize / |files|;
            && 0 <= j * n <= j * n + n <= worldSize
            && LoadedParts(files, name, worldSize)[j * n..j * n + n] == Shares(files[j].dict[name], n)
  {
    RanksPerShard(worldSize, |files|);
    var n := worldSize / |files|;
    SlotBound(j, n, |files|, n - 1);
    var parts, shares := LoadedParts(files, name, worldSize), Shares(files[j].dict[name], n);
    forall i | 0 <= i < n ensures parts[j * n..j * n + n][i] == shares[i] {
      PartIsShare(files, name, worldSize, j, i);
    }
  }

  /** Parts that in groups of n make up the pieces of a whole, together make up the whole. */
  lemma {:induction false} GroupsConcat<T>(parts: seq<seq<T>>, whole: seq<seq<T>>, n: nat, k: nat)
    requires k <= |whole| && forall j :: 0 <= j < k ==> GroupIs(parts, n, j, whole[j])
    ensures 0 <= k * n && (k * n <= |parts| ==> Concat(parts[..k * n]) == Concat(whole[..k]))
  {
    if k == 0 {
      assert 0 * n == 0;
    } else {
      GroupsConcat(parts, whole, n, k - 1);
      assert GroupIs(parts, n, k - 1, whole[k - 1]);
      var m := (k - 1) * n;
      assert k * n == m + n;
      ConcatJoin(parts[..m], parts[m..m + n]);
      assert parts[..m] + parts[m..m + n] == parts[..m + n];
      assert whole[..k][..k - 1] == whole[..k - 1];
    }
  }

  predicate GroupIs<T(==)>(parts: seq<seq<T>>, n: nat, j: nat, piece: seq<T>) {
    0 <= j * n && j * n + n <= |parts| && Concat(parts[j * n..j * n + n]) == piece
  }

  lemma FileGroup<T>(files: seq<StateDict<T>>, name: string, worldSize: nat, j: nat)
    requires Sharded(files, name) && j < |files| && 0 < worldSize && worldSize % |files| == 0
    requires var n := worldSize / |files|; n > 0 && Splits(|files[j].dict[name]|, n)
    ensures GroupIs(LoadedParts(files, name, worldSize), worldSize / |files|, j, FileTensors(files, name)[j])
  {
    PartsOfFile(files, name, worldSize, j);
    SharesReassemble(files[j].dict[name], worldSize / |files|);
  }

  lemma RankServed<T>(files: seq<StateDict<T>>, name: string, worldSize: nat, rank: nat)
    requires Sharded(files, name) && |files| > 0 && rank < worldSize && worldSize % |files| == 0
    requires var n := worldSize / |files|; n > 0 && forall j :: 0 <= j < |files| ==> Splits(|files[j].dict[name]|, n)
    ensures Loaded(files, name, rank, worldSize).Piece?
  {
    var n := worldSize / |files|;
    HomeShard(worldSize, |files|, rank, 0);
    FirstAnswerIsShare(files, name, rank, worldSize, 0);
    SharesReassemble(files[rank / n].dict[name], n);
  }

  /** For every world size that is a multiple of the number of shards, every rank gets a piece, and the pieces
      concatenated over the ranks are the whole tensor. */
  lemma CheckpointReassembled<T>(files: seq<StateDict<T>>, name: string, worldSize: nat)
    requires Sharded(files, name) && |files| > 0 && 0 < worldSize && worldSize % |files| == 0
    requires var n := worldSize / |files|; n > 0 && forall j :: 0 <= j < |files| ==> Splits(|files[j].dict[name]|, n)
    ensures forall rank :: 0 <= rank < worldSize ==> Loaded(files, name, rank, worldSize).Piece?
    ensures Concat(LoadedParts(files, name, worldSize)) == Concat(FileTensors(files, name))
  {
    forall rank | 0 <= rank < worldSize ensures Loaded(files, name, rank, worldSize).Piece? {
      RankServed(files, name, worldSize, rank);
    }
    var n, parts, whole := worldSize / |files|, LoadedParts(files, name, worldSize), FileTensors(files, name);
    forall j | 0 <= j < |files| ensures GroupIs(parts, n, j, whole[j]) {
      FileGroup(files, name, worldSize, j);
    }
    GroupsConcat(parts, whole, n, |files|);
    RanksPerShard(worldSize, |files|);
    assert parts[..worldSize] == parts && whole[..|files|] == whole;
  }

  // ----- sharding along the second dimension

  /** The file with only row i of the named tensor in it. */
  function RowFile(sd: StateDict<Vector>, name: string, i: nat): StateDict<real>
    requires name in sd.dict && i < |sd.dict[name]|
  {
    StateDict(map[name := sd.dict[name][i]], sd.shardId, sd.numShards)
  }

  /** Sharding the second dimension shares out every row in the same way. */
  lemma ColumnsAreRowShares(sd: StateDict<Vector>, name: string, rank: nat, worldSize: nat, i: nat)
    requires ForWorld(sd, rank, worldSize) && Rectangular(sd) && name in sd.dict && i < |sd.dict[name]|
    ensures var a := GetShardedColumns(sd, name, rank, worldSize);
            var row := GetShardedTensor(RowFile(sd, name, i), name, rank, worldSize);
            && a.Missing? == row.Missing? && a.Abort? == row.Abort?
            && (a.Piece? ==> |a.rows| == |sd.dict[name]| && a.rows[i] == row.rows)
  {
    assert Rect(sd.dict[name], Width(sd.dict[name]));
  }

  /** The shards hold matrices with the same number of rows. */
  predicate ColumnSharded(files: seq<StateDict<Vector>>, name: string, rows: nat) {
    Sharded(files, name) && forall f :: 0 <= f < |files| ==> Rectangular(files[f]) && |files[f].dict[name]| == rows
  }

  function RowFiles(files: seq<StateDict<Vector>>, name: string, rows: nat, i: nat): (r: seq<StateDict<real>>)
    requires ColumnSharded(files, name, rows) && i < rows
    ensures |r| == |files| && Sharded(r, name)
  {
    seq(|files|, f requires 0 <= f < |files| => RowFile(files[f], name, i))
  }

  /** Row i of what the shards give a rank for the second dimension; exactly one of them answers. */
  function RankRow(files: seq<StateDict<Vector>>, name: string, rows: nat, worldSize: nat, i: nat, rank: nat): Vector
    requires ColumnSharded(files, name, rows) && i < rows && |files| > 0 && rank < worldSize && worldSize % |files| == 0
  {
    HomeShard(worldSize, |files|, rank, 0);
    var a := GetShardedColumns(files[rank / (worldSize / |files|)], name, rank, worldSize);
    if a.Piece? && i < |a.rows| then a.rows[i] else []
  }

  lemma RankRowIsLoaded(files: seq<StateDict<Vector>>, name: string, rows: nat, worldSize: nat, i: nat, rank: nat)
    requires ColumnSharded(files, name, rows) && i < rows && |files| > 0 && rank < worldSize && worldSize % |files| == 0
    ensures RankRow(files, name, rows, worldSize, i, rank) == LoadedParts(RowFiles(files, name, rows, i), name, worldSize)[rank]
  {
    var rf := RowFiles(files, name, rows, i);
    HomeShard(worldSize, |files|, rank, 0);
    var f := rank / (worldSize / |files|);
    ColumnsAreRowShares(files[f], name, rank, worldSize, i);
    OneFileAnswers(rf, name, rank, worldSize, f);
    FirstAnswerIsShare(rf, name, rank, worldSize, 0);
  }

  /** Along the second dimension too, the pieces of the ranks put side by side are the whole matrix, row by row. */
  lemma ColumnsReassembled(files: seq<StateDict<Vector>>, name: string, rows: nat, worldSize: nat, i: nat)
    requires ColumnSharded(files, name, rows) && i < rows && |files| > 0 && 0 < worldSize && worldSize % |files| == 0
    requires var n := worldSize / |files|; n > 0 && forall f :: 0 <= f < |files| ==> Splits(|files[f].dict[name][i]|, n)
    ensures Concat(seq(worldSize, rank requires 0 <= rank < worldSize => RankRow(files, name, rows, worldSize, i, rank)))
            == Concat(seq(|files|, f requires 0 <= f < |files| => files[f].dict[name][i]))
  {
    var rf := RowFiles(files, name, rows, i);
    var parts := seq(worldSize, rank requires 0 <= rank < worldSize => RankRow(files, name, rows, worldSize, i, rank));
    forall rank | 0 <= rank < worldSize ensures parts[rank] == LoadedParts(rf, name, worldSize)[rank] {
      RankRowIsLoaded(files, name, rows, worldSize, i, rank);
    }
    assert parts == LoadedParts(rf, name, worldSize);
    assert FileTensors(rf, name) == seq(|files|, f requires 0 <= f < |files| => files[f].dict[name][i]);
    CheckpointReassembled(rf, name, worldSize);
  }

  // ----- select

  /** select: the tensors whose name starts with the prefix, under the rest of their names. */
  method Select<T>(sd: StateDict<T>, prefix: string) returns (r: StateDict<T>)
    ensures r.shardId == sd.shardId && r.numShards == sd.numShards
    ensures forall name: string :: name in r.dict <==> prefix + name in sd.dict
    ensures forall name <- r.dict :: r.dict[name] == sd.dict[prefix + name]
  {
    var selected: map<string, seq<T>> := map[];
    var rest := sd.dict.Keys;
    while rest != {}
      invariant rest <= sd.dict.Keys
      invariant forall name: string :: name in selected <==> prefix + name in sd.dict.Keys - rest
      invariant forall name <- selected :: prefix + name in sd.dict && selected[name] == sd.dict[prefix + name]
      decreases |rest|
    {
      var full :| full in rest;
      if prefix <= full {
        assert full == prefix + full[|prefix|..];
        forall name: string | prefix + name == full ensures name == full[|prefix|..] {
          assert (prefix + name)[|prefix|..] == name;
        }
        selected := selected[full[|prefix|..] := sd.dict[full]];
      } else {
        assert forall name: string :: prefix + name != full by {
          forall name: string ensures prefix + name != full { assert prefix <= prefix + name; }
        }
      }
      rest := rest - {full};
    }
    return StateDict(selected, sd.shardId, sd.numShards);
  }
}
