/** Fused loading: one weight built from the tensors of several prefixes, which may arrive in any order from any split
    of the checkpoint into files (src/layers/linear_impl.cpp). */
module FusedLoading {
  import opened Arith
  import opened Tensors
  import opened WeightLoading

  datatype Option<T> = None | Some(value: T)

  type Pieces<T> = seq<Option<seq<T>>>

  /** What merge_weights works on: the pieces seen so far, the weight, and whether it is complete. */
  datatype Loader<T> = Loader(pieces: Pieces<T>, weight: seq<T>, loaded: bool)

  function At<T>(pieces: Pieces<T>, i: nat): Option<seq<T>> { if i < |pieces| then pieces[i] else None }

  /** The new pieces, and the old ones where there is none. */
  function Fill<T>(pieces: Pieces<T>, list: Pieces<T>): (all: Pieces<T>)
    ensures |all| == |list|
  {
    seq(|list|, i requires 0 <= i < |list| => if At(pieces, i).Some? then At(pieces, i) else list[i])
  }

  predicate Complete<T>(pieces: Pieces<T>) { forall i :: 0 <= i < |pieces| ==> pieces[i].Some? }

  function Values<T>(pieces: Pieces<T>): (v: seq<seq<T>>)
    requires Complete(pieces)
    ensures |v| == |pieces|
  {
    seq(|pieces|, i requires 0 <= i < |pieces| => pieces[i].value)
  }

  /** merge_weights. */
  function Merge<T>(l: Loader<T>, list: Pieces<T>): Loader<T> {
    if l.loaded then l
    else
      var all := Fill(l.pieces, list);
      if Complete(all) then Loader([], Concat(Values(all)), true) else l.(pieces := all)
  }

  function MergeAll<T>(l: Loader<T>, lists: seq<Pieces<T>>): Loader<T> {
    if lists == [] then l else Merge(MergeAll(l, lists[..|lists| - 1]), lists[|lists| - 1])
  }

  /** The checks of merge_weights: no piece comes twice, and the merged weight has the size of the parameter. */
  predicate Accepts<T>(l: Loader<T>, list: Pieces<T>) {
    l.loaded ||
    (&& |l.pieces| <= |list|
     && (forall i :: 0 <= i < |list| ==> At(l.pieces, i).None? || list[i].None?)
     && (Complete(Fill(l.pieces, list)) ==> |Concat(Values(Fill(l.pieces, list)))| == |l.weight|))
  }

  // ----- any order of files

  predicate SeenIn<T>(lists: seq<Pieces<T>>, i: nat) { exists f :: 0 <= f < |lists| && At(lists[f], i).Some? }

  /** Each of the pieces is in exactly one of the lists, and every list has a place for each of them. */
  predicate OnceEach<T(==)>(lists: seq<Pieces<T>>, whole: seq<seq<T>>) {
    && (forall f :: 0 <= f < |lists| ==> |lists[f]| == |whole|)
    && (forall f, i :: 0 <= f < |lists| && 0 <= i < |whole| && At(lists[f], i).Some? ==> At(lists[f], i).value == whole[i])
    && (forall i :: 0 <= i < |whole| ==> SeenIn(lists, i))
    && (forall f, g, i :: 0 <= f < g < |lists| && 0 <= i < |whole| && At(lists[f], i).Some? ==> At(lists[g], i).None?)
  }

  /** The loader after the given files: complete exactly when all pieces have been seen. */
  predicate Progress<T(==)>(l: Loader<T>, lists: seq<Pieces<T>>, whole: seq<seq<T>>) {
    && (l.loaded <==> (forall i :: 0 <= i < |whole| ==> SeenIn(lists, i)))
    && (l.loaded ==> l.weight == Concat(whole))
    && (!l.loaded ==>
          && |l.pieces| <= |whole| && |l.weight| == |Concat(whole)|
          && forall i :: 0 <= i < |whole| ==> At(l.pieces, i) == if SeenIn(lists, i) then Some(whole[i]) else None)
  }

  lemma SeenMore<T>(lists: seq<Pieces<T>>, list: Pieces<T>, i: nat)
    ensures SeenIn(lists + [list], i) <==> SeenIn(lists, i) || At(list, i).Some?
  {
    var more := lists + [list];
    if SeenIn(lists, i) {
      var f :| 0 <= f < |lists| && At(lists[f], i).Some?;
      assert At(more[f], i).Some?;
    }
    if At(list, i).Some? { assert At(more[|lists|], i).Some?; }
  }

  /** One more file, none of whose pieces has been seen, is accepted and keeps the progress. */
  lemma MergeProgress<T>(l: Loader<T>, lists: seq<Pieces<T>>, list: Pieces<T>, whole: seq<seq<T>>)
    requires Progress(l, lists, whole) && |list| == |whole|
    requires forall i :: 0 <= i < |whole| && list[i].Some? ==> list[i].value == whole[i] && !SeenIn(lists, i)
    ensures Accepts(l, list) && Progress(Merge(l, list), lists + [list], whole)
  {
    forall i | 0 <= i < |whole| ensures SeenIn(lists + [list], i) <==> SeenIn(lists, i) || list[i].Some? {
      SeenMore(lists, list, i);
    }
    if !l.loaded {
      var all := Fill(l.pieces, list);
      assert forall i :: 0 <= i < |whole| ==> all[i] == if SeenIn(lists + [list], i) then Some(whole[i]) else None;
      if Complete(all) {
        assert forall i :: 0 <= i < |whole| ==> all[i].Some?;
        assert Values(all) == whole;
      }
    }
  }

  lemma PrefixOnce<T>(lists: seq<Pieces<T>>, whole: seq<seq<T>>, k: nat, i: nat)
    requires OnceEach(lists, whole) && k < |lists| && i < |whole| && At(lists[k], i).Some?
    ensures !SeenIn(lists[..k], i)
  {
  }

  lemma NothingSeen<T>(l: Loader<T>, whole: seq<seq<T>>)
    requires whole != [] && l.pieces == [] && !l.loaded && |l.weight| == |Concat(whole)|
    ensures Progress(l, [], whole)
  {
    assert !SeenIn<T>([], 0);
  }

  lemma {:induction false} ProgressAfter<T>(l: Loader<T>, lists: seq<Pieces<T>>, whole: seq<seq<T>>, k: nat)
    requires OnceEach(lists, whole) && k <= |lists| && Progress(l, [], whole)
    ensures Progress(MergeAll(l, lists[..k]), lists[..k], whole)
  {
    if k == 0 {
      assert lists[..0] == [];
    } else {
      ProgressAfter(l, lists, whole, k - 1);
      OneMore(MergeAll(l, lists[..k - 1]), lists, whole, k - 1);
      assert lists[..k][..k - 1] == lists[..k - 1];
    }
  }

  /** Whatever the split into files and their order: no check fails, the weight is complete after k files exactly when
      the last piece is among them, and it is then the concatenation of the pieces in the order of the prefixes. */
  lemma OrderDoesNotMatter<T>(l: Loader<T>, lists: seq<Pieces<T>>, whole: seq<seq<T>>, k: nat)
    requires OnceEach(lists, whole) && k <= |lists| && whole != []
    requires l.pieces == [] && !l.loaded && |l.weight| == |Concat(whole)|
    ensures k < |lists| ==> Accepts(MergeAll(l, lists[..k]), lists[k])
    ensures MergeAll(l, lists[..k]).loaded <==> (forall i :: 0 <= i < |whole| ==> SeenIn(lists[..k], i))
    ensures MergeAll(l, lists[..k]).loaded ==> MergeAll(l, lists[..k]).weight == Concat(whole)
    ensures k == |lists| ==> MergeAll(l, lists[..k]).loaded
  {
    NothingSeen(l, whole);
    ProgressAfter(l, lists, whole, k);
    if k < |lists| {
      OneMore(MergeAll(l, lists[..k]), lists, whole, k);
    } else {
      assert lists[..k] == lists;
    }
  }

  lemma OneMore<T>(l: Loader<T>, lists: seq<Pieces<T>>, whole: seq<seq<T>>, k: nat)
    requires OnceEach(lists, whole) && k < |lists| && Progress(l, lists[..k], whole)
    ensures Accepts(l, lists[k]) && Progress(Merge(l, lists[k]), lists[..k + 1], whole)
  {
    forall i | 0 <= i < |whole| && lists[k][i].Some? ensures lists[k][i].value == whole[i] && !SeenIn(lists[..k], i) {
      assert At(lists[k], i).Some?;
      PrefixOnce(lists, whole, k, i);
    }
    MergeProgress(l, lists[..k], lists[k], whole);
    assert lists[..k] + [lists[k]] == lists[..k + 1];
  }

  // ----- a rank that loads a fused weight

  function ToPiece<T>(a: Answer<T>): Option<seq<T>> { if a.Piece? then Some(a.rows) else None }

  /** The pieces one file has for a rank. */
  function PieceList<T>(sd: StateDict<T>, names: seq<string>, rank: nat, worldSize: nat): (list: Pieces<T>)
    requires ForWorld(sd, rank, worldSize)
    ensures |list| == |names|
  {
    seq(|names|, i requires 0 <= i < |names| => ToPiece(GetShardedTensor(sd, names[i], rank, worldSize)))
  }

  function PieceLists<T>(files: seq<StateDict<T>>, names: seq<string>, rank: nat, worldSize: nat): (lists: seq<Pieces<T>>)
    requires forall f :: 0 <= f < |files| ==> ForWorld(files[f], rank, worldSize)
    ensures |lists| == |files|
  {
    seq(|files|, f requires 0 <= f < |files| => PieceList(files[f], names, rank, worldSize))
  }

  /** A checkpoint of the given number of shards, in which the files of each shard divide its tensors among them:
      tensors[s][i] is what shard s has under names[i]. */
  predicate Divided<T(==)>(files: seq<StateDict<T>>, names: seq<string>, shards: nat, tensors: seq<seq<seq<T>>>) {
    && |tensors| == shards
    && (forall f :: 0 <= f < |files| ==> files[f].shardId < files[f].numShards == shards)
    && (forall s :: 0 <= s < shards ==> |tensors[s]| == |names|)
    && (forall s, i :: 0 <= s < shards && 0 <= i < |names| ==> InOneFile(files, s, names[i], tensors[s][i]))
  }

  /** The file has the shard's tensor of this name. */
  predicate Has<T>(sd: StateDict<T>, shard: nat, name: string) { sd.shardId == shard && name in sd.dict }

  predicate InOneFile<T(==)>(files: seq<StateDict<T>>, shard: nat, name: string, t: seq<T>) {
    && (exists f :: 0 <= f < |files| && Has(files[f], shard, name))
    && (forall f :: 0 <= f < |files| && Has(files[f], shard, name) ==> files[f].dict[name] == t)
    && (forall f, g :: 0 <= f < g < |files| && Has(files[f], shard, name) ==> !Has(files[g], shard, name))
  }

  /** The chunks of local rank `local` among the n ranks of a shard. */
  function RankPieces<T>(tensors: seq<seq<T>>, local: nat, n: nat): (whole: seq<seq<T>>)
    requires local < n && forall i :: 0 <= i < |tensors| ==> Splits(|tensors[i]|, n)
    ensures |whole| == |tensors|
  {
    seq(|tensors|, i requires 0 <= i < |tensors| => SplitsEvenly(|tensors[i]|, n); Chunk(tensors[i], n, local))
  }

  lemma SplitsEvenly(size: nat, n: nat)
    requires n > 0 && Splits(size, n)
    ensures size % n == 0 && size == n * (size / n)
    ensures n == 1 ==> size / n == size
  {
    if n == 1 { DivModUnique(size, 1, size, 0); }
  }

  /** The share of a tensor that splits is its chunk, also where the whole tensor is handed out. */
  lemma ShareIsChunk<T>(t: seq<T>, n: nat, local: nat)
    requires local < n && Splits(|t|, n)
    ensures |t| % n == 0 && Share(t, n, local) == Piece(Chunk(t, n, local))
  {
    SplitsEvenly(|t|, n);
    if |t| <= n {
      assert t[0..|t|] == t;
      assert Chunk(t, n, local) == t;
    }
  }

  /** What a file has for a rank: its chunk of the tensor if the file is of the rank's shard, else nothing. */
  lemma FileShare<T>(sd: StateDict<T>, name: string, rank: nat, worldSize: nat)
    requires ForWorld(sd, rank, worldSize)
    ensures var n := worldSize / sd.numShards;
            && n > 0 && rank / n < sd.numShards
            && GetShardedTensor(sd, name, rank, worldSize)
               == if Has(sd, rank / n, name) then Share(sd.dict[name], n, rank % n) else Missing
  {
    HomeShard(worldSize, sd.numShards, rank, sd.shardId);
  }

  /** What is asked of a world of ranks for a checkpoint of this many shards. */
  predicate World(shards: nat, rank: nat, worldSize: nat) {
    shards > 0 && rank < worldSize && worldSize % shards == 0 && worldSize / shards > 0
    && rank / (worldSize / shards) < shards
  }

  lemma PieceAt<T>(files: seq<StateDict<T>>, names: seq<string>, shards: nat, tensors: seq<seq<seq<T>>>,
                   rank: nat, worldSize: nat, f: nat, i: nat)
    requires Divided(files, names, shards, tensors) && World(shards, rank, worldSize)
    requires f < |files| && i < |names| && ForWorld(files[f], rank, worldSize)
    requires var n := worldSize / shards; Splits(|tensors[rank / n][i]|, n)
    ensures var n := worldSize / shards;
            && |tensors[rank / n][i]| % n == 0
            && At(PieceList(files[f], names, rank, worldSize), i)
               == if Has(files[f], rank / n, names[i]) then Some(Chunk(tensors[rank / n][i], n, rank % n)) else None
  {
    var n := worldSize / shards;
    assert InOneFile(files, rank / n, names[i], tensors[rank / n][i]);
    FileShare(files[f], names[i], rank, worldSize);
    ShareIsChunk(tensors[rank / n][i], n, rank % n);
  }

  lemma DividedOnce<T>(files: seq<StateDict<T>>, names: seq<string>, shards: nat, tensors: seq<seq<seq<T>>>,
                       rank: nat, worldSize: nat)
    requires Divided(files, names, shards, tensors) && World(shards, rank, worldSize)
    requires var n := worldSize / shards; forall i :: 0 <= i < |names| ==> Splits(|tensors[rank / n][i]|, n)
    requires forall f :: 0 <= f < |files| ==> ForWorld(files[f], rank, worldSize)
    ensures var n := worldSize / shards;
            OnceEach(PieceLists(files, names, rank, worldSize), RankPieces(tensors[rank / n], rank % n, n))
  {
    var n := worldSize / shards;
    var home := rank / n;
    var lists, whole := PieceLists(files, names, rank, worldSize), RankPieces(tensors[home], rank % n, n);
    forall f, i | 0 <= f < |files| && 0 <= i < |names|
      ensures At(lists[f], i) == if Has(files[f], home, names[i]) then Some(whole[i]) else None
    {
      PieceAt(files, names, shards, tensors, rank, worldSize, f, i);
    }
    forall i | 0 <= i < |whole| ensures SeenIn(lists, i) {
      assert InOneFile(files, home, names[i], tensors[home][i]);
      var f :| 0 <= f < |files| && Has(files[f], home, names[i]);
      assert At(lists[f], i).Some?;
    }
    forall f, g, i | 0 <= f < g < |lists| && 0 <= i < |whole| && At(lists[f], i).Some? ensures At(lists[g], i).None? {
      assert InOneFile(files, home, names[i], tensors[home][i]);
    }
  }

  /** A rank that visits all files ends with its chunk of every named tensor of its shard, in the order of the names; n is
      the number of ranks per shard, and the rank is number `local` in shard `home`. */
  lemma FusedWeightOfRank<T>(l: Loader<T>, files: seq<StateDict<T>>, names: seq<string>, shards: nat,
                             tensors: seq<seq<seq<T>>>, rank: nat, worldSize: nat, n: nat, home: nat, local: nat)
    requires Divided(files, names, shards, tensors) && World(shards, rank, worldSize) && names != []
    requires n == worldSize / shards && home == rank / n && local == rank % n
    requires forall i :: 0 <= i < |names| ==> Splits(|tensors[home][i]|, n)
    requires forall f :: 0 <= f < |files| ==> ForWorld(files[f], rank, worldSize)
    requires l.pieces == [] && !l.loaded && |l.weight| == |Concat(RankPieces(tensors[home], local, n))|
    ensures MergeAll(l, PieceLists(files, names, rank, worldSize)).loaded
    ensures MergeAll(l, PieceLists(files, names, rank, worldSize)).weight == Concat(RankPieces(tensors[home], local, n))
  {
    DividedOnce(files, names, shards, tensors, rank, worldSize);
    AllLoaded(l, PieceLists(files, names, rank, worldSize), RankPieces(tensors[home], local, n));
  }

  lemma AllLoaded<T>(l: Loader<T>, lists: seq<Pieces<T>>, whole: seq<seq<T>>)
    requires OnceEach(lists, whole) && whole != []
    requires l.pieces == [] && !l.loaded && |l.weight| == |Concat(whole)|
    ensures MergeAll(l, lists).loaded && MergeAll(l, lists).weight == Concat(whole)
  {
    OrderDoesNotMatter(l, lists, whole, |lists|);
    assert lists[..|lists|] == lists;
  }

  // ----- the layer

  /** One parameter of a layer, with the pieces it has seen. */
  class Parameter<T> {
    var pieces: Pieces<T>
    var weight: seq<T>
    var loaded: bool

    ghost function Abs(): Loader<T>
      reads this
    {
      Loader(pieces, weight, loaded)
    }

    constructor (initial: seq<T>)
      ensures Abs() == Loader([], initial, false)
    {
      pieces, weight, loaded := [], initial, false;
    }

    /** merge_weights. */
    method MergeWeights(list: Pieces<T>)
      requires Accepts(Abs(), list)
      modifies this
      ensures Abs() == Merge(old(Abs()), list)
    {
      if loaded { return; }
      ghost var target := Fill(pieces, list);
      while |pieces| < |list|
        invariant |old(pieces)| <= |pieces| <= |list| && Fill(pieces, list) == target
        invariant weight == old(weight) && !loaded
        invariant forall i :: 0 <= i < |pieces| ==> pieces[i] == At(old(pieces), i)
      {
        pieces := pieces + [None];
      }
      var all, complete := list, true;
      for i := 0 to |list|
        invariant |all| == |list| && forall j :: 0 <= j < |list| ==> all[j] == if j < i then target[j] else list[j]
        invariant complete <==> forall j :: 0 <= j < i ==> target[j].Some?
      {
        if pieces[i].Some? { all := all[i := pieces[i]]; }
        assert all[i] == target[i];
        complete := complete && all[i].Some?;
      }
      assert all == target;
      if !complete {
        pieces := all;
      } else {
        weight := ConcatValues(all);
        pieces := [];
        loaded := true;
      }
    }
  }

  function Named(prefixes: seq<string>, suffix: string): (names: seq<string>)
    ensures |names| == |prefixes| && forall i :: 0 <= i < |names| ==> names[i] == prefixes[i] + suffix
  {
    seq(|prefixes|, i requires 0 <= i < |prefixes| => prefixes[i] + suffix)
  }

  predicate NoAbort<T>(sd: StateDict<T>, names: seq<string>, rank: nat, worldSize: nat)
    requires ForWorld(sd, rank, worldSize)
  {
    forall i :: 0 <= i < |names| ==> !GetShardedTensor(sd, names[i], rank, worldSize).Abort?
  }

  /** The pieces one file has for a rank, one prefix after the other. */
  method CollectPieces<T>(sd: StateDict<T>, names: seq<string>, rank: nat, worldSize: nat) returns (list: Pieces<T>)
    requires ForWorld(sd, rank, worldSize) && NoAbort(sd, names, rank, worldSize)
    ensures list == PieceList(sd, names, rank, worldSize)
  {
    list := [];
    for i := 0 to |names|
      invariant list == PieceList(sd, names, rank, worldSize)[..i]
    {
      list := list + [ToPiece(GetShardedTensor(sd, names[i], rank, worldSize))];
    }
  }

  /** The layer: a weight whose slices are rows, and perhaps a bias whose slices are numbers. A file is given by its
      matrices and its vectors. */
  class ColumnParallelLinear<R, N> {
    const weight: Parameter<R>
    const bias: Parameter<N>
    const hasBias: bool
    const rank: nat
    const worldSize: nat

    constructor (weight: Parameter<R>, bias: Parameter<N>, hasBias: bool, rank: nat, worldSize: nat)
      ensures this.weight == weight && this.bias == bias && this.hasBias == hasBias
      ensures this.rank == rank && this.worldSize == worldSize
    {
      this.weight, this.bias, this.hasBias, this.rank, this.worldSize := weight, bias, hasBias, rank, worldSize;
    }

    /** load_state_dict for a list of prefixes: both parameters merge the file's pieces for the rank. */
    method LoadStateDict(matrices: StateDict<R>, vectors: StateDict<N>, prefixes: seq<string>)
      requires ForWorld(matrices, rank, worldSize) && ForWorld(vectors, rank, worldSize)
      requires NoAbort(matrices, Named(prefixes, "weight"), rank, worldSize)
      requires Accepts(weight.Abs(), PieceList(matrices, Named(prefixes, "weight"), rank, worldSize))
      requires hasBias ==> NoAbort(vectors, Named(prefixes, "bias"), rank, worldSize)
      requires hasBias ==> Accepts(bias.Abs(), PieceList(vectors, Named(prefixes, "bias"), rank, worldSize))
      requires weight as object != bias as object
      modifies weight, bias
      ensures weight.Abs() == Merge(old(weight.Abs()), PieceList(matrices, Named(prefixes, "weight"), rank, worldSize))
      ensures bias.Abs() == if hasBias then Merge(old(bias.Abs()), PieceList(vectors, Named(prefixes, "bias"), rank, worldSize))
                            else old(bias.Abs())
    {
      var weights := CollectPieces(matrices, Named(prefixes, "weight"), rank, worldSize);
      weight.MergeWeights(weights);
      if hasBias {
        var biases := CollectPieces(vectors, Named(prefixes, "bias"), rank, worldSize);
        bias.MergeWeights(biases);
      }
    }
  }

  /** Concatenation of a complete list, piece by piece. */
  method ConcatValues<T>(all: Pieces<T>) returns (merged: seq<T>)
    requires Complete(all)
    ensures merged == Concat(Values(all))
  {
    merged := [];
    for i := 0 to |all|
      invariant merged == Concat(Values(all)[..i])
    {
      assert Values(all)[..i + 1][..i] == Values(all)[..i];
      merged := merged + all[i].value;
    }
    assert Values(all)[..|all|] == Values(all);
  }
}
