/** A sequence as the engine sees it: its tokens, its cache blocks and its status flags
    (src/request/sequence.h and sequence.cpp). */
module Sequences {
  import opened Arith

  datatype FinishReason = NoReason | Stop | Length | FunctionCall

  /** What a request fixes for its sequences: the stopping criteria, and the name of a set of sampling parameters. */
  datatype Settings = Settings(maxTokens: nat, eosTokenId: int, ignoreEos: bool, sampling: int)

  datatype SeqState = SeqState(
    tokens: seq<int>,
    promptLen: nat,
    settings: Settings,
    cachePos: nat,
    blocks: seq<int>,
    stopped: bool,
    cancelled: bool,
    reason: FinishReason)
  {
    predicate Finished() { cancelled || stopped }

    predicate Prefill() { cachePos == 0 }

    /** append_new_token_id: everything before the new token counts as cached. */
    function Append(token: int): SeqState {
      this.(cachePos := |tokens|, tokens := tokens + [token])
    }

    function AppendBlocks(ids: seq<int>): SeqState { this.(blocks := blocks + ids) }

    /** release_blocks: the cache must be recomputed next time. */
    function Release(): SeqState { this.(cachePos := 0, blocks := []) }

    function Cancel(): SeqState { this.(cancelled := true) }

    /** check_stopping_creteria. An empty token list cannot match the end-of-sentence id. */
    function CheckStop(): SeqState {
      if stopped then this
      else if settings.maxTokens > 0 && |tokens| - promptLen >= settings.maxTokens then
        this.(reason := Length, stopped := true)
      else if !settings.ignoreEos && tokens != [] && tokens[|tokens| - 1] == settings.eosTokenId then
        this.(reason := Stop, stopped := true)
      else this
    }

    function BlocksNeeded(blockSize: nat): nat
      requires blockSize > 0
    {
      CeilDiv(|tokens|, blockSize)
    }
  }

  /** A freshly constructed sequence. */
  function NewSequence(prompt: seq<int>, settings: Settings): SeqState {
    SeqState(prompt, |prompt|, settings, 0, [], false, false, NoReason)
  }

  /** The limit is switched on and used up. */
  predicate LimitReached(t: SeqState) {
    t.settings.maxTokens > 0 && |t.tokens| >= t.promptLen + t.settings.maxTokens
  }

  predicate EndsInEos(t: SeqState) {
    !t.settings.ignoreEos && t.tokens != [] && t.tokens[|t.tokens| - 1] == t.settings.eosTokenId
  }

  /** A live sequence stops exactly when its limit is used up or it ends in the end-of-sentence token; the limit comes
      first for the reason, and nothing else changes. A stopped one is left alone. */
  lemma StopsExactly(t: SeqState)
    ensures !t.stopped ==> (t.CheckStop().stopped <==> LimitReached(t) || EndsInEos(t))
    ensures !t.stopped && t.CheckStop().stopped ==> t.CheckStop().reason == if LimitReached(t) then Length else Stop
    ensures t.CheckStop() == t.(stopped := t.CheckStop().stopped, reason := t.CheckStop().reason)
    ensures t.stopped || !t.CheckStop().stopped ==> t.CheckStop() == t
  {
  }

  /** A new token puts everything before it into the cached prefix; only a release starts the sequence afresh. */
  lemma StageExactly(t: SeqState, token: int)
    ensures t.Append(token).tokens == t.tokens + [token] && t.Append(token).cachePos == |t.tokens|
    ensures t.Append(token) == t.(tokens := t.Append(token).tokens, cachePos := t.Append(token).cachePos)
    ensures t.Append(token).Prefill() <==> t.tokens == []
    ensures t.Release().Prefill() && t.Release() == t.(blocks := [], cachePos := 0)
    ensures NewSequence(t.tokens, t.settings).Prefill()
  {
  }

  /** The cache slot that holds position p. */
  function Slot(blocks: seq<int>, blockSize: nat, p: nat): int
    requires blockSize > 0 && p / blockSize < |blocks|
  {
    blocks[p / blockSize] * blockSize + p % blockSize
  }

  /** num_blocks_to_allocate. */
  function BlocksToAllocate(s: SeqState, blockSize: nat): nat
    requires blockSize > 0
  {
    if s.Finished() then 0
    else if s.BlocksNeeded(blockSize) <= |s.blocks| then 0
    else s.BlocksNeeded(blockSize) - |s.blocks|
  }

  /** What holds of a sequence between any two operations of the engine: the cached prefix is
      empty or everything but the last token, it is backed by blocks, and no block is spare. */
  predicate WellFormed(s: SeqState, blockSize: nat)
    requires blockSize > 0
  {
    && 0 < s.promptLen <= |s.tokens|
    && (s.cachePos == 0 || s.cachePos == |s.tokens| - 1)
    && s.cachePos <= |s.blocks| * blockSize
    && |s.blocks| <= s.BlocksNeeded(blockSize)
  }

  /** Budget of a sequence whose limit is switched on: a live sequence is strictly below its
      limit, a stopped one has a reason, and the limit is never exceeded. */
  predicate WithinBudget(s: SeqState) {
    s.settings.maxTokens > 0 ==>
      && |s.tokens| <= s.promptLen + s.settings.maxTokens
      && (!s.stopped ==> |s.tokens| < s.promptLen + s.settings.maxTokens && s.reason == NoReason)
      && (s.stopped ==> s.reason == Stop || s.reason == Length)
  }
}
