/** Incremental decoding of a growing token list (src/request/sequence.cpp, decode_delta_text, and the flush rule of
    src/scheduler/continuous_batching_scheduler.cpp). */
module Streaming {

  type Decoder = seq<int> -> string

  const REPLACEMENT := '\U{FFFD}'

  /** Text that does not end in the mark of an unfinished byte sequence. */
  predicate Clean(text: string) { text == "" || text[|text| - 1] != REPLACEMENT }

  /** A tokenizer whose decoding extends stably. Where the text so far is clean, what follows is decoded as if nothing
      had come before, up to what the tokens just before it contribute: whether more tokens end cleanly is decided by
      them alone, and the text added by c after b is the same with or without the tokens a in front. */
  ghost predicate Stable(decode: Decoder) {
    && decode([]) == ""
    && (forall a, b :: Continues(decode, a, b))
    && (forall a, b, c :: Extends(decode, a, b, c))
  }

  predicate Continues(decode: Decoder, a: seq<int>, b: seq<int>) {
    b != [] && Clean(decode(a)) ==> (Clean(decode(a + b)) <==> Clean(decode(b)))
  }

  predicate Extends(decode: Decoder, a: seq<int>, b: seq<int>, c: seq<int>) {
    Clean(decode(a)) && Clean(decode(a + b)) && (b != [] || a == []) ==>
      && decode(b) <= decode(b + c)
      && decode(a + b + c) == decode(a + b) + decode(b + c)[|decode(b)|..]
  }

  datatype Stream = Stream(prefix: nat, output: nat, emitted: string)

  /** decode_delta_text: the text that tokens[output..end] add, decoded together with the tokens before them. */
  function Flush(decode: Decoder, tokens: seq<int>, s: Stream, end: nat): Stream
    requires s.prefix <= s.output <= end <= |tokens|
  {
    var prefixText := decode(tokens[s.prefix..s.output]);
    var newText := decode(tokens[s.prefix..end]);
    if |newText| > |prefixText| && Clean(newText) then Stream(s.output, end, s.emitted + newText[|prefixText|..])
    else s
  }

  /** Offsets are ordered, the text before each is clean, and what was emitted is the one-shot decoding from the start
      offset to the current output offset. */
  ghost predicate Faithful(decode: Decoder, tokens: seq<int>, start: nat, s: Stream) {
    && start <= s.prefix <= s.output <= |tokens|
    && (s.prefix == s.output ==> s.output == start)
    && Clean(decode(tokens[start..s.prefix])) && Clean(decode(tokens[start..s.output]))
    && s.emitted == decode(tokens[start..s.output])
  }

  /** What the decoder says about the window that a flush looks at. */
  lemma Window(decode: Decoder, tokens: seq<int>, start: nat, s: Stream, end: nat)
    requires Stable(decode) && Faithful(decode, tokens, start, s) && s.output <= end <= |tokens|
    ensures var prefixText := decode(tokens[s.prefix..s.output]);
            var newText := decode(tokens[s.prefix..end]);
            && prefixText <= newText
            && decode(tokens[start..end]) == s.emitted + newText[|prefixText|..]
            && (Clean(newText) <==> Clean(decode(tokens[start..end])))
  {
    var a, b, c := tokens[start..s.prefix], tokens[s.prefix..s.output], tokens[s.output..end];
    assert a + b == tokens[start..s.output];
    assert b + c == tokens[s.prefix..end];
    assert a + b + c == tokens[start..end];
    assert a + (b + c) == a + b + c;
    assert Extends(decode, a, b, c) && Continues(decode, a, b + c);
    if b + c == [] {
      assert a == [] && a + b + c == [];
    }
  }

  /** A flush emits exactly the text between the output offset and its end, all or nothing: it succeeds if and only if
      the one-shot text up to its end is longer than what was emitted and is clean. */
  lemma FlushFaithful(decode: Decoder, tokens: seq<int>, start: nat, s: Stream, end: nat)
    requires Stable(decode) && Faithful(decode, tokens, start, s) && s.output <= end <= |tokens|
    ensures var s' := Flush(decode, tokens, s, end);
            var text := decode(tokens[start..end]);
            && Faithful(decode, tokens, start, s')
            && s' == (if |text| > |s.emitted| && Clean(text) then Stream(s.output, end, text) else s)
  {
    Window(decode, tokens, start, s, end);
    if s.output == end {
      var prefixText := decode(tokens[s.prefix..s.output]);
      assert |decode(tokens[s.prefix..end])| == |prefixText|;
    }
  }

  /** Appending tokens disturbs nothing that was streamed. */
  lemma Grows(decode: Decoder, tokens: seq<int>, more: seq<int>, start: nat, s: Stream)
    requires Faithful(decode, tokens, start, s)
    ensures Faithful(decode, tokens + more, start, s)
  {
    assert (tokens + more)[start..s.prefix] == tokens[start..s.prefix];
    assert (tokens + more)[start..s.output] == tokens[start..s.output];
  }

  // ----- whole streams

  /** The constructor's offsets: everything, or everything after the prompt. */
  function Opened(promptLen: nat, echo: bool): (s: Stream)
    ensures s.prefix == s.output == (if echo then 0 else promptLen) && s.emitted == ""
  {
    var start := if echo then 0 else promptLen;
    Stream(start, start, "")
  }

  /** Only the mark of an unfinished byte sequence makes a text unclean. */
  lemma CleanExactly(text: string, c: char)
    ensures Clean("") && (Clean(text + [c]) <==> c != '\U{FFFD}')
  {
  }

  predicate Increasing(ends: seq<nat>, from: nat, to: nat) {
    && (forall i :: 0 <= i < |ends| ==> from <= ends[i] <= to)
    && (forall i, j :: 0 <= i < j < |ends| ==> ends[i] <= ends[j])
  }

  /** One flush per end, in the order in which the single response thread runs them; ends before the output offset do
      not occur, since ends never decrease. */
  function FlushAll(decode: Decoder, tokens: seq<int>, s: Stream, ends: seq<nat>): (s': Stream)
    requires s.prefix <= s.output && Increasing(ends, s.output, |tokens|)
    ensures s'.prefix <= s'.output && s.output <= s'.output
    ensures ends == [] ==> s' == s
    ensures ends != [] ==> s'.output <= ends[|ends| - 1]
    decreases |ends|
  {
    if ends == [] then s
    else
      var n := |ends| - 1;
      Flush(decode, tokens, FlushAll(decode, tokens, s, ends[..n]), ends[n])
  }

  lemma {:induction false} FlushAllFaithful(decode: Decoder, tokens: seq<int>, start: nat, s: Stream, ends: seq<nat>)
    requires Stable(decode) && Faithful(decode, tokens, start, s) && Increasing(ends, s.output, |tokens|)
    ensures Faithful(decode, tokens, start, FlushAll(decode, tokens, s, ends))
    decreases |ends|
  {
    if ends != [] {
      var n := |ends| - 1;
      FlushAllFaithful(decode, tokens, start, s, ends[..n]);
      var before := FlushAll(decode, tokens, s, ends[..n]);
      assert before.output <= ends[n] && FlushAll(decode, tokens, s, ends) == Flush(decode, tokens, before, ends[n]);
      FlushFaithful(decode, tokens, start, before, ends[n]);
    }
  }

  /** Streaming is independent of chunking: two clients of the same sequence that were flushed at different points but
      have come to the same output offset have received the same text, the one-shot decoding up to there. */
  lemma ChunkingIsInvisible(decode: Decoder, tokens: seq<int>, promptLen: nat, echo: bool, ends: seq<nat>, ends': seq<nat>)
    requires Stable(decode) && promptLen <= |tokens|
    requires Increasing(ends, Opened(promptLen, echo).output, |tokens|)
    requires Increasing(ends', Opened(promptLen, echo).output, |tokens|)
    ensures var start := if echo then 0 else promptLen;
            var s := FlushAll(decode, tokens, Opened(promptLen, echo), ends);
            var s' := FlushAll(decode, tokens, Opened(promptLen, echo), ends');
            && start <= s.output <= |tokens| && s.emitted == decode(tokens[start..s.output])
            && (s.output == s'.output ==> s.emitted == s'.emitted)
  {
    var start := Opened(promptLen, echo).output;
    assert tokens[start..start] == [];
    FlushAllFaithful(decode, tokens, start, Opened(promptLen, echo), ends);
    FlushAllFaithful(decode, tokens, start, Opened(promptLen, echo), ends');
  }

  /** A last flush at the end delivers everything, whatever was held back before, if and only if the whole text ends
      cleanly. */
  lemma LastFlushDelivers(decode: Decoder, tokens: seq<int>, promptLen: nat, echo: bool, ends: seq<nat>)
    requires Stable(decode) && promptLen <= |tokens|
    requires Increasing(ends, Opened(promptLen, echo).output, |tokens|)
    requires ends != [] && ends[|ends| - 1] == |tokens|
    ensures var text := decode(tokens[if echo then 0 else promptLen..]);
            FlushAll(decode, tokens, Opened(promptLen, echo), ends).emitted == text <==> Clean(text)
  {
    var open, n := Opened(promptLen, echo), |ends| - 1;
    var start := open.output;
    assert tokens[start..start] == [];
    FlushAllFaithful(decode, tokens, start, open, ends[..n]);
    FlushAllFaithful(decode, tokens, start, open, ends);
    var s := FlushAll(decode, tokens, open, ends[..n]);
    FlushFaithful(decode, tokens, start, s, |tokens|);
    Window(decode, tokens, start, s, |tokens|);
    assert tokens[start..|tokens|] == tokens[start..];
  }

  /** Two tokens make one character; an odd token at the end is an unfinished one. */
  function PairDecoder(tokens: seq<int>): string {
    seq(|tokens| / 2, _ => 'x') + if |tokens| % 2 == 1 then [REPLACEMENT] else []
  }

  lemma PairClean(tokens: seq<int>)
    ensures Clean(PairDecoder(tokens)) <==> |tokens| % 2 == 0
  {
  }

  lemma PairExtends(a: seq<int>, b: seq<int>, c: seq<int>)
    requires |a| % 2 == 0 && |b| % 2 == 0
    ensures PairDecoder(b) <= PairDecoder(b + c)
    ensures PairDecoder(a + b + c) == PairDecoder(a + b) + PairDecoder(b + c)[|PairDecoder(b)|..]
  {
    assert |a + b + c| / 2 == |a| / 2 + |b| / 2 + |c| / 2;
  }

  /** The law admits tokenizers that need several tokens for a character. */
  lemma PairDecoderIsStable()
    ensures Stable(PairDecoder)
  {
    forall a, b ensures Continues(PairDecoder, a, b) {
      PairClean(a);
      PairClean(b);
      PairClean(a + b);
    }
    forall a, b, c ensures Extends(PairDecoder, a, b, c) {
      PairClean(a);
      PairClean(a + b);
      if |a| % 2 == 0 && |a + b| % 2 == 0 { PairExtends(a, b, c); }
    }
  }

  // ----- the object

  class OutputText {
    var tokens: seq<int>
    var prefixOffset: nat
    var outputOffset: nat
    ghost var emitted: string

    ghost function State(): Stream
      reads this
    {
      Stream(prefixOffset, outputOffset, emitted)
    }

    constructor (prompt: seq<int>, echo: bool)
      ensures tokens == prompt && State() == Opened(|prompt|, echo)
    {
      tokens := prompt;
      prefixOffset := if echo then 0 else |prompt|;
      outputOffset := if echo then 0 else |prompt|;
      emitted := "";
    }

    /** A new token disturbs nothing that was streamed. */
    method AppendToken(token: int, ghost decode: Decoder, ghost start: nat)
      requires Faithful(decode, tokens, start, State())
      modifies this`tokens
      ensures tokens == old(tokens) + [token] && Faithful(decode, tokens, start, State())
    {
      Grows(decode, tokens, [token], start, State());
      tokens := tokens + [token];
    }

    /** Keeps the text sent so far equal to the one-shot decoding, and says when something is sent. */
    method DecodeDeltaText(decode: Decoder, end: nat, ghost start: nat) returns (delta: string)
      requires Stable(decode) && Faithful(decode, tokens, start, State()) && outputOffset <= end <= |tokens|
      modifies this`prefixOffset, this`outputOffset, this`emitted
      ensures Faithful(decode, tokens, start, State())
      ensures emitted == old(emitted) + delta
      ensures delta != "" <==> |decode(tokens[start..end])| > |old(emitted)| && Clean(decode(tokens[start..end]))
      ensures delta != "" ==> emitted == decode(tokens[start..end]) && outputOffset == end
    {
      FlushFaithful(decode, tokens, start, State(), end);
      var prefixText := decode(tokens[prefixOffset..outputOffset]);
      var newText := decode(tokens[prefixOffset..end]);
      delta := "";
      if |newText| > |prefixText| && Clean(newText) {
        prefixOffset := outputOffset;
        outputOffset := end;
        delta := newText[|prefixText|..];
      }
      emitted := emitted + delta;
    }
  }
}
