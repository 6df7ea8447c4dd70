/** The linear (recurrent) encoder: which source token it feeds at each step
    of its walk, forward or reverse, with padding in batch mode; where it
    stores the states; and its one-line `linenc_001` record.

    The recurrent builder is abstract: its output after a sequence of
    inputs is the term `Hidden(width, inputs)`, so a stored state says
    exactly which id vectors had been fed when it was produced. */
module LinearEncoding {
  import opened Errors
  import opened Graph
  import opened Text

  type Sentence = seq<int>

  // ---------------------------------------------------------------------
  // The token schedule.

  /** Position fed at walk step t (t counts down from the walk length) for a
      sentence of length len; outside [0, len) the step feeds padding. */
  function FeedPos(len: nat, t: nat, reverse: bool): int
  {
    if reverse then t - 1 else len - t
  }

  /** The id fed for one sentence at step t: its token, or the padding id 0. */
  function StepToken(s: Sentence, t: nat, reverse: bool): int
  {
    var p := FeedPos(|s|, t, reverse);
    if 0 <= p < |s| then s[p] else 0
  }

  /** The id vector fed at step t: one id per sentence. */
  function StepWords(sents: seq<Sentence>, t: nat, reverse: bool): (w: seq<int>)
    ensures |w| == |sents|
  {
    seq(|sents|, i requires 0 <= i < |sents| => StepToken(sents[i], t, reverse))
  }

  /** Every id vector of a walk of length L, in the order they are fed
      (step k of the walk has t = L - k). */
  function Feed(sents: seq<Sentence>, L: nat, reverse: bool): (f: seq<seq<int>>)
    ensures |f| == L
    ensures forall k :: 0 <= k < L ==> |f[k]| == |sents|
  {
    seq(L, k requires 0 <= k < L => StepWords(sents, L - k, reverse))
  }

  /** Where the state of step t is stored: its position in the (padded)
      sentence, left to right whatever the direction. */
  function Slot(L: nat, t: nat, reverse: bool): int
  {
    if reverse then t - 1 else L - t
  }

  /** How many steps have been fed when the state stored at slot is produced. */
  function FedBefore(L: nat, slot: nat, reverse: bool): nat
    requires slot < L
  {
    if reverse then L - slot else slot + 1
  }

  /** The stored states after a whole walk of length L. */
  function WalkStates(sents: seq<Sentence>, L: nat, reverse: bool, width: nat): (ws: seq<Expr>)
    ensures |ws| == L
  {
    seq(L, slot requires 0 <= slot < L =>
      Hidden(width, Feed(sents, L, reverse)[..FedBefore(L, slot, reverse)]))
  }

  /** The expression a walk returns: the last output, or an unset expression
      when nothing was fed. */
  function FinalState(sents: seq<Sentence>, L: nat, reverse: bool, width: nat): Expr
  {
    if L == 0 then Unset else Hidden(width, Feed(sents, L, reverse))
  }

  /** Longest sentence length of a batch. */
  function MaxLen(sents: seq<Sentence>): (m: nat)
    ensures forall i :: 0 <= i < |sents| ==> |sents[i]| <= m
    ensures sents != [] ==> exists i :: 0 <= i < |sents| && |sents[i]| == m
    decreases |sents|
  {
    if sents == [] then 0
    else
      var m := MaxLen(sents[..|sents| - 1]);
      var last := |sents[|sents| - 1]|;
      assert forall i :: 0 <= i < |sents| - 1 ==> sents[i] == sents[..|sents| - 1][i];
      if last > m then last else m
  }

  /** `vector::resize`: keeps the first n elements, pads with unset expressions. */
  function Resize(s: seq<Expr>, n: nat): (r: seq<Expr>)
    ensures |r| == n
    ensures forall i :: 0 <= i < n && i < |s| ==> r[i] == s[i]
  {
    if n <= |s| then s[..n] else s + seq(n - |s|, _ => Unset)
  }

  // ---------------------------------------------------------------------
  // Properties of the schedule.

  /** A single sentence is walked wholly: forward it is fed left to right,
      reverse right to left, each position exactly once, and the reverse
      order is the forward order reversed. */
  lemma SingleFeed(sent: Sentence)
    ensures Feed([sent], |sent|, false) == seq(|sent|, k requires 0 <= k < |sent| => [sent[k]])
    ensures Feed([sent], |sent|, true) == seq(|sent|, k requires 0 <= k < |sent| => [sent[|sent| - 1 - k]])
    ensures forall k :: 0 <= k < |sent| ==>
              Feed([sent], |sent|, true)[k] == Feed([sent], |sent|, false)[|sent| - 1 - k]
  {
    var n := |sent|;
    forall k | 0 <= k < n
      ensures Feed([sent], n, false)[k] == [sent[k]]
      ensures Feed([sent], n, true)[k] == [sent[n - 1 - k]]
    {
      assert StepWords([sent], n - k, false) == [StepToken(sent, n - k, false)];
      assert StepWords([sent], n - k, true) == [StepToken(sent, n - k, true)];
    }
  }

  /** The state stored at slot p of a single-sentence walk is the output
      right after feeding the token at position p. */
  lemma SlotHoldsPosition(sent: Sentence, reverse: bool, width: nat, p: nat)
    requires p < |sent|
    ensures var st := WalkStates([sent], |sent|, reverse, width)[p];
            st.Hidden? && |st.fed| > 0 && st.fed[|st.fed| - 1] == [sent[p]]
  {
    SingleFeed(sent);
    var n := |sent|;
    var k := FedBefore(n, p, reverse) - 1;
    assert Feed([sent], n, reverse)[..k + 1][k] == Feed([sent], n, reverse)[k];
  }

  /** Each slot of a walk of length L is written by exactly one step, and
      every step writes a slot inside the buffer of L states. */
  lemma SlotsArePositions(L: nat, reverse: bool)
    ensures forall t :: 1 <= t <= L ==> 0 <= Slot(L, t, reverse) < L
    ensures forall t1, t2 :: 1 <= t1 <= L && 1 <= t2 <= L && t1 != t2 ==>
              Slot(L, t1, reverse) != Slot(L, t2, reverse)
    ensures forall slot :: 0 <= slot < L ==>
              var t := if reverse then slot + 1 else L - slot;
              1 <= t <= L && Slot(L, t, reverse) == slot && FedBefore(L, slot, reverse) == L - t + 1
  {
  }

  /** In a batch walk of length L no shorter than sentence i, sentence i's
      ids are padding first and then its tokens, each exactly once: in order
      when forward, reversed when reverse. */
  lemma BatchFeedLayout(sents: seq<Sentence>, L: nat, reverse: bool, i: nat, k: nat)
    requires i < |sents| && k < L && |sents[i]| <= L
    ensures var s := sents[i];
            var pad := L - |s|;
            Feed(sents, L, reverse)[k][i] ==
              if k < pad then 0
              else if reverse then s[L - 1 - k]
              else s[k - pad]
  {
    assert Feed(sents, L, reverse)[k] == StepWords(sents, L - k, reverse);
  }

  /** Slots already written once the steps L down to t+1 have run. */
  predicate Written(L: nat, t: nat, reverse: bool, slot: int)
  {
    0 <= slot < L && if reverse then slot >= t else slot < L - t
  }

  /** Step t writes its slot with the output after the steps fed so far, and
      the slots written then are those written before plus this one. */
  lemma WalkStep(sents: seq<Sentence>, L: nat, reverse: bool, width: nat, t: nat)
    requires 1 <= t <= L
    ensures 0 <= Slot(L, t, reverse) < L
    ensures WalkStates(sents, L, reverse, width)[Slot(L, t, reverse)] ==
            Hidden(width, Feed(sents, L, reverse)[..L - t + 1])
    ensures forall slot :: Written(L, t - 1, reverse, slot) <==>
              Written(L, t, reverse, slot) || slot == Slot(L, t, reverse)
  {
    forall slot
      ensures Written(L, t - 1, reverse, slot) <==>
              Written(L, t, reverse, slot) || slot == Slot(L, t, reverse)
    {
      if reverse {
        assert Slot(L, t, reverse) == t - 1;
      } else {
        assert Slot(L, t, reverse) == L - t;
      }
    }
  }

  /** The walk so far, one step longer: the ids of step t come last. */
  lemma FeedPrefixStep(sents: seq<Sentence>, L: nat, reverse: bool, t: nat)
    requires 1 <= t <= L
    ensures Feed(sents, L, reverse)[..L - t + 1] ==
            Feed(sents, L, reverse)[..L - t] + [StepWords(sents, t, reverse)]
  {
    var f := Feed(sents, L, reverse);
    assert f[L - t] == StepWords(sents, t, reverse);
    assert f[..L - t + 1] == f[..L - t] + [f[L - t]];
  }

  /** With the walk as long as the longest sentence, each step feeds one id
      per sentence and every token of every sentence is fed at some step. */
  lemma BatchFeedCovers(sents: seq<Sentence>, reverse: bool)
    ensures var L := MaxLen(sents);
            forall i, p :: 0 <= i < |sents| && 0 <= p < |sents[i]| ==>
              var k := if reverse then L - 1 - p else L - |sents[i]| + p;
              0 <= k < L && Feed(sents, L, reverse)[k][i] == sents[i][p]
  {
    var L := MaxLen(sents);
    forall i, p | 0 <= i < |sents| && 0 <= p < |sents[i]|
      ensures var k := if reverse then L - 1 - p else L - |sents[i]| + p;
              0 <= k < L && Feed(sents, L, reverse)[k][i] == sents[i][p]
    {
      var k := if reverse then L - 1 - p else L - |sents[i]| + p;
      BatchFeedLayout(sents, L, reverse, i, k);
    }
  }

  // ---------------------------------------------------------------------
  // The code as written: the last length taken for the maximum, and the
  // state stored at slot t instead of at the position.

  /** The batch walk length as computed in the source: each later sentence
      overwrites the value, so it ends as the last sentence's length. */
  method AsWrittenBatchLength(sents: seq<Sentence>) returns (maxLen: nat)
    requires |sents| > 0
    ensures maxLen == |sents[|sents| - 1]|
  {
    maxLen := |sents[0]|;
    for i := 1 to |sents|
      invariant maxLen == |sents[i - 1]|
    {
      maxLen := |sents[i]|;
    }
  }

  /** A longer sentence before a shorter last one loses its first tokens:
      with lengths 2 then 1 the walk has one step, which feeds 6 and 7, and
      the token 5 is never fed. */
  lemma AsWrittenBatchLengthDropsTokens()
    ensures var sents := [[5, 6], [7]];
            Feed(sents, |sents[|sents| - 1]|, false) == [[6, 7]]
            && MaxLen(sents) == 2
  {
    var sents: seq<Sentence> := [[5, 6], [7]];
    assert StepWords(sents, 1, false) == [6, 7];
    assert MaxLen(sents[..1]) == 2;
  }

  /** The slots the source writes, in step order: t = n, n-1, ..., 1. */
  function AsWrittenSlots(n: nat): (slots: seq<int>)
    ensures |slots| == n
  {
    seq(n, k requires 0 <= k < n => n - k)
  }

  /** With a buffer of n states for a sentence of length n, the first step
      writes slot n, one past the end, and slot 0 is never written. */
  lemma AsWrittenSlotsOutOfRange(n: nat)
    requires n > 0
    ensures AsWrittenSlots(n)[0] == n
    ensures forall k :: 0 <= k < n ==> AsWrittenSlots(n)[k] != 0
  {
  }

  /** A store as the source writes it: the length the buffer is resized to,
      and the slot written at each step of the walk, in step order. */
  datatype SlotStore = SlotStore(bufferLen: nat, slots: seq<int>)

  /** Some step writes outside the buffer. */
  predicate WritesOutOfRange(s: SlotStore)
  {
    exists k :: 0 <= k < |s.slots| && !(0 <= s.slots[k] < s.bufferLen)
  }

  /** The batch store as written: the buffer is resized to the number of
      sentences, while a walk of walkLen steps writes slot t for
      t = walkLen, ..., 1. */
  function AsWrittenBatchStore(numSents: nat, walkLen: nat): (s: SlotStore)
    ensures s.bufferLen == numSents && |s.slots| == walkLen
  {
    SlotStore(numSents, AsWrittenSlots(walkLen))
  }

  /** In batch mode the slots run from the walk length down to 1 in a
      buffer as long as the batch, so some slot is out of range exactly when
      the walk is at least as long as the batch, and slot 0 is never
      written. */
  lemma AsWrittenBatchSlotsOutOfRange(numSents: nat, walkLen: nat)
    requires numSents > 0 && walkLen > 0
    ensures var s := AsWrittenBatchStore(numSents, walkLen);
            && (forall k :: 0 <= k < walkLen ==> s.slots[k] == walkLen - k)
            && (WritesOutOfRange(s) <==> walkLen >= numSents)
            && (forall k :: 0 <= k < walkLen ==> s.slots[k] != 0)
  {
    var s := AsWrittenBatchStore(numSents, walkLen);
    if walkLen >= numSents {
      assert !(0 <= s.slots[0] < s.bufferLen);
    }
  }

  /** Two sentences of three tokens: the buffer holds two states, the walk
      as written has three steps writing slots 3, 2 and 1, two of them past
      the end, while the sentences have three positions each. */
  lemma AsWrittenBatchExample()
    ensures var sents: seq<Sentence> := [[1, 2, 3], [4, 5, 6]];
            var s := AsWrittenBatchStore(|sents|, |sents[|sents| - 1]|);
            && s.bufferLen == 2 && s.slots == [3, 2, 1]
            && WritesOutOfRange(s) && MaxLen(sents) == 3
  {
    var sents: seq<Sentence> := [[1, 2, 3], [4, 5, 6]];
    AsWrittenBatchSlotsOutOfRange(2, 3);
    assert AsWrittenSlots(3) == [3, 2, 1];
  }

  // ---------------------------------------------------------------------
  // The record `linenc_001 V W spec U rev|for`.

  datatype EncoderConfig = EncoderConfig(
    vocabSize: int, wordrepSize: int, hiddenSpec: string, unkId: int, reverse: bool)

  const EncoderVersion := "linenc_001"

  function EncoderWords(c: EncoderConfig): seq<string>
  {
    [EncoderVersion, IntToString(c.vocabSize), IntToString(c.wordrepSize), c.hiddenSpec,
     IntToString(c.unkId), if c.reverse then "rev" else "for"]
  }

  /** The line `Write` emits. */
  function EncoderLine(c: EncoderConfig): string
  {
    Line(EncoderWords(c))
  }

  /** What `Read` makes of the next line of the stream: the fields and the
      lines after it, or the error it raises. */
  function ParseEncoderRecord(lines: seq<string>): Result<(EncoderConfig, seq<string>)>
  {
    if lines == [] then Err(PrematureEnd("linear encoder"))
    else
      var ws := Words(lines[0]);
      if WordAt(ws, 0) != EncoderVersion then Err(VersionMismatch(EncoderVersion))
      else
        var vocab :- IntAt(ws, 1, "vocab_size");
        var wordrep :- IntAt(ws, 2, "wordrep_size");
        var unk :- IntAt(ws, 4, "unk_id");
        Ok((EncoderConfig(vocab, wordrep, WordAt(ws, 3), unk, WordAt(ws, 5) == "rev"), lines[1..]))
  }

  lemma EncoderWordsSafe(c: EncoderConfig)
    requires WordSafe(c.hiddenSpec)
    ensures forall i :: 0 <= i < |EncoderWords(c)| ==> WordSafe(EncoderWords(c)[i])
  {
    IntToStringWordSafe(c.vocabSize);
    IntToStringWordSafe(c.wordrepSize);
    IntToStringWordSafe(c.unkId);
    assert WordSafe(EncoderVersion);
    assert WordSafe("rev") && WordSafe("for");
  }

  /** Reading a written record restores all five fields and consumes exactly
      its line, provided the hidden spec is one word. */
  lemma EncoderRecordRoundTrip(c: EncoderConfig, rest: seq<string>)
    requires WordSafe(c.hiddenSpec)
    ensures ParseEncoderRecord([EncoderLine(c)] + rest) == Ok((c, rest))
  {
    EncoderWordsSafe(c);
    WordsOfLine(EncoderWords(c));
    ParseIntToString(c.vocabSize);
    ParseIntToString(c.wordrepSize);
    ParseIntToString(c.unkId);
    assert ([EncoderLine(c)] + rest)[1..] == rest;
  }

  /** A record whose first word is not the version is rejected, whatever follows. */
  lemma EncoderRecordRejectsVersion(lines: seq<string>)
    requires lines != [] && WordAt(Words(lines[0]), 0) != EncoderVersion
    ensures ParseEncoderRecord(lines) == Err(VersionMismatch(EncoderVersion))
  {
  }

  // ---------------------------------------------------------------------
  // The encoder object.

  class LinearEncoder {
    const vocabSize: int
    const wordrepSize: int
    const hiddenSpec: string
    const unkId: int
    /** Hidden width of the recurrent builder made from hiddenSpec. */
    const numNodes: nat
    var reverse: bool
    /** The graph recorded by NewGraph; None before the first call. */
    var currGraph: Option<GraphId>
    var wordStates: seq<Expr>

    function Config(): EncoderConfig
      reads this
    {
      EncoderConfig(vocabSize, wordrepSize, hiddenSpec, unkId, reverse)
    }

    /** A new encoder walks forward; nodesOf stands for the builder factory
        that turns the hidden spec into a recurrent builder of that width. */
    constructor (vocabSize: int, wordrepSize: int, hiddenSpec: string, unkId: int,
                 nodesOf: string -> nat)
      ensures Config() == EncoderConfig(vocabSize, wordrepSize, hiddenSpec, unkId, false)
      ensures numNodes == nodesOf(hiddenSpec)
      ensures currGraph == None && wordStates == []
    {
      this.vocabSize := vocabSize;
      this.wordrepSize := wordrepSize;
      this.hiddenSpec := hiddenSpec;
      this.unkId := unkId;
      this.numNodes := nodesOf(hiddenSpec);
      this.reverse := false;
      this.currGraph := None;
      this.wordStates := [];
    }

    method SetReverse(r: bool)
      modifies this`reverse
      ensures reverse == r
    {
      reverse := r;
    }

    method NewGraph(cg: GraphId)
      modifies this`currGraph
      ensures currGraph == Some(cg)
    {
      currGraph := Some(cg);
    }

    /** Encodes one sentence, storing the state of each step at the position
        it fed. */
    method BuildSentGraph(sent: Sentence, cg: GraphId) returns (r: Result<Expr>)
      modifies this`wordStates
      ensures r.Err? <==> currGraph != Some(cg)
      ensures r.Err? ==> r.error == GraphMismatch && wordStates == old(wordStates)
      ensures r.Ok? ==> wordStates == WalkStates([sent], |sent|, reverse, numNodes)
      ensures r.Ok? ==> r.value == FinalState([sent], |sent|, reverse, numNodes)
    {
      if currGraph != Some(cg) {
        return Err(GraphMismatch);
      }
      var L := |sent|;
      wordStates := Resize(wordStates, L);
      var fed: seq<seq<int>> := [];
      var h := Unset;
      var t := L;
      while t > 0
        invariant 0 <= t <= L
        invariant |wordStates| == L
        invariant fed == Feed([sent], L, reverse)[..L - t]
        invariant h == if t == L then Unset else Hidden(numNodes, fed)
        invariant forall slot :: Written(L, t, reverse, slot) ==>
                    wordStates[slot] == WalkStates([sent], L, reverse, numNodes)[slot]
      {
        var pos := if reverse then t - 1 else L - t;
        assert StepWords([sent], t, reverse) == [sent[pos]];
        assert Feed([sent], L, reverse)[..L - t + 1] == fed + [[sent[pos]]];
        fed := fed + [[sent[pos]]];
        h := Hidden(numNodes, fed);
        wordStates := wordStates[Slot(L, t, reverse) := h];
        t := t - 1;
      }
      assert Feed([sent], L, reverse)[..L] == Feed([sent], L, reverse);
      return Ok(h);
    }

    /** Encodes a batch: the walk is as long as the longest sentence, each step
        feeds one id per sentence (padding 0 where a sentence has no token),
        and the state of each step is stored at its padded position, in a
        buffer as long as the walk (the corrected store; the source's own is
        AsWrittenBatchStore, one entry per sentence). */
    method BuildBatchGraph(sents: seq<Sentence>, cg: GraphId) returns (r: Result<Expr>)
      requires |sents| > 0
      modifies this`wordStates
      ensures r.Err? <==> currGraph != Some(cg)
      ensures r.Err? ==> r.error == GraphMismatch && wordStates == old(wordStates)
      ensures r.Ok? ==> wordStates == WalkStates(sents, MaxLen(sents), reverse, numNodes)
      ensures r.Ok? ==> r.value == FinalState(sents, MaxLen(sents), reverse, numNodes)
    {
      if currGraph != Some(cg) {
        return Err(GraphMismatch);
      }
      var L := BatchLength(sents);
      wordStates := Resize(wordStates, L);
      var fed: seq<seq<int>> := [];
      var h := Unset;
      var t := L;
      while t > 0
        invariant 0 <= t <= L
        invariant |wordStates| == L
        invariant fed == Feed(sents, L, reverse)[..L - t]
        invariant h == if t == L then Unset else Hidden(numNodes, fed)
        invariant forall slot :: Written(L, t, reverse, slot) ==>
                    wordStates[slot] == WalkStates(sents, L, reverse, numNodes)[slot]
      {
        var words := StepIds(sents, t, reverse);
        FeedPrefixStep(sents, L, reverse, t);
        WalkStep(sents, L, reverse, numNodes, t);
        fed := fed + [words];
        h := Hidden(numNodes, fed);
        wordStates := wordStates[Slot(L, t, reverse) := h];
        t := t - 1;
      }
      assert Feed(sents, L, reverse)[..L] == Feed(sents, L, reverse);
      return Ok(h);
    }

    /** The walk length of a batch: the longest sentence. */
    static method BatchLength(sents: seq<Sentence>) returns (maxLen: nat)
      requires |sents| > 0
      ensures maxLen == MaxLen(sents)
      ensures forall i :: 0 <= i < |sents| ==> |sents[i]| <= maxLen
      ensures exists i :: 0 <= i < |sents| && |sents[i]| == maxLen
    {
      maxLen := |sents[0]|;
      for i := 1 to |sents|
        invariant maxLen == MaxLen(sents[..i])
      {
        assert sents[..i + 1][..i] == sents[..i];
        if |sents[i]| > maxLen {
          maxLen := |sents[i]|;
        }
      }
      assert sents[..|sents|] == sents;
    }

    /** Fills the id buffer of step t: each sentence's token, or padding 0. */
    static method StepIds(sents: seq<Sentence>, t: nat, reverse: bool) returns (words: seq<int>)
      ensures |words| == |sents|
      ensures forall i :: 0 <= i < |sents| ==>
                var pos := FeedPos(|sents[i]|, t, reverse);
                words[i] == if 0 <= pos < |sents[i]| then sents[i][pos] else 0
      ensures words == StepWords(sents, t, reverse)
    {
      var buf := new int[|sents|];
      for i := 0 to |sents|
        invariant forall j :: 0 <= j < i ==> buf[j] == StepToken(sents[j], t, reverse)
      {
        var pos := if reverse then t - 1 else |sents[i]| - t;
        buf[i] := if 0 <= pos < |sents[i]| then sents[i][pos] else 0;
      }
      words := buf[..];
    }

    method Write() returns (line: string)
      ensures line == EncoderLine(Config())
    {
      line := Line([EncoderVersion, IntToString(vocabSize), IntToString(wordrepSize), hiddenSpec,
                    IntToString(unkId), if reverse then "rev" else "for"]);
    }

    /** Reads the next record of the stream into a new encoder. */
    static method Read(lines: seq<string>, nodesOf: string -> nat)
      returns (r: Result<(LinearEncoder, seq<string>)>)
      ensures r.Err? <==> ParseEncoderRecord(lines).Err?
      ensures r.Err? ==> r.error == ParseEncoderRecord(lines).error
      ensures r.Ok? ==> var (enc, rest) := r.value;
                        && fresh(enc)
                        && (enc.Config(), rest) == ParseEncoderRecord(lines).value
                        && enc.numNodes == nodesOf(enc.hiddenSpec)
                        && enc.currGraph == None && enc.wordStates == []
    {
      var parsed := ParseEncoderRecord(lines);
      if parsed.Err? {
        return Err(parsed.error);
      }
      var (c, rest) := parsed.value;
      var enc := new LinearEncoder(c.vocabSize, c.wordrepSize, c.hiddenSpec, c.unkId, nodesOf);
      if c.reverse {
        enc.SetReverse(true);
      }
      return Ok((enc, rest));
    }
  }
}
