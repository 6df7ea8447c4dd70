/** The attentional encoder-decoder's discrete logic: parsing the attention
    type into parameter shapes, summing the context size over the encoders,
    combining the encoders' per-position states, the 512-position ceiling,
    the control flow of one attention step, the encoder-to-decoder bridge
    and its slicing into decoder seeds, and the `extatt_002` / `encatt_001`
    records.  Tensor arithmetic is symbolic (see module Graph). */
module Attentional {
  import opened Errors
  import opened Graph
  import opened Text
  import StringUtil
  import opened LinearEncoding
  import opened Seqs

  /** An `(unsigned int)` cast of a C++ int. */
  function U32(x: int): (r: nat)
    ensures r < 0x1_0000_0000
    ensures 0 <= x < 0x1_0000_0000 ==> r == x
  {
    x % 0x1_0000_0000
  }

  /** The dimensions a parameter is allocated with. */
  datatype Shape = Shape(rows: nat, cols: nat)

  // ---------------------------------------------------------------------
  // `std::stoi`.

  const IntMin: int := -0x8000_0000
  const IntMax: int := 0x7fff_ffff

  function SkipSpace(s: string): (r: string)
    ensures |r| <= |s| && r == s[|s| - |r|..]
    ensures r != [] ==> r[0] !in Whitespace
  {
    if s != [] && s[0] in Whitespace then SkipSpace(s[1..]) else s
  }

  lemma SkipSpaceNone(s: string)
    requires s != [] && s[0] !in Whitespace
    ensures SkipSpace(s) == s
  {
  }

  /** The longest prefix of s made of decimal digits. */
  function DigitRun(s: string): (d: string)
    ensures d <= s && AllDigits(d)
    ensures |d| < |s| ==> !IsDigit(s[|d|])
  {
    if s != [] && IsDigit(s[0]) then [s[0]] + DigitRun(s[1..]) else []
  }

  /** `std::stoi(s)`: leading whitespace, an optional sign and the longest
      run of digits; whatever follows is ignored.  No digits throws
      invalid_argument, a value outside the 32-bit int range out_of_range. */
  function Stoi(s: string): (r: Result<int>)
    ensures r.Ok? ==> IntMin <= r.value <= IntMax
    ensures r.Err? ==> r.error in {InvalidArgument("stoi"), OutOfRange("stoi")}
  {
    var t := SkipSpace(StringUtil.CStr(s));
    var signed := t != [] && (t[0] == '-' || t[0] == '+');
    var d := DigitRun(if signed then t[1..] else t);
    if d == [] then Err(InvalidArgument("stoi"))
    else
      var v := if signed && t[0] == '-' then 0 - DigitsValue(d) else DigitsValue(d);
      if v < IntMin || IntMax < v then Err(OutOfRange("stoi")) else Ok(v)
  }

  lemma {:induction false} DigitRunOfDigits(s: string)
    requires AllDigits(s)
    ensures DigitRun(s) == s
  {
    if s != [] {
      DigitRunOfDigits(s[1..]);
      assert s == [s[0]] + s[1..];
    }
  }

  lemma IntToStringChars(n: int)
    ensures forall i :: 0 <= i < |IntToString(n)| ==>
              IntToString(n)[i] == '-' || IsDigit(IntToString(n)[i])
    ensures IntToString(n)[0] !in Whitespace
  {
    var s := IntToString(n);
    forall i | 0 <= i < |s| ensures s[i] == '-' || IsDigit(s[i]) {
      if n < 0 && i > 0 {
        assert s[i] == NatToString(-n)[i - 1];
      }
    }
    assert s[0] == '-' || IsDigit(s[0]);
  }

  /** `stoi` reads back every int that `<<` prints. */
  lemma StoiIntToString(n: int)
    requires IntMin <= n <= IntMax
    ensures Stoi(IntToString(n)) == Ok(n)
  {
    var s := IntToString(n);
    IntToStringChars(n);
    StringUtil.CStrNoNul(s);
    SkipSpaceNone(s);
    var m: nat := if n < 0 then -n else n;
    var body := if n < 0 then s[1..] else s;
    assert body == NatToString(m);
    DigitRunOfDigits(body);
    DigitsOfNat(m);
    assert (s[0] == '-' || s[0] == '+') <==> n < 0;
  }

  /** Only the leading digits count: `stoi("12abc")` is 12. */
  lemma StoiIgnoresTrailing()
    ensures Stoi("12abc") == Ok(12)
  {
    var s := "12abc";
    StringUtil.CStrNoNul(s);
    SkipSpaceNone(s);
    assert DigitRun(s) == "12" by {
      assert DigitRun(s[2..]) == [];
      assert DigitRun(s[1..]) == ['2'] + DigitRun(s[2..]);
    }
    assert DigitsValue("12") == DigitsValue("1") * 10 + 2;
  }

  // ---------------------------------------------------------------------
  // The attention type.

  /** Hidden size (0 unless `mlp:`) and the shapes of the three parameters
      the constructor allocates; None for one it does not allocate. */
  datatype AttentionParams = AttentionParams(
    hiddenSize: int,
    ehidHW: Option<Shape>,      // p_ehid_h_W_
    ehidStateW: Option<Shape>,  // p_ehid_state_W_
    eEhidW: Option<Shape>)      // p_e_ehid_W_

  /** `attention_type.substr(0, 4) == "mlp:"`. */
  predicate IsMlp(t: string)
  {
    StringUtil.Substr(t, 0, 4) == "mlp:"
  }

  /** The constructor's reading of the attention type: `dot` (no parameters),
      `bilin` (one state-by-context matrix), `mlp:H` (hidden size H with
      H-by-context, H-by-state and 1-by-H matrices); anything else throws. */
  function ParseAttention(attentionType: string, stateSize: int, contextSize: nat): (r: Result<AttentionParams>)
    ensures r.Ok? <==>
              attentionType == "dot" || attentionType == "bilin" ||
              (IsMlp(attentionType) && Stoi(attentionType[4..]).Ok? && Stoi(attentionType[4..]).value != 0)
    ensures r.Err? && r.error == IllegalAttentionType <==>
              attentionType != "dot" && attentionType != "bilin" && !IsMlp(attentionType)
    ensures r.Ok? ==>
              var p := r.value;
              && (p.hiddenSize != 0 <==> attentionType != "dot" && attentionType != "bilin")
              && (p.ehidHW.Some? <==> attentionType != "dot")
              && (p.ehidStateW.Some? <==> p.hiddenSize != 0)
              && (p.eEhidW.Some? <==> p.hiddenSize != 0)
              && (p.ehidHW.Some? ==> p.ehidHW.value.cols == U32(contextSize))
              && (p.hiddenSize == 0 && p.ehidHW.Some? ==> p.ehidHW.value.rows == U32(stateSize))
              && (p.hiddenSize != 0 ==>
                    p.hiddenSize == Stoi(attentionType[4..]).value
                    && p.ehidHW.value.rows == U32(p.hiddenSize)
                    && p.ehidStateW.value == Shape(U32(p.hiddenSize), U32(stateSize))
                    && p.eEhidW.value == Shape(1, U32(p.hiddenSize)))
  {
    if attentionType == "dot" then Ok(AttentionParams(0, None, None, None))
    else if attentionType == "bilin" then
      Ok(AttentionParams(0, Some(Shape(U32(stateSize), U32(contextSize))), None, None))
    else if IsMlp(attentionType) then
      var h :- Stoi(attentionType[4..]);
      if h == 0 then Err(AssertionFailed("hidden_size_ != 0"))
      else
        Ok(AttentionParams(h, Some(Shape(U32(h), U32(contextSize))),
                           Some(Shape(U32(h), U32(stateSize))), Some(Shape(1, U32(h)))))
    else Err(IllegalAttentionType)
  }

  /** `mlp:H`, with the hidden size printed as `<<` prints it, gives hidden
      size H whenever H is a non-zero int. */
  lemma MlpTypeRoundTrip(h: int, stateSize: int, contextSize: nat)
    requires h != 0 && IntMin <= h <= IntMax
    ensures ParseAttention("mlp:" + IntToString(h), stateSize, contextSize) ==
            Ok(AttentionParams(h, Some(Shape(U32(h), U32(contextSize))),
                               Some(Shape(U32(h), U32(stateSize))), Some(Shape(1, U32(h)))))
  {
    var t := "mlp:" + IntToString(h);
    assert t[4..] == IntToString(h);
    assert StringUtil.Substr(t, 0, 4) == t[..4] == "mlp:";
    StoiIntToString(h);
  }

  // ---------------------------------------------------------------------
  // Context size and the per-position combination of encoder states.

  /** Sum of the encoders' hidden widths. */
  function SumNodes(encs: seq<LinearEncoder>): nat
  {
    if encs == [] then 0 else SumNodes(encs[..|encs| - 1]) + encs[|encs| - 1].numNodes
  }

  /** Every encoder produced as many states as the first. */
  predicate Rectangular(hsSep: seq<seq<Expr>>)
  {
    forall j :: 0 <= j < |hsSep| ==> |hsSep[j]| == |hsSep[0]|
  }

  /** The combined state of each position: the lone encoder's state, or the
      concatenation in encoder order of every encoder's state there. */
  function Combine(hsSep: seq<seq<Expr>>): (comb: seq<Expr>)
    requires |hsSep| > 0 && Rectangular(hsSep)
    ensures |comb| == |hsSep[0]|
  {
    if |hsSep| == 1 then hsSep[0]
    else seq(|hsSep[0]|, i requires 0 <= i < |hsSep[0]| =>
           Concat(seq(|hsSep|, j requires 0 <= j < |hsSep| => hsSep[j][i])))
  }

  /** The states each encoder stores for the given input, in encoder order. */
  function SeparateStates(encs: seq<LinearEncoder>, sents: seq<Sentence>, L: nat): (hs: seq<seq<Expr>>)
    reads encs
    ensures |hs| == |encs| && Rectangular(hs)
    ensures forall j :: 0 <= j < |hs| ==> |hs[j]| == L
  {
    seq(|encs|, j reads encs requires 0 <= j < |encs| =>
      WalkStates(sents, L, encs[j].reverse, encs[j].numNodes))
  }

  lemma {:induction false} SumWidthsOfStates(parts: seq<Expr>, encs: seq<LinearEncoder>)
    requires |parts| == |encs|
    requires forall j :: 0 <= j < |parts| ==> Width(parts[j]) == encs[j].numNodes
    ensures SumWidths(parts) == SumNodes(encs)
  {
    if parts != [] {
      SumWidthsOfStates(parts[..|parts| - 1], encs[..|encs| - 1]);
    }
  }

  /** Every combined position is a vector of context-size rows: the
      encoders' widths add up to the context size. */
  lemma CombinedWidth(encs: seq<LinearEncoder>, sents: seq<Sentence>, L: nat, i: nat)
    requires |encs| > 0 && i < L
    ensures var comb := Combine(SeparateStates(encs, sents, L));
            Width(comb[i]) == SumNodes(encs)
  {
    var hs := SeparateStates(encs, sents, L);
    if |encs| == 1 {
      assert SumNodes(encs) == SumNodes(encs[..0]) + encs[0].numNodes;
    } else {
      var parts := seq(|hs|, j requires 0 <= j < |hs| => hs[j][i]);
      assert Combine(hs)[i] == Concat(parts);
      SumWidthsOfStates(parts, encs);
    }
  }

  /** With several encoders, part j of combined position i is encoder j's
      state at position i: the combination transposes encoder-major states
      into position-major ones. */
  lemma CombineTransposes(hsSep: seq<seq<Expr>>, i: nat, j: nat)
    requires |hsSep| > 1 && Rectangular(hsSep)
    requires i < |hsSep[0]| && j < |hsSep|
    ensures Combine(hsSep)[i].Concat? && |Combine(hsSep)[i].parts| == |hsSep|
    ensures Combine(hsSep)[i].parts[j] == hsSep[j][i]
  {
  }

  // ---------------------------------------------------------------------
  // One attention step.

  /** Longest sentence allowed: a combination of this many positions or
      more is rejected. */
  const MaxPositions: nat := 512

  function Last(states: seq<Expr>): Option<Expr>
  {
    if states == [] then None else Some(states[|states| - 1])
  }

  /** The position count the batch initialization takes as written: the
      length of the first encoder's buffer, which the linear encoder resizes
      to the number of sentences. sent_len_ and the combined states both
      have this length, so the ceiling is tested against it. */
  function AsWrittenBatchPositions(sents: seq<Sentence>): (n: nat)
    requires |sents| > 0
    ensures n == |sents|
  {
    AsWrittenBatchStore(|sents|, |sents[|sents| - 1]|).bufferLen
  }

  /** As written, 512 one-token sentences hit the ceiling although each has
      one position, and two three-token sentences are given two positions;
      the longest sentence, which the corrected model counts, has 1 and 3. */
  lemma AsWrittenBatchPositionsDiffer()
    ensures var many: seq<Sentence> := seq(MaxPositions, _ => [7]);
            AsWrittenBatchPositions(many) >= MaxPositions && MaxLen(many) == 1
    ensures var two: seq<Sentence> := [[1, 2, 3], [4, 5, 6]];
            AsWrittenBatchPositions(two) == 2 && MaxLen(two) == 3
  {
    var many: seq<Sentence> := seq(MaxPositions, _ => [7]);
    assert |many[0]| == 1;
    var two: seq<Sentence> := [[1, 2, 3], [4, 5, 6]];
    assert |two[0]| == 3 && |two[1]| == 3;
  }

  // ---------------------------------------------------------------------
  // The `extatt_002` record.

  datatype ExternConfig = ExternConfig(attentionType: string, stateSize: int, encoders: seq<EncoderConfig>)

  const ExternVersion := "extatt_002"

  function ExternHeader(n: int, attentionType: string, stateSize: int): string
  {
    Line([ExternVersion, IntToString(n), attentionType, IntToString(stateSize)])
  }

  function EncoderLines(cs: seq<EncoderConfig>): (lines: seq<string>)
    ensures |lines| == |cs|
  {
    seq(|cs|, i requires 0 <= i < |cs| => EncoderLine(cs[i]))
  }

  /** The header line followed by one line per encoder. */
  function ExternRecord(c: ExternConfig): seq<string>
  {
    [ExternHeader(|c.encoders|, c.attentionType, c.stateSize)] + EncoderLines(c.encoders)
  }

  function EncoderConfigs(encs: seq<LinearEncoder>): (cs: seq<EncoderConfig>)
    reads encs
    ensures |cs| == |encs|
  {
    seq(|encs|, i reads encs requires 0 <= i < |encs| => encs[i].Config())
  }

  /** n encoder records read one after another, appended to those read
      before (acc); a count of zero or less reads none. */
  function ParseEncoderRecords(lines: seq<string>, n: int, acc: seq<EncoderConfig>)
    : Result<(seq<EncoderConfig>, seq<string>)>
    decreases if n < 0 then 0 else n, 1
  {
    if n <= 0 then Ok((acc, lines)) else RecordsAfter(ParseEncoderRecord(lines), n, acc)
  }

  /** The rest of ParseEncoderRecords once the first of n records is read. */
  function RecordsAfter(first: Result<(EncoderConfig, seq<string>)>, n: int, acc: seq<EncoderConfig>)
    : Result<(seq<EncoderConfig>, seq<string>)>
    requires n > 0
    decreases n, 0
  {
    match first
    case Err(e) => Err(e)
    case Ok(f) => ParseEncoderRecords(f.1, n - 1, acc + [f.0])
  }

  function ParseExternRecord(lines: seq<string>): Result<(ExternConfig, seq<string>)>
  {
    if lines == [] then Err(PrematureEnd("ExternAttentional"))
    else
      var ws := Words(lines[0]);
      if WordAt(ws, 0) != ExternVersion then Err(VersionMismatch(ExternVersion))
      else
        var n :- IntAt(ws, 1, "num_encoders");
        var stateSize :- IntAt(ws, 3, "state_size");
        var encs :- ParseEncoderRecords(lines[1..], n, []);
        Ok((ExternConfig(WordAt(ws, 2), stateSize, encs.0), encs.1))
  }

  predicate ExternWordSafe(c: ExternConfig)
  {
    WordSafe(c.attentionType) && forall i :: 0 <= i < |c.encoders| ==> WordSafe(c.encoders[i].hiddenSpec)
  }

  /** Reading one record in front of n - 1 more. */
  lemma EncoderRecordsStep(lines: seq<string>, n: int, acc: seq<EncoderConfig>, c: EncoderConfig,
                           tail: seq<string>, m: int, acc': seq<EncoderConfig>)
    requires n > 0 && ParseEncoderRecord(lines) == Ok((c, tail))
    requires m == n - 1 && acc' == acc + [c]
    ensures ParseEncoderRecords(lines, n, acc) == ParseEncoderRecords(tail, m, acc')
  {
    assert ParseEncoderRecords(lines, n, acc) == RecordsAfter(Ok((c, tail)), n, acc);
  }

  /** The first written record is read back, leaving the others. */
  lemma EncoderRecordsHead(cs: seq<EncoderConfig>, rest: seq<string>, acc: seq<EncoderConfig>)
    requires cs != [] && WordSafe(cs[0].hiddenSpec)
    ensures ParseEncoderRecords(EncoderLines(cs) + rest, |cs|, acc)
            == ParseEncoderRecords(EncoderLines(cs[1..]) + rest, |cs[1..]|, acc + [cs[0]])
  {
    var tail := EncoderLines(cs[1..]) + rest;
    assert EncoderLines(cs) + rest == [EncoderLine(cs[0])] + tail;
    EncoderRecordRoundTrip(cs[0], tail);
    EncoderRecordsStep(EncoderLines(cs) + rest, |cs|, acc, cs[0], tail, |cs[1..]|, acc + [cs[0]]);
  }

  lemma {:induction false} EncoderRecordsRoundTrip(cs: seq<EncoderConfig>, rest: seq<string>, acc: seq<EncoderConfig>)
    requires forall i :: 0 <= i < |cs| ==> WordSafe(cs[i].hiddenSpec)
    ensures ParseEncoderRecords(EncoderLines(cs) + rest, |cs|, acc) == Ok((acc + cs, rest))
  {
    if cs != [] {
      var acc' := acc + [cs[0]];
      EncoderRecordsHead(cs, rest, acc);
      EncoderRecordsRoundTrip(cs[1..], rest, acc');
      assert acc' + cs[1..] == acc + cs;
    } else {
      EncoderRecordsNone(rest, acc);
    }
  }

  lemma EncoderRecordsNone(rest: seq<string>, acc: seq<EncoderConfig>)
    ensures ParseEncoderRecords(EncoderLines([]) + rest, 0, acc) == Ok((acc + [], rest))
  {
    assert EncoderLines([]) + rest == rest;
    assert acc + [] == acc;
  }

  /** The header line read back: version, count, type and state size. */
  lemma ExternHeaderRoundTrip(n: int, attentionType: string, stateSize: int)
    requires WordSafe(attentionType)
    ensures var ws := Words(ExternHeader(n, attentionType, stateSize));
            && WordAt(ws, 0) == ExternVersion
            && IntAt(ws, 1, "num_encoders") == Ok(n)
            && WordAt(ws, 2) == attentionType
            && IntAt(ws, 3, "state_size") == Ok(stateSize)
  {
    var header := [ExternVersion, IntToString(n), attentionType, IntToString(stateSize)];
    IntToStringWordSafe(n);
    IntToStringWordSafe(stateSize);
    assert WordSafe(ExternVersion);
    WordsOfLine(header);
    ParseIntToString(n);
    ParseIntToString(stateSize);
  }

  /** Reading a written extern record restores the attention type, the
      state size and every encoder's fields, and consumes exactly its lines. */
  lemma ExternRecordRoundTrip(c: ExternConfig, rest: seq<string>)
    requires ExternWordSafe(c)
    ensures ParseExternRecord(ExternRecord(c) + rest) == Ok((c, rest))
  {
    ExternHeaderRoundTrip(|c.encoders|, c.attentionType, c.stateSize);
    var lines := ExternRecord(c) + rest;
    assert lines[0] == ExternHeader(|c.encoders|, c.attentionType, c.stateSize);
    assert lines[1..] == EncoderLines(c.encoders) + rest;
    EncoderRecordsRoundTrip(c.encoders, rest, []);
    assert [] + c.encoders == c.encoders;
  }

  // ---------------------------------------------------------------------
  // The attention calculator.

  class ExternAttentional {
    const encoders: seq<LinearEncoder>
    const attentionType: string
    const stateSize: int
    const contextSize: nat
    const params: AttentionParams
    var currGraph: Option<GraphId>
    // Parameters indexed in the current graph.
    var iEhidHW: Expr
    var iEhidStateW: Expr
    var iEEhidW: Expr
    // Per-sentence state set by InitializeSentence.
    var sentLen: nat
    var iH: Expr
    var iHLast: Expr
    var iEhidHpart: Expr
    var iSentLen: Expr
    /** Length of `sent_values_`, whose entries are all 1.0. */
    var sentValuesLen: nat

    /** The context size is the encoders' total width and the parameters
        are those the attention type calls for. */
    predicate Valid()
    {
      && contextSize == SumNodes(encoders)
      && ParseAttention(attentionType, stateSize, contextSize) == Ok(params)
      && KnownType()
    }

    /** The attention types InitializeSentence knows how to score. */
    predicate KnownType()
    {
      params.hiddenSize != 0 || attentionType == "dot" || attentionType == "bilin"
    }

    function Config(): ExternConfig
      reads this, encoders
    {
      ExternConfig(attentionType, stateSize, EncoderConfigs(encoders))
    }

    constructor Init(encoders: seq<LinearEncoder>, attentionType: string, stateSize: int,
                     contextSize: nat, params: AttentionParams)
      requires contextSize == SumNodes(encoders)
      requires ParseAttention(attentionType, stateSize, contextSize) == Ok(params)
      ensures Valid()
      ensures this.encoders == encoders && this.attentionType == attentionType
      ensures this.stateSize == stateSize && this.contextSize == contextSize && this.params == params
      ensures currGraph == None && sentLen == 0 && sentValuesLen == 0
    {
      this.encoders := encoders;
      this.attentionType := attentionType;
      this.stateSize := stateSize;
      this.contextSize := contextSize;
      this.params := params;
      currGraph := None;
      iEhidHW, iEhidStateW, iEEhidW := Unset, Unset, Unset;
      sentLen := 0;
      iH, iHLast, iEhidHpart, iSentLen := Unset, Unset, Unset, Unset;
      sentValuesLen := 0;
    }

    /** The constructor: sums the context size over the encoders, then reads
        the attention type, throwing on one it does not know. */
    static method Create(encoders: seq<LinearEncoder>, attentionType: string, stateSize: int)
      returns (r: Result<ExternAttentional>)
      ensures r.Err? <==> ParseAttention(attentionType, stateSize, SumNodes(encoders)).Err?
      ensures r.Err? ==> r.error == ParseAttention(attentionType, stateSize, SumNodes(encoders)).error
      ensures r.Ok? ==> var ext := r.value;
                        && fresh(ext) && ext.Valid()
                        && ext.encoders == encoders && ext.attentionType == attentionType
                        && ext.stateSize == stateSize && ext.contextSize == SumNodes(encoders)
                        && ext.currGraph == None
    {
      var contextSize := 0;
      for i := 0 to |encoders|
        invariant contextSize == SumNodes(encoders[..i])
      {
        assert encoders[..i + 1][..i] == encoders[..i];
        contextSize := contextSize + encoders[i].numNodes;
      }
      assert encoders[..|encoders|] == encoders;
      var params := ParseAttention(attentionType, stateSize, contextSize);
      if params.Err? {
        return Err(params.error);
      }
      var ext := new ExternAttentional.Init(encoders, attentionType, stateSize, contextSize, params.value);
      return Ok(ext);
    }

    /** Points every encoder at the graph, indexes the parameters the
        attention type allocated, and records the graph. */
    method NewGraph(cg: GraphId)
      modifies this`currGraph, this`iEhidHW, this`iEhidStateW, this`iEEhidW, encoders
      ensures currGraph == Some(cg)
      ensures iEhidHW == if attentionType != "dot" then Param(EhidHW, cg) else old(iEhidHW)
      ensures iEhidStateW == if params.hiddenSize != 0 then Param(EhidStateW, cg) else old(iEhidStateW)
      ensures iEEhidW == if params.hiddenSize != 0 then Param(EEhidW, cg) else old(iEEhidW)
      ensures forall j :: 0 <= j < |encoders| ==> encoders[j].currGraph == Some(cg)
      ensures forall j :: 0 <= j < |encoders| ==>
                encoders[j].reverse == old(encoders[j].reverse)
                && encoders[j].wordStates == old(encoders[j].wordStates)
    {
      for j := 0 to |encoders|
        invariant forall k :: 0 <= k < j ==> encoders[k].currGraph == Some(cg)
        invariant forall k :: 0 <= k < |encoders| ==>
                    encoders[k].reverse == old(encoders[k].reverse)
                    && encoders[k].wordStates == old(encoders[k].wordStates)
        invariant iEhidHW == old(iEhidHW) && iEhidStateW == old(iEhidStateW) && iEEhidW == old(iEEhidW)
      {
        encoders[j].NewGraph(cg);
      }
      if attentionType != "dot" {
        iEhidHW := Param(EhidHW, cg);
      }
      if params.hiddenSize != 0 {
        iEhidStateW := Param(EhidStateW, cg);
        iEEhidW := Param(EEhidW, cg);
      }
      currGraph := Some(cg);
    }

    /** Every encoder was last pointed at graph cg. */
    predicate OnGraph(cg: GraphId)
      reads encoders
    {
      forall j :: 0 <= j < |encoders| ==> encoders[j].currGraph == Some(cg)
    }

    /** The combination loop: position by position, the encoders' states
        at that position side by side. */
    static method CombineStates(hsSep: seq<seq<Expr>>) returns (hsComb: seq<Expr>)
      requires |hsSep| > 0 && Rectangular(hsSep)
      ensures |hsComb| == |hsSep[0]|
      ensures hsComb == Combine(hsSep)
    {
      if |hsSep| == 1 {
        return hsSep[0];
      }
      hsComb := [];
      for i := 0 to |hsSep[0]|
        invariant hsComb == Combine(hsSep)[..i]
      {
        var vars: seq<Expr> := [];
        for j := 0 to |hsSep|
          invariant vars == seq(j, k requires 0 <= k < j => hsSep[k][i])
        {
          vars := vars + [hsSep[j][i]];
        }
        hsComb := hsComb + [Concat(vars)];
      }
    }

    /** The per-sentence terms attached for these combined states: the
        length, the stacked states, the last one, and the scoring term the
        attention type calls for (with the all-ones row for `mlp`). */
    predicate Attached(hsComb: seq<Expr>)
      reads this
    {
      && |hsComb| > 0
      && sentLen == |hsComb|
      && iH == ConcatCols(hsComb)
      && iHLast == hsComb[|hsComb| - 1]
      && iEhidHpart == (if params.hiddenSize != 0 then MatMul(iEhidHW, iH)
                        else if attentionType == "dot" then Transpose(iH)
                        else Transpose(MatMul(iEhidHW, iH)))
      && (params.hiddenSize != 0 ==> sentValuesLen == sentLen && iSentLen == Ones(sentLen))
    }

    /** Each encoder holds its own sequence of states. */
    predicate Holds(hsSep: seq<seq<Expr>>)
      reads encoders
    {
      |hsSep| == |encoders| && forall j :: 0 <= j < |encoders| ==> encoders[j].wordStates == hsSep[j]
    }

    /** What InitializeSentence does once the states are combined: records
        the length, rejects 512 positions or more, and prepares the scoring
        term the attention type calls for. */
    method AttachStates(hsComb: seq<Expr>) returns (r: Result<()>)
      requires KnownType() && |hsComb| > 0
      modifies this`sentLen, this`iH, this`iHLast, this`iEhidHpart, this`iSentLen, this`sentValuesLen
      ensures sentLen == |hsComb|
      ensures r.Err? <==> |hsComb| >= MaxPositions
      ensures r.Err? ==> r.error == OversizedSentence(|hsComb|)
                         && iH == old(iH) && iHLast == old(iHLast) && iEhidHpart == old(iEhidHpart)
                         && iSentLen == old(iSentLen) && sentValuesLen == old(sentValuesLen)
      ensures r.Ok? ==> Attached(hsComb)
      ensures r.Ok? && params.hiddenSize == 0 ==> sentValuesLen == old(sentValuesLen) && iSentLen == old(iSentLen)
    {
      r := Ok(());
      sentLen := |hsComb|;
      if |hsComb| >= MaxPositions {
        return Err(OversizedSentence(|hsComb|));
      }
      iH := ConcatCols(hsComb);
      iHLast := hsComb[|hsComb| - 1];
      if params.hiddenSize != 0 {
        iEhidHpart := MatMul(iEhidHW, iH);
        sentValuesLen := sentLen;
        iSentLen := Ones(sentLen);
      } else if attentionType == "dot" {
        iEhidHpart := Transpose(iH);
      } else if attentionType == "bilin" {
        iEhidHpart := Transpose(MatMul(iEhidHW, iH));
      } else {
        assert false;
      }
    }

    /** Runs every encoder over the sentence, in order; an encoder on
        another graph throws and stops the loop. */
    method RunEncoders(sent: Sentence, cg: GraphId) returns (r: Result<seq<seq<Expr>>>)
      modifies encoders
      ensures r.Err? <==> !OnGraph(cg)
      ensures r.Err? ==> r.error == GraphMismatch
      ensures r.Ok? ==> r.value == SeparateStates(encoders, [sent], |sent|) && Holds(r.value)
      ensures forall j :: 0 <= j < |encoders| ==>
                encoders[j].reverse == old(encoders[j].reverse) && encoders[j].currGraph == old(encoders[j].currGraph)
    {
      var hsSep: seq<seq<Expr>> := [];
      for j := 0 to |encoders|
        invariant |hsSep| == j
        invariant forall k :: 0 <= k < j ==> encoders[k].currGraph == Some(cg)
        invariant forall k :: 0 <= k < |encoders| ==>
                    encoders[k].reverse == old(encoders[k].reverse) && encoders[k].currGraph == old(encoders[k].currGraph)
        invariant forall k :: 0 <= k < j ==>
                    hsSep[k] == WalkStates([sent], |sent|, encoders[k].reverse, encoders[k].numNodes)
                    && encoders[k].wordStates == hsSep[k]
      {
        var st := encoders[j].BuildSentGraph(sent, cg);
        if st.Err? {
          return Err(st.error);
        }
        hsSep := hsSep + [encoders[j].wordStates];
        assert |hsSep[0]| == |hsSep[|hsSep| - 1]|;
      }
      return Ok(hsSep);
    }

    /** Runs every encoder over the batch, in order; an encoder on another
        graph throws and stops the loop. */
    method RunEncodersBatch(sents: seq<Sentence>, cg: GraphId) returns (r: Result<seq<seq<Expr>>>)
      requires |sents| > 0
      modifies encoders
      ensures r.Err? <==> !OnGraph(cg)
      ensures r.Err? ==> r.error == GraphMismatch
      ensures r.Ok? ==> r.value == SeparateStates(encoders, sents, MaxLen(sents)) && Holds(r.value)
      ensures forall j :: 0 <= j < |encoders| ==>
                encoders[j].reverse == old(encoders[j].reverse) && encoders[j].currGraph == old(encoders[j].currGraph)
    {
      var L := MaxLen(sents);
      var hsSep: seq<seq<Expr>> := [];
      for j := 0 to |encoders|
        invariant |hsSep| == j
        invariant forall k :: 0 <= k < j ==> encoders[k].currGraph == Some(cg)
        invariant forall k :: 0 <= k < |encoders| ==>
                    encoders[k].reverse == old(encoders[k].reverse) && encoders[k].currGraph == old(encoders[k].currGraph)
        invariant forall k :: 0 <= k < j ==>
                    hsSep[k] == WalkStates(sents, L, encoders[k].reverse, encoders[k].numNodes)
                    && encoders[k].wordStates == hsSep[k]
      {
        var st := encoders[j].BuildBatchGraph(sents, cg);
        if st.Err? {
          return Err(st.error);
        }
        hsSep := hsSep + [encoders[j].wordStates];
        assert |hsSep[0]| == |hsSep[|hsSep| - 1]|;
      }
      return Ok(hsSep);
    }

    /** Encodes the sentence with every encoder, combines their states and
        attaches them. */
    method InitializeSentence(sent: Sentence, cg: GraphId) returns (r: Result<()>)
      requires KnownType() && |encoders| > 0 && |sent| > 0
      modifies this`sentLen, this`iH, this`iHLast, this`iEhidHpart, this`iSentLen, this`sentValuesLen, encoders
      ensures r.Err? && r.error == GraphMismatch <==> !OnGraph(cg)
      ensures OnGraph(cg) ==> Holds(SeparateStates(encoders, [sent], |sent|))
      ensures OnGraph(cg) ==> sentLen == |sent| && (r.Err? <==> |sent| >= MaxPositions)
      ensures r.Ok? ==> Attached(Combine(SeparateStates(encoders, [sent], |sent|)))
      ensures forall j :: 0 <= j < |encoders| ==>
                encoders[j].reverse == old(encoders[j].reverse) && encoders[j].currGraph == old(encoders[j].currGraph)
    {
      var hsComb := EncodeSentence(sent, cg);
      if hsComb.Err? {
        return Err(hsComb.error);
      }
      ghost var sep := SeparateStates(encoders, [sent], |sent|);
      ghost var held := Holds(sep);
      assert held;
      r := AttachStates(hsComb.value);
      assert sep == SeparateStates(encoders, [sent], |sent|) && held == Holds(sep);
    }

    /** The sentence's encoder states, combined position by position. */
    method EncodeSentence(sent: Sentence, cg: GraphId) returns (r: Result<seq<Expr>>)
      requires |encoders| > 0
      modifies encoders
      ensures r.Err? <==> !OnGraph(cg)
      ensures r.Err? ==> r.error == GraphMismatch
      ensures r.Ok? ==> Holds(SeparateStates(encoders, [sent], |sent|))
                        && r.value == Combine(SeparateStates(encoders, [sent], |sent|))
      ensures forall j :: 0 <= j < |encoders| ==>
                encoders[j].reverse == old(encoders[j].reverse) && encoders[j].currGraph == old(encoders[j].currGraph)
    {
      var hsSep := RunEncoders(sent, cg);
      if hsSep.Err? {
        return Err(hsSep.error);
      }
      var hsComb := CombineStates(hsSep.value);
      return Ok(hsComb);
    }

    /** The batch's encoder states, combined position by position over the
        longest sentence's length. */
    method EncodeBatch(sents: seq<Sentence>, cg: GraphId) returns (r: Result<seq<Expr>>)
      requires |encoders| > 0 && |sents| > 0
      modifies encoders
      ensures r.Err? <==> !OnGraph(cg)
      ensures r.Err? ==> r.error == GraphMismatch
      ensures r.Ok? ==> Holds(SeparateStates(encoders, sents, MaxLen(sents)))
                        && r.value == Combine(SeparateStates(encoders, sents, MaxLen(sents)))
      ensures forall j :: 0 <= j < |encoders| ==>
                encoders[j].reverse == old(encoders[j].reverse) && encoders[j].currGraph == old(encoders[j].currGraph)
    {
      var hsSep := RunEncodersBatch(sents, cg);
      if hsSep.Err? {
        return Err(hsSep.error);
      }
      var hsComb := CombineStates(hsSep.value);
      return Ok(hsComb);
    }

    /** The batch form: the combined positions are those of the longest
        sentence (the corrected count; AsWrittenBatchPositions is the
        source's, one per sentence). */
    method InitializeBatch(sents: seq<Sentence>, cg: GraphId) returns (r: Result<()>)
      requires KnownType() && |encoders| > 0 && |sents| > 0 && MaxLen(sents) > 0
      modifies this`sentLen, this`iH, this`iHLast, this`iEhidHpart, this`iSentLen, this`sentValuesLen, encoders
      ensures r.Err? && r.error == GraphMismatch <==> !OnGraph(cg)
      ensures OnGraph(cg) ==> Holds(SeparateStates(encoders, sents, MaxLen(sents)))
      ensures OnGraph(cg) ==> sentLen == MaxLen(sents) && (r.Err? <==> MaxLen(sents) >= MaxPositions)
      ensures r.Ok? ==> Attached(Combine(SeparateStates(encoders, sents, MaxLen(sents))))
      ensures forall j :: 0 <= j < |encoders| ==>
                encoders[j].reverse == old(encoders[j].reverse) && encoders[j].currGraph == old(encoders[j].currGraph)
    {
      var hsComb := EncodeBatch(sents, cg);
      if hsComb.Err? {
        return Err(hsComb.error);
      }
      ghost var sep := SeparateStates(encoders, sents, MaxLen(sents));
      ghost var held := Holds(sep);
      assert held;
      r := AttachStates(hsComb.value);
      assert sep == SeparateStates(encoders, sents, MaxLen(sents)) && held == Holds(sep);
    }

    /** The attention scores for the decoder's last state, or for no state. */
    function Scores(last: Option<Expr>): Expr
      reads this
      requires params.hiddenSize != 0 || last.Some?
    {
      if params.hiddenSize != 0 then
        var ehid := if last.Some? then Affine([iEhidHpart, MatMul(iEhidStateW, last.value), iSentLen])
                    else iEhidHpart;
        Transpose(MatMul(iEEhidW, Tanh(ehid)))
      else MatMul(iEhidHpart, last.value)
    }

    function Alignment(last: Option<Expr>): Expr
      reads this
      requires params.hiddenSize != 0 || last.Some?
    {
      Softmax(Scores(last))
    }

    /** One attention step: only the last decoder state is used, `dot` and
        `bilin` need one, `mlp` without one scores the sentence alone, and
        exactly one alignment is appended. */
    method CreateContext(stateIn: seq<Expr>, cg: GraphId, alignIn: seq<Expr>)
      returns (r: Result<Expr>, alignOut: seq<Expr>)
      ensures currGraph != Some(cg) ==> r == Err(GraphMismatch)
      ensures currGraph == Some(cg) ==> (r.Ok? <==> params.hiddenSize != 0 || stateIn != [])
      ensures currGraph == Some(cg) && r.Err? ==> r.error == AssertionFailed("state_in.size() > 0")
      ensures r.Err? ==> alignOut == alignIn
      ensures r.Ok? ==> |alignOut| == |alignIn| + 1 && alignOut[..|alignIn|] == alignIn
      ensures r.Ok? ==> alignOut[|alignIn|] == Alignment(Last(stateIn))
                        && r.value == MatMul(iH, Alignment(Last(stateIn)))
    {
      alignOut := alignIn;
      if currGraph != Some(cg) {
        return Err(GraphMismatch), alignOut;
      }
      var e: Expr;
      if params.hiddenSize != 0 {
        var ehid: Expr;
        if |stateIn| > 0 {
          var spart := MatMul(iEhidStateW, stateIn[|stateIn| - 1]);
          ehid := Affine([iEhidHpart, spart, iSentLen]);
        } else {
          ehid := iEhidHpart;
        }
        var ehidOut := Tanh(ehid);
        e := Transpose(MatMul(iEEhidW, ehidOut));
      } else {
        if |stateIn| == 0 {
          return Err(AssertionFailed("state_in.size() > 0")), alignOut;
        }
        e := MatMul(iEhidHpart, stateIn[|stateIn| - 1]);
      }
      var alpha := Softmax(e);
      alignOut := alignOut + [alpha];
      r := Ok(MatMul(iH, alpha));
    }

    /** Whatever the earlier states, two state lists with the same last
        element give the same context and alignment. */
    lemma ContextUsesLastState(s1: seq<Expr>, s2: seq<Expr>)
      requires s1 != [] && s2 != [] && s1[|s1| - 1] == s2[|s2| - 1]
      ensures Alignment(Last(s1)) == Alignment(Last(s2))
    {
    }

    method Write() returns (lines: seq<string>)
      ensures lines == ExternRecord(Config())
    {
      lines := [ExternHeader(|encoders|, attentionType, stateSize)];
      for i := 0 to |encoders|
        invariant lines == [ExternHeader(|encoders|, attentionType, stateSize)] + EncoderLines(EncoderConfigs(encoders)[..i])
      {
        var line := encoders[i].Write();
        assert EncoderLines(EncoderConfigs(encoders)[..i + 1]) ==
               EncoderLines(EncoderConfigs(encoders)[..i]) + [line];
        lines := lines + [line];
      }
      assert EncoderConfigs(encoders)[..|encoders|] == EncoderConfigs(encoders);
    }

    /** `while(num_encoders-- > 0)` reading one encoder record each time. */
    static method ReadEncoders(lines: seq<string>, n: int, nodesOf: string -> nat)
      returns (r: Result<(seq<LinearEncoder>, seq<string>)>)
      ensures ParseEncoderRecords(lines, n, []).Err? ==> r == Err(ParseEncoderRecords(lines, n, []).error)
      ensures ParseEncoderRecords(lines, n, []).Ok? ==>
                r.Ok? && EncoderConfigs(r.value.0) == ParseEncoderRecords(lines, n, []).value.0
                && r.value.1 == ParseEncoderRecords(lines, n, []).value.1
                && forall j :: 0 <= j < |r.value.0| ==>
                     fresh(r.value.0[j]) && r.value.0[j].numNodes == nodesOf(r.value.0[j].hiddenSpec)
    {
      var count := n;
      var encoders: seq<LinearEncoder> := [];
      var rest := lines;
      ghost var cs: seq<EncoderConfig> := [];
      ghost var whole := ParseEncoderRecords(lines, n, []);
      while count > 0
        invariant cs == EncoderConfigs(encoders)
        invariant whole == ParseEncoderRecords(rest, count, cs)
        invariant forall j :: 0 <= j < |encoders| ==>
                    fresh(encoders[j]) && encoders[j].numNodes == nodesOf(encoders[j].hiddenSpec)
        decreases count
      {
        var enc := LinearEncoder.Read(rest, nodesOf);
        if enc.Err? {
          return Err(enc.error);
        }
        var e := enc.value.0;
        var after := enc.value.1;
        ghost var c := e.Config();
        EncoderConfigsAppend(encoders, e);
        forall j | 0 <= j < |encoders| + 1
          ensures fresh((encoders + [e])[j]) && (encoders + [e])[j].numNodes == nodesOf((encoders + [e])[j].hiddenSpec)
        {
          if j < |encoders| {
            assert (encoders + [e])[j] == encoders[j];
          }
        }
        ghost var (rest0, count0, cs0) := (rest, count, cs);
        encoders, cs, rest, count := encoders + [e], cs + [c], after, count - 1;
        EncoderRecordsStep(rest0, count0, cs0, c, rest, count, cs);
      }
      return Ok((encoders, rest));
    }

    /** Reads the header, then as many encoder records as it announces, then
        builds the calculator from them. */
    static method Read(lines: seq<string>, nodesOf: string -> nat)
      returns (r: Result<(ExternAttentional, seq<string>)>)
      ensures ParseExternRecord(lines).Err? ==> r == Err(ParseExternRecord(lines).error)
      ensures ParseExternRecord(lines).Ok? ==>
                var (c, rest) := ParseExternRecord(lines).value;
                && (r.Ok? <==> ParseAttention(c.attentionType, c.stateSize, 0).Ok?)
                && (r.Ok? ==> var (ext, after) := r.value;
                              && fresh(ext) && ext.Valid() && after == rest
                              && ext.Config() == c && ext.currGraph == None
                              && forall j :: 0 <= j < |ext.encoders| ==>
                                   fresh(ext.encoders[j]) && ext.encoders[j].numNodes == nodesOf(ext.encoders[j].hiddenSpec))
    {
      if lines == [] {
        return Err(PrematureEnd("ExternAttentional"));
      }
      var ws := Words(lines[0]);
      if WordAt(ws, 0) != ExternVersion {
        return Err(VersionMismatch(ExternVersion));
      }
      var n := IntAt(ws, 1, "num_encoders");
      if n.Err? {
        return Err(n.error);
      }
      var stateSize := IntAt(ws, 3, "state_size");
      if stateSize.Err? {
        return Err(stateSize.error);
      }
      var attentionType := WordAt(ws, 2);
      var encs := ReadEncoders(lines[1..], n.value, nodesOf);
      if encs.Err? {
        return Err(encs.error);
      }
      var (encoders, rest) := encs.value;
      var ext := Create(encoders, attentionType, stateSize.value);
      if ext.Err? {
        return Err(ext.error);
      }
      return Ok((ext.value, rest));
    }
  }

  lemma EncoderConfigsAppend(encs: seq<LinearEncoder>, e: LinearEncoder)
    ensures EncoderConfigs(encs + [e]) == EncoderConfigs(encs) + [e.Config()]
  {
  }

  // ---------------------------------------------------------------------
  // The decoder seen from the bridge.

  /** What the bridge needs of the decoder language model: its layer count
      and width, and the rest of its record, which it passes through. */
  datatype DecoderConfig = DecoderConfig(layers: nat, nodes: nat, fields: seq<string>)

  /** The decoder language model; only its graph pointer is modelled. */
  class Decoder {
    const config: DecoderConfig
    var currGraph: Option<GraphId>

    constructor (config: DecoderConfig)
      ensures this.config == config && currGraph == None
    {
      this.config := config;
      currGraph := None;
    }

    method NewGraph(cg: GraphId)
      modifies this`currGraph
      ensures currGraph == Some(cg)
    {
      currGraph := Some(cg);
    }
  }

  // ---------------------------------------------------------------------
  // Decoder seeds: the bridge output cut into one slice per layer.

  /** Seed i of the first half: the whole bridge output for one layer,
      otherwise rows [i * nodes, (i + 1) * nodes) of it. */
  function Slice(decin: Expr, layers: nat, nodes: nat, i: nat): Expr
  {
    if layers == 1 then decin else PickRange(decin, i * nodes, (i + 1) * nodes)
  }

  /** The 2 * layers decoder inputs: the slices, then their tanh images. */
  function DecoderSeeds(decin: Expr, layers: nat, nodes: nat): (seeds: seq<Expr>)
    ensures |seeds| == 2 * layers
  {
    seq(2 * layers, k requires 0 <= k < 2 * layers =>
      if k < layers then Slice(decin, layers, nodes, k) else Tanh(Slice(decin, layers, nodes, k - layers)))
  }

  /** The rows of v, the value of decin, that a seed selects: decin itself
      is all of v, a `pickrange` of it cuts rows out. */
  function Picked<T>(v: seq<T>, decin: Expr, e: Expr): seq<T>
  {
    if e == decin then v
    else match e
      case PickRange(a, lo, hi) => if a == decin && lo <= hi <= |v| then v[lo..hi] else []
      case _ => []
  }

  /** The second half of the seeds is the tanh of the first, entry by entry. */
  lemma SeedsLayout(decin: Expr, layers: nat, nodes: nat)
    ensures var seeds := DecoderSeeds(decin, layers, nodes);
            && |seeds| == 2 * layers
            && forall i :: 0 <= i < layers ==> seeds[i + layers] == Tanh(seeds[i])
  {
  }

  lemma MulStep(i: nat, nodes: nat)
    ensures (i + 1) * nodes == i * nodes + nodes
  {
  }

  lemma MulMono(i: nat, j: nat, nodes: nat)
    requires i <= j
    ensures i * nodes <= j * nodes
  {
    assert j * nodes == i * nodes + (j - i) * nodes;
  }

  /** The rows each of the first m seeds selects from v, in seed order. */
  function PickedSlices<T>(v: seq<T>, decin: Expr, layers: nat, nodes: nat, m: nat): (xs: seq<seq<T>>)
    requires m <= layers
    ensures |xs| == m
  {
    seq(m, i requires 0 <= i < m => Picked(v, decin, DecoderSeeds(decin, layers, nodes)[i]))
  }

  /** With several layers, seed i selects rows [i * nodes, (i + 1) * nodes). */
  lemma SeedPick<T>(v: seq<T>, decin: Expr, layers: nat, nodes: nat, i: nat)
    requires layers > 1 && |v| == layers * nodes && i < layers
    ensures i * nodes + nodes <= |v|
    ensures Picked(v, decin, DecoderSeeds(decin, layers, nodes)[i]) == v[i * nodes..i * nodes + nodes]
  {
    MulStep(i, nodes);
    MulMono(i + 1, layers, nodes);
    var e := DecoderSeeds(decin, layers, nodes)[i];
    assert e == PickRange(decin, i * nodes, (i + 1) * nodes);
    assert decin < e;
  }

  /** The first m slices of a layers * nodes vector, laid end to end, are
      its first m * nodes rows. */
  lemma {:induction false} SlicesPrefix<T>(v: seq<T>, decin: Expr, layers: nat, nodes: nat, m: nat)
    requires layers > 1 && |v| == layers * nodes && m <= layers
    ensures m * nodes <= |v|
    ensures Flatten(PickedSlices(v, decin, layers, nodes, m)) == v[..m * nodes]
  {
    MulMono(m, layers, nodes);
    var xs := PickedSlices(v, decin, layers, nodes, m);
    if m == 0 {
      assert xs == [];
    } else {
      var lo, hi := (m - 1) * nodes, m * nodes;
      MulStep(m - 1, nodes);
      assert hi == lo + nodes;
      SlicesPrefix(v, decin, layers, nodes, m - 1);
      SeedPick(v, decin, layers, nodes, m - 1);
      assert xs[..m - 1] == PickedSlices(v, decin, layers, nodes, m - 1);
      assert xs[m - 1] == v[lo..hi];
      assert xs == xs[..m - 1] + [xs[m - 1]];
      FlattenSnoc(xs[..m - 1], xs[m - 1]);
      assert v[..hi] == v[..lo] + v[lo..hi];
    }
  }

  /** The slices of a layers * nodes bridge output are nodes rows each, and
      laid end to end they are the output itself: disjoint and covering. */
  lemma SlicesCover<T>(v: seq<T>, decin: Expr, layers: nat, nodes: nat)
    requires layers > 0 && |v| == layers * nodes
    ensures forall i :: 0 <= i < layers ==> |PickedSlices(v, decin, layers, nodes, layers)[i]| == nodes
    ensures Flatten(PickedSlices(v, decin, layers, nodes, layers)) == v
  {
    var xs := PickedSlices(v, decin, layers, nodes, layers);
    if layers == 1 {
      assert xs == [v];
      FlattenCons(v, []);
    } else {
      forall i | 0 <= i < layers
        ensures |xs[i]| == nodes
      {
        SeedPick(v, decin, layers, nodes, i);
      }
      SlicesPrefix(v, decin, layers, nodes, layers);
      assert v[..layers * nodes] == v;
    }
  }

  // ---------------------------------------------------------------------
  // The encatt_001 record.

  const EncAttVersion := "encatt_001"

  datatype EncAttConfig = EncAttConfig(extern: ExternConfig, decoder: DecoderConfig)

  /** The version line, the extern calculator's record, the decoder's. */
  function EncAttRecord(c: EncAttConfig, writeLM: DecoderConfig -> seq<string>): seq<string>
  {
    [EncAttVersion] + ExternRecord(c.extern) + writeLM(c.decoder)
  }

  function ParseEncAttRecord(lines: seq<string>, readLM: seq<string> -> Result<(DecoderConfig, seq<string>)>)
    : Result<(EncAttConfig, seq<string>)>
  {
    if lines == [] then Err(PrematureEnd("EncoderAttentional"))
    else if WordAt(Words(lines[0]), 0) != EncAttVersion then Err(VersionMismatch(EncAttVersion))
    else
      var ext :- ParseExternRecord(lines[1..]);
      var dec :- readLM(ext.1);
      Ok((EncAttConfig(ext.0, dec.0), dec.1))
  }

  /** The decoder's record reads back what it wrote and nothing more. */
  ghost predicate DecoderCodec(writeLM: DecoderConfig -> seq<string>, readLM: seq<string> -> Result<(DecoderConfig, seq<string>)>)
  {
    forall d: DecoderConfig, rest: seq<string> :: readLM(writeLM(d) + rest) == Ok((d, rest))
  }

  lemma EncAttVersionWord()
    ensures Words(EncAttVersion) == [EncAttVersion]
  {
    assert WordSafe(EncAttVersion);
    WordsOfLine([EncAttVersion]);
    assert Line([EncAttVersion]) == EncAttVersion;
  }

  lemma RecordTail<T>(x: T, a: seq<T>, b: seq<T>, rest: seq<T>)
    ensures ([x] + a + b + rest)[0] == x
    ensures ([x] + a + b + rest)[1..] == a + (b + rest)
  {
    assert ([x] + a + b + rest)[1..] == a + b + rest;
  }

  /** Reading a written encatt_001 record gives the configuration back and
      consumes exactly its lines, given a decoder record that does too. */
  lemma EncAttRecordRoundTrip(c: EncAttConfig, rest: seq<string>,
                              writeLM: DecoderConfig -> seq<string>,
                              readLM: seq<string> -> Result<(DecoderConfig, seq<string>)>)
    requires ExternWordSafe(c.extern) && DecoderCodec(writeLM, readLM)
    ensures ParseEncAttRecord(EncAttRecord(c, writeLM) + rest, readLM) == Ok((c, rest))
  {
    var lines := EncAttRecord(c, writeLM) + rest;
    EncAttVersionWord();
    RecordTail(EncAttVersion, ExternRecord(c.extern), writeLM(c.decoder), rest);
    ExternRecordRoundTrip(c.extern, writeLM(c.decoder) + rest);
    assert readLM(writeLM(c.decoder) + rest) == Ok((c.decoder, rest));
  }

  /** Any first line whose first word is not the version is rejected. */
  lemma EncAttRecordRejects(lines: seq<string>, readLM: seq<string> -> Result<(DecoderConfig, seq<string>)>)
    ensures lines == [] ==> ParseEncAttRecord(lines, readLM) == Err(PrematureEnd("EncoderAttentional"))
    ensures lines != [] && WordAt(Words(lines[0]), 0) != EncAttVersion ==>
              ParseEncAttRecord(lines, readLM) == Err(VersionMismatch(EncAttVersion))
  {
  }

  // ---------------------------------------------------------------------
  // The attentional encoder-decoder.

  class EncoderAttentional {
    const externCalc: ExternAttentional
    const decoder: Decoder
    /** Shapes of the bridge parameters `p_enc2dec_W_` and `p_enc2dec_b_`. */
    const enc2decW: Shape
    const enc2decB: nat
    var currGraph: Option<GraphId>
    var iEnc2decB: Expr
    var iEnc2decW: Expr

    /** The bridge maps the context (the encoders' total width) to one
        vector of layers * nodes rows for the decoder. */
    constructor (externCalc: ExternAttentional, decoder: Decoder)
      ensures this.externCalc == externCalc && this.decoder == decoder
      ensures enc2decW == Shape(U32(decoder.config.layers * decoder.config.nodes), U32(externCalc.contextSize))
      ensures enc2decB == U32(decoder.config.layers * decoder.config.nodes)
      ensures currGraph == None
    {
      this.externCalc := externCalc;
      this.decoder := decoder;
      var enc2decOut := decoder.config.layers * decoder.config.nodes;
      enc2decW := Shape(U32(enc2decOut), U32(externCalc.contextSize));
      enc2decB := U32(enc2decOut);
      currGraph := None;
      iEnc2decB, iEnc2decW := Unset, Unset;
    }

    function Config(): EncAttConfig
      reads this, externCalc, externCalc.encoders
    {
      EncAttConfig(externCalc.Config(), decoder.config)
    }

    /** Points the calculator and the decoder at the graph, indexes the
        bridge parameters and records the graph. */
    method NewGraph(cg: GraphId)
      modifies this`currGraph, this`iEnc2decB, this`iEnc2decW, decoder`currGraph
      modifies externCalc`currGraph, externCalc`iEhidHW, externCalc`iEhidStateW, externCalc`iEEhidW, externCalc.encoders
      ensures currGraph == Some(cg) && decoder.currGraph == Some(cg)
      ensures iEnc2decB == Param(Enc2DecB, cg) && iEnc2decW == Param(Enc2DecW, cg)
      ensures externCalc.currGraph == Some(cg) && externCalc.OnGraph(cg)
    {
      externCalc.NewGraph(cg);
      decoder.NewGraph(cg);
      iEnc2decB := Param(Enc2DecB, cg);
      iEnc2decW := Param(Enc2DecW, cg);
      currGraph := Some(cg);
    }

    /** The loop that fills `decoder_in` by index. */
    static method Seeds(decin: Expr, layers: nat, nodes: nat) returns (seeds: seq<Expr>)
      ensures seeds == DecoderSeeds(decin, layers, nodes)
    {
      var decoderIn := new Expr[2 * layers](_ => Unset);
      for i := 0 to layers
        invariant forall k :: 0 <= k < i ==> decoderIn[k] == DecoderSeeds(decin, layers, nodes)[k]
        invariant forall k :: layers <= k < layers + i ==> decoderIn[k] == DecoderSeeds(decin, layers, nodes)[k]
      {
        decoderIn[i] := if layers == 1 then decin else PickRange(decin, i * nodes, (i + 1) * nodes);
        decoderIn[i + layers] := Tanh(decoderIn[i]);
      }
      seeds := decoderIn[..];
    }

    /** Encodes the sentence, maps the last combined state through the
        bridge and cuts the result into the decoder's seeds. */
    method GetEncodedState(sent: Sentence, cg: GraphId) returns (r: Result<seq<Expr>>)
      requires externCalc.KnownType() && |externCalc.encoders| > 0 && |sent| > 0
      modifies externCalc`sentLen, externCalc`iH, externCalc`iHLast, externCalc`iEhidHpart,
               externCalc`iSentLen, externCalc`sentValuesLen, externCalc.encoders
      ensures !externCalc.OnGraph(cg) ==> r == Err(GraphMismatch)
      ensures externCalc.OnGraph(cg) ==> (r.Err? <==> |sent| >= MaxPositions)
      ensures r.Ok? ==> externCalc.Attached(Combine(SeparateStates(externCalc.encoders, [sent], |sent|)))
      ensures r.Ok? ==> r.value == DecoderSeeds(Affine([iEnc2decB, iEnc2decW, externCalc.iHLast]),
                                                decoder.config.layers, decoder.config.nodes)
    {
      var init := externCalc.InitializeSentence(sent, cg);
      if init.Err? {
        return Err(init.error);
      }
      var decin := Affine([iEnc2decB, iEnc2decW, externCalc.iHLast]);
      var seeds := Seeds(decin, decoder.config.layers, decoder.config.nodes);
      return Ok(seeds);
    }

    /** The batch form: the last combined position of the longest sentence. */
    method GetEncodedStateBatch(sents: seq<Sentence>, cg: GraphId) returns (r: Result<seq<Expr>>)
      requires externCalc.KnownType() && |externCalc.encoders| > 0 && |sents| > 0 && MaxLen(sents) > 0
      modifies externCalc`sentLen, externCalc`iH, externCalc`iHLast, externCalc`iEhidHpart,
               externCalc`iSentLen, externCalc`sentValuesLen, externCalc.encoders
      ensures !externCalc.OnGraph(cg) ==> r == Err(GraphMismatch)
      ensures externCalc.OnGraph(cg) ==> (r.Err? <==> MaxLen(sents) >= MaxPositions)
      ensures r.Ok? ==> externCalc.Attached(Combine(SeparateStates(externCalc.encoders, sents, MaxLen(sents))))
      ensures r.Ok? ==> r.value == DecoderSeeds(Affine([iEnc2decB, iEnc2decW, externCalc.iHLast]),
                                                decoder.config.layers, decoder.config.nodes)
    {
      var init := externCalc.InitializeBatch(sents, cg);
      if init.Err? {
        return Err(init.error);
      }
      var decin := Affine([iEnc2decB, iEnc2decW, externCalc.iHLast]);
      var seeds := Seeds(decin, decoder.config.layers, decoder.config.nodes);
      return Ok(seeds);
    }

    method Write(writeLM: DecoderConfig -> seq<string>) returns (lines: seq<string>)
      ensures lines == EncAttRecord(Config(), writeLM)
    {
      var ext := externCalc.Write();
      lines := [EncAttVersion] + ext + writeLM(decoder.config);
    }

    /** Reads the version line, the calculator and the decoder, then builds
        the bridge around them. */
    static method Read(lines: seq<string>, nodesOf: string -> nat,
                       readLM: seq<string> -> Result<(DecoderConfig, seq<string>)>)
      returns (r: Result<(EncoderAttentional, seq<string>)>)
      ensures ParseEncAttRecord(lines, readLM).Err? ==> r.Err?
      ensures lines == [] ==> r == Err(PrematureEnd("EncoderAttentional"))
      ensures lines != [] && WordAt(Words(lines[0]), 0) != EncAttVersion ==> r == Err(VersionMismatch(EncAttVersion))
      ensures ParseEncAttRecord(lines, readLM).Ok? ==>
                var (c, rest) := ParseEncAttRecord(lines, readLM).value;
                && (r.Ok? <==> ParseAttention(c.extern.attentionType, c.extern.stateSize, 0).Ok?)
                && (r.Ok? ==> var (ea, after) := r.value;
                              && fresh(ea) && ea.externCalc.Valid() && after == rest
                              && ea.Config() == c && ea.currGraph == None)
    {
      if lines == [] {
        return Err(PrematureEnd("EncoderAttentional"));
      }
      if WordAt(Words(lines[0]), 0) != EncAttVersion {
        return Err(VersionMismatch(EncAttVersion));
      }
      r := ReadBody(lines[1..], nodesOf, readLM);
    }

    /** The records after the version line: the extern attention model, then
        the decoder. */
    static method ReadBody(body: seq<string>, nodesOf: string -> nat,
                           readLM: seq<string> -> Result<(DecoderConfig, seq<string>)>)
      returns (r: Result<(EncoderAttentional, seq<string>)>)
      ensures ParseExternRecord(body).Err? ==> r.Err?
      ensures ParseExternRecord(body).Ok? && readLM(ParseExternRecord(body).value.1).Err? ==> r.Err?
      ensures ParseExternRecord(body).Ok? && readLM(ParseExternRecord(body).value.1).Ok? ==>
                var (ec, afterExt) := ParseExternRecord(body).value;
                var (dc, rest) := readLM(afterExt).value;
                && (r.Ok? <==> ParseAttention(ec.attentionType, ec.stateSize, 0).Ok?)
                && (r.Ok? ==> var (ea, after) := r.value;
                              && fresh(ea) && ea.externCalc.Valid() && after == rest
                              && ea.Config() == EncAttConfig(ec, dc) && ea.currGraph == None)
    {
      var ext := ExternAttentional.Read(body, nodesOf);
      if ext.Err? {
        return Err(ext.error);
      }
      var (externCalc, afterExt) := ext.value;
      var dec := readLM(afterExt);
      if dec.Err? {
        return Err(dec.error);
      }
      var decoder := new Decoder(dec.value.0);
      var ea := new EncoderAttentional(externCalc, decoder);
      return Ok((ea, dec.value.1));
    }
  }

  /** Whether an attention type is accepted does not depend on the context
      size, which only enters the parameter shapes. */
  lemma ParseAttentionOkAnyContext(attentionType: string, stateSize: int, c1: nat, c2: nat)
    ensures ParseAttention(attentionType, stateSize, c1).Ok? == ParseAttention(attentionType, stateSize, c2).Ok?
  {
  }

  /** The round trip of the unit test: write a model, read it back, write
      the copy; the two texts are identical. */
  method WriteReadWrite(ea: EncoderAttentional, nodesOf: string -> nat,
                        writeLM: DecoderConfig -> seq<string>,
                        readLM: seq<string> -> Result<(DecoderConfig, seq<string>)>)
    returns (first: seq<string>, second: Result<seq<string>>)
    requires ea.externCalc.Valid() && ExternWordSafe(ea.externCalc.Config()) && DecoderCodec(writeLM, readLM)
    ensures second == Ok(first)
  {
    first := ea.Write(writeLM);
    EncAttRecordRoundTrip(ea.Config(), [], writeLM, readLM);
    assert first + [] == first;
    ParseAttentionOkAnyContext(ea.externCalc.attentionType, ea.externCalc.stateSize, ea.externCalc.contextSize, 0);
    var copy := EncoderAttentional.Read(first, nodesOf, readLM);
    assert copy.Ok?;
    var text := copy.value.0.Write(writeLM);
    second := Ok(text);
  }
}
