/** The class-factored softmax: its signature check, the loss it builds for
    one word, and the operations it does not implement. */
module SoftmaxClass {
  import opened Errors
  import opened Graph
  import opened StringUtil
  import opened LinearEncoding

  /** A class-factored softmax: its signature, its input size and the class
      file the signature names. */
  datatype ClassSoftmax = ClassSoftmax(sig: string, inputSize: int, classFile: string)

  /** The constructor: the signature split at ":" must give exactly two
      pieces, the first of them "class"; the second names the class file. */
  function NewClassSoftmax(sig: string, inputSize: int): (r: Result<ClassSoftmax>)
    ensures r.Ok? ==> r.value.sig == sig && r.value.inputSize == inputSize
    ensures r.Err? ==> r.error == BadClassSignature
  {
    var strs := DelimTokens(sig, ":");
    if |strs| != 2 || strs[0] != "class" then Err(BadClassSignature)
    else Ok(ClassSoftmax(sig, inputSize, strs[1]))
  }

  /** A signature is "class:" followed by a file name free of ':'. */
  predicate ClassSignature(sig: string)
  {
    |sig| >= 6 && sig[..6] == "class:" && ':' !in sig[6..]
  }

  /** Splitting at ':' gives two pieces, the first "class", exactly when the
      string is "class:" and a ':'-free rest, which is then the second piece. */
  lemma SplitClassColon(s: string)
    ensures (|Split(s, [':'])| == 2 && Split(s, [':'])[0] == "class") <==> ClassSignature(s)
    ensures ClassSignature(s) ==> Split(s, [':'])[1] == s[6..]
  {
    if |Split(s, [':'])| == 2 && Split(s, [':'])[0] == "class" {
      SplitClassIsSignature(s);
    }
    if ClassSignature(s) {
      SignatureSplitsClass(s);
    }
  }

  lemma SplitClassIsSignature(s: string)
    requires |Split(s, [':'])| == 2 && Split(s, [':'])[0] == "class"
    ensures ClassSignature(s)
  {
    var k := FirstSep(s, [':']);
    assert k < |s|;
    var t := s[k + 1..];
    assert Split(s, [':']) == [s[..k]] + Split(t, [':']);
    assert s[..k] == "class" && k == 5;
    assert |Split(t, [':'])| == 1;
    assert FirstSep(t, [':']) == |t|;
    assert s[..6] == s[..5] + [s[5]];
    assert t == s[6..];
  }

  lemma SignatureSplitsClass(s: string)
    requires ClassSignature(s)
    ensures Split(s, [':']) == ["class", s[6..]]
  {
    var t := s[6..];
    assert s[..5] == "class" && s[5] == ':';
    FirstSepIs(s, [':'], 5);
    forall i | 0 <= i < |t| ensures t[i] !in [':'] {
      assert t[i] in t;
    }
    FirstSepIs(t, [':'], |t|);
    assert s[5 + 1..] == t;
    assert Split(s, [':']) == [s[..5]] + [t];
  }

  /** The constructor accepts exactly the class signatures, and takes the
      class file from after the colon. */
  lemma ClassSignatureIff(sig: string, inputSize: int)
    ensures NewClassSoftmax(sig, inputSize).Ok? <==> ClassSignature(sig)
    ensures NewClassSoftmax(sig, inputSize).Ok? ==> NewClassSoftmax(sig, inputSize).value.classFile == sig[6..]
  {
    if sig != "" {
      PiecesSingleChar(sig, ':', 0);
      assert sig[0..] == sig;
    }
    SplitClassColon(sig);
  }

  /** "class:" is accepted with an empty class file; "class" (one piece) and
      "class:a:b" (three pieces) are rejected. */
  lemma ClassSignatureExamples(inputSize: int)
    ensures NewClassSoftmax("class:", inputSize) == Ok(ClassSoftmax("class:", inputSize, ""))
    ensures NewClassSoftmax("class", inputSize) == Err(BadClassSignature)
    ensures NewClassSoftmax("class:a:b", inputSize) == Err(BadClassSignature)
  {
    ClassSignatureIff("class:", inputSize);
    ClassSignatureIff("class", inputSize);
    ClassSignatureIff("class:a:b", inputSize);
    assert "class:"[6..] == "";
    assert "class:a:b"[6..] == "a:b" && "a:b"[1] == ':';
  }

  /** `CalcLoss` for one n-gram: the class-factored loss of its last word. */
  function CalcLoss(c: ClassSoftmax, input: Expr, ngram: Sentence, train: bool): (e: Expr)
    requires |ngram| > 0
    ensures e.NegLogSoftmax? && e.a == input
  {
    NegLogSoftmax(input, ngram[|ngram| - 1])
  }

  /** Only the last word of the n-gram and the input matter: the context
      words and the training flag do not. */
  lemma CalcLossLastWord(c: ClassSoftmax, input: Expr, g1: Sentence, g2: Sentence, t1: bool, t2: bool)
    requires |g1| > 0 && |g2| > 0
    ensures CalcLoss(c, input, g1, t1) == CalcLoss(c, input, g2, t2) <==> g1[|g1| - 1] == g2[|g2| - 1]
  {
  }

  /** Batched `CalcLoss`: not implemented for any input. */
  function CalcLossBatch(c: ClassSoftmax, input: Expr, ngrams: seq<Sentence>, train: bool): (r: Result<Expr>)
    ensures r == Err(NotImplemented("SoftmaxClass::CalcLoss"))
  {
    Err(NotImplemented("SoftmaxClass::CalcLoss"))
  }

  /** `CalcProbability`, for one context or a batch: not implemented. */
  function CalcProbability(c: ClassSoftmax, input: Expr, ctxt: Sentence): (r: Result<Expr>)
    ensures r == Err(NotImplemented("SoftmaxClass::CalcProbability"))
  {
    Err(NotImplemented("SoftmaxClass::CalcProbability"))
  }

  function CalcProbabilityBatch(c: ClassSoftmax, input: Expr, ctxts: seq<Sentence>): (r: Result<Expr>)
    ensures r == Err(NotImplemented("SoftmaxClass::CalcProbability"))
  {
    Err(NotImplemented("SoftmaxClass::CalcProbability"))
  }

  /** `CalcLogProbability`, for one context or a batch: not implemented. */
  function CalcLogProbability(c: ClassSoftmax, input: Expr, ctxt: Sentence): (r: Result<Expr>)
    ensures r == Err(NotImplemented("SoftmaxClass::CalcLogProbability"))
  {
    Err(NotImplemented("SoftmaxClass::CalcLogProbability"))
  }

  function CalcLogProbabilityBatch(c: ClassSoftmax, input: Expr, ctxts: seq<Sentence>): (r: Result<Expr>)
    ensures r == Err(NotImplemented("SoftmaxClass::CalcLogProbability"))
  {
    Err(NotImplemented("SoftmaxClass::CalcLogProbability"))
  }
}
