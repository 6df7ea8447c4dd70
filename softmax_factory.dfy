/** Choosing a softmax from its signature. */
module SoftmaxFactory {
  import opened Errors
  import opened StringUtil
  import opened SoftmaxClass

  /** The three kinds of softmax the factory builds. The full and the mod
      softmax keep only what the factory hands them. */
  datatype Softmax =
    | Full(sig: string, inputSize: int)
    | Class(cls: ClassSoftmax)
    | Mod(sig: string, inputSize: int)

  /** The signature a softmax was built from. */
  function SigOf(s: Softmax): string
  {
    match s
    case Full(sig, _) => sig
    case Class(c) => c.sig
    case Mod(sig, _) => sig
  }

  function InputSizeOf(s: Softmax): int
  {
    match s
    case Full(_, n) => n
    case Class(c) => c.inputSize
    case Mod(_, n) => n
  }

  /** `CreateSoftmax`: "full" exactly, then a "class" prefix, then a "mod"
      prefix, else an error. A class softmax can still fail its own check. */
  function CreateSoftmax(sig: string, inputSize: int): (r: Result<Softmax>)
    ensures r.Ok? ==> SigOf(r.value) == sig && InputSizeOf(r.value) == inputSize
  {
    if sig == "full" then Ok(Full(sig, inputSize))
    else if Substr(sig, 0, 5) == "class" then
      match NewClassSoftmax(sig, inputSize)
      case Ok(c) => Ok(Class(c))
      case Err(e) => Err(e)
    else if Substr(sig, 0, 3) == "mod" then Ok(Mod(sig, inputSize))
    else Err(BadSoftmaxSignature)
  }

  /** Which kind a signature selects, as prefix tests, tried in order; and
      the two ways it can fail. */
  lemma CreateSoftmaxDispatch(sig: string, inputSize: int)
    ensures var r := CreateSoftmax(sig, inputSize);
      && (r.Ok? && r.value.Full? <==> sig == "full")
      && (r.Ok? && r.value.Class? <==> "class" <= sig && ClassSignature(sig))
      && (r.Ok? && r.value.Mod? <==> !("class" <= sig) && "mod" <= sig)
      && (r == Err(BadClassSignature) <==> "class" <= sig && !ClassSignature(sig))
      && (r == Err(BadSoftmaxSignature) <==> sig != "full" && !("class" <= sig) && !("mod" <= sig))
  {
    SubstrPrefix(sig, "class");
    SubstrPrefix(sig, "mod");
    ClassSignatureIff(sig, inputSize);
    if sig == "full" {
      assert !("class" <= sig) && !("mod" <= sig) by {
        assert sig[0] == 'f';
      }
    }
  }

  /** A class signature builds a class softmax whose class file is what
      follows the colon. */
  lemma CreateSoftmaxClassFile(sig: string, inputSize: int)
    requires ClassSignature(sig)
    ensures CreateSoftmax(sig, inputSize) == Ok(Class(ClassSoftmax(sig, inputSize, sig[6..])))
  {
    SubstrPrefix(sig, "class");
    assert "class" <= sig by {
      assert sig[..5] == sig[..6][..5];
    }
    ClassSignatureIff(sig, inputSize);
  }

  /** A signature shorter than three characters matches no kind. */
  lemma ShortSignatureRejected(sig: string, inputSize: int)
    requires |sig| < 3
    ensures CreateSoftmax(sig, inputSize) == Err(BadSoftmaxSignature)
  {
    CreateSoftmaxDispatch(sig, inputSize);
  }

  /** The "class" prefix wins over everything after it: "classmod" is a
      malformed class signature, not a fallback to another kind; "model" is
      a mod softmax; "fullest" is not "full". */
  lemma CreateSoftmaxExamples(inputSize: int)
    ensures CreateSoftmax("classmod", inputSize) == Err(BadClassSignature)
    ensures CreateSoftmax("model", inputSize) == Ok(Mod("model", inputSize))
    ensures CreateSoftmax("fullest", inputSize) == Err(BadSoftmaxSignature)
  {
    ClassmodRejected(inputSize);
    ModelIsMod(inputSize);
    FullestRejected(inputSize);
  }

  lemma ClassmodRejected(inputSize: int)
    ensures CreateSoftmax("classmod", inputSize) == Err(BadClassSignature)
  {
    CreateSoftmaxDispatch("classmod", inputSize);
    assert "classmod"[..6] != "class:" by {
      assert "classmod"[5] == 'm';
    }
    assert "class" <= "classmod";
  }

  lemma ModelIsMod(inputSize: int)
    ensures CreateSoftmax("model", inputSize) == Ok(Mod("model", inputSize))
  {
    CreateSoftmaxDispatch("model", inputSize);
    assert "mod" <= "model";
    assert !("class" <= "model") by {
      assert "model"[0] == 'm';
    }
  }

  lemma FullestRejected(inputSize: int)
    ensures CreateSoftmax("fullest", inputSize) == Err(BadSoftmaxSignature)
  {
    CreateSoftmaxDispatch("fullest", inputSize);
    assert !("class" <= "fullest") && !("mod" <= "fullest") by {
      assert "fullest"[0] == 'f';
    }
  }
}
