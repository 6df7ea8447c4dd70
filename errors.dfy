/** Error kinds raised by the modelled code (each THROW_ERROR or failed
    assert becomes one of these) and the Result wrapper that carries them. */
module Errors {

  datatype Option<+T> = None | Some(value: T)

  /** The distinguishable failures of the toolkit's discrete logic. */
  datatype Error =
    | GraphMismatch                 // computation graph differs from the one given to NewGraph
    | PrematureEnd(what: string)    // no line left where a record was expected
    | VersionMismatch(expected: string)
    | Unparseable(field: string)    // a numeric record field that is not a decimal numeral
    | IllegalAttentionType
    | AssertionFailed(what: string) // an `assert` of the source that would abort
    | OversizedSentence(size: nat)
    | BadSoftmaxSignature           // no softmax kind matches the signature
    | BadClassSignature             // a "class" signature that is not class:<file>
    | NotImplemented(what: string)
    | IllegalTrainer
    | BadModelType
    | MissingTrainFile
    | MissingModelOut
    | MissingSourceFile
    | InvalidArgument(what: string) // std::invalid_argument, as `stoi` throws it
    | OutOfRange(what: string)      // std::out_of_range, as `stoi` throws it

  datatype Result<+T> = Ok(value: T) | Err(error: Error) {
    predicate IsFailure() { Err? }
    function PropagateFailure<U>(): Result<U>
      requires Err?
    {
      Err(error)
    }
    function Extract(): T
      requires Ok?
    {
      value
    }
  }
}
