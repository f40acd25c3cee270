/** Error results shared by the codecs. */
module Results {
  /** Panic stands for a Go run-time panic, the others for returned errors. */
  datatype Error = UnexpectedEOF | VarintOverflow | BadMagic | CountMismatch | Panic

  datatype Result<+T> = Ok(value: T) | Err(error: Error) {
    predicate IsFailure() {
      Err?
    }

    function PropagateFailure<U>(): Result<U>
      requires Err?
    {
      Err(error)
    }

    function Extract(): T
      requires Ok?
    {
      value
    }
  }

  /** What a reader has got so far, before what the rest of its input gives. */
  function After<T>(out: seq<T>, r: Result<seq<T>>): Result<seq<T>> {
    if r.Ok? then Ok(out + r.value) else r
  }
}
