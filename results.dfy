/** Failure-carrying values shared by the model.  `Option.None` stands for a
    Java `null` reference; `Result` and `Outcome` stand for a call that either
    returns or throws.  Only the kind of error is kept, never its message. */
module Results {

  datatype Option<T> = None | Some(value: T)

  /** The kinds of exception the modelled code can raise. */
  datatype Error =
    | NullValue            // a required value was null
    | UnknownFormat        // no DataFormat has the given name
    | InvalidTimeFormat    // the time format is neither reserved nor a compilable pattern
    | NotSingleCharacter   // a delimiter or quote string whose length is not 1
    | UnsupportedToken     // a parser token of the wrong kind
    | UnknownField         // a configuration field the parser does not declare
    | UnknownOrdinal(ordinal: int)  // a decoded DataFormat ordinal out of range
    | EndOfStream          // a read past the end of the stream
    | UnexpectedToken      // a read of one kind of item where another was written

  datatype Result<T> = Ok(value: T) | Err(error: Error) {
    predicate IsFailure() { Err? }

    function PropagateFailure<U>(): Result<U>
      requires Err?
    {
      Err(error)
    }

    function Extract(): T
      requires Ok?
    {
      value
    }
  }

  /** The outcome of a call that returns nothing (a void method). */
  datatype Outcome = Pass | Fail(error: Error)
}
