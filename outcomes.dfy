/** The two exception families the editor's C++ code raises, as values.

    `YamlException` stands for anything derived from `YAML::Exception`
    (invalid node, bad subscript, bad conversion) and `RuntimeError` for
    `std::runtime_error`. The readers catch the first per element and let the
    second escape, so the distinction decides between "skip" and "abort". */
module Outcomes {

  datatype Exception = YamlException(what: string) | RuntimeError(what: string)

  /** The result of a call that either returns a value or throws. */
  datatype Outcome<+T> = Ok(value: T) | Throw(ex: Exception) {

    predicate IsFailure() {
      Throw?
    }

    function PropagateFailure<U>(): Outcome<U>
      requires Throw?
    {
      Throw(ex)
    }

    function Extract(): T
      requires Ok?
    {
      value
    }
  }

  datatype Option<+T> = None | Some(value: T)
}
