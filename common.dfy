/**
 * Values shared by the subject, merge and store modules: optional values, the
 * success-or-exception result of an operation, the exceptions the core raises
 * or propagates, and byte payloads.
 */
module Common {

  datatype Option<+T> = None | Some(value: T)

  /** The exceptions the core throws, or passes on from its collaborators. */
  datatype Failure =
    | SecurityError(message: string)      // an authorization exception
    | IllegalState(message: string)
    | IllegalArgument(message: string)
    | NullDereference                     // a null value was dereferenced
    | WrongMetadataType                   // a metadata value was cast to the wrong type
    | Backend(cause: string)              // reported by a role provider or a store

  /** Either a value or the exception that was raised instead. */
  datatype Result<+T> = Ok(value: T) | Err(error: Failure) {
    predicate IsFailure() {
      Err?
    }

    function PropagateFailure<U>(): Result<U>
      requires Err?
    {
      Err(error)
    }

    function Extract(): T
      requires Ok?
    {
      value
    }
  }

  type byte = b: int | 0 <= b < 256

  /** The content of a byte reference. */
  type Bytes = seq<byte>

  /** The bytes of a text whose characters are all ASCII. */
  function Ascii(s: string): (b: Bytes)
    ensures |b| == |s|
    ensures forall i :: 0 <= i < |s| && s[i] as int < 256 ==> b[i] == s[i] as int
  {
    seq(|s|, i requires 0 <= i < |s| => (s[i] as int) % 256)
  }
}
