/** Values shared by every module: the byte type of the serial link, the
    failure-carrying wrappers, and the exception taxonomy of the rover API.
 */
module Common {

  /** One octet on the serial link. Python `bytes` become `seq<byte>`. */
  newtype byte = x: int | 0 <= x < 256

  /** Python's bitwise `|` on non-negative integers, bit by bit from the lowest. */
  function BitOr(a: nat, b: nat): (r: nat)
    ensures a <= r && b <= r && r <= a + b
    decreases a + b
  {
    if a == 0 then b
    else if b == 0 then a
    else 2 * BitOr(a / 2, b / 2) + (if a % 2 == 1 || b % 2 == 1 then 1 else 0)
  }

  /** Or-ing in bit 0 sets it and changes nothing else. */
  lemma BitOrOne(a: nat)
    ensures BitOr(a, 1) == if a % 2 == 0 then a + 1 else a
  {
  }

  /** Or-ing in 0 changes nothing. */
  lemma BitOrZero(a: nat)
    ensures BitOr(a, 0) == a
  {
  }

  datatype Option<+T> = None | Some(value: T)

  /** A value or the exception that was raised instead of returning it. */
  datatype Result<+T> = Ok(value: T) | Err(error: Error)

  /** The result of an operation that returns nothing (`None`) when it succeeds. */
  datatype Outcome = Pass | Fail(error: Error)

  /** What an `XMValueError` complains about. */
  datatype ValueProblem =
    | OutOfRange(value: int, start: int, end: int) // assert_in_range
    | WrongType(expected: string, actual: string)  // assert_type
    | Unconvertible                                // str_to_int, str_to_bool

  /** The exceptions the core raises. `XMValueError` and `LegsException` are
      subclasses of `XMException`; the others are Python built-ins that the
      core lets escape. */
  datatype Error =
    | XMValueError(problem: ValueProblem)
    | LegsException(action: string, received: seq<byte>)
    | OverflowError        // int.to_bytes of a value that does not fit
    | StructError          // struct.pack of a value that does not fit
    | IndexError           // first byte of an empty message
    | AttributeError       // .lower() on something that is not a string
    | TypeError            // arguments that do not fit a signature
    | KeyError(key: string) // unknown circuit name
    | Stalled              // a serial read that never returns

  /** The exceptions that derive from `XMException`. */
  predicate IsXMException(e: Error) {
    e.XMValueError? || e.LegsException?
  }
}
