/**
 * Values shared by every part of the model: optional values (Java's null),
 * results that carry the library's exceptions, and Java's fixed-width integers.
 */
module Base {

  /** A Java reference that may be null. */
  datatype Option<+T> = None | Some(value: T)

  /**
   * Exceptions a call can end in. The first four are the library's own, with
   * the messages it gives them; the last three stand for exceptions raised by
   * the JVM, the JSON runtime and the transport.
   */
  datatype Error =
    | InvalidInput                       // DslJsonCodec: null value or null byte array
    | NotRegistered(className: string)   // DslJsonCodec: class never registered
    | NoJsonCodec                        // AsyncRequests: builder carries no codec
    | InvalidResponse                    // HttpResponse: success-only accessor on a failure
    | NullPointer                        // the JVM's NullPointerException
    | DecodeFailure(reason: string)      // raised by the JSON runtime while parsing
    | TransportFailure(reason: string)   // raised by the transport (timeout, connection, ...)
  {
    /** The text the library puts in its own exceptions; the others are described, not quoted. */
    function Message(): string {
      match this
      case InvalidInput => "Invalid input"
      case NotRegistered(c) => "Must invoke `register` first for class: " + c
      case NoJsonCodec => "Now JsonCodec provided"
      case InvalidResponse => "Invalid response"
      case NullPointer => "NullPointerException"
      case DecodeFailure(r) => r
      case TransportFailure(r) => r
    }
  }

  /** The outcome of a call that may throw. */
  datatype Result<+T> = Ok(value: T) | Err(error: Error)

  const TWO_31: int := 0x8000_0000
  const TWO_63: int := 0x8000_0000_0000_0000

  /** Java `int`. */
  type Int32 = x: int | -TWO_31 <= x < TWO_31

  /** Java `long`. */
  type Int64 = x: int | -TWO_63 <= x < TWO_63

  const MAX_INT32: Int32 := TWO_31 - 1
  const MIN_INT32: Int32 := -TWO_31

  /** Java `byte[]` contents. */
  type Bytes = seq<bv8>

  /** Two's-complement wrap-around of a mathematical integer into a `long`. */
  function Wrap64(x: int): (r: Int64)
    ensures -TWO_63 <= x < TWO_63 ==> r == x
    ensures (r - x) % (2 * TWO_63) == 0
  {
    (x + TWO_63) % (2 * TWO_63) - TWO_63
  }

  /** Java's `a - b` on two `long`s. */
  function Sub64(a: Int64, b: Int64): (r: Int64)
    ensures -TWO_63 <= a - b < TWO_63 ==> r == a - b
    ensures 0 <= b <= a ==> r == a - b && r >= 0
  {
    Wrap64(a - b)
  }

  /** `AtomicInteger.incrementAndGet` on the stored value: `int` addition wraps. */
  function Next32(v: Int32): (r: Int32)
    ensures v < MAX_INT32 ==> r == v + 1
    ensures v == MAX_INT32 ==> r == MIN_INT32
  {
    if v == MAX_INT32 then MIN_INT32 else v + 1
  }
}
