/** Fixed-width integers, optional values and the status codes that the
    library's functions return (1 on success, -1 with a libcerror error). */
module Common {

  type byte = x: int | 0 <= x < 0x100
  type uint16 = x: int | 0 <= x < 0x1_0000
  type uint32 = x: int | 0 <= x < 0x1_0000_0000
  type uint64 = x: int | 0 <= x < 0x1_0000_0000_0000_0000
  /** The C `int` used for node numbers. */
  type int32 = x: int | -0x8000_0000 <= x < 0x8000_0000

  /** SSIZE_MAX on a 64-bit platform: every size check in the library compares against it. */
  const SsizeMax: int := 0x7FFF_FFFF_FFFF_FFFF

  datatype Option<T> = None | Some(value: T)

  /** The libcerror error kinds the core raises. */
  datatype ErrorKind =
    | InvalidArgument   // LIBCERROR_ARGUMENT_ERROR_INVALID_VALUE
    | ValueAlreadySet   // LIBCERROR_RUNTIME_ERROR_VALUE_ALREADY_SET
    | ValueMissing      // LIBCERROR_RUNTIME_ERROR_VALUE_MISSING
    | OutOfBounds       // LIBCERROR_RUNTIME_ERROR_VALUE_OUT_OF_BOUNDS
    | Unsupported       // LIBCERROR_RUNTIME_ERROR_UNSUPPORTED_VALUE
    | SeekFailed        // LIBCERROR_IO_ERROR_SEEK_FAILED
    | ReadFailed        // LIBCERROR_IO_ERROR_READ_FAILED
    | InitializeFailed  // LIBCERROR_RUNTIME_ERROR_INITIALIZE_FAILED
    | GetFailed         // LIBCERROR_RUNTIME_ERROR_GET_FAILED

  /** Return value 1 (Ok) or -1 (Fail) of a libfshfs function. */
  datatype Status = Ok | Fail(error: ErrorKind)

  datatype Result<T> = Success(value: T) | Failure(error: ErrorKind)

  /** `a * b` evaluated in `uint32_t` arithmetic: the product wraps modulo 2^32. */
  function MulU32(a: uint32, b: uint32): (p: uint32)
    ensures (a * b - p) % 0x1_0000_0000 == 0
    ensures a * b < 0x1_0000_0000 ==> p == a * b
  {
    var q := a * b;
    assert 0 <= q;
    assert q < 0x1_0000_0000 ==> q % 0x1_0000_0000 == q;
    q % 0x1_0000_0000
  }

  /** `a + b` evaluated in `uint16_t` arithmetic: the sum wraps at most once. */
  function AddU16(a: uint16, b: uint16): (s: uint16)
    ensures s == a + b || s == a + b - 0x1_0000
  {
    (a + b) % 0x1_0000
  }

  /** `n *= 2` on a `uint16_t`. */
  function DoubleU16(n: uint16): (d: uint16)
    ensures d % 2 == 0
    ensures n < 0x8000 ==> d == 2 * n
    ensures n >= 0x8000 ==> d == 2 * n - 0x1_0000
  {
    (2 * n) % 0x1_0000
  }

  /** The conversion `(int) x` of a `uint32_t` on a two's complement platform. */
  function ToInt32(x: uint32): (v: int32)
    ensures (x - v) % 0x1_0000_0000 == 0
    ensures v < 0 <==> x >= 0x8000_0000
  {
    if x < 0x8000_0000 then x else x - 0x1_0000_0000
  }
}
