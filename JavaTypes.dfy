/** Java value types the domain core relies on: fixed-width integers, UUIDs,
    timestamps and nullable references. */
module JavaTypes {

  /** Java `int`. */
  newtype int32 = x: int | -0x8000_0000 <= x < 0x8000_0000

  /** Java `long`. */
  newtype int64 = x: int | -0x8000_0000_0000_0000 <= x < 0x8000_0000_0000_0000

  /** `java.util.UUID`: two 64-bit halves. */
  datatype Uuid = Uuid(mostSigBits: int64, leastSigBits: int64)

  /** `java.time.LocalDateTime`, reduced to an ordered tick count. */
  datatype Timestamp = Timestamp(ticks: int)

  /** A Java reference that may be `null`. */
  datatype Option<+T> = None | Some(value: T)

  /** The exceptions the core can raise. */
  datatype JavaException = NullPointerException

  /** A call that either returns a value or throws. */
  datatype Result<+T> = Returned(value: T) | Threw(exception: JavaException)

  /** Two's-complement wrap-around of Java `int` arithmetic. */
  function Wrap32(x: int): (r: int32)
    ensures (r as int - x) % 0x1_0000_0000 == 0
    ensures -0x8000_0000 <= x < 0x8000_0000 ==> r as int == x
  {
    ((x + 0x8000_0000) % 0x1_0000_0000 - 0x8000_0000) as int32
  }
}
