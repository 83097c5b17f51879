/**
 * The C-level facts the plugin depends on: the errno values it returns
 * (Linux numbering), the fixed-width integer types of its arguments and the
 * narrowing conversion `(int)` that it applies before formatting.
 */
module CTypes {

  const EPERM: int := 1
  const ENOMEM: int := 12
  const EINVAL: int := 22

  const TWO_31: int := 0x8000_0000
  const TWO_32: int := 0x1_0000_0000

  type uint32 = x: int | 0 <= x < 0x1_0000_0000
  type uint64 = x: int | 0 <= x < 0x1_0000_0000_0000_0000
  /** `time_t` on the 64-bit Linux targets of the daemon. */
  type int64 = x: int | -0x8000_0000_0000_0000 <= x < 0x8000_0000_0000_0000

  /** `struct timeval`: whole seconds and the microseconds beyond them. */
  datatype TimeVal = TimeVal(sec: int64, usec: int)

  predicate InInt32(x: int)
  {
    -TWO_31 <= x < TWO_31
  }

  /**
   * The conversion `(int)x` to a 32-bit signed int: values outside the range
   * wrap modulo 2^32, as the compilers the daemon is built with do.
   */
  function ToInt32(x: int): (r: int)
    ensures InInt32(r)
    ensures (x - r) % TWO_32 == 0
    ensures InInt32(x) ==> r == x
  {
    var m := x % TWO_32;
    if m < TWO_31 then m else m - TWO_32
  }
}
