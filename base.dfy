/**
 * The scalar types and the math macros of src/lib/Base.h.
 *
 * ASSERT and ASSERT_CONTEXT abort the process when their condition is false.
 * Every operation of this model that contains such an assertion returns a
 * boolean `ok` that is false exactly when one of its assertions fails; what
 * the state looks like after an abort is left unspecified, since the process
 * does not survive it.
 */
module Base {

  datatype Option<+T> = None | Some(value: T)

  type u8 = x: nat | x < 0x100
  type u16 = x: nat | x < 0x1_0000
  type u32 = x: nat | x < 0x1_0000_0000

  /** C's conversion of an int to u32: reduction modulo 2^32 (Dafny's % never yields a negative). */
  function ToU32(x: int): (r: u32)
    ensures 0 <= x < 0x1_0000_0000 ==> r == x
    ensures -0x1_0000_0000 <= x < 0 ==> r == x + 0x1_0000_0000
  {
    x % 0x1_0000_0000
  }

  /** MATH_MIN(a, b): `a` when a < b, otherwise `b`. */
  function Min(a: int, b: int): (r: int)
    ensures r <= a && r <= b
    ensures r == a || r == b
  {
    if a < b then a else b
  }

  /** MATH_MAX(a, b): `a` when a > b, otherwise `b`. */
  function Max(a: int, b: int): (r: int)
    ensures r >= a && r >= b
    ensures r == a || r == b
  {
    if a > b then a else b
  }

  /** MATH_MIN used at float type (the aspect-ratio computation of Window.c). */
  function MinReal(a: real, b: real): (r: real)
    ensures r <= a && r <= b
    ensures r == a || r == b
  {
    if a < b then a else b
  }

  /**
   * MATH_CLAMP(min, n, max): the arguments come in the order (lower bound,
   * value, upper bound). A value below the lower bound yields the lower bound
   * without the upper bound being consulted.
   */
  function Clamp(lo: int, n: int, hi: int): (r: int)
    ensures lo <= hi ==> lo <= r <= hi
    ensures lo <= n <= hi ==> r == n
    ensures n < lo ==> r == lo
    ensures lo <= n && hi < n ==> r == hi
  {
    if n < lo then lo else if hi < n then hi else n
  }

  /** The result depends on `hi` only when `n` is not below `lo`. */
  lemma ClampBelowIgnoresUpper(lo: int, n: int, hi1: int, hi2: int)
    requires n < lo
    ensures Clamp(lo, n, hi1) == Clamp(lo, n, hi2) == lo
  {
  }
}
