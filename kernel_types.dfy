/**
 * Small vocabulary shared by both drivers: an Option type, the kernel error
 * numbers the drivers return, and explicit 32-bit unsigned wrap-around.
 */
module KernelTypes {

  datatype Option<+T> = None | Some(value: T)

  /** Error numbers as returned (negated) by the drivers. */
  const EINVAL: int := 22
  const ENOMEM: int := 12

  const U32_MODULUS: int := 0x1_0000_0000

  /** An unsigned 32-bit C value after an assignment wraps it. */
  function U32(x: int): (r: int)
    ensures 0 <= r < U32_MODULUS
    ensures 0 <= x < U32_MODULUS ==> r == x
  {
    x % U32_MODULUS
  }

  function Min(a: int, b: int): int { if a < b then a else b }
  function Max(a: int, b: int): int { if a < b then b else a }
}
