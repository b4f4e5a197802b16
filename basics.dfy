/** Small shared vocabulary: failure-carrying results and the machine integer types of the C++ code. */
module Basics {

  datatype Option<+T> = None | Some(value: T)

  datatype Result<+T, +E> = Success(value: T) | Failure(error: E)

  /** 2^64: one past the largest `size_t`. */
  const SizeLimit: int := 0x1_0000_0000_0000_0000

  /** C++ `size_t` on a 64-bit target. */
  type usize = x: nat | x < SizeLimit

  /** C++ `uint8_t`. */
  type byte = x: nat | x < 256

  /** `x++` on a `size_t`: wraps to 0 past the largest value. */
  function WrappingIncrement(x: usize): (r: usize)
    ensures x + 1 < SizeLimit ==> r == x + 1
    ensures x + 1 == SizeLimit ==> r == 0
  {
    if x + 1 == SizeLimit then 0 else x + 1
  }

  /** Quotient and remainder are unique: `a == q * k + r` with `0 <= r < k` fixes `a / k`. */
  lemma DivIsUnique(a: int, k: int, q: int, r: int)
    requires k > 0 && 0 <= r < k && a == q * k + r
    ensures a / k == q
  {
    var q' := a / k;
    var r' := a % k;
    assert (q - q') * k == r' - r;
    if q > q' {
      MulAtLeast(q - q', k);
    } else if q < q' {
      MulAtLeast(q' - q, k);
    }
  }

  lemma MulAtLeast(m: int, k: int)
    requires m >= 1 && k > 0
    ensures m * k >= k
  {
  }
}
