/** Small shared vocabulary: optional values, results, and the Python
    slicing and arithmetic the core relies on. */
module Basics {

  datatype Option<T> = None | Some(value: T)

  /** The outcome of an operation that raises in the source. */
  datatype Result<T, E> = Success(value: T) | Failure(error: E)

  function Min(a: int, b: int): int { if a <= b then a else b }

  function Max0(n: int): nat { if n < 0 then 0 else n }

  /** Python's `xs[:n]` for any integer `n`: a non-negative `n` keeps the
      first `n` elements (all of them when `n` is too large); a negative `n`
      drops the last `-n` elements. */
  function Take<T>(xs: seq<T>, n: int): (r: seq<T>)
    ensures |r| <= |xs| && r == xs[..|r|]
    ensures n >= 0 ==> |r| == Min(n, |xs|)
    ensures n < 0 ==> |r| == Max0(|xs| + n)
  {
    if n >= |xs| then xs
    else if n >= 0 then xs[..n]
    else if |xs| + n > 0 then xs[..|xs| + n]
    else []
  }

  /** Python's `xs[-n:]` for a positive `n`: the last `n` elements, or all
      of them when there are fewer. */
  function Last<T>(xs: seq<T>, n: int): (r: seq<T>)
    requires n > 0
    ensures |r| == Min(n, |xs|) && r == xs[|xs| - |r|..]
  {
    if n >= |xs| then xs else xs[|xs| - n..]
  }

  /** Python's `2 ** k` for a non-negative `k`. */
  function Pow2(k: nat): (p: nat)
    ensures p >= 1
  {
    if k == 0 then 1 else 2 * Pow2(k - 1)
  }
}
