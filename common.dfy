/** Small helpers shared by the optimisers and the SMO engines. */
module Common {

  datatype Option<T> = None | Some(value: T)

  function Max(a: real, b: real): (r: real)
    ensures r >= a && r >= b && (r == a || r == b)
  {
    if a >= b then a else b
  }

  function Min(a: real, b: real): (r: real)
    ensures r <= a && r <= b && (r == a || r == b)
  {
    if a <= b then a else b
  }

  function Abs(x: real): (r: real)
    ensures r >= 0.0 && (r == x || r == -x)
  {
    if x < 0.0 then -x else x
  }

  /**
   * `clip(x, lo, hi)`: the helper the SMO engines import and numpy's `np.clip`, taken as
   * `min(max(x, lo), hi)`. The result never exceeds `hi`, lies in `[lo, hi]` whenever that
   * interval is not empty, and is `x` itself when `x` already lies in it.
   */
  function Clip(x: real, lo: real, hi: real): (r: real)
    ensures r <= hi
    ensures lo <= hi ==> lo <= r
    ensures lo <= x <= hi ==> r == x
    ensures r == x || r == lo || r == hi
  {
    Min(Max(x, lo), hi)
  }

  /** 1 for `true`, 0 for `false`: what counts members of a set or untried cases. */
  function Indicator(b: bool): nat
  {
    if b then 1 else 0
  }
}
