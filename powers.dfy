/** Integer and real powers used to state the sizes of the generated fractals. */
module Powers {

  /** 2^n */
  function Pow2(n: nat): (r: nat)
    ensures r >= 1
  {
    if n == 0 then 1 else 2 * Pow2(n - 1)
  }

  /** 4^n */
  function Pow4(n: nat): (r: nat)
    ensures r >= 1
  {
    if n == 0 then 1 else 4 * Pow4(n - 1)
  }

  /** b^n over the reals (the tree's length decay 0.7^level). */
  function RealPow(b: real, n: nat): real
  {
    if n == 0 then 1.0 else b * RealPow(b, n - 1)
  }
}
