/** Products and quotients of reals, one fact at a time. */
module RealArithmetic {

  lemma MulPositive(a: real, b: real)
    requires a > 0.0 && b > 0.0
    ensures a * b > 0.0
  {
  }

  lemma MulMono(a: real, b: real, k: real)
    requires k >= 0.0
    ensures a <= b ==> a * k <= b * k
  {
  }

  lemma DivLess(d: real, c: real, k: real)
    requires c > 0.0
    ensures (d / c < k <==> d < k * c) && (k < d / c <==> k * c < d)
  {
  }

  lemma ShareFits(d: real, k: real, c: real)
    requires d > 0.0 && k > 0.0
    ensures d / k > 0.0
    ensures c <= d / k ==> c * k <= d
  {
  }

}
