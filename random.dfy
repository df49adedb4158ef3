/**
  `Math.random()` as a parameter: a sample is a fraction in [0, 1), and
  `Math.floor(Math.random() * n)` is `Scale`.
 */
module Random {

  datatype Fraction = Fraction(num: nat, den: nat)

  /** One value of `Math.random()`. */
  type Sample = f: Fraction | f.num < f.den witness Fraction(0, 1)

  /** `Math.floor(Math.random() * n)`: an index below `n`. */
  function Scale(x: Sample, n: nat): (r: nat)
    ensures n > 0 ==> r < n
    ensures n == 0 ==> r == 0
  {
    ScaleBelow(x, n);
    x.num * n / x.den
  }

  lemma ScaleBelow(x: Sample, n: nat)
    ensures n > 0 ==> x.num * n / x.den < n
  {
    if n > 0 {
      var a, q := x.num * n, x.num * n / x.den;
      assert x.num * n < x.den * n by {
        assert (x.den - x.num) * n > 0;
      }
      DivBelow(a, x.den, n);
    }
  }

  /** If `a < b * n` then `a / b < n`. */
  lemma DivBelow(a: nat, b: nat, n: nat)
    requires b > 0 && a < b * n
    ensures a / b < n
  {
    var q, r := a / b, a % b;
    assert a == q * b + r && 0 <= r < b;
    assert q * b < n * b;
    assert (n - q) * b > 0;
  }

  /** Every index below `n` is drawn by some sample: the draw can land anywhere in its range. */
  lemma ScaleReaches(n: nat, k: nat)
    requires k < n
    ensures Scale(Fraction(k, n), n) == k
  {
    var a := k * n;
    var q, r := a / n, a % n;
    assert a == q * n + r && 0 <= r < n;
    var m := k - q;
    assert m * n == r;
    assert m >= 1 ==> m * n >= n;
    assert m < 0 ==> m * n < 0;
  }
}
