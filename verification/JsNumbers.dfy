/** The number helpers of public/js/util.js and Math, over exact reals. */
module JsNumbers {

  function Max(a: real, b: real): real {
    if a > b then a else b
  }

  function Min(a: real, b: real): real {
    if a < b then a else b
  }

  function Larger(a: nat, b: nat): nat {
    if a > b then a else b
  }

  function Sum(s: seq<real>): real {
    if s == [] then 0.0 else Sum(s[..|s| - 1]) + s[|s| - 1]
  }

  function Abs(a: real): real {
    if a < 0.0 then -a else a
  }

  /** `clamp`: the lower bound wins when the bounds are crossed. */
  function Clamp(v: real, a: real, b: real): real {
    Max(a, Min(b, v))
  }

  function Lerp(a: real, b: real, t: real): real {
    a + (b - a) * t
  }

  /** Where something with speed `v` is after the time `t`. */
  function Straight(x: real, v: real, t: real): real {
    x + v * t
  }

  /** A positive bound on a whole number is its ceiling. */
  function Ceil(bound: real): (k: nat)
    requires bound > 0.0
    ensures k > 0 && k as real - 1.0 < bound <= k as real
  {
    -((-bound).Floor)
  }

  /** `n` steps of length `h`, added up one by one as an accumulator does. */
  function Times(n: nat, h: real): real {
    if n == 0 then 0.0 else Times(n - 1, h) + h
  }

  lemma {:induction false} TimesIsProduct(n: nat, h: real)
    ensures Times(n, h) == n as real * h
  {
    if n > 0 { TimesIsProduct(n - 1, h); }
  }

  /** Each step more costs at least one step length. */
  lemma {:induction false} TimesGrows(i: nat, j: nat, h: real)
    requires i <= j && h > 0.0
    ensures Times(j, h) >= Times(i, h)
    ensures j > i ==> Times(j, h) >= Times(i, h) + h
    ensures j >= i + 2 ==> Times(j, h) >= Times(i, h) + 2.0 * h
  {
    if j > i { TimesGrows(i, j - 1, h); }
  }

  lemma {:induction false} TimesAdds(i: nat, j: nat, h: real)
    ensures Times(i + j, h) == Times(i, h) + Times(j, h)
  {
    if j > 0 { TimesAdds(i, j - 1, h); }
  }

  lemma FloorBracket(x: real, h: real)
    requires h > 0.0
    ensures var q := (x / h).Floor as real;
            q * h <= x < q * h + h
  {
    BracketProduct(x / h, h, x);
  }

  lemma BracketProduct(t: real, h: real, x: real)
    requires h > 0.0 && t * h == x
    ensures t.Floor as real * h <= x < t.Floor as real * h + h
  {
    ScaleUp(t.Floor as real, t, h);
    ScaleUpStrictly(t, t.Floor as real + 1.0, h);
    assert (t.Floor as real + 1.0) * h == t.Floor as real * h + h;
  }

  lemma ScaleUp(a: real, b: real, h: real)
    requires a <= b && h > 0.0
    ensures a * h <= b * h
  {
  }

  lemma ScaleUpStrictly(a: real, b: real, h: real)
    requires a < b && h > 0.0
    ensures a * h < b * h
  {
  }

  lemma NonNegativeProduct(a: real, b: real)
    requires a >= 0.0 && b >= 0.0
    ensures a * b >= 0.0
  {
  }

  lemma OneStepLess(n: nat, h: real)
    ensures n > 0 ==> Times(n, h) == Times(n - 1, h) + h
    ensures n == 0 ==> Times(n, h) == 0.0
  {
  }

  /** Enough steps exceed any amount. */
  lemma EnoughSteps(x: real, h: real) returns (n: nat)
    requires h > 0.0
    ensures Times(n, h) > x
  {
    if x < 0.0 {
      n := 0;
    } else {
      FloorBracket(x, h);
      n := (x / h).Floor + 1;
      TimesIsProduct(n, h);
    }
  }
}
