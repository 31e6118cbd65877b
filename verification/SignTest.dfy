/** The two-sided sign test of the blind A/B report, in exact rationals
    (tools/dictionary/blind_conversion_ab.py:835-843). */
module SignTest {
  import opened Results

  /** Binomial coefficients by Pascal's rule. */
  function Choose(n: nat, k: nat): nat {
    if k == 0 then 1 else if n == 0 then 0 else Choose(n - 1, k - 1) + Choose(n - 1, k)
  }

  function Factorial(n: nat): nat {
    if n == 0 then 1 else n * Factorial(n - 1)
  }

  function Pow2(n: nat): nat
    ensures Pow2(n) > 0
  {
    if n == 0 then 1 else 2 * Pow2(n - 1)
  }

  /** The sum of `Choose(n, c)` for `lo <= c < hi`. */
  function Sum(n: nat, lo: nat, hi: nat): nat
    decreases hi
  {
    if hi <= lo then 0 else Sum(n, lo, hi - 1) + Choose(n, hi - 1)
  }

  function MinOf(a: nat, b: nat): nat {
    if a <= b then a else b
  }

  /** The probability before it is capped at one. */
  function Uncapped(wins: nat, losses: nat): real {
    (2 * Sum(wins + losses, 0, MinOf(wins, losses) + 1)) as real / Pow2(wins + losses) as real
  }

  method TwoSidedSignTest(wins: nat, losses: nat) returns (p: Option<real>)
    ensures p.None? <==> wins + losses == 0
    ensures p.Some? ==> p.value == if Uncapped(wins, losses) > 1.0 then 1.0 else Uncapped(wins, losses)
  {
    var decisive := wins + losses;
    if decisive == 0 {
      return None;
    }
    var tail := MinOf(wins, losses);
    var sum := 0;
    for count := 0 to tail + 1
      invariant sum == Sum(decisive, 0, count)
    {
      sum := sum + Choose(decisive, count);
    }
    var probability := (2 * sum) as real / Pow2(decisive) as real;
    p := Some(if probability < 1.0 then probability else 1.0);
  }

  // ------------------------------------------------------ binomial identities

  lemma {:induction false} BeyondRow(n: nat, k: nat)
    requires k > n
    ensures Choose(n, k) == 0
  {
    if n > 0 {
      BeyondRow(n - 1, k - 1);
      BeyondRow(n - 1, k);
    }
  }

  lemma {:induction false} RowEnd(n: nat)
    ensures Choose(n, n) == 1
  {
    if n > 0 {
      RowEnd(n - 1);
      BeyondRow(n - 1, n);
    }
  }

  lemma {:induction false} ChooseSymmetric(n: nat, k: nat)
    requires k <= n
    ensures Choose(n, k) == Choose(n, n - k)
  {
    if k == 0 || k == n {
      RowEnd(n);
    } else {
      ChooseSymmetric(n - 1, k - 1);
      ChooseSymmetric(n - 1, k);
    }
  }

  lemma {:induction false} ChoosePositive(n: nat, k: nat)
    requires k <= n
    ensures Choose(n, k) > 0
  {
    if k > 0 {
      ChoosePositive(n - 1, k - 1);
    }
  }

  /** Pascal's coefficients are the factorial quotients. */
  lemma {:induction false} ChooseIsQuotient(n: nat, k: nat)
    requires k <= n
    ensures Choose(n, k) * Factorial(k) * Factorial(n - k) == Factorial(n)
  {
    if k == 0 {
    } else if k == n {
      RowEnd(n);
    } else {
      ChooseIsQuotient(n - 1, k - 1);
      ChooseIsQuotient(n - 1, k);
      var a, b := Choose(n - 1, k - 1), Choose(n - 1, k);
      var f, g, h := Factorial(k - 1), Factorial(n - k - 1), Factorial(n - 1);
      assert a * f * Factorial(n - k) == h && b * Factorial(k) * g == h;
      PascalArithmetic(a, b, f, g, h, n, k);
    }
  }

  lemma {:induction false} PascalArithmetic(a: nat, b: nat, f: nat, g: nat, h: nat, n: nat, k: nat)
    requires 0 < k < n
    requires a * f * ((n - k) * g) == h && b * (k * f) * g == h
    ensures (a + b) * (k * f) * ((n - k) * g) == n * h
  {
    calc {
      (a + b) * (k * f) * ((n - k) * g);
      a * (k * f) * ((n - k) * g) + b * (k * f) * ((n - k) * g);
      { assert a * (k * f) * ((n - k) * g) == k * (a * f * ((n - k) * g)); }
      k * h + b * (k * f) * ((n - k) * g);
      { assert b * (k * f) * ((n - k) * g) == (n - k) * (b * (k * f) * g); }
      k * h + (n - k) * h;
      n * h;
    }
  }

  lemma {:induction false} SumPascal(n: nat, hi: nat)
    requires n > 0 && hi > 0
    ensures Sum(n, 0, hi) == Sum(n - 1, 0, hi) + Sum(n - 1, 0, hi - 1)
  {
    if hi > 1 {
      SumPascal(n, hi - 1);
    }
  }

  /** A whole row sums to a power of two. */
  lemma {:induction false} RowSum(n: nat)
    ensures Sum(n, 0, n + 1) == Pow2(n)
  {
    if n > 0 {
      RowSum(n - 1);
      SumPascal(n, n + 1);
      BeyondRow(n - 1, n);
    }
  }

  lemma {:induction false} SumSplit(n: nat, lo: nat, mid: nat, hi: nat)
    requires lo <= mid <= hi
    ensures Sum(n, lo, hi) == Sum(n, lo, mid) + Sum(n, mid, hi)
    decreases hi
  {
    if hi > mid {
      SumSplit(n, lo, mid, hi - 1);
    }
  }

  /** The two tails of a row weigh the same. */
  lemma {:induction false} TailsEqual(n: nat, t: nat)
    requires t <= n + 1
    ensures Sum(n, 0, t) == Sum(n, n + 1 - t, n + 1)
  {
    if t > 0 {
      TailsEqual(n, t - 1);
      ChooseSymmetric(n, t - 1);
      SumSplit(n, n + 1 - t, n + 2 - t, n + 1);
    }
  }

  lemma {:induction false} SumGrows(n: nat, t: nat, u: nat)
    requires t <= u
    ensures Sum(n, 0, t) <= Sum(n, 0, u)
    decreases u
  {
    if t < u {
      SumGrows(n, t, u - 1);
    }
  }

  // ------------------------------------------------------------- main results

  /** With a decisive case, twice the tail exceeds the row exactly when wins equal losses. */
  lemma {:induction false} TwiceTheTail(wins: nat, losses: nat)
    requires wins + losses > 0
    ensures var n, t := wins + losses, MinOf(wins, losses);
      (2 * Sum(n, 0, t + 1) > Pow2(n) <==> wins == losses) && Sum(n, 0, t + 1) > 0
  {
    var n, t := wins + losses, MinOf(wins, losses);
    RowSum(n);
    TailsEqual(n, t + 1);
    SumGrows(n, 1, t + 1);
    assert Sum(n, 0, 1) == Sum(n, 0, 0) + Choose(n, 0) == 1;
    if wins == losses {
      SumSplit(n, 0, t + 1, n + 1);
      SumSplit(n, t, t + 1, n + 1);
      ChoosePositive(n, t);
    } else {
      SumSplit(n, 0, t + 1, n + 1);
      SumSplit(n, t + 1, n - t, n + 1);
    }
  }

  /** The capped value lies in (0, 1], and capping happens exactly on a draw. */
  lemma {:induction false} CappedExactlyOnDraw(wins: nat, losses: nat)
    requires wins + losses > 0
    ensures Uncapped(wins, losses) > 1.0 <==> wins == losses
    ensures Uncapped(wins, losses) > 0.0
  {
    TwiceTheTail(wins, losses);
    Quotient(2 * Sum(wins + losses, 0, MinOf(wins, losses) + 1), Pow2(wins + losses));
  }

  lemma {:induction false} Quotient(a: nat, b: nat)
    requires b > 0
    ensures a as real / b as real > 1.0 <==> a > b
    ensures a as real / b as real > 0.0 <==> a > 0
  {
    var q := a as real / b as real;
    assert q * b as real == a as real;
    Scale(q, 1.0, b as real);
    Scale(q, 0.0, b as real);
  }

  lemma {:induction false} Scale(x: real, y: real, b: real)
    requires b > 0.0
    ensures x <= y <==> x * b <= y * b
  {
    if x <= y {
      assert (y - x) * b >= 0.0;
    } else {
      assert (x - y) * b > 0.0;
    }
  }

  lemma {:induction false} SymmetricInSides(wins: nat, losses: nat)
    ensures Uncapped(wins, losses) == Uncapped(losses, wins)
  {
    assert wins + losses == losses + wins;
  }

  /** For a fixed number of decisive cases, a more even result is never more significant. */
  lemma {:induction false} MoreEvenIsLessSignificant(w: nat, l: nat, w': nat, l': nat)
    requires w + l == w' + l' && w + l > 0 && MinOf(w, l) <= MinOf(w', l')
    ensures Uncapped(w, l) <= Uncapped(w', l')
  {
    var n, t, t' := w + l, MinOf(w, l), MinOf(w', l');
    SumGrows(n, t + 1, t' + 1);
    QuotientGrows(2 * Sum(n, 0, t + 1), 2 * Sum(n, 0, t' + 1), Pow2(n));
    assert Uncapped(w', l') == (2 * Sum(n, 0, t' + 1)) as real / Pow2(n) as real;
  }

  lemma {:induction false} QuotientGrows(x: nat, y: nat, b: nat)
    requires x <= y && b > 0
    ensures x as real / b as real <= y as real / b as real
  {
    assert (x as real / b as real) * b as real == x as real;
    assert (y as real / b as real) * b as real == y as real;
    Scale(x as real / b as real, y as real / b as real, b as real);
  }
}
