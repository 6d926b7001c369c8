/**
 * Portfolio valuation and pension projections (`usePensionProjections.calculate`).
 * Numbers are exact reals: the identities below hold exactly here, and only
 * approximately in the floating point of `pension-simulator.tsx`.
 */
module Projections {
  import opened Tokens

  /** Mock ETH price in USD used to convert token values back to ETH. */
  const EthPriceUsd: real := 2000.0
  const AnnualReturn: real := 0.08
  /** The projection horizons, in years, in the order they are reported. */
  const Periods: seq<nat> := [2, 5, 10]
  const WithdrawalRate: real := 0.8

  /** One year of compound growth: `1 + ANNUAL_RETURN`. */
  const Growth: real := 1.0 + AnnualReturn

  datatype Projection = Projection(
    years: nat, futureValue: real, totalGains: real, monthlyWithdrawal: real, totalReturn: real)

  /** A token's USD value, a missing value counting as 0 (`token.usdValue || 0`). */
  function UsdOrZero(t: Token): real {
    t.usdValue.GetOr(0.0)
  }

  /** The left fold `tokens.reduce((sum, t) => sum + (t.usdValue || 0), 0)`. */
  function SumUsd(ts: seq<Token>): (r: real)
    ensures (forall i :: 0 <= i < |ts| ==> UsdOrZero(ts[i]) >= 0.0) ==> r >= 0.0
  {
    if ts == [] then 0.0 else SumUsd(ts[..|ts| - 1]) + UsdOrZero(ts[|ts| - 1])
  }

  /** The token total of two lists laid end to end is the sum of their totals. */
  lemma {:induction false} SumUsdAppend(a: seq<Token>, b: seq<Token>)
    ensures SumUsd(a + b) == SumUsd(a) + SumUsd(b)
    decreases |b|
  {
    if b == [] {
      assert a + b == a;
    } else {
      var b' := b[..|b| - 1];
      assert (a + b)[..|a + b| - 1] == a + b';
      SumUsdAppend(a, b');
    }
  }

  /** Taking one token out of a list lowers the total by exactly that token's value. */
  lemma SumUsdRemove(b: seq<Token>, j: nat)
    requires j < |b|
    ensures SumUsd(b) == SumUsd(b[..j] + b[j + 1..]) + UsdOrZero(b[j])
  {
    var front, post := b[..j + 1], b[j + 1..];
    assert b == front + post;
    SumUsdAppend(front, post);
    assert front[..j] == b[..j];
    SumUsdAppend(b[..j], post);
  }

  /** Removing the element at `j` removes one copy of it from the multiset. */
  lemma MultisetRemove(b: seq<Token>, j: nat)
    requires j < |b|
    ensures multiset(b[..j] + b[j + 1..]) == multiset(b) - multiset{b[j]}
  {
    assert b == b[..j] + [b[j]] + b[j + 1..];
  }

  /** The token total does not depend on the order of the token list. */
  lemma {:induction false} SumUsdPermutation(a: seq<Token>, b: seq<Token>)
    requires multiset(a) == multiset(b)
    ensures SumUsd(a) == SumUsd(b)
    decreases |a|
  {
    if a == [] {
      assert |b| == |multiset(b)| == 0;
    } else {
      var last := |a| - 1;
      var x := a[last];
      assert x in multiset(b);
      var j :| 0 <= j < |b| && b[j] == x;
      MultisetRemove(a, last);
      MultisetRemove(b, j);
      assert a[..last] + a[last + 1..] == a[..last];
      SumUsdPermutation(a[..last], b[..j] + b[j + 1..]);
      SumUsdRemove(b, j);
    }
  }

  /**
   * The whole portfolio in ETH: the ETH balance plus the token total
   * converted at the mock price.
   */
  function PortfolioEth(balance: real, tokens: seq<Token>): (r: real)
    ensures r == balance + SumUsd(tokens) / EthPriceUsd
  {
    (balance * EthPriceUsd + SumUsd(tokens)) / EthPriceUsd
  }

  /** `x` raised to the power `n`, for the `Math.pow` in the growth formula. */
  function Pow(x: real, n: nat): (r: real)
    ensures x > 0.0 ==> r > 0.0
  {
    if n == 0 then 1.0 else x * Pow(x, n - 1)
  }

  /** With a factor above 1, a longer horizon grows strictly more. */
  lemma {:induction false} PowIncreasing(x: real, m: nat, n: nat)
    requires x > 1.0 && m < n
    ensures Pow(x, m) < Pow(x, n)
  {
    if n - 1 > m {
      PowIncreasing(x, m, n - 1);
    }
    var below := Pow(x, n - 1);
    assert below > 0.0;
    assert Pow(x, n) == x * below;
    MulStrict(below, 1.0, x);
    assert below * 1.0 == below && below * x == x * below;
  }

  /** Multiplying by a positive factor keeps a strict order. */
  lemma MulStrict(k: real, a: real, b: real)
    requires k > 0.0 && a < b
    ensures k * a < k * b
  {
  }

  /** Multiplying by a non-zero factor and dividing by it again is the identity. */
  lemma DivOfMul(k: real, a: real, b: real)
    requires k != 0.0 && b == k * a
    ensures b / k == a
  {
  }

  /** The exact growth factors for the three horizons. */
  lemma GrowthFactors()
    ensures Pow(Growth, 2) == 1.1664
    ensures Pow(Growth, 5) == 1.4693280768
    ensures Pow(Growth, 10) == 2.15892499727278669824
  {
    assert Pow(Growth, 1) == 1.08;
    assert Pow(Growth, 2) == 1.1664;
    assert Pow(Growth, 3) == 1.259712;
    assert Pow(Growth, 4) == 1.36048896;
    assert Pow(Growth, 5) == 1.4693280768;
    assert Pow(Growth, 6) == 1.586874322944;
    assert Pow(Growth, 7) == 1.71382426877952;
    assert Pow(Growth, 8) == 1.8509302102818816;
    assert Pow(Growth, 9) == 1.999004627104432128;
  }

  /**
   * One horizon's projection. Gains are what was added to the principal,
   * the return percentage depends on the horizon only, and the monthly
   * withdrawal spread over `years * 12 * 0.8` months adds back up to the
   * future value.
   */
  function ProjectionAt(principal: real, years: nat): (r: Projection)
    requires principal != 0.0 && years > 0
    ensures r.years == years
    ensures r.futureValue == principal * Pow(Growth, years)
    ensures r.futureValue - r.totalGains == principal
    ensures r.totalReturn == (r.futureValue / principal - 1.0) * 100.0
    ensures r.totalReturn == (Pow(Growth, years) - 1.0) * 100.0
    ensures r.monthlyWithdrawal * (years as real * 12.0 * WithdrawalRate) == r.futureValue
  {
    var futureValue := principal * Pow(Growth, years);
    var totalGains := futureValue - principal;
    var monthlyWithdrawal := futureValue / (years as real * 12.0 * WithdrawalRate);
    var totalReturn := ((futureValue - principal) / principal) * 100.0;
    var g := Pow(Growth, years);
    assert futureValue - principal == principal * (g - 1.0);
    DivOfMul(principal, g, futureValue);
    DivOfMul(principal, g - 1.0, futureValue - principal);
    assert futureValue / principal == g;
    assert (futureValue - principal) / principal == g - 1.0;
    Projection(years, futureValue, totalGains, monthlyWithdrawal, totalReturn)
  }

  /**
   * `calculate(currentBalance, tokens)`: one projection per horizon of
   * `Periods`, in order. `calculate` divides by the principal, so a zero
   * portfolio is excluded here (it yields NaN there).
   */
  function Calculate(balance: real, tokens: seq<Token>): (r: seq<Projection>)
    requires PortfolioEth(balance, tokens) != 0.0
    ensures |r| == 3 && r[0].years == 2 && r[1].years == 5 && r[2].years == 10
    ensures forall i :: 0 <= i < |r| ==> r[i] == ProjectionAt(PortfolioEth(balance, tokens), Periods[i])
  {
    var principal := PortfolioEth(balance, tokens);
    seq(|Periods|, i requires 0 <= i < |Periods| => ProjectionAt(principal, Periods[i]))
  }

  /** The future values are the principal times 1.08^2, 1.08^5 and 1.08^10. */
  lemma CalculateFutureValues(balance: real, tokens: seq<Token>)
    requires PortfolioEth(balance, tokens) != 0.0
    ensures var r, p := Calculate(balance, tokens), PortfolioEth(balance, tokens);
      && r[0].futureValue == 1.1664 * p
      && r[1].futureValue == 1.4693280768 * p
      && r[2].futureValue == 2.15892499727278669824 * p
  {
    GrowthFactors();
  }

  /** For a positive principal, a longer horizon projects a strictly larger future value. */
  lemma ProjectionIncreasing(principal: real, m: nat, n: nat)
    requires principal > 0.0 && 0 < m < n
    ensures ProjectionAt(principal, m).futureValue < ProjectionAt(principal, n).futureValue
  {
    PowIncreasing(Growth, m, n);
    MulStrict(principal, Pow(Growth, m), Pow(Growth, n));
  }

  /** For a positive portfolio every horizon gains, and longer horizons gain strictly more. */
  lemma CalculateIncreasing(balance: real, tokens: seq<Token>)
    requires PortfolioEth(balance, tokens) > 0.0
    ensures var r, p := Calculate(balance, tokens), PortfolioEth(balance, tokens);
      p < r[0].futureValue < r[1].futureValue < r[2].futureValue
  {
    CalculateFutureValues(balance, tokens);
  }

  /** Reordering the token list changes neither the portfolio nor any projection. */
  lemma CalculateReorder(balance: real, a: seq<Token>, b: seq<Token>)
    requires multiset(a) == multiset(b)
    requires PortfolioEth(balance, a) != 0.0
    ensures PortfolioEth(balance, b) == PortfolioEth(balance, a)
    ensures Calculate(balance, b) == Calculate(balance, a)
  {
    SumUsdPermutation(a, b);
  }

  /** A portfolio k times as large projects k times the future value, at the same return. */
  lemma ProjectionScales(principal: real, k: real, years: nat)
    requires principal != 0.0 && k != 0.0 && years > 0
    ensures ProjectionAt(k * principal, years).futureValue == k * ProjectionAt(principal, years).futureValue
    ensures ProjectionAt(k * principal, years).totalReturn == ProjectionAt(principal, years).totalReturn
  {
  }
}
