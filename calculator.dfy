/** The Calculator page: loan EMI, compound investment growth and the monthly
    saving a goal needs. Inputs arrive as parsed numbers: `None` stands for
    text that does not parse (`NaN`), and `parseFloat(x) || d` replaces both
    that and zero by the default `d`. Tenure and years are whole numbers. */
module Calculator {
  import opened Common

  /** `parseFloat(x) || d` on a real input. */
  function OrDefault(parsed: Option<real>, d: real): (v: real)
    ensures parsed.None? || parsed.value == 0.0 ==> v == d
    ensures parsed.Some? && parsed.value != 0.0 ==> v == parsed.value
  {
    if parsed.Some? && parsed.value != 0.0 then parsed.value else d
  }

  /** `parseFloat(x) || 1` on a whole-number input: a count that is never 0. */
  function CountOrOne(parsed: Option<nat>): (n: nat)
    ensures n >= 1
    ensures parsed.None? || parsed.value == 0 ==> n == 1
    ensures parsed.Some? && parsed.value != 0 ==> n == parsed.value
  {
    if parsed.Some? && parsed.value != 0 then parsed.value else 1
  }

  /** `Math.pow(b, n)` for a whole exponent. */
  function Pow(b: real, n: nat): real
  {
    if n == 0 then 1.0 else Pow(b, n - 1) * b
  }

  /** A base above 1 raised to a positive power is above 1. */
  lemma {:induction false} PowAboveOne(b: real, n: nat)
    requires b > 1.0 && n >= 1
    ensures Pow(b, n) > 1.0
  {
    if n > 1 {
      PowAboveOne(b, n - 1);
      assert Pow(b, n - 1) * b > 1.0 * b;
    }
  }

  /** The loan form: principal, annual rate in percent and tenure in months. */
  datatype LoanForm = LoanForm(amount: Option<real>, rate: Option<real>, tenure: Option<nat>)

  /** `r = rate / 12 / 100`. */
  function MonthlyRate(f: LoanForm): real
  {
    OrDefault(f.rate, 0.0) / 12.0 / 100.0
  }

  /** `calculateEMI`: `P / n` without interest, the annuity formula otherwise. */
  function Emi(f: LoanForm): (e: Num)
    ensures MonthlyRate(f) == 0.0 ==> e == Fin(OrDefault(f.amount, 0.0) / CountOrOne(f.tenure) as real)
  {
    var p := OrDefault(f.amount, 0.0);
    var r := MonthlyRate(f);
    var n := CountOrOne(f.tenure);
    if r == 0.0 then Fin(p / n as real)
    else
      var q := Pow(1.0 + r, n);
      Div(p * r * q, q - 1.0)
  }

  /** A positive rate always gives a finite EMI. */
  lemma EmiFinite(f: LoanForm)
    requires MonthlyRate(f) > 0.0
    ensures Emi(f).Fin?
    ensures Emi(f).v * (Pow(1.0 + MonthlyRate(f), CountOrOne(f.tenure)) - 1.0)
      == OrDefault(f.amount, 0.0) * MonthlyRate(f) * Pow(1.0 + MonthlyRate(f), CountOrOne(f.tenure))
  {
    PowAboveOne(1.0 + MonthlyRate(f), CountOrOne(f.tenure));
  }

  /** The outstanding balance after `k` monthly payments `e`, interest `r`
      charged on the balance each month. */
  function Balance(p: real, r: real, e: real, k: nat): real
  {
    if k == 0 then p else Balance(p, r, e, k - 1) * (1.0 + r) - e
  }

  /** The balance in closed form, multiplied through by `r`. */
  lemma {:induction false} BalanceClosedForm(p: real, r: real, e: real, k: nat)
    ensures Balance(p, r, e, k) * r == p * Pow(1.0 + r, k) * r - e * (Pow(1.0 + r, k) - 1.0)
  {
    if k > 0 {
      var b, q := Balance(p, r, e, k - 1), Pow(1.0 + r, k - 1);
      BalanceClosedForm(p, r, e, k - 1);
      ClosedFormStep(b, p, q, r, e);
      assert Pow(1.0 + r, k) == Pow(1.0 + r, k - 1) * (1.0 + r);
      assert Balance(p, r, e, k) == b * (1.0 + r) - e;
    }
  }

  /** The arithmetic step of `BalanceClosedForm`, on plain numbers. */
  lemma ClosedFormStep(b: real, p: real, q: real, r: real, e: real)
    requires b * r == p * q * r - e * (q - 1.0)
    ensures (b * (1.0 + r) - e) * r == p * (q * (1.0 + r)) * r - e * (q * (1.0 + r) - 1.0)
  {
    calc {
      (b * (1.0 + r) - e) * r;
      (1.0 + r) * (b * r) - e * r;
      (1.0 + r) * (p * q * r - e * (q - 1.0)) - e * r;
      p * (q * (1.0 + r)) * r - e * (q * (1.0 + r) - 1.0);
    }
  }

  /** Without interest the balance falls by one payment a month. */
  lemma {:induction false} BalanceNoInterest(p: real, e: real, k: nat)
    ensures Balance(p, 0.0, e, k) == p - k as real * e
  {
    if k > 0 {
      BalanceNoInterest(p, e, k - 1);
    }
  }

  /** The EMI pays the loan off: after `n` payments of it nothing is owed. */
  lemma EmiAmortises(f: LoanForm)
    requires Emi(f).Fin?
    ensures Balance(OrDefault(f.amount, 0.0), MonthlyRate(f), Emi(f).v, CountOrOne(f.tenure)) == 0.0
  {
    var p, r, n := OrDefault(f.amount, 0.0), MonthlyRate(f), CountOrOne(f.tenure);
    var e := Emi(f).v;
    if r == 0.0 {
      BalanceNoInterest(p, e, n);
      assert n as real * (p / n as real) == p;
    } else {
      var q := Pow(1.0 + r, n);
      assert q - 1.0 != 0.0;
      assert e * (q - 1.0) == p * r * q;
      BalanceClosedForm(p, r, e, n);
      assert Balance(p, r, e, n) * r == 0.0;
    }
  }

  /** `totalPayment = emi * n`, with the same `n` as the EMI. */
  function TotalPayment(f: LoanForm): Num
  {
    Mul(Emi(f), CountOrOne(f.tenure) as real)
  }

  /** `totalInterest = totalPayment - P`. */
  function TotalInterest(f: LoanForm): Num
  {
    Add(TotalPayment(f), -OrDefault(f.amount, 0.0))
  }

  /** Without interest nothing is paid beyond the principal. */
  lemma NoInterestAtZeroRate(f: LoanForm)
    requires MonthlyRate(f) == 0.0
    ensures TotalPayment(f) == Fin(OrDefault(f.amount, 0.0))
    ensures TotalInterest(f) == Fin(0.0)
  {
    var n := CountOrOne(f.tenure) as real;
    assert OrDefault(f.amount, 0.0) / n * n == OrDefault(f.amount, 0.0);
  }

  /** With a positive rate on a positive loan the interest is positive. */
  lemma InterestPositive(f: LoanForm)
    requires MonthlyRate(f) > 0.0 && OrDefault(f.amount, 0.0) > 0.0
    ensures TotalInterest(f).Fin? && TotalInterest(f).v > 0.0
  {
    var p, r, n := OrDefault(f.amount, 0.0), MonthlyRate(f), CountOrOne(f.tenure);
    var q := Pow(1.0 + r, n);
    EmiFinite(f);
    PowAboveOne(1.0 + r, n);
    GrowthBound(r, n);
    PaysMoreThanBorrowed(Emi(f).v, p, q - 1.0, r * q, n as real);
  }

  /** The arithmetic step of `InterestPositive`: from `e d = p x` with
      `0 < d < N x`, `e N > p`. */
  lemma PaysMoreThanBorrowed(e: real, p: real, d: real, x: real, N: real)
    requires p > 0.0 && d > 0.0 && d < N * x && e * d == p * x
    ensures e * N > p
  {
    assert (e * N) * d == N * (e * d) == N * (p * x) == p * (N * x);
    assert p * (N * x) > p * d;
  }

  /** `(1 + r)^n - 1 < n r (1 + r)^n` for a positive rate and `n >= 1`. */
  lemma {:induction false} GrowthBound(r: real, n: nat)
    requires r > 0.0 && n >= 1
    ensures Pow(1.0 + r, n) - 1.0 < n as real * r * Pow(1.0 + r, n)
  {
    if n > 1 {
      GrowthBound(r, n - 1);
      PowAboveOne(1.0 + r, n - 1);
      var q := Pow(1.0 + r, n - 1);
      assert Pow(1.0 + r, n) == q * (1.0 + r);
      GrowthStep(r, q, (n - 1) as real);
    } else {
      assert Pow(1.0 + r, 1) == 1.0 + r;
      assert r * (1.0 + r) == r + r * r;
    }
  }

  /** The inductive step of `GrowthBound`, on plain numbers. */
  lemma GrowthStep(r: real, q: real, m: real)
    requires r > 0.0 && q > 1.0 && m >= 0.0 && q - 1.0 < m * r * q
    ensures q * (1.0 + r) - 1.0 < (m + 1.0) * r * (q * (1.0 + r))
  {
    var x := r * q;
    assert x > 0.0;
    assert q * (1.0 + r) - 1.0 == (q - 1.0) + x;
    assert m * r * q == m * x;
    assert (q - 1.0) + x < (m + 1.0) * x;
    assert (m + 1.0) * r * (q * (1.0 + r)) == (m + 1.0) * x + (m + 1.0) * x * r;
    assert (m + 1.0) * x * r > 0.0;
  }

  /** The investment form: principal, yearly rate in percent and years. */
  datatype InvestmentForm = InvestmentForm(amount: Option<real>, rate: Option<real>, years: Option<nat>)

  /** `calculateReturns`: `P * (1 + r)^t`, yearly compounding. */
  function FutureValue(f: InvestmentForm): real
  {
    OrDefault(f.amount, 0.0) * Pow(1.0 + OrDefault(f.rate, 0.0) / 100.0, CountOrOne(f.years))
  }

  /** `investmentGain = futureValue - P`. */
  function InvestmentGain(f: InvestmentForm): real
  {
    FutureValue(f) - OrDefault(f.amount, 0.0)
  }

  /** One more year multiplies the value by `1 + r`. */
  lemma CompoundsYearly(f: InvestmentForm)
    requires f.years.Some? && f.years.value >= 1
    ensures FutureValue(f.(years := Some(f.years.value + 1)))
      == FutureValue(f) * (1.0 + OrDefault(f.rate, 0.0) / 100.0)
  {
  }

  /** A zero (or missing) rate leaves the principal as it is; a positive rate
      on a positive principal gains. */
  lemma GainSign(f: InvestmentForm)
    ensures OrDefault(f.rate, 0.0) == 0.0 ==> FutureValue(f) == OrDefault(f.amount, 0.0) && InvestmentGain(f) == 0.0
    ensures OrDefault(f.rate, 0.0) > 0.0 && OrDefault(f.amount, 0.0) > 0.0 ==> InvestmentGain(f) > 0.0
  {
    var p, b, t := OrDefault(f.amount, 0.0), 1.0 + OrDefault(f.rate, 0.0) / 100.0, CountOrOne(f.years);
    if OrDefault(f.rate, 0.0) == 0.0 {
      PowOfOne(t);
    } else if OrDefault(f.rate, 0.0) > 0.0 && p > 0.0 {
      PowAboveOne(b, t);
      assert p * Pow(b, t) > p * 1.0;
    }
  }

  /** `1^n = 1`. */
  lemma {:induction false} PowOfOne(n: nat)
    ensures Pow(1.0, n) == 1.0
  {
    if n > 0 {
      PowOfOne(n - 1);
    }
  }

  /** The savings form: goal, months and what is already saved. */
  datatype SavingsForm = SavingsForm(goal: Option<real>, months: Option<real>, current: Option<real>)

  /** `calculateMonthlySavings`: what is left, spread over the months. Not
      clamped: a goal already passed gives a negative figure. */
  function MonthlySavings(f: SavingsForm): (m: real)
    ensures m * OrDefault(f.months, 1.0) == OrDefault(f.goal, 0.0) - OrDefault(f.current, 0.0)
    ensures OrDefault(f.months, 1.0) > 0.0 ==>
      (m < 0.0 <==> OrDefault(f.current, 0.0) > OrDefault(f.goal, 0.0))
  {
    var remaining := OrDefault(f.goal, 0.0) - OrDefault(f.current, 0.0);
    var months := OrDefault(f.months, 1.0);
    assert months != 0.0;
    remaining / months
  }

  /** `Math.round(x)`: the nearest integer, halves rounded up. */
  function Round(x: real): (n: int)
    ensures x - 0.5 < n as real <= x + 0.5
  {
    (x + 0.5).Floor
  }

  /** The progress figure: saved over goal (a zero or missing goal reads as 1),
      in percent, rounded. */
  function SavingsProgress(f: SavingsForm): (pct: int)
    ensures var exact := OrDefault(f.current, 0.0) / OrDefault(f.goal, 1.0) * 100.0;
      exact - 0.5 < pct as real <= exact + 0.5
  {
    Round(OrDefault(f.current, 0.0) / OrDefault(f.goal, 1.0) * 100.0)
  }

  /** The page's starting values: 45000 still to save over 24 months is 1875 a
      month, 10% done; 10000 at 12% for 5 years grows to 17623.416832. */
  lemma DefaultFigures()
    ensures MonthlySavings(SavingsForm(Some(50000.0), Some(24.0), Some(5000.0))) == 1875.0
    ensures SavingsProgress(SavingsForm(Some(50000.0), Some(24.0), Some(5000.0))) == 10
    ensures FutureValue(InvestmentForm(Some(10000.0), Some(12.0), Some(5))) == 17623.416832
  {
    assert FutureValue(InvestmentForm(Some(10000.0), Some(12.0), Some(5))) == 10000.0 * Pow(1.12, 5);
    assert Pow(1.12, 1) == 1.12;
    assert Pow(1.12, 2) == 1.2544;
    assert Pow(1.12, 3) == 1.404928;
    assert Pow(1.12, 4) == 1.57351936;
    assert Pow(1.12, 5) == 1.7623416832;
  }

  /** A goal of zero shows progress against 1, and a passed goal a negative saving. */
  lemma ProgressEdgeCases()
    ensures SavingsProgress(SavingsForm(Some(0.0), None, Some(5.0))) == 500
    ensures MonthlySavings(SavingsForm(Some(100.0), Some(0.0), Some(400.0))) == -300.0
  {
  }
}
