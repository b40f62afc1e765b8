/** The two savings simulators of the dashboard (futureValueMonthly and
    monthsToReachTarget in dashboard.js) and the "million" simulator that
    calls the second one, over exact reals. The closed-form annuity is tied
    to the month-by-month compounding that the second simulator runs. */
module Savings {

  /** The loop cap of monthsToReachTarget: 1000 years of months. */
  const Cap: nat := 1000 * 12

  function Pow(x: real, n: nat): real
  {
    if n == 0 then 1.0 else x * Pow(x, n - 1)
  }

  /** futureValueMonthly: the future value of `years` years of monthly
      contributions at the given annual rate, compounded monthly. */
  function FutureValueMonthly(monthly: real, annualRate: real, years: nat): (fv: real)
    ensures annualRate == 0.0 ==> fv == monthly * (years * 12) as real
  {
    var r := MonthlyRate(annualRate);
    var n := years * 12;
    if r == 0.0 then monthly * n as real
    else monthly * ((Pow(1.0 + r, n) - 1.0) / r)
  }

  /** The monthly rate both simulators derive from the annual one. */
  function MonthlyRate(annualRate: real): real
  {
    annualRate / 12.0
  }

  /** The balance after k months of `bal = bal * (1 + r) + monthly`,
      starting from 0. */
  function Balance(monthly: real, r: real, k: nat): real
  {
    if k == 0 then 0.0 else Balance(monthly, r, k - 1) * (1.0 + r) + monthly
  }

  /** The closed form agrees with compounding month by month: after n months
      the balance is monthly * ((1 + r)^n - 1) / r, or monthly * n at r = 0. */
  lemma BalanceClosedForm(monthly: real, r: real, n: nat)
    ensures r == 0.0 ==> Balance(monthly, r, n) == monthly * n as real
    ensures r != 0.0 ==> Balance(monthly, r, n) == monthly * ((Pow(1.0 + r, n) - 1.0) / r)
  {
    if r == 0.0 {
      BalanceWithoutInterest(monthly, n);
    } else {
      BalanceWithInterest(monthly, r, n);
    }
  }

  lemma {:induction false} BalanceWithoutInterest(monthly: real, n: nat)
    ensures Balance(monthly, 0.0, n) == monthly * n as real
  {
    if n > 0 {
      BalanceWithoutInterest(monthly, n - 1);
      assert Balance(monthly, 0.0, n) == Balance(monthly, 0.0, n - 1) + monthly;
      assert monthly * n as real == monthly * (n - 1) as real + monthly;
    }
  }

  lemma BalanceWithInterest(monthly: real, r: real, n: nat)
    requires r != 0.0
    ensures Balance(monthly, r, n) == monthly * ((Pow(1.0 + r, n) - 1.0) / r)
  {
    BalanceTimesRate(monthly, r, n);
    DivideByRate(Balance(monthly, r, n), monthly, r, Pow(1.0 + r, n));
  }

  /** The closed form without division: r * balance == monthly * ((1 + r)^n - 1). */
  lemma {:induction false} BalanceTimesRate(monthly: real, r: real, n: nat)
    ensures r * Balance(monthly, r, n) == monthly * (Pow(1.0 + r, n) - 1.0)
  {
    if n > 0 {
      BalanceTimesRate(monthly, r, n - 1);
      AnnuityStep(Balance(monthly, r, n - 1), monthly, r, Pow(1.0 + r, n - 1));
    }
  }

  /** One month of compounding moves the closed form from p = (1 + r)^(n-1)
      to (1 + r) * p. */
  lemma AnnuityStep(b: real, m: real, r: real, p: real)
    requires r * b == m * (p - 1.0)
    ensures r * (b * (1.0 + r) + m) == m * ((1.0 + r) * p - 1.0)
  {
    calc {
      r * (b * (1.0 + r) + m);
      (r * b) * (1.0 + r) + r * m;
      m * (p - 1.0) * (1.0 + r) + r * m;
      m * ((1.0 + r) * p - 1.0);
    }
  }

  lemma DivideByRate(b: real, m: real, r: real, q: real)
    requires r != 0.0 && r * b == m * (q - 1.0)
    ensures b == m * ((q - 1.0) / r)
  {
    assert m * ((q - 1.0) / r) * r == m * (q - 1.0);
  }

  /** futureValueMonthly is the balance that `years * 12` months of
      compounding at rate annualRate / 12 reach. */
  lemma FutureValueIsCompounding(monthly: real, annualRate: real, years: nat)
    ensures FutureValueMonthly(monthly, annualRate, years) == Balance(monthly, MonthlyRate(annualRate), years * 12)
  {
    BalanceClosedForm(monthly, MonthlyRate(annualRate), years * 12);
  }

  /** With non-negative contributions and rate the balance never goes
      negative, and it grows by at least the contribution every month. */
  lemma {:induction false} BalanceGrows(monthly: real, r: real, k: nat)
    requires monthly >= 0.0 && r >= 0.0
    ensures Balance(monthly, r, k) >= 0.0
    ensures Balance(monthly, r, k + 1) >= Balance(monthly, r, k) + monthly
  {
    if k > 0 {
      BalanceGrows(monthly, r, k - 1);
    }
    var b := Balance(monthly, r, k);
    assert b * (1.0 + r) == b + b * r;
    assert b * r >= 0.0;
  }

  /** Balance is linear in the contribution. */
  lemma {:induction false} BalanceLinear(monthly: real, r: real, k: nat)
    ensures Balance(monthly, r, k) == monthly * Balance(1.0, r, k)
  {
    if k > 0 {
      BalanceLinear(monthly, r, k - 1);
    }
  }

  /** For a positive rate and contribution the future value grows strictly
      with the number of years and with the contribution. */
  lemma FutureValueIncreasing(monthly: real, annualRate: real, years: nat, monthly2: real)
    requires annualRate > 0.0 && monthly > 0.0
    ensures FutureValueMonthly(monthly, annualRate, years + 1) > FutureValueMonthly(monthly, annualRate, years)
    ensures years > 0 && monthly2 > monthly ==>
      FutureValueMonthly(monthly2, annualRate, years) > FutureValueMonthly(monthly, annualRate, years)
  {
    var r := MonthlyRate(annualRate);
    var n := years * 12;
    FutureValueIsCompounding(monthly, annualRate, years);
    FutureValueIsCompounding(monthly, annualRate, years + 1);
    var k := n;
    while k < n + 12
      invariant n <= k <= n + 12
      invariant Balance(monthly, r, k) >= Balance(monthly, r, n) + (k - n) as real * monthly
    {
      BalanceGrows(monthly, r, k);
      k := k + 1;
    }
    if years > 0 && monthly2 > monthly {
      FutureValueIsCompounding(monthly2, annualRate, years);
      BalanceLinear(monthly, r, n);
      BalanceLinear(monthly2, r, n);
      BalanceGrows(1.0, r, n - 1);
      var b1 := Balance(1.0, r, n);
      assert b1 >= 1.0;
      assert monthly2 * b1 > monthly * b1;
    }
  }

  // ---------------------------------------------------------------------
  // monthsToReachTarget.

  /** The first month count from k on at which the loop stops: the balance
      has reached the target or the cap is hit. */
  function MonthsFrom(monthly: real, r: real, target: real, k: nat): nat
    decreases Cap - k
  {
    if k >= Cap || Balance(monthly, r, k) >= target then k else MonthsFrom(monthly, r, target, k + 1)
  }

  /** What monthsToReachTarget returns, for the monthly rate r. */
  function MonthsNeeded(monthly: real, r: real, target: real): nat
  {
    MonthsFrom(monthly, r, target, 0)
  }

  lemma {:induction false} MonthsFromFacts(monthly: real, r: real, target: real, k: nat)
    requires k <= Cap
    requires forall j :: 0 <= j < k ==> Balance(monthly, r, j) < target
    ensures k <= MonthsFrom(monthly, r, target, k) <= Cap
    ensures MonthsFrom(monthly, r, target, k) < Cap ==> Balance(monthly, r, MonthsFrom(monthly, r, target, k)) >= target
    ensures forall j :: 0 <= j < MonthsFrom(monthly, r, target, k) ==> Balance(monthly, r, j) < target
    decreases Cap - k
  {
    if k < Cap && Balance(monthly, r, k) < target {
      MonthsFromFacts(monthly, r, target, k + 1);
    }
  }

  /** The result never exceeds the cap; a result below the cap is a month at
      which the balance has reached the target, and no earlier month
      reaches it. */
  lemma MonthsNeededFacts(monthly: real, r: real, target: real)
    ensures MonthsNeeded(monthly, r, target) <= Cap
    ensures MonthsNeeded(monthly, r, target) < Cap ==> Balance(monthly, r, MonthsNeeded(monthly, r, target)) >= target
    ensures forall j :: 0 <= j < MonthsNeeded(monthly, r, target) ==> Balance(monthly, r, j) < target
  {
    MonthsFromFacts(monthly, r, target, 0);
  }

  /** A target that is not positive is reached at once. */
  lemma MonthsNeededNonPositiveTarget(monthly: real, r: real, target: real)
    requires target <= 0.0
    ensures MonthsNeeded(monthly, r, target) == 0
  {
  }

  lemma {:induction false} BalanceOfNothing(k: nat)
    ensures Balance(0.0, 0.0, k) == 0.0
  {
    if k > 0 {
      BalanceOfNothing(k - 1);
    }
  }

  /** No contribution and no interest never reach a positive target: the
      result saturates at the cap. */
  lemma MonthsNeededSaturates(target: real)
    requires target > 0.0
    ensures MonthsNeeded(0.0, 0.0, target) == Cap
  {
    MonthsNeededFacts(0.0, 0.0, target);
    BalanceOfNothing(MonthsNeeded(0.0, 0.0, target));
  }

  /** At a rate that is not below -100% per month, a larger contribution
      gives a balance at least as large. */
  lemma {:induction false} BalanceMonotoneInMonthly(m1: real, m2: real, r: real, k: nat)
    requires m1 <= m2 && r >= -1.0
    ensures Balance(m1, r, k) <= Balance(m2, r, k)
  {
    if k > 0 {
      BalanceMonotoneInMonthly(m1, r := r, m2 := m2, k := k - 1);
      var b1, b2 := Balance(m1, r, k - 1), Balance(m2, r, k - 1);
      assert b1 * (1.0 + r) <= b2 * (1.0 + r) by {
        assert (b2 - b1) * (1.0 + r) >= 0.0;
      }
    }
  }

  /** With a non-negative contribution, a higher non-negative rate gives a
      balance at least as large. */
  lemma {:induction false} BalanceMonotoneInRate(m: real, r1: real, r2: real, k: nat)
    requires m >= 0.0 && 0.0 <= r1 <= r2
    ensures Balance(m, r1, k) <= Balance(m, r2, k)
  {
    if k > 0 {
      BalanceMonotoneInRate(m, r1, r2, k - 1);
      BalanceGrows(m, r1, k - 1);
      var b1, b2 := Balance(m, r1, k - 1), Balance(m, r2, k - 1);
      assert b1 * (1.0 + r1) <= b2 * (1.0 + r2) by {
        assert b1 * (1.0 + r1) <= b1 * (1.0 + r2);
        assert (b2 - b1) * (1.0 + r2) >= 0.0;
      }
    }
  }

  /** The months needed never increase when the contribution grows (at a
      rate not below -100%) or when a non-negative rate grows (with a
      non-negative contribution). */
  lemma MonthsNeededMonotone(m1: real, m2: real, r1: real, r2: real, target: real)
    ensures m1 <= m2 && r1 >= -1.0 ==> MonthsNeeded(m2, r1, target) <= MonthsNeeded(m1, r1, target)
    ensures 0.0 <= m1 && 0.0 <= r1 <= r2 ==> MonthsNeeded(m1, r2, target) <= MonthsNeeded(m1, r1, target)
  {
    var k1 := MonthsNeeded(m1, r1, target);
    MonthsNeededFacts(m1, r1, target);
    if m1 <= m2 && r1 >= -1.0 {
      MonthsNeededFacts(m2, r1, target);
      if k1 < Cap {
        BalanceMonotoneInMonthly(m1, m2, r1, k1);
      }
    }
    if 0.0 <= m1 && 0.0 <= r1 <= r2 {
      MonthsNeededFacts(m1, r2, target);
      if k1 < Cap {
        BalanceMonotoneInRate(m1, r1, r2, k1);
      }
    }
  }

  /** monthsToReachTarget: compounds month by month until the balance
      reaches the target or 12000 months have passed. */
  method MonthsToReachTarget(monthly: real, annualRate: real, target: real) returns (months: nat)
    ensures months == MonthsNeeded(monthly, MonthlyRate(annualRate), target)
    ensures months <= Cap
    ensures months < Cap ==> Balance(monthly, MonthlyRate(annualRate), months) >= target
    ensures forall j :: 0 <= j < months ==> Balance(monthly, MonthlyRate(annualRate), j) < target
  {
    var r := MonthlyRate(annualRate);
    var bal := 0.0;
    months := 0;
    while bal < target && months < 1000 * 12
      invariant months <= Cap
      invariant bal == Balance(monthly, r, months)
      invariant MonthsFrom(monthly, r, target, months) == MonthsNeeded(monthly, r, target)
      decreases Cap - months
    {
      assert MonthsFrom(monthly, r, target, months) == MonthsFrom(monthly, r, target, months + 1);
      assert Balance(monthly, r, months + 1) == bal * (1.0 + r) + monthly;
      bal := bal * (1.0 + r) + monthly;
      months := months + 1;
    }
    MonthsNeededFacts(monthly, r, target);
  }

  /** What the million simulator shows. */
  datatype MillionResult = InvalidInput | Reached(years: nat, remMonths: nat, months: nat)

  /** The million simulator: refuses a zero contribution or a rate that is
      not positive, otherwise shows the months needed to reach 1,000,000
      split into whole years and remaining months. `ratePercent` is the
      rate field read as a number (blank or unreadable reads as 0). */
  method MillionSimulator(monthly: real, ratePercent: real) returns (res: MillionResult)
    ensures res.InvalidInput? <==> monthly == 0.0 || ratePercent / 100.0 <= 0.0
    ensures res.Reached? ==>
      && res.months == MonthsNeeded(monthly, MonthlyRate(ratePercent / 100.0), 1000000.0)
      && res.years * 12 + res.remMonths == res.months
      && res.remMonths < 12
      && res.months <= Cap
  {
    var r := ratePercent / 100.0;
    if monthly == 0.0 || r <= 0.0 {
      return InvalidInput;
    }
    var months := MonthsToReachTarget(monthly, r, 1000000.0);
    res := Reached(months / 12, months % 12, months);
  }
}
