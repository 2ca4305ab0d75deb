/**
 * The portfolio profit simulator: a lump sum compounding at a yearly rate,
 * plus a fixed contribution paid at the end of every year (an ordinary
 * annuity). The submit handler validates its four inputs, computes the final
 * value, the amount invested and the profit, and builds one chart point per
 * year from year 0 to the horizon.
 */
module Portfolio {
  import opened Wrappers

  /** The four parsed form fields. */
  datatype ProjectionInput = ProjectionInput(initial: real, contribution: real, ratePercent: real, years: real)

  /** The one reason the handler refuses its input. */
  datatype ProjectionError = InvalidInput

  /** The three figures shown in the result box. */
  datatype Projection = Projection(finalValue: real, totalInvested: real, profit: real)

  /** Everything the handler produces: the figures and the chart's labels and points. */
  datatype ProjectionReport = ProjectionReport(figures: Projection, labels: seq<nat>, points: seq<real>)

  /** `base` raised to a whole power. */
  function Pow(base: real, n: nat): (r: real)
    ensures base >= 0.0 ==> r >= 0.0
    ensures base >= 1.0 ==> r >= 1.0
    ensures base == 1.0 ==> r == 1.0
  {
    if n == 0 then 1.0 else base * Pow(base, n - 1)
  }

  /** The handler's guard: the input is refused when this holds. */
  predicate Rejected(inp: ProjectionInput) {
    inp.initial < 0.0 || inp.contribution < 0.0 || inp.ratePercent < 0.0 || inp.years <= 0.0
  }

  /** The horizon is a whole number of years (the only case this model covers). */
  predicate WholeYears(inp: ProjectionInput) {
    inp.years.Floor as real == inp.years
  }

  /**
   * The closed formulas for the value after `n` years, given the growth
   * factor `growth` = (1 + r)^n: the lump sum grown by that factor plus the
   * future value of the yearly contributions, by the annuity formula, with
   * the separate branch for a zero rate and nothing when there is no
   * contribution.
   */
  function FutureValue(initial: real, contribution: real, r: real, growth: real, n: nat): (v: real)
    ensures contribution <= 0.0 ==> v == initial * growth
    ensures contribution >= 0.0 && r == 0.0 ==> v == initial * growth + contribution * n as real
  {
    initial * growth +
      (if contribution > 0.0 && r > 0.0 then contribution * ((growth - 1.0) / r)
       else if contribution > 0.0 && r == 0.0 then contribution * n as real
       else 0.0)
  }

  /** Portfolio value after `n` years by the closed formulas of the source. */
  function ValueAt(initial: real, contribution: real, r: real, n: nat): (v: real)
    ensures n == 0 ==> v == initial
    ensures contribution >= 0.0 && r == 0.0 ==> v == initial + contribution * n as real
  {
    FutureValue(initial, contribution, r, Pow(1.0 + r, n), n)
  }

  /**
   * Reference definition, independent of the closed formulas: the balance
   * year by year, growing by the rate and then receiving the contribution.
   */
  function Balance(initial: real, contribution: real, r: real, n: nat): real {
    if n == 0 then initial else YearEnd(Balance(initial, contribution, r, n - 1), r, contribution)
  }

  /** One year: the balance grows by the rate, then the year's contribution is paid in. */
  function YearEnd(balance: real, r: real, contribution: real): real {
    balance * (1.0 + r) + contribution
  }

  /** Dividing a product by one of its non-zero factors gives the other. */
  lemma DivideOut(x: real, r: real, y: real)
    requires r != 0.0 && x == r * y
    ensures x / r == y
  {
  }

  /** One year of the annuity formula is one step of the recurrence. */
  lemma AnnuityStep(c: real, r: real, p: real)
    requires r > 0.0
    ensures c * (((1.0 + r) * p - 1.0) / r) == c * ((p - 1.0) / r) * (1.0 + r) + c
  {
    var q := (p - 1.0) / r;
    assert p == q * r + 1.0;
    assert (1.0 + r) * p - 1.0 == r * (q * (1.0 + r) + 1.0);
    DivideOut((1.0 + r) * p - 1.0, r, q * (1.0 + r) + 1.0);
  }

  /** A value made of two parts that each grew by `g`, one of them also receiving `c`, is the old total grown by `g` plus `c`. */
  lemma Regroup(a: real, b: real, g: real, c: real)
    ensures a * g + (b * g + c) == (a + b) * g + c
  {
  }

  /**
   * One more year of the closed formulas, for any growth factor `p` reached
   * so far: grow last year's value by the rate, then add one contribution.
   */
  lemma FutureValueStep(initial: real, contribution: real, r: real, p: real, n: nat)
    requires contribution >= 0.0 && r >= 0.0 && n > 0
    ensures FutureValue(initial, contribution, r, (1.0 + r) * p, n) ==
            FutureValue(initial, contribution, r, p, n - 1) * (1.0 + r) + contribution
  {
    var g := 1.0 + r;
    assert initial * (g * p) == (initial * p) * g;
    if contribution > 0.0 && r > 0.0 {
      AnnuityStep(contribution, r, p);
      Regroup(initial * p, contribution * ((p - 1.0) / r), g, contribution);
    } else if contribution > 0.0 {
      assert contribution * n as real == contribution * (n - 1) as real * g + contribution;
    }
  }

  /** One more year of the source's closed formulas is one step of the year-by-year recurrence. */
  lemma ValueAtStep(initial: real, contribution: real, r: real, n: nat)
    requires contribution >= 0.0 && r >= 0.0 && n > 0
    ensures ValueAt(initial, contribution, r, n) ==
            YearEnd(ValueAt(initial, contribution, r, n - 1), r, contribution)
  {
    var p := Pow(1.0 + r, n - 1);
    assert Pow(1.0 + r, n) == (1.0 + r) * p;
    FutureValueStep(initial, contribution, r, p, n);
  }

  /** The source's closed formulas agree with the year-by-year balance for every valid input. */
  lemma {:induction false} ValueAtIsBalance(initial: real, contribution: real, r: real, n: nat)
    requires contribution >= 0.0 && r >= 0.0
    ensures ValueAt(initial, contribution, r, n) == Balance(initial, contribution, r, n)
  {
    if n > 0 {
      ValueAtIsBalance(initial, contribution, r, n - 1);
      ValueAtStep(initial, contribution, r, n);
    }
  }

  /** With a non-negative rate the balance never falls below what was put in. */
  lemma {:induction false} BalanceCoversInvestment(initial: real, contribution: real, r: real, n: nat)
    requires initial >= 0.0 && contribution >= 0.0 && r >= 0.0
    ensures Balance(initial, contribution, r, n) >= initial + contribution * n as real
  {
    if n > 0 {
      BalanceCoversInvestment(initial, contribution, r, n - 1);
      var b := Balance(initial, contribution, r, n - 1);
      assert b >= 0.0;
      assert b * (1.0 + r) >= b;
    }
  }

  /** With a zero rate nothing compounds: the balance is the money put in. */
  lemma {:induction false} ZeroRateBalance(initial: real, contribution: real, n: nat)
    ensures Balance(initial, contribution, 0.0, n) == initial + contribution * n as real
  {
    if n > 0 {
      ZeroRateBalance(initial, contribution, n - 1);
    }
  }

  /** With everything non-negative the balance does not fall from one year to the next. */
  lemma BalanceStepNonDecreasing(initial: real, contribution: real, r: real, n: nat)
    requires initial >= 0.0 && contribution >= 0.0 && r >= 0.0
    ensures Balance(initial, contribution, r, n) <= Balance(initial, contribution, r, n + 1)
  {
    BalanceCoversInvestment(initial, contribution, r, n);
    var b := Balance(initial, contribution, r, n);
    assert b * (1.0 + r) >= b;
  }

  /** The chart's series is non-decreasing: a later year is never worth less. */
  lemma {:induction false} ValueAtMonotone(initial: real, contribution: real, r: real, i: nat, j: nat)
    requires initial >= 0.0 && contribution >= 0.0 && r >= 0.0
    requires i <= j
    ensures ValueAt(initial, contribution, r, i) <= ValueAt(initial, contribution, r, j)
  {
    if i < j {
      ValueAtMonotone(initial, contribution, r, i, j - 1);
      BalanceStepNonDecreasing(initial, contribution, r, j - 1);
      ValueAtIsBalance(initial, contribution, r, j - 1);
      ValueAtIsBalance(initial, contribution, r, j);
    }
  }

  /**
   * The figures of the result box (lines 60-84). The input is refused exactly
   * by the handler's guard; otherwise the final value is the year-by-year
   * balance, the profit is never negative, and with a zero rate the final
   * value is the money put in and the profit is zero.
   */
  function Project(inp: ProjectionInput): (res: Result<Projection, ProjectionError>)
    requires WholeYears(inp)
    ensures res.Err? <==> Rejected(inp)
    ensures res.Ok? ==>
              var n := inp.years.Floor;
              n > 0 &&
              res.value.finalValue == Balance(inp.initial, inp.contribution, inp.ratePercent / 100.0, n) &&
              res.value.totalInvested == inp.initial + inp.contribution * inp.years &&
              res.value.profit == res.value.finalValue - res.value.totalInvested &&
              res.value.profit >= 0.0
    ensures res.Ok? && inp.ratePercent == 0.0 ==>
              res.value.finalValue == inp.initial + inp.contribution * inp.years &&
              res.value.profit == 0.0
  {
    if Rejected(inp) then Err(InvalidInput)
    else
      var r := inp.ratePercent / 100.0;
      var n: nat := inp.years.Floor;
      var finalValue := ValueAt(inp.initial, inp.contribution, r, n);
      var totalInvested := inp.initial + inp.contribution * inp.years;
      ValueAtIsBalance(inp.initial, inp.contribution, r, n);
      BalanceCoversInvestment(inp.initial, inp.contribution, r, n);
      ZeroRateBalance(inp.initial, inp.contribution, n);
      Ok(Projection(finalValue, totalInvested, finalValue - totalInvested))
  }

  /** One lakh at 10% for ten years with no contributions grows to 259,374.24601 (1.1 to the tenth power). */
  lemma TenYearsAtTenPercent()
    ensures Project(ProjectionInput(100000.0, 0.0, 10.0, 10.0)) ==
            Ok(Projection(259374.24601, 100000.0, 159374.24601))
  {
    var inp := ProjectionInput(100000.0, 0.0, 10.0, 10.0);
    assert inp.years.Floor == 10;
    assert Pow(1.1, 10) == 2.5937424601 by {
      assert Pow(1.1, 5) == 1.61051;
    }
  }

  /**
   * The chart loop (lines 92-110): one label and one point per year from 0
   * to `years` inclusive, each point the portfolio value in that year.
   */
  method YearlySeries(initial: real, contribution: real, r: real, years: nat)
    returns (labels: seq<nat>, points: seq<real>)
    ensures |labels| == |points| == years + 1
    ensures forall k :: 0 <= k <= years ==> labels[k] == k
    ensures forall k :: 0 <= k <= years ==> points[k] == ValueAt(initial, contribution, r, k)
  {
    labels, points := [], [];
    var year: nat := 0;
    while year <= years
      invariant year <= years + 1
      invariant |labels| == |points| == year
      invariant forall k :: 0 <= k < year ==> labels[k] == k
      invariant forall k :: 0 <= k < year ==> points[k] == ValueAt(initial, contribution, r, k)
    {
      labels := labels + [year];
      var valueInitial := initial * Pow(1.0 + r, year);
      var valueContribution := 0.0;
      if contribution > 0.0 && r > 0.0 {
        valueContribution := contribution * ((Pow(1.0 + r, year) - 1.0) / r);
      } else if contribution > 0.0 && r == 0.0 {
        valueContribution := contribution * year as real;
      }
      points := points + [valueInitial + valueContribution];
      year := year + 1;
    }
  }

  /**
   * The whole submit handler. A refused input yields nothing. Otherwise the
   * series has one point per year from 0 to the horizon, labelled with its
   * year and holding the year-by-year balance after that many years; it
   * starts at the initial amount, ends at the final value of the result box,
   * and never decreases.
   */
  method SubmitPortfolio(inp: ProjectionInput) returns (res: Result<ProjectionReport, ProjectionError>)
    requires WholeYears(inp)
    ensures res.Err? <==> Rejected(inp)
    ensures res.Ok? ==>
              var rep := res.value;
              Ok(rep.figures) == Project(inp) &&
              |rep.points| == inp.years.Floor + 1 &&
              |rep.labels| == |rep.points| &&
              rep.points[0] == inp.initial &&
              rep.points[|rep.points| - 1] == rep.figures.finalValue &&
              (forall k :: 0 <= k < |rep.points| ==>
                 rep.labels[k] == k &&
                 rep.points[k] == Balance(inp.initial, inp.contribution, inp.ratePercent / 100.0, k)) &&
              forall i, j :: 0 <= i <= j < |rep.points| ==> rep.points[i] <= rep.points[j]
  {
    var figures := Project(inp);
    if figures.Err? {
      return Err(InvalidInput);
    }
    var r := inp.ratePercent / 100.0;
    var n: nat := inp.years.Floor;
    var labels, points := YearlySeries(inp.initial, inp.contribution, r, n);
    forall k | 0 <= k < |points| ensures points[k] == Balance(inp.initial, inp.contribution, r, k) {
      ValueAtIsBalance(inp.initial, inp.contribution, r, k);
    }
    forall i, j | 0 <= i <= j < |points| ensures points[i] <= points[j] {
      ValueAtMonotone(inp.initial, inp.contribution, r, i, j);
    }
    res := Ok(ProjectionReport(figures.value, labels, points));
  }
}
