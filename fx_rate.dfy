/**
 * The page-wide USD/INR exchange rate. It starts unset, is written once when
 * the rate request completes, and is read by every valuation submission to
 * decide whether a dollar figure can be shown.
 */
module FxRate {
  import opened Wrappers
  import Valuation

  /**
   * How the rate request ends. `RequestFailed` covers a rejected request, a
   * non-success status and a body that is not JSON; `Received` carries the
   * payload's `rates.INR` field, `None` when that field (or `rates`) is absent
   * or is not a number. A truthy non-number is stored for an instant, but
   * formatting it with `toFixed` throws and the handler clears the rate again
   * before any submission can read it, so it ends like an absent field.
   */
  datatype FetchOutcome = RequestFailed | Received(inrField: Option<real>)

  /**
   * The rate left behind by a completed request: the INR figure when it is
   * truthy (a JSON number other than zero), and no rate otherwise.
   */
  function RateAfterFetch(outcome: FetchOutcome): (rate: Option<real>)
    ensures rate.Some? <==> outcome.Received? && outcome.inrField.Some? && outcome.inrField.value != 0.0
    ensures rate.Some? ==> rate.value == outcome.inrField.value
  {
    match outcome
    case RequestFailed => None
    case Received(field) =>
      if field.Some? && field.value != 0.0 then field else None
  }

  /** The module-level `usdInrRate` variable. */
  class RateCell {
    var usdInrRate: Option<real>

    /** A stored rate is always truthy, so it can be divided by. */
    ghost predicate Valid()
      reads this
    {
      usdInrRate.Some? ==> usdInrRate.value != 0.0
    }

    /** At page load no rate is known. */
    constructor ()
      ensures Valid() && usdInrRate == None
    {
      usdInrRate := None;
    }

    /** The completion of `fetchFxRate`: store the rate, or clear it on any failure. */
    method CompleteFetch(outcome: FetchOutcome)
      requires Valid()
      modifies this
      ensures Valid()
      ensures usdInrRate == RateAfterFetch(outcome)
    {
      match outcome {
        case RequestFailed =>
          usdInrRate := None;
        case Received(field) =>
          if field.Some? && field.value != 0.0 {
            usdInrRate := field;
          } else {
            usdInrRate := None;
          }
      }
    }

    /**
     * A valuation submission reading the rate as it is now. The dollar figure
     * is shown exactly when a rate is stored, and is then the rupee valuation
     * divided by that rate.
     */
    method SubmitValuation(inp: Valuation.ValuationInput)
      returns (res: Result<Valuation.ValuationResult, Valuation.ValuationError>)
      requires Valid()
      ensures res == Valuation.Score(inp, usdInrRate)
      ensures res.Ok? ==> (res.value.valuationUsd.Some? <==> usdInrRate.Some?)
      ensures res.Ok? && usdInrRate.Some? ==>
                res.value.valuationUsd == Some(res.value.valuationInr / usdInrRate.value)
    {
      res := Valuation.Score(inp, usdInrRate);
      if res.Ok? && usdInrRate.Some? {
        var usd := res.value.valuationUsd.value;
        assert usd * usdInrRate.value == res.value.valuationInr;
      }
    }
  }

  /**
   * Before the request completes, and after it fails, every accepted
   * valuation is marked as having no dollar conversion.
   */
  lemma NoRateNoConversion(outcome: FetchOutcome, inp: Valuation.ValuationInput)
    requires RateAfterFetch(outcome).None?
    requires inp.revenue > 0.0
    ensures Valuation.Score(inp, RateAfterFetch(outcome)).Ok?
    ensures Valuation.Score(inp, RateAfterFetch(outcome)).value.valuationUsd.None?
  {
  }
}
