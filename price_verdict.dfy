/** The "is it cheap? If so, when?" decision of the charging script.

    Two spot prices are compared: tonight's (the first hourly value of the
    latest price series) and tomorrow night's (its last hourly value). The
    script's threshold is `cheap_power`, fixed at 28.0; here it is a parameter
    so that the properties hold for every threshold. Prices are only compared,
    never computed with, so they are modelled as reals.
 */
module PriceVerdict {

  /** The threshold the script hard-codes. */
  const CheapPower: real := 28.0

  /** The five branches of the verdict chain. */
  datatype Verdict =
    | CheapestTonightBelowThreshold
    | CheapestTomorrowBelowThreshold
    | CheapestTonightNotCheap
    | CheapestTomorrowNotCheap
    | SamePrice

  /** Which night a verdict recommends, if any. */
  datatype Night = Tonight | TomorrowNight | Either

  /** The first branch of the chain whose condition holds wins. */
  function Classify(tonight: real, tomorrow: real, cheap: real): (v: Verdict)
    // the chain never falls through to the last branch while the prices differ
    ensures v == SamePrice <==> tonight == tomorrow
  {
    if tonight < cheap && tonight < tomorrow then CheapestTonightBelowThreshold
    else if tomorrow < cheap && tomorrow < tonight then CheapestTomorrowBelowThreshold
    else if tonight < tomorrow then CheapestTonightNotCheap
    else if tomorrow < tonight then CheapestTomorrowNotCheap
    else SamePrice
  }

  /** The night a verdict names as the cheaper one. */
  function NightOf(v: Verdict): Night
  {
    match v
    case CheapestTonightBelowThreshold | CheapestTonightNotCheap => Tonight
    case CheapestTomorrowBelowThreshold | CheapestTomorrowNotCheap => TomorrowNight
    case SamePrice => Either
  }

  /** Whether a verdict says the cheaper price is below the threshold. */
  predicate IsBelowThreshold(v: Verdict)
  {
    v == CheapestTonightBelowThreshold || v == CheapestTomorrowBelowThreshold
  }

  /** The verdict with "tonight" and "tomorrow" exchanged. */
  function Mirror(v: Verdict): (m: Verdict)
    ensures IsBelowThreshold(m) == IsBelowThreshold(v)
  {
    match v
    case CheapestTonightBelowThreshold => CheapestTomorrowBelowThreshold
    case CheapestTomorrowBelowThreshold => CheapestTonightBelowThreshold
    case CheapestTonightNotCheap => CheapestTomorrowNotCheap
    case CheapestTomorrowNotCheap => CheapestTonightNotCheap
    case SamePrice => SamePrice
  }

  /** An independent description of the decision: find the cheaper night,
      then ask whether the cheaper price is below the threshold. */
  function Reference(tonight: real, tomorrow: real, cheap: real): (v: Verdict)
  {
    if tonight == tomorrow then SamePrice
    else
      var lowest := if tonight < tomorrow then tonight else tomorrow;
      if tonight < tomorrow then
        (if lowest < cheap then CheapestTonightBelowThreshold else CheapestTonightNotCheap)
      else
        (if lowest < cheap then CheapestTomorrowBelowThreshold else CheapestTomorrowNotCheap)
  }

  /** The chain agrees with the reference description on every input: the
      order of its branches only matters where their conditions overlap, and
      they never do. */
  lemma ClassifyIsReference(tonight: real, tomorrow: real, cheap: real)
    ensures Classify(tonight, tomorrow, cheap) == Reference(tonight, tomorrow, cheap)
  {
  }

  /** The night a verdict names is the strictly cheaper one. */
  lemma NightIsCheaper(tonight: real, tomorrow: real, cheap: real)
    ensures NightOf(Classify(tonight, tomorrow, cheap)) == Tonight <==> tonight < tomorrow
    ensures NightOf(Classify(tonight, tomorrow, cheap)) == TomorrowNight <==> tomorrow < tonight
    ensures NightOf(Classify(tonight, tomorrow, cheap)) == Either <==> tonight == tomorrow
  {
  }

  /** "Cheapest tonight and below threshold" exactly when tonight's price is
      below the threshold and below tomorrow night's. */
  lemma CheapTonightIff(tonight: real, tomorrow: real, cheap: real)
    ensures Classify(tonight, tomorrow, cheap) == CheapestTonightBelowThreshold
        <==> tonight < cheap && tonight < tomorrow
  {
  }

  /** "Cheapest tomorrow and below threshold" exactly when tomorrow night's
      price is below the threshold and below tonight's; so it is never the
      verdict when "cheapest tonight and below threshold" holds. */
  lemma CheapTomorrowIff(tonight: real, tomorrow: real, cheap: real)
    ensures Classify(tonight, tomorrow, cheap) == CheapestTomorrowBelowThreshold
        <==> tomorrow < cheap && tomorrow < tonight
    ensures tonight < cheap && tonight < tomorrow
        ==> Classify(tonight, tomorrow, cheap) != CheapestTomorrowBelowThreshold
  {
  }

  /** The two "not cheap" verdicts: the cheaper night is strictly cheaper, but
      its price is not below the threshold. */
  lemma NotCheapIff(tonight: real, tomorrow: real, cheap: real)
    ensures Classify(tonight, tomorrow, cheap) == CheapestTonightNotCheap
        <==> tonight < tomorrow && cheap <= tonight
    ensures Classify(tonight, tomorrow, cheap) == CheapestTomorrowNotCheap
        <==> tomorrow < tonight && cheap <= tomorrow
  {
  }

  /** A verdict is "below threshold" exactly when the prices differ and the
      lower of the two is strictly below the threshold. */
  lemma BelowThresholdIff(tonight: real, tomorrow: real, cheap: real)
    ensures IsBelowThreshold(Classify(tonight, tomorrow, cheap))
        <==> tonight != tomorrow && (if tonight < tomorrow then tonight else tomorrow) < cheap
  {
  }

  /** The threshold is strict: a price equal to it is never reported as below
      it, for the script's own threshold as for any other. */
  lemma ThresholdIsStrict(tonight: real, tomorrow: real, cheap: real)
    ensures tonight == cheap ==> Classify(tonight, tomorrow, cheap) != CheapestTonightBelowThreshold
    ensures tomorrow == cheap ==> Classify(tonight, tomorrow, cheap) != CheapestTomorrowBelowThreshold
    ensures Classify(CheapPower, tomorrow, CheapPower) != CheapestTonightBelowThreshold
    ensures Classify(tonight, CheapPower, CheapPower) != CheapestTomorrowBelowThreshold
  {
  }

  /** Equal prices give "same price", whatever the threshold. */
  lemma EqualPricesAreSame(price: real, cheap: real)
    ensures Classify(price, price, cheap) == SamePrice
  {
  }

  /** Exchanging the two prices exchanges "tonight" and "tomorrow" in the
      verdict, leaves "same price" alone and keeps whether the verdict is
      "below threshold". */
  lemma SwapMirrors(tonight: real, tomorrow: real, cheap: real)
    ensures Classify(tomorrow, tonight, cheap) == Mirror(Classify(tonight, tomorrow, cheap))
    ensures Classify(tonight, tomorrow, cheap) == Mirror(Classify(tomorrow, tonight, cheap))
    ensures IsBelowThreshold(Classify(tomorrow, tonight, cheap))
        == IsBelowThreshold(Classify(tonight, tomorrow, cheap))
  {
  }

  /** Raising the threshold never takes a "below threshold" verdict away. */
  lemma ThresholdMonotone(tonight: real, tomorrow: real, low: real, high: real)
    requires low <= high
    ensures IsBelowThreshold(Classify(tonight, tomorrow, low))
        ==> Classify(tonight, tomorrow, high) == Classify(tonight, tomorrow, low)
    ensures NightOf(Classify(tonight, tomorrow, low)) == NightOf(Classify(tonight, tomorrow, high))
  {
  }
}
