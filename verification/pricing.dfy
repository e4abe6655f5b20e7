/** Final per-metre prices from a base rate and the normalised weight per metre. */
module Pricing {
  import opened Wrappers

  const AIR_MARKUP: real := 1.2
  const SEA_MARKUP: real := 1.3
  /** Kilograms counted as one cubic metre for sea freight. */
  const KG_PER_CBM: real := 166.0

  /** Cubic metres per running metre of fabric. */
  function CbmPerMeter(kgPerM: real): (cbm: real)
    ensures cbm * KG_PER_CBM == kgPerM
  {
    kgPerM / KG_PER_CBM
  }

  /** Air price per running metre: base rate ($/kg) times kilograms, marked up. */
  function FinalAir(airRate: real, kgPerM: real): (price: real)
    ensures airRate >= 0.0 && kgPerM >= 0.0 ==> price >= 0.0
    ensures kgPerM == 0.0 || airRate == 0.0 ==> price == 0.0
    ensures airRate > 0.0 ==> price / (airRate * AIR_MARKUP) == kgPerM
  {
    airRate * kgPerM * AIR_MARKUP
  }

  /** Sea price per running metre: base rate ($/CBM) times cubic metres, marked up. */
  function FinalSea(seaRate: real, kgPerM: real): (price: real)
    ensures seaRate >= 0.0 && kgPerM >= 0.0 ==> price >= 0.0
    ensures kgPerM == 0.0 || seaRate == 0.0 ==> price == 0.0
    ensures price * KG_PER_CBM == seaRate * kgPerM * SEA_MARKUP
  {
    seaRate * CbmPerMeter(kgPerM) * SEA_MARKUP
  }

  /** For a non-negative rate, a heavier fabric never gets a lower air price. */
  lemma FinalAirMonotone(airRate: real, kg1: real, kg2: real)
    requires airRate >= 0.0 && kg1 <= kg2
    ensures FinalAir(airRate, kg1) <= FinalAir(airRate, kg2)
  {
  }

  /** For a non-negative rate, a heavier fabric never gets a lower sea price. */
  lemma FinalSeaMonotone(seaRate: real, kg1: real, kg2: real)
    requires seaRate >= 0.0 && kg1 <= kg2
    ensures FinalSea(seaRate, kg1) <= FinalSea(seaRate, kg2)
  {
  }

  /** A mode's final price: present exactly when its base rate is. */
  function AirPrice(airRate: Option<real>, kgPerM: real): (p: Option<real>)
    ensures p.Some? <==> airRate.Some?
    ensures p.Some? ==> p.value == FinalAir(airRate.value, kgPerM)
  {
    match airRate
    case None => None
    case Some(rate) => Some(FinalAir(rate, kgPerM))
  }

  /** A mode's final price: present exactly when its base rate is. */
  function SeaPrice(seaRate: Option<real>, kgPerM: real): (p: Option<real>)
    ensures p.Some? <==> seaRate.Some?
    ensures p.Some? ==> p.value == FinalSea(seaRate.value, kgPerM)
  {
    match seaRate
    case None => None
    case Some(rate) => Some(FinalSea(rate, kgPerM))
  }
}
