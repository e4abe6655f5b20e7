/**
 Unit normalisation for one line item: the width is brought to metres and the
 fabric weight, given in one of three forms, is brought to kilograms per square
 metre and then to kilograms per running metre.
 */
module Units {

  /** The width units the form offers. Every unit other than CM and IN is read as metres. */
  datatype WidthUnit = CM | IN | M

  /** The three ways a fabric weight can be entered. */
  datatype WeightType =
    | GsmGramsPerM2   // "GSM (g/m²)": grams per square metre
    | GsmKgPerM2      // "GSM (kg/m²)": kilograms per square metre
    | GlmGramsPerM    // "GLM (g/m)": grams per running metre

  const CM_PER_M: real := 100.0
  const M_PER_IN: real := 0.0254
  const G_PER_KG: real := 1000.0

  /** The label the source stores under "Unit". */
  function UnitLabel(u: WidthUnit): string
  {
    match u
    case CM => "CM"
    case IN => "IN"
    case M => "M"
  }

  /** The label the source stores under "Weight Type". */
  function WeightTypeLabel(t: WeightType): string
  {
    match t
    case GsmGramsPerM2 => "GSM (g/m²)"
    case GsmKgPerM2 => "GSM (kg/m²)"
    case GlmGramsPerM => "GLM (g/m)"
  }

  /** Width in metres. */
  function WidthMeters(width: real, unit: WidthUnit): (m: real)
    ensures width >= 0.0 ==> m >= 0.0
    ensures m == 0.0 <==> width == 0.0
    ensures m > 0.0 <==> width > 0.0
    ensures unit == M ==> m == width
  {
    match unit
    case CM => width / CM_PER_M
    case IN => width * M_PER_IN
    case M => width
  }

  /** The inverse conversion: a length in metres expressed in `unit`. */
  function FromMeters(m: real, unit: WidthUnit): (width: real)
    ensures m >= 0.0 ==> width >= 0.0
  {
    match unit
    case CM => m * CM_PER_M
    case IN => m / M_PER_IN
    case M => m
  }

  /** Converting to metres and back gives the entered width, in every unit. */
  lemma WidthRoundTrip(width: real, unit: WidthUnit)
    ensures FromMeters(WidthMeters(width, unit), unit) == width
  {
  }

  /** Converting a metre length into a unit and back to metres gives it back. */
  lemma MetersRoundTrip(m: real, unit: WidthUnit)
    ensures WidthMeters(FromMeters(m, unit), unit) == m
  {
  }

  /**
   The normalised weight of one item.
   `gsmKg` is the area density in kg/m², `displayGsm` the same density in g/m²
   (the figure reported as "Converted GSM" for GLM input), and `kgPerM` the
   linear density in kilograms per running metre.
   */
  datatype Density = Density(gsmKg: real, displayGsm: real, kgPerM: real)

  /**
   The area density (g/m²) of a GLM entry: the linear density divided by the
   width, or 0 without dividing when the width is not positive.
   */
  function GlmToGsm(weight: real, widthM: real): (gsm: real)
    ensures widthM > 0.0 ==> gsm * widthM == weight
    ensures widthM <= 0.0 ==> gsm == 0.0
    ensures weight >= 0.0 ==> gsm >= 0.0
  {
    if widthM > 0.0 then weight / widthM else 0.0
  }

  /**
   Normalises a weight entry against a width already in metres: first to kg/m²,
   then to kilograms per running metre by multiplying with the width.
   */
  function Normalize(weight: real, wt: WeightType, widthM: real): (d: Density)
    ensures d.displayGsm == d.gsmKg * G_PER_KG
    ensures wt == GsmGramsPerM2 ==> d.displayGsm == weight
    ensures wt == GsmKgPerM2 ==> d.gsmKg == weight
    ensures wt == GlmGramsPerM && widthM > 0.0 ==> d.displayGsm * widthM == weight
    ensures wt == GlmGramsPerM && widthM > 0.0 ==> d.kgPerM * G_PER_KG == weight
    ensures wt == GlmGramsPerM && widthM <= 0.0 ==> d.displayGsm == 0.0 && d.kgPerM == 0.0
    ensures weight >= 0.0 && widthM >= 0.0 ==> d.gsmKg >= 0.0 && d.kgPerM >= 0.0
  {
    match wt
    case GsmGramsPerM2 =>
      var gsmKg := weight / G_PER_KG;
      assert weight >= 0.0 && widthM >= 0.0 ==> gsmKg * widthM >= 0.0 by {
        if weight >= 0.0 && widthM >= 0.0 { NonNegProduct(gsmKg, widthM); }
      }
      Density(gsmKg, weight, gsmKg * widthM)
    case GsmKgPerM2 =>
      assert weight >= 0.0 && widthM >= 0.0 ==> weight * widthM >= 0.0 by {
        if weight >= 0.0 && widthM >= 0.0 { NonNegProduct(weight, widthM); }
      }
      Density(weight, weight * G_PER_KG, weight * widthM)
    case GlmGramsPerM =>
      var gsmG := GlmToGsm(weight, widthM);
      var gsmKg := gsmG / G_PER_KG;
      assert gsmKg * widthM * G_PER_KG == gsmG * widthM;
      assert weight >= 0.0 && widthM >= 0.0 ==> gsmKg * widthM >= 0.0 by {
        if weight >= 0.0 && widthM >= 0.0 { NonNegProduct(gsmKg, widthM); }
      }
      Density(gsmKg, gsmG, gsmKg * widthM)
  }

  lemma NonNegProduct(a: real, b: real)
    requires a >= 0.0 && b >= 0.0
    ensures a * b >= 0.0
  {
  }

  /**
   The linear density in grams per running metre, read directly off the entry:
   an area density times the width, or the GLM figure itself (0 when the width
   is not positive, since the GLM figure is then discarded).
   */
  function GramsPerRunningMeter(weight: real, wt: WeightType, widthM: real): real
  {
    match wt
    case GsmGramsPerM2 => weight * widthM
    case GsmKgPerM2 => weight * G_PER_KG * widthM
    case GlmGramsPerM => if widthM > 0.0 then weight else 0.0
  }

  /** The normalised kilograms per metre agree with the direct linear density. */
  lemma KgPerMeterIsLinearDensity(weight: real, wt: WeightType, widthM: real)
    ensures Normalize(weight, wt, widthM).kgPerM * G_PER_KG == GramsPerRunningMeter(weight, wt, widthM)
  {
  }

  /**
   Re-entering the derived GSM (g/m²) with the same width reproduces the same
   normalised weight: the GLM conversion, and every other, is a fixed point of
   re-normalisation through grams per square metre.
   */
  lemma RenormalizeThroughGsm(weight: real, wt: WeightType, widthM: real)
    ensures Normalize(Normalize(weight, wt, widthM).displayGsm, GsmGramsPerM2, widthM)
            == Normalize(weight, wt, widthM)
  {
  }
}
