/**
 The per-item evaluation: normalise the units, look up the air and sea base
 rates, and price each mode whose base rate is present.
 */
module Quote {
  import opened Wrappers
  import opened Units
  import opened Rates
  import opened Pricing

  /** One requested shipment line as the form collects it. */
  datatype LineItem = LineItem(
    supplier: string,
    sqn: string,
    route: Route,
    weightValue: real,
    weightType: WeightType,
    width: real,
    unit: WidthUnit)

  /**
   What the engine derives for one item before shaping it for a viewer. The
   final prices are derived from the base rates, so a final price exists exactly
   when its base rate does.
   */
  datatype Quotation = Quotation(
    widthM: real,
    density: Density,
    airRate: Option<real>,
    seaRate: Option<real>)
  {
    /** The marked-up air price, present exactly when the air base rate is. */
    function FinalAirRate(): (r: Option<real>)
      ensures r.Some? <==> airRate.Some?
      ensures r.Some? ==> r.value == FinalAir(airRate.value, density.kgPerM)
    {
      AirPrice(airRate, density.kgPerM)
    }

    /** The marked-up sea price, present exactly when the sea base rate is. */
    function FinalSeaRate(): (r: Option<real>)
      ensures r.Some? <==> seaRate.Some?
      ensures r.Some? ==> r.value == FinalSea(seaRate.value, density.kgPerM)
    {
      SeaPrice(seaRate, density.kgPerM)
    }
  }

  /**
   Evaluates one item. `guardCountry` is the country the rate-lookup guards test
   (in the source, the main item's country, whatever item is being evaluated).
   */
  function Evaluate(item: LineItem, guardCountry: string, air: RateTable, sea: RateTable)
    : (r: Result<Quotation, LookupError>)
    ensures r.Failure? <==>
              (guardCountry in air && item.route.country !in air)
              || (guardCountry in sea && item.route.country !in sea)
    ensures r.Failure? ==> r.error == KeyError(item.route.country)
    ensures r.Success? ==> r.value.widthM == WidthMeters(item.width, item.unit)
    ensures r.Success? ==> r.value.density == Normalize(item.weightValue, item.weightType, r.value.widthM)
    ensures r.Success? ==>
              (r.value.airRate.Some? <==> guardCountry in air && Served(air, item.route))
              && (r.value.seaRate.Some? <==> guardCountry in sea && Served(sea, item.route))
    ensures r.Success? && r.value.airRate.Some? ==>
              r.value.airRate.value == air[item.route.country][item.route.origin][item.route.destination]
    ensures r.Success? && r.value.seaRate.Some? ==>
              r.value.seaRate.value == sea[item.route.country][item.route.origin][item.route.destination]
    ensures item.weightValue >= 0.0 && item.width >= 0.0 && r.Success? ==> r.value.density.kgPerM >= 0.0
  {
    var widthM := WidthMeters(item.width, item.unit);
    var density := Normalize(item.weightValue, item.weightType, widthM);
    match LookupRate(air, guardCountry, item.route)
    case Failure(e) => Failure(e)
    case Success(airRate) =>
      match LookupRate(sea, guardCountry, item.route)
      case Failure(e) => Failure(e)
      case Success(seaRate) => Success(Quotation(widthM, density, airRate, seaRate))
  }

  /** The main item is evaluated against its own country: it never raises, and each mode is the plain route lookup. */
  lemma MainItemNeverFails(item: LineItem, air: RateTable, sea: RateTable)
    ensures Evaluate(item, item.route.country, air, sea).Success?
    ensures Evaluate(item, item.route.country, air, sea).value.airRate == RouteRate(air, item.route)
    ensures Evaluate(item, item.route.country, air, sea).value.seaRate == RouteRate(sea, item.route)
  {
  }

  /** A route served by neither table still yields a quotation, with both modes unavailable. */
  lemma UnservedRouteHasNoPrices(item: LineItem, air: RateTable, sea: RateTable)
    requires !Served(air, item.route) && !Served(sea, item.route)
    ensures var r := Evaluate(item, item.route.country, air, sea);
            r.Success? && r.value.FinalAirRate() == None && r.value.FinalSeaRate() == None
  {
  }

  /** 150 g/m² fabric, 160 cm wide, air rate 3.50 and no sea rate: 1.6 m, 0.24 kg/m, final air 1.008. */
  lemma GsmExample()
    ensures var item := LineItem("", "", Route("India", "Delhi", "UK"), 150.0, GsmGramsPerM2, 160.0, CM);
            var air := map["India" := map["Delhi" := map["UK" := 3.5]]];
            var r := Evaluate(item, "India", air, map[]);
            r.Success? && r.value.widthM == 1.6 && r.value.density.kgPerM == 0.24
            && r.value.FinalAirRate() == Some(1.008) && r.value.FinalSeaRate() == None
  {
  }

  /** 100 g/m GLM at zero width: no division, GSM 0, weight 0 and a served route priced at 0. */
  lemma ZeroWidthGlmExample()
    ensures var item := LineItem("", "", Route("India", "Delhi", "UK"), 100.0, GlmGramsPerM, 0.0, M);
            var air := map["India" := map["Delhi" := map["UK" := 3.5]]];
            var r := Evaluate(item, "India", air, map[]);
            r.Success? && r.value.density.displayGsm == 0.0 && r.value.density.kgPerM == 0.0
            && r.value.FinalAirRate() == Some(0.0)
  {
  }
}
