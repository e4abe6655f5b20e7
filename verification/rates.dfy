/**
 Rate lookup in the nested tables the loader builds:
 country -> origin -> destination -> base rate, one table for air and one for sea.
 */
module Rates {
  import opened Wrappers

  /** One freight mode's rate table. */
  type RateTable = map<string, map<string, map<string, real>>>

  /** The route a line item asks about. */
  datatype Route = Route(country: string, origin: string, destination: string)

  /** The exception the lookup can raise: indexing the table with a country it lacks. */
  datatype LookupError = KeyError(key: string)

  /** The table serves the route: every level of the nested lookup has the key. */
  predicate Served(table: RateTable, route: Route)
  {
    route.country in table
    && route.origin in table[route.country]
    && route.destination in table[route.country][route.origin]
  }

  /**
   The plain nested lookup: the route's rate, or None when any level lacks the key.
   This is the reference the guarded lookup below is compared with.
   */
  function RouteRate(table: RateTable, route: Route): (r: Option<real>)
    ensures r.Some? <==> Served(table, route)
    ensures r.Some? ==> r.value == table[route.country][route.origin][route.destination]
  {
    if route.country in table && route.origin in table[route.country] then
      var byDestination := table[route.country][route.origin];
      if route.destination in byDestination then Some(byDestination[route.destination]) else None
    else
      None
  }

  /**
   The lookup as the engine performs it. The first test asks whether
   `guardCountry` (the main item's country) is a key, but the table is then
   indexed with the item's own country, which raises KeyError when that country
   is missing. A missing origin or destination gives None, never an error.
   */
  function LookupRate(table: RateTable, guardCountry: string, route: Route): (r: Result<Option<real>, LookupError>)
    ensures r.Failure? <==> guardCountry in table && route.country !in table
    ensures r.Failure? ==> r.error == KeyError(route.country)
    ensures r.Success? && r.value.Some? <==> guardCountry in table && Served(table, route)
    ensures r.Success? && r.value.Some? ==> r.value.value == table[route.country][route.origin][route.destination]
  {
    if guardCountry !in table then
      Success(None)
    else if route.country !in table then
      Failure(KeyError(route.country))
    else if route.origin in table[route.country] then
      var byDestination := table[route.country][route.origin];
      Success(if route.destination in byDestination then Some(byDestination[route.destination]) else None)
    else
      Success(None)
  }

  /** When the guard tests the item's own country, the lookup never raises and is the plain nested lookup. */
  lemma OwnCountryGuardIsRouteRate(table: RateTable, route: Route)
    ensures LookupRate(table, route.country, route) == Success(RouteRate(table, route))
  {
  }

  /**
   The guard and the lookup disagree exactly when the guard country and the
   item's country differ in being keys: then the result is either a KeyError or a
   served route reported as absent.
   */
  lemma GuardMismatch(table: RateTable, guardCountry: string, route: Route)
    ensures LookupRate(table, guardCountry, route) != Success(RouteRate(table, route))
            <==> (guardCountry in table && route.country !in table)
                 || (guardCountry !in table && Served(table, route))
  {
  }

  /** An item whose country the air table lacks raises KeyError when the main item's country is present. */
  lemma KeyErrorExample()
    ensures LookupRate(map["India" := map["Delhi" := map["UK" := 3.5]]], "India",
                       Route("China", "Shanghai", "UK"))
            == Failure(KeyError("China"))
  {
  }

  /** A served route is reported as absent when the main item's country is not a key. */
  lemma HiddenRouteExample()
    ensures var table := map["India" := map["Delhi" := map["UK" := 3.5]]];
            var route := Route("India", "Delhi", "UK");
            Served(table, route) && LookupRate(table, "China", route) == Success(None)
  {
  }
}
