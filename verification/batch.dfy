/**
 The whole quote: every line item, the main item first, evaluated in order and
 shaped for the viewer. The lookup guards of every item test the main item's
 country; a KeyError from any item ends the batch.
 */
module Batch {
  import opened Wrappers
  import opened Units
  import opened Rates
  import opened Quote
  import opened Records

  /** One item's record, or the error its evaluation raises. */
  function ItemOutcome(idx: nat, item: LineItem, guardCountry: string, air: RateTable, sea: RateTable,
                       role: Role, viewer: Viewer, rnd: Rounder): (r: Result<Record, LookupError>)
    ensures r.Success? <==> Evaluate(item, guardCountry, air, sea).Success?
    ensures r.Failure? ==> r.error == KeyError(item.route.country)
  {
    match Evaluate(item, guardCountry, air, sea)
    case Failure(e) => Failure(e)
    case Success(q) => Success(ShapeRecord(idx, viewer, item, q, role, rnd))
  }

  /**
   Applies `f` to each element with its position, in order, collecting the
   results; the first failure ends the walk, as an exception ends the loop.
   */
  method Collect<A, B, E>(xs: seq<A>, f: (nat, A) -> Result<B, E>) returns (r: Result<seq<B>, E>)
    ensures r.Success? <==> forall k :: 0 <= k < |xs| ==> f(k, xs[k]).Success?
    ensures r.Success? ==> |r.value| == |xs|
    ensures r.Success? ==> forall k :: 0 <= k < |xs| ==> r.value[k] == f(k, xs[k]).value
    ensures r.Failure? ==>
              exists k :: 0 <= k < |xs| && f(k, xs[k]).Failure? && r.error == f(k, xs[k]).error
                          && forall j :: 0 <= j < k ==> f(j, xs[j]).Success?
  {
    var ys: seq<B> := [];
    var i := 0;
    while i < |xs|
      invariant 0 <= i <= |xs|
      invariant |ys| == i
      invariant forall k :: 0 <= k < i ==> f(k, xs[k]).Success? && ys[k] == f(k, xs[k]).value
    {
      var y := f(i, xs[i]);
      if y.Failure? {
        return Failure(y.error);
      }
      ys := ys + [y.value];
      i := i + 1;
    }
    r := Success(ys);
  }

  /**
   Quotes every item. `items[0]` is the main item, whose country every lookup
   guard tests. On success there is one record per item, in input order;
   otherwise the error is the one the first failing item raises.
   */
  method QuoteBatch(items: seq<LineItem>, air: RateTable, sea: RateTable, role: Role, viewer: Viewer, rnd: Rounder)
    returns (r: Result<seq<Record>, LookupError>)
    requires |items| >= 1
    ensures r.Success? <==> forall k :: 0 <= k < |items| ==>
              ItemOutcome(k, items[k], items[0].route.country, air, sea, role, viewer, rnd).Success?
    ensures r.Success? ==> |r.value| == |items|
    ensures r.Success? ==> forall k :: 0 <= k < |items| ==>
              r.value[k] == ItemOutcome(k, items[k], items[0].route.country, air, sea, role, viewer, rnd).value
    ensures r.Failure? ==>
              exists k :: 0 <= k < |items|
                          && ItemOutcome(k, items[k], items[0].route.country, air, sea, role, viewer, rnd).Failure?
                          && r.error == KeyError(items[k].route.country)
                          && forall j :: 0 <= j < k ==>
                               ItemOutcome(j, items[j], items[0].route.country, air, sea, role, viewer, rnd).Success?
  {
    var guard := items[0].route.country;
    r := Collect(items, (k: nat, item: LineItem) => ItemOutcome(k, item, guard, air, sea, role, viewer, rnd));
  }

  /**
   In a successful batch the k-th record is labelled "Item k+1" and, for
   either role, holds every column other than the four rate columns.
   */
  lemma BatchRecordLabels(items: seq<LineItem>, air: RateTable, sea: RateTable, role: Role, viewer: Viewer,
                          rnd: Rounder, k: nat)
    requires k < |items|
    requires ItemOutcome(k, items[k], items[0].route.country, air, sea, role, viewer, rnd).Success?
    ensures var rec := ItemOutcome(k, items[k], items[0].route.country, air, sea, role, viewer, rnd).value;
            (forall f :: !IsRateColumn(f) ==> f in rec) && rec[ItemCol] == Text(ItemLabel(k))
  {
  }

  /** In a successful batch no two records carry the same label. */
  lemma BatchLabelsDistinct(items: seq<LineItem>, air: RateTable, sea: RateTable, role: Role, viewer: Viewer,
                            rnd: Rounder, j: nat, k: nat)
    requires j < |items| && k < |items| && j != k
    requires ItemOutcome(j, items[j], items[0].route.country, air, sea, role, viewer, rnd).Success?
    requires ItemOutcome(k, items[k], items[0].route.country, air, sea, role, viewer, rnd).Success?
    ensures ItemOutcome(j, items[j], items[0].route.country, air, sea, role, viewer, rnd).value[ItemCol]
            != ItemOutcome(k, items[k], items[0].route.country, air, sea, role, viewer, rnd).value[ItemCol]
  {
  }

  /** When every item shares the main item's country, no item raises. */
  lemma SameCountryNeverFails(items: seq<LineItem>, air: RateTable, sea: RateTable, role: Role, viewer: Viewer,
                              rnd: Rounder)
    requires |items| >= 1
    requires forall k :: 0 <= k < |items| ==> items[k].route.country == items[0].route.country
    ensures forall k :: 0 <= k < |items| ==>
              ItemOutcome(k, items[k], items[0].route.country, air, sea, role, viewer, rnd).Success?
  {
  }

  /** The main item's own evaluation never raises, so a failing batch always fails at an added item. */
  lemma MainItemOutcomeSucceeds(item: LineItem, air: RateTable, sea: RateTable, role: Role, viewer: Viewer,
                                rnd: Rounder)
    ensures ItemOutcome(0, item, item.route.country, air, sea, role, viewer, rnd).Success?
  {
  }

  /** When every item's country is a key of both tables, no item raises. */
  lemma KnownCountriesNeverFail(items: seq<LineItem>, air: RateTable, sea: RateTable)
    requires |items| >= 1
    requires forall k :: 0 <= k < |items| ==> items[k].route.country in air && items[k].route.country in sea
    ensures forall k :: 0 <= k < |items| ==> Evaluate(items[k], items[0].route.country, air, sea).Success?
  {
  }
}
