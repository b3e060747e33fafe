/**
 * `get_weather_for_multiple_beaches`: fetch each beach's history, forecast
 * its four parameters, and record the bundle under the beach's name for
 * every beach whose fetch gave a non-empty series.
 */
module Orchestration {
  import opened Wrappers
  import opened Places
  import opened Forecasting

  /** `get_historical_weather_data(lat, lng, days)` as an oracle: None for a
      non-200 response, otherwise the hourly samples. */
  type Fetcher = (Option<real>, Option<real>, int) -> Option<seq<Sample>>

  /** `if historical_data:` — both None and the empty list are falsy. */
  predicate Truthy(data: Option<seq<Sample>>) {
    data.Some? && data.value != []
  }

  function FetchFor(fetch: Fetcher, b: Beach, days: int): Option<seq<Sample>> {
    fetch(b.latitude, b.longitude, days)
  }

  /** A Python dict from beach name to bundle: the mapping, and the keys in
      insertion order (the order `.items()` later walks). */
  datatype ForecastTable = ForecastTable(order: seq<BeachName>, bundles: map<BeachName, Bundle>) {

    predicate Valid() {
      && (forall i, j :: 0 <= i < j < |order| ==> order[i] != order[j])
      && (forall k :: k in bundles ==> k in order)
      && (forall i :: 0 <= i < |order| ==> order[i] in bundles)
    }

    /** `d[k] = v`: a new key goes last; an existing key keeps its place and
        takes the new value. */
    function Put(k: BeachName, v: Bundle): (t: ForecastTable)
      requires Valid()
      ensures t.Valid()
      ensures t.order == if k in bundles then order else order + [k]
      ensures t.bundles.Keys == bundles.Keys + {k} && t.bundles[k] == v
      ensures forall k' :: k' in bundles && k' != k ==> t.bundles[k'] == bundles[k']
    {
      ForecastTable(if k in bundles then order else order + [k], bundles[k := v])
    }
  }

  const EmptyTable := ForecastTable([], map[])

  /** The table the loop has built after visiting `beaches`. */
  function Gathered(beaches: seq<Beach>, fetch: Fetcher, days: int, arima: Arima): (t: ForecastTable)
    ensures t.Valid()
  {
    if beaches == [] then EmptyTable
    else
      var t := Gathered(beaches[..|beaches| - 1], fetch, days, arima);
      var b := beaches[|beaches| - 1];
      var data := FetchFor(fetch, b, days);
      if Truthy(data) then t.Put(b.name, BundleOf(data.value, arima)) else t
  }

  /** The names of the beaches whose fetch was truthy, in input order. */
  function FetchedNames(beaches: seq<Beach>, fetch: Fetcher, days: int): seq<BeachName> {
    if beaches == [] then []
    else
      var b := beaches[|beaches| - 1];
      FetchedNames(beaches[..|beaches| - 1], fetch, days)
        + (if Truthy(FetchFor(fetch, b, days)) then [b.name] else [])
  }

  /**
   * The loop of `get_weather_for_multiple_beaches`; the Storm Glass request
   * is `fetch` and the ARIMA model is `arima`.
   */
  method GetWeatherForMultipleBeaches(beaches: seq<Beach>, fetch: Fetcher, days: int, arima: Arima)
    returns (table: ForecastTable)
    ensures table == Gathered(beaches, fetch, days, arima)
    ensures table.Valid()
  {
    var order: seq<BeachName> := [];
    var bundles: map<BeachName, Bundle> := map[];
    for i := 0 to |beaches|
      invariant ForecastTable(order, bundles) == Gathered(beaches[..i], fetch, days, arima)
    {
      var beach := beaches[i];
      assert beaches[..i + 1][..i] == beaches[..i];
      var historical := fetch(beach.latitude, beach.longitude, days);
      if historical.Some? && historical.value != [] {
        var bundle := Bundle(
          ApplyArimaForecasting(historical.value, WaveHeight, arima),
          ApplyArimaForecasting(historical.value, WavePeriod, arima),
          ApplyArimaForecasting(historical.value, WindSpeed, arima),
          ApplyArimaForecasting(historical.value, SwellHeight, arima));
        if beach.name !in bundles {
          order := order + [beach.name];
        }
        bundles := bundles[beach.name := bundle];
      }
    }
    assert beaches[..|beaches|] == beaches;
    table := ForecastTable(order, bundles);
  }

  /** A name is a key exactly when some beach of that name was fetched
      successfully: a non-200 or empty fetch drops only its own beach. */
  lemma {:induction false} GatheredKeys(beaches: seq<Beach>, fetch: Fetcher, days: int, arima: Arima, k: BeachName)
    ensures k in Gathered(beaches, fetch, days, arima).bundles <==>
      exists i :: 0 <= i < |beaches| && beaches[i].name == k && Truthy(FetchFor(fetch, beaches[i], days))
  {
    if beaches != [] {
      var p := beaches[..|beaches| - 1];
      GatheredKeys(p, fetch, days, arima, k);
      assert forall i :: 0 <= i < |p| ==> beaches[i] == p[i];
    }
  }

  /** With distinct names (as `find_nearby_beaches` guarantees), the keys
      are the names of the successfully fetched beaches, in input order. */
  lemma {:induction false} GatheredOrder(beaches: seq<Beach>, fetch: Fetcher, days: int, arima: Arima)
    requires DistinctNames(beaches)
    ensures Gathered(beaches, fetch, days, arima).order == FetchedNames(beaches, fetch, days)
  {
    if beaches != [] {
      var p, b := beaches[..|beaches| - 1], beaches[|beaches| - 1];
      assert DistinctNames(p) by {
        forall i, j | 0 <= i < j < |p| ensures p[i].name != p[j].name {
          assert p[i] == beaches[i] && p[j] == beaches[j];
        }
      }
      GatheredOrder(p, fetch, days, arima);
      var t := Gathered(p, fetch, days, arima);
      GatheredKeys(p, fetch, days, arima, b.name);
      assert b.name !in t.bundles by {
        forall i | 0 <= i < |p| ensures p[i].name != b.name {
          assert p[i] == beaches[i];
        }
      }
    }
  }

  /** With distinct names, every successfully fetched beach is a key, and
      its bundle is forecast from its own data. */
  lemma {:induction false} GatheredBundle(beaches: seq<Beach>, fetch: Fetcher, days: int, arima: Arima, i: nat)
    requires DistinctNames(beaches)
    requires i < |beaches| && Truthy(FetchFor(fetch, beaches[i], days))
    ensures beaches[i].name in Gathered(beaches, fetch, days, arima).bundles
    ensures Gathered(beaches, fetch, days, arima).bundles[beaches[i].name]
      == BundleOf(FetchFor(fetch, beaches[i], days).value, arima)
  {
    var p, b := beaches[..|beaches| - 1], beaches[|beaches| - 1];
    if i < |p| {
      assert p[i] == beaches[i];
      assert DistinctNames(p) by {
        forall j, l | 0 <= j < l < |p| ensures p[j].name != p[l].name {
          assert p[j] == beaches[j] && p[l] == beaches[l];
        }
      }
      GatheredBundle(p, fetch, days, arima, i);
      assert beaches[i].name != b.name;
    }
  }
}
