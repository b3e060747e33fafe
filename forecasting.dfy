/**
 * `apply_arima_forecasting`: keep the known readings of one parameter, in
 * order, and forecast five steps from them unless none is left.
 */
module Forecasting {
  import opened Wrappers

  /** The four tracked marine parameters. */
  datatype Parameter = WaveHeight | WavePeriod | WindSpeed | SwellHeight

  /** One hourly observation; a reading the designated source did not
      provide is None. */
  datatype Sample = Sample(
    time: string,
    waveHeight: Option<real>,
    wavePeriod: Option<real>,
    windSpeed: Option<real>,
    swellHeight: Option<real>)
  {
    /** `entry[parameter]`. */
    function Get(p: Parameter): Option<real> {
      match p
      case WaveHeight => waveHeight
      case WavePeriod => wavePeriod
      case WindSpeed => windSpeed
      case SwellHeight => swellHeight
    }
  }

  /** The number of steps `forecast(steps=5)` produces. */
  const Horizon: nat := 5

  type Forecast = f: seq<real> | |f| == Horizon witness [0.0, 0.0, 0.0, 0.0, 0.0]

  /** The fitted ARIMA(5, 1, 0) model's five-step forecast, as an oracle:
      a deterministic function of the filtered series. */
  type Arima = seq<real> -> Forecast

  /** The reading of `p` in one sample, as a list of zero or one value. */
  function ReadingOf(s: Sample, p: Parameter): seq<real> {
    if s.Get(p).Some? then [s.Get(p).value] else []
  }

  /** The readings of parameter `p` that are not None, in their original
      order (the list comprehension of `apply_arima_forecasting`). */
  function Observed(data: seq<Sample>, p: Parameter): seq<real> {
    if data == [] then [] else ReadingOf(data[0], p) + Observed(data[1..], p)
  }

  /** Nothing is left after filtering exactly when no sample has a reading
      of `p`. */
  lemma {:induction false} ObservedEmpty(data: seq<Sample>, p: Parameter)
    ensures Observed(data, p) == [] <==> forall i :: 0 <= i < |data| ==> data[i].Get(p).None?
  {
    if data != [] {
      ObservedEmpty(data[1..], p);
      assert forall i :: 1 <= i < |data| ==> data[i] == data[1..][i - 1];
    }
  }

  /** Every filtered value is a present reading of some sample. */
  lemma {:induction false} ObservedFrom(data: seq<Sample>, p: Parameter)
    ensures forall k :: 0 <= k < |Observed(data, p)| ==>
      exists i :: 0 <= i < |data| && data[i].Get(p) == Some(Observed(data, p)[k])
  {
    if data != [] {
      ObservedFrom(data[1..], p);
      var head, rest := ReadingOf(data[0], p), Observed(data[1..], p);
      var obs := Observed(data, p);
      assert obs == head + rest;
      forall k | 0 <= k < |obs|
        ensures exists i :: 0 <= i < |data| && data[i].Get(p) == Some(obs[k])
      {
        if k < |head| {
          assert obs[k] == head[k];
          assert data[0].Get(p) == Some(obs[k]);
        } else {
          assert obs[k] == rest[k - |head|];
          var i :| 0 <= i < |data[1..]| && data[1..][i].Get(p) == Some(rest[k - |head|]);
          assert data[i + 1].Get(p) == Some(obs[k]);
        }
      }
    } else {
      assert Observed(data, p) == [];
    }
  }

  /** Filtering distributes over concatenation: readings keep their order
      across any split of the series. */
  lemma {:induction false} ObservedAppend(a: seq<Sample>, b: seq<Sample>, p: Parameter)
    ensures Observed(a + b, p) == Observed(a, p) + Observed(b, p)
  {
    if a == [] {
      assert a + b == b;
    } else {
      assert (a + b)[1..] == a[1..] + b;
      ObservedAppend(a[1..], b, p);
    }
  }

  /**
   * `apply_arima_forecasting(data, parameter)`: None exactly when no sample
   * has a reading for `p`; otherwise the oracle's five-step forecast of the
   * filtered readings.
   */
  function ApplyArimaForecasting(data: seq<Sample>, p: Parameter, arima: Arima): (r: Option<Forecast>)
    ensures r.None? <==> forall i :: 0 <= i < |data| ==> data[i].Get(p).None?
    ensures r.Some? ==> r.value == arima(Observed(data, p))
  {
    ObservedEmpty(data, p);
    var values := Observed(data, p);
    if |values| == 0 then None else Some(arima(values))
  }

  /** The four forecasts the orchestrator stores for one beach. */
  datatype Bundle = Bundle(
    waveHeight: Option<Forecast>,
    wavePeriod: Option<Forecast>,
    windSpeed: Option<Forecast>,
    swellHeight: Option<Forecast>)
  {
    function Get(p: Parameter): Option<Forecast> {
      match p
      case WaveHeight => waveHeight
      case WavePeriod => wavePeriod
      case WindSpeed => windSpeed
      case SwellHeight => swellHeight
    }
  }

  /** The dict built for one beach: under each parameter's key, that
      parameter's forecast from this beach's own data. */
  function BundleOf(data: seq<Sample>, arima: Arima): (b: Bundle)
    ensures forall p :: b.Get(p) == ApplyArimaForecasting(data, p, arima)
  {
    Bundle(
      ApplyArimaForecasting(data, WaveHeight, arima),
      ApplyArimaForecasting(data, WavePeriod, arima),
      ApplyArimaForecasting(data, WindSpeed, arima),
      ApplyArimaForecasting(data, SwellHeight, arima))
  }
}
