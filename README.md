# Beach Recommender: forecast and ranking engine in Dafny

This project models the computational core of `beach_recommender.py`, a
Flask app that recommends surf beaches near a place. The model covers the
path from the raw candidate list to the ranked answer:

- `Places`: `find_nearby_beaches`. The places collaborator's result list
  is deduplicated by name: the first entry of each name is kept, in input
  order. The result is then cut to five entries. The `places_nearby` call
  becomes an input `Option<seq<Beach>>`, where None is an absent `results`
  key.
- `Forecasting`: `apply_arima_forecasting`. It drops the None readings of
  one parameter, keeping the rest in order. It returns None when nothing is
  left, and otherwise the five-step ARIMA forecast of what is left. The
  ARIMA fit is an oracle `Arima = seq<real> -> Forecast`, and `Forecast` is
  the type of real sequences of length 5.
- `Orchestration`: `get_weather_for_multiple_beaches`. For each beach, it
  fetches the history and builds a bundle of four optional forecasts. The
  bundle goes into a dict under the beach's name, but only when the fetch
  was truthy (neither None nor an empty list). The Storm Glass fetch is an
  oracle `Fetcher = (lat, lng, days) -> Option<seq<Sample>>`. The Python
  dict is `ForecastTable`, which holds the map and its keys in insertion
  order. Assigning to a key that already exists keeps its position, as in
  Python.
- `Ranking`: `rank_beaches`. It picks the weight table for the skill
  string and scores each beach as the sum over the four parameters of the
  forecast mean times the weight. It then sorts the `(beach, score)` pairs
  by descending score with a stable sort. `list.sort(key=…, reverse=True)`
  is modelled by `SortDesc`, a pure stable insertion sort.
  `StableSortUnique` proves that every stable descending sort of the same
  pairs produces the same sequence, so `SortDesc` gives the same result
  as Python's sort.

Numbers are exact `real`s; weights are exact tenths. `np.mean(None)` raises
a `TypeError` when a bundle misses a forecast. `RankBeaches` models this
error path: it returns None exactly when some bundle cannot be scored.

## Model

| member | source | states |
|---|---|---|
| `Places.FindNearbyBeaches` | beach_recommender.py:39-56 | The result is the first min(5, n) entries of the name-deduplicated results. It has at most 5 entries, its names are pairwise distinct and all come from the input. Absent or empty `results` give an empty list, and a non-empty input gives a non-empty result. |
| `Places.DedupNames` | beach_recommender.py:40-54 | The dedup loop's list has pairwise distinct names, and every name of the input appears in it. |
| `Places.DedupIsSubsequence` | beach_recommender.py:43-54 | The dedup loop's list is the input restricted to the positions `KeptIndices`. Those positions increase, so input order is preserved. |
| `Places.DedupKeepsFirstOccurrences` | beach_recommender.py:43-54 | A position is kept if and only if it is the first occurrence of its name in the input. |
| `Forecasting.ObservedEmpty` | beach_recommender.py:95-98 | The filtered list is empty if and only if no sample has a reading for the parameter. |
| `Forecasting.ObservedFrom` | beach_recommender.py:95 | Each filtered value is a present reading of that parameter in some sample. |
| `Forecasting.ObservedAppend` | beach_recommender.py:95 | Filtering distributes over concatenation, so the kept readings stay in their original order. |
| `Forecasting.ApplyArimaForecasting` | beach_recommender.py:93-104 | The result is None if and only if no sample has a reading for the parameter. Otherwise it is the oracle's 5-step forecast of the filtered readings. |
| `Forecasting.BundleOf` | beach_recommender.py:118-128 | Each of the four keys holds the `apply_arima_forecasting` result for that parameter on this beach's own data. |
| `Orchestration.ForecastTable.Put` | beach_recommender.py:123-128 | Dict assignment keeps the keys distinct and in step with the map. An existing key keeps its place in the key order and a new key goes last. It adds exactly the assigned key, gives it the new value, and leaves the other keys' values alone. |
| `Orchestration.GetWeatherForMultipleBeaches` | beach_recommender.py:106-130 | The loop builds exactly the table `Gathered` describes: beaches visited in order, a bundle stored only after a truthy fetch. The table is valid: its key order is distinct and matches the map's keys. |
| `Orchestration.GatheredKeys` | beach_recommender.py:110-130 | A name is a key if and only if some beach of that name had a truthy fetch. A non-200 or empty fetch omits only its own beach and never removes another. |
| `Orchestration.GatheredOrder` | beach_recommender.py:110-128 | For beaches with distinct names, the keys are the names of the successfully fetched beaches, in input order. |
| `Orchestration.GatheredBundle` | beach_recommender.py:115-128 | For beaches with distinct names, each successfully fetched beach is a key, and its bundle is forecast from its own data. |
| `Ranking.WeightsFor` | beach_recommender.py:177-182 | "beginner" gives (0.4, 0.2, 0.2, 0.2), "intermediate" gives (0.3, 0.3, 0.2, 0.2), and any other string gives (0.2, 0.4, 0.2, 0.2). Every table sums to 1, and every weight lies strictly between 0 and 1. |
| `Ranking.MeanBounds` | beach_recommender.py:185-188 | The mean of a forecast lies within any bounds of its values. |
| `Ranking.SteadyMean` | beach_recommender.py:185-188 | The mean of a constant forecast is that constant. |
| `Ranking.ScoreMonotone` | beach_recommender.py:177-188 | Under every skill level, a bundle whose four forecast means are each at least another's scores at least as high. |
| `Ranking.SortDescCorrect` | beach_recommender.py:192 | The sort is a permutation and is non-increasing in score. It is stable: for every score, the pairs with that score keep their relative order. |
| `Ranking.StableSortUnique` | beach_recommender.py:192 | Two sequences that are both non-increasing in score and agree, for every score, on the ordered pairs with that score are equal. So a stable descending sort has exactly one possible output. |
| `Ranking.RankBeaches` | beach_recommender.py:174-193 | The result is an error (the `TypeError` of `np.mean(None)`) if and only if some bundle misses a forecast. Otherwise it is the stable descending sort of the (beach, weighted score) pairs in dict order. It is a permutation of them, sorted non-increasing, with ties in insertion order. |
| `Ranking.SkillLevelFlipsRanking` | beach_recommender.py:177-192 | For the fixture A = (waves 1, period 2, wind 0, swell 0) and B = (waves 2, period 1, wind 0, swell 0), each a constant forecast, the beginner table ranks B on top (1.0 against 0.8) and the advanced table ranks A on top (1.0 against 0.8). |

## Left out

- Flask routes `index` and `recommend`, the HTML they build, and the session that remembers the skill level (beach_recommender.py:196-274): user interface and I/O.
- `geocode_place` and the `gmaps.places_nearby` request (beach_recommender.py:22-37): network calls to Google Maps. Their result is the input of `FindNearbyBeaches`. The nested `geometry.location` lookups are flattened into the `Beach` record.
- `get_historical_weather_data` (beach_recommender.py:58-91): an HTTP request and JSON traversal, modelled only as the `Fetcher` oracle. The oracle is a function of (lat, lng, days). This takes the clock as fixed for the whole request, and two beaches at the same coordinates get the same response. A fetch that raises is not modelled: a network error from `requests.get`, or a `KeyError` on `hours` or on a parameter of an hour (beach_recommender.py:65-87), would escape `get_weather_for_multiple_beaches` and abort every beach, but the oracle is total and only returns None or samples.
- `get_current_weather_data` (beach_recommender.py:132-166): network I/O, and nothing calls it.
- The ARIMA(5, 1, 0) fit and forecast (beach_recommender.py:100-103): a statsmodels numerical routine, replaced by the `Arima` oracle with a length-5 result. A fit that raises is not modelled: the oracle is total.
- `meters_to_feet` and `mps_to_mph` (beach_recommender.py:168-172): floating-point presentation helpers.
- IEEE floating-point behaviour of `np.mean` and of the weighted sum: the model uses exact real arithmetic.
- The in-place mechanics of `list.sort` (Timsort): the sort is the pure function `SortDesc`. `StableSortUnique` shows that every stable descending sort returns the same sequence, so only the result is modelled.
