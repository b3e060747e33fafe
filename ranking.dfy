/**
 * `rank_beaches`: score every beach of the forecast table by a weighted sum
 * of its four forecast means, the weights chosen by skill level, and sort
 * the (beach, score) pairs by descending score with a stable sort.
 */
module Ranking {
  import opened Wrappers
  import opened Places
  import opened Forecasting
  import opened Orchestration

  /** One weight per tracked parameter. */
  datatype Weights = Weights(waveHeight: real, wavePeriod: real, windSpeed: real, swellHeight: real) {
    function Get(p: Parameter): real {
      match p
      case WaveHeight => waveHeight
      case WavePeriod => wavePeriod
      case WindSpeed => windSpeed
      case SwellHeight => swellHeight
    }

    function Total(): real {
      waveHeight + wavePeriod + windSpeed + swellHeight
    }
  }

  /** The weight table for a skill level: "beginner" stresses wave height,
      "intermediate" splits it with wave period, and any other string is
      treated as advanced and stresses wave period. */
  function WeightsFor(level: string): (w: Weights)
    ensures w.Total() == 1.0
    ensures forall p :: 0.0 < w.Get(p) < 1.0
    ensures level == "beginner" ==> w == Weights(0.4, 0.2, 0.2, 0.2)
    ensures level == "intermediate" ==> w == Weights(0.3, 0.3, 0.2, 0.2)
    ensures level != "beginner" && level != "intermediate" ==> w == Weights(0.2, 0.4, 0.2, 0.2)
  {
    if level == "beginner" then Weights(0.4, 0.2, 0.2, 0.2)
    else if level == "intermediate" then Weights(0.3, 0.3, 0.2, 0.2)
    else Weights(0.2, 0.4, 0.2, 0.2)
  }

  function Sum(s: seq<real>): real {
    if s == [] then 0.0 else s[0] + Sum(s[1..])
  }

  /** `np.mean`, in exact arithmetic. */
  function Mean(s: seq<real>): real
    requires |s| > 0
  {
    Sum(s) / (|s| as real)
  }

  lemma {:induction false} SumBounds(s: seq<real>, lo: real, hi: real)
    requires forall i :: 0 <= i < |s| ==> lo <= s[i] <= hi
    ensures lo * (|s| as real) <= Sum(s) <= hi * (|s| as real)
  {
    if s != [] {
      SumBounds(s[1..], lo, hi);
      assert lo * (|s| as real) == lo + lo * (|s[1..]| as real);
      assert hi * (|s| as real) == hi + hi * (|s[1..]| as real);
    }
  }

  /** A mean lies between any lower and upper bound of the values; in
      particular the mean of a constant forecast is that constant. */
  lemma MeanBounds(s: seq<real>, lo: real, hi: real)
    requires |s| > 0
    requires forall i :: 0 <= i < |s| ==> lo <= s[i] <= hi
    ensures lo <= Mean(s) <= hi
  {
    SumBounds(s, lo, hi);
    var n := |s| as real;
    assert Mean(s) * n == Sum(s);
  }

  /** `np.mean` of an absent forecast raises; a beach can be scored only
      when all four forecasts are present. */
  predicate Scorable(b: Bundle) {
    b.waveHeight.Some? && b.wavePeriod.Some? && b.windSpeed.Some? && b.swellHeight.Some?
  }

  /** Σ mean(forecast[p]) × weight[p] over the four parameters. */
  function Score(b: Bundle, w: Weights): real
    requires Scorable(b)
  {
    Mean(b.waveHeight.value) * w.waveHeight
      + Mean(b.wavePeriod.value) * w.wavePeriod
      + Mean(b.windSpeed.value) * w.windSpeed
      + Mean(b.swellHeight.value) * w.swellHeight
  }

  /** A beach whose every forecast mean is at least another's scores at
      least as high under every skill level. */
  lemma ScoreMonotone(a: Bundle, b: Bundle, level: string)
    requires Scorable(a) && Scorable(b)
    requires forall p :: Mean(a.Get(p).value) <= Mean(b.Get(p).value)
    ensures Score(a, WeightsFor(level)) <= Score(b, WeightsFor(level))
  {
    assert Mean(a.Get(WaveHeight).value) <= Mean(b.Get(WaveHeight).value);
    assert Mean(a.Get(WavePeriod).value) <= Mean(b.Get(WavePeriod).value);
    assert Mean(a.Get(WindSpeed).value) <= Mean(b.Get(WindSpeed).value);
    assert Mean(a.Get(SwellHeight).value) <= Mean(b.Get(SwellHeight).value);
  }

  /** One `(beach, score)` tuple of the ranking. */
  datatype Ranked = Ranked(beach: BeachName, score: real)

  predicate SortedDesc(s: seq<Ranked>) {
    forall i, j :: 0 <= i < j < |s| ==> s[i].score >= s[j].score
  }

  /** The entries of `s` whose score is `v`, in their order in `s`. */
  function WithScore(s: seq<Ranked>, v: real): seq<Ranked> {
    if s == [] then [] else (if s[0].score == v then [s[0]] else []) + WithScore(s[1..], v)
  }

  /** Inserts `x` after every entry whose score is at least its own. */
  function InsertDesc(x: Ranked, s: seq<Ranked>): seq<Ranked> {
    if s == [] then [x]
    else if s[0].score >= x.score then [s[0]] + InsertDesc(x, s[1..])
    else [x] + s
  }

  /** `list.sort(key=score, reverse=True)`: a stable sort by descending
      score, here as insertion of each entry in turn. */
  function SortDesc(s: seq<Ranked>): seq<Ranked> {
    if s == [] then [] else InsertDesc(s[|s| - 1], SortDesc(s[..|s| - 1]))
  }

  lemma {:induction false} WithScoreAppend(a: seq<Ranked>, b: seq<Ranked>, v: real)
    ensures WithScore(a + b, v) == WithScore(a, v) + WithScore(b, v)
  {
    if a == [] {
      assert a + b == b;
    } else {
      var ab := a + b;
      assert ab[0] == a[0];
      assert ab[1..] == a[1..] + b;
      WithScoreAppend(a[1..], b, v);
      var head := if a[0].score == v then [a[0]] else [];
      calc {
        WithScore(ab, v);
        head + WithScore(ab[1..], v);
        head + (WithScore(a[1..], v) + WithScore(b, v));
        (head + WithScore(a[1..], v)) + WithScore(b, v);
      }
    }
  }

  lemma {:induction false} WithScoreMembers(s: seq<Ranked>, v: real)
    ensures forall y :: y in WithScore(s, v) ==> y in s && y.score == v
  {
    if s != [] {
      WithScoreMembers(s[1..], v);
    }
  }

  lemma {:induction false} WithScoreHead(s: seq<Ranked>)
    requires s != []
    ensures WithScore(s, s[0].score) != [] && WithScore(s, s[0].score)[0] == s[0]
  {
  }

  lemma {:induction false} WithScoreAbsent(s: seq<Ranked>, v: real)
    requires forall i :: 0 <= i < |s| ==> s[i].score != v
    ensures WithScore(s, v) == []
  {
    if s != [] {
      WithScoreAbsent(s[1..], v);
    }
  }

  lemma {:induction false} InsertDescMultiset(x: Ranked, s: seq<Ranked>)
    ensures multiset(InsertDesc(x, s)) == multiset(s) + multiset{x}
  {
    if s != [] && s[0].score >= x.score {
      InsertDescMultiset(x, s[1..]);
      assert s == [s[0]] + s[1..];
      assert InsertDesc(x, s) == [s[0]] + InsertDesc(x, s[1..]);
    } else if s != [] {
      assert InsertDesc(x, s) == [x] + s;
    }
  }

  lemma {:induction false} InsertDescBound(x: Ranked, s: seq<Ranked>, c: real)
    requires x.score <= c
    requires forall k :: 0 <= k < |s| ==> s[k].score <= c
    ensures forall k :: 0 <= k < |InsertDesc(x, s)| ==> InsertDesc(x, s)[k].score <= c
  {
    if s != [] && s[0].score >= x.score {
      InsertDescBound(x, s[1..], c);
      var r := InsertDesc(x, s[1..]);
      assert forall k :: 1 <= k < |r| + 1 ==> ([s[0]] + r)[k] == r[k - 1];
    }
  }

  lemma {:induction false} InsertDescSorted(x: Ranked, s: seq<Ranked>)
    requires SortedDesc(s)
    ensures SortedDesc(InsertDesc(x, s))
  {
    if s != [] && s[0].score >= x.score {
      var t, r := s[1..], InsertDesc(x, s[1..]);
      assert SortedDesc(t);
      InsertDescSorted(x, t);
      InsertDescBound(x, t, s[0].score);
      var u := [s[0]] + r;
      assert forall k :: 1 <= k < |u| ==> u[k] == r[k - 1];
      assert forall k :: 0 <= k < |u| ==> u[k].score <= s[0].score;
    }
  }

  lemma WithScoreCons(y: Ranked, r: seq<Ranked>, v: real)
    ensures WithScore([y] + r, v) == (if y.score == v then [y] else []) + WithScore(r, v)
  {
  }

  lemma SortedTail(s: seq<Ranked>)
    requires s != [] && SortedDesc(s)
    ensures SortedDesc(s[1..])
    ensures forall k :: 0 <= k < |s| ==> s[k].score <= s[0].score
  {
  }

  lemma {:induction false} InsertDescWithScore(x: Ranked, s: seq<Ranked>, v: real)
    requires SortedDesc(s)
    ensures WithScore(InsertDesc(x, s), v) == WithScore(s, v) + (if x.score == v then [x] else [])
  {
    if s == [] {
      WithScoreCons(x, [], v);
      assert [x] + [] == [x];
    } else if s[0].score >= x.score {
      SortedTail(s);
      InsertDescWithScore(x, s[1..], v);
      WithScoreCons(s[0], InsertDesc(x, s[1..]), v);
      WithScoreCons(s[0], s[1..], v);
      assert [s[0]] + s[1..] == s;
    } else {
      SortedTail(s);
      WithScoreCons(x, s, v);
      if x.score == v {
        WithScoreAbsent(s, v);
      }
    }
  }

  /** The sort is a permutation, is ordered by non-increasing score, and is
      stable: for every score, the entries with that score keep their
      relative order. */
  lemma {:induction false} SortDescCorrect(s: seq<Ranked>)
    ensures SortedDesc(SortDesc(s))
    ensures multiset(SortDesc(s)) == multiset(s)
    ensures forall v :: WithScore(SortDesc(s), v) == WithScore(s, v)
  {
    if s != [] {
      var p, x := s[..|s| - 1], s[|s| - 1];
      assert s == p + [x];
      SortDescCorrect(p);
      InsertDescSorted(x, SortDesc(p));
      InsertDescMultiset(x, SortDesc(p));
      forall v ensures WithScore(SortDesc(s), v) == WithScore(s, v) {
        InsertDescWithScore(x, SortDesc(p), v);
        WithScoreAppend(p, [x], v);
        assert [x][1..] == [];
      }
    }
  }

  /** Sortedness and stability leave no freedom: any stable descending
      sort of the same entries (Python's included) yields `SortDesc`. */
  lemma {:induction false} StableSortUnique(r1: seq<Ranked>, r2: seq<Ranked>)
    requires SortedDesc(r1) && SortedDesc(r2)
    requires forall v :: WithScore(r1, v) == WithScore(r2, v)
    ensures r1 == r2
  {
    if r1 == [] || r2 == [] {
      if r1 != [] {
        WithScoreHead(r1);
      } else if r2 != [] {
        WithScoreHead(r2);
      }
    } else {
      var m1, m2 := r1[0].score, r2[0].score;
      WithScoreHead(r1);
      WithScoreHead(r2);
      WithScoreMembers(r1, m2);
      WithScoreMembers(r2, m1);
      assert WithScore(r1, m2)[0] in r1;
      assert WithScore(r2, m1)[0] in r2;
      assert m1 == m2;
      assert r1[0] == r2[0];
      forall v ensures WithScore(r1[1..], v) == WithScore(r2[1..], v) {
        var h := if r1[0].score == v then [r1[0]] else [];
        assert WithScore(r1, v) == h + WithScore(r1[1..], v);
        assert WithScore(r2, v) == h + WithScore(r2[1..], v);
        assert WithScore(r1[1..], v) == WithScore(r1, v)[|h|..];
        assert WithScore(r2[1..], v) == WithScore(r2, v)[|h|..];
      }
      StableSortUnique(r1[1..], r2[1..]);
      assert r1 == [r1[0]] + r1[1..];
      assert r2 == [r2[0]] + r2[1..];
    }
  }

  /** Every bundle of the table can be scored. */
  predicate AllScorable(t: ForecastTable)
    requires t.Valid()
  {
    forall i :: 0 <= i < |t.order| ==> Scorable(t.bundles[t.order[i]])
  }

  /** The unsorted list of `(beach, score)` pairs, in the table's order. */
  function Entries(t: ForecastTable, w: Weights): (r: seq<Ranked>)
    requires t.Valid() && AllScorable(t)
    ensures |r| == |t.order|
    ensures forall i :: 0 <= i < |r| ==> r[i] == Ranked(t.order[i], Score(t.bundles[t.order[i]], w))
  {
    seq(|t.order|, i requires 0 <= i < |t.order| => Ranked(t.order[i], Score(t.bundles[t.order[i]], w)))
  }

  /**
   * `rank_beaches(beach_forecast_data, user_surfing_level)`: None stands for
   * the TypeError `np.mean(None)` raises when a bundle misses a forecast;
   * otherwise the pairs, sorted stably by descending score.
   */
  method RankBeaches(t: ForecastTable, level: string) returns (r: Option<seq<Ranked>>)
    requires t.Valid()
    ensures r.None? <==> !AllScorable(t)
    ensures r.Some? ==> r.value == SortDesc(Entries(t, WeightsFor(level)))
    ensures r.Some? ==> SortedDesc(r.value)
    ensures r.Some? ==> multiset(r.value) == multiset(Entries(t, WeightsFor(level)))
    ensures r.Some? ==> forall v :: WithScore(r.value, v) == WithScore(Entries(t, WeightsFor(level)), v)
  {
    var w := WeightsFor(level);
    var rankings: seq<Ranked> := [];
    var i := 0;
    while i < |t.order|
      invariant 0 <= i <= |t.order|
      invariant |rankings| == i
      invariant forall j :: 0 <= j < i ==>
        Scorable(t.bundles[t.order[j]]) && rankings[j] == Ranked(t.order[j], Score(t.bundles[t.order[j]], w))
    {
      var forecasts := t.bundles[t.order[i]];
      if !Scorable(forecasts) {
        return None;
      }
      rankings := rankings + [Ranked(t.order[i], Score(forecasts, w))];
      i := i + 1;
    }
    assert rankings == Entries(t, w);
    SortDescCorrect(rankings);
    r := Some(SortDesc(rankings));
  }

  /** A forecast that stays at `v` for all five steps. */
  function Steady(v: real): Forecast {
    [v, v, v, v, v]
  }

  lemma SteadyMean(v: real)
    ensures Mean(Steady(v)) == v
  {
    MeanBounds(Steady(v), v, v);
  }

  /** Two beaches where A has the longer period and B the higher waves: a
      beginner's ranking puts B first, an advanced surfer's puts A first. */
  lemma SkillLevelFlipsRanking()
    ensures
      var a := Bundle(Some(Steady(1.0)), Some(Steady(2.0)), Some(Steady(0.0)), Some(Steady(0.0)));
      var b := Bundle(Some(Steady(2.0)), Some(Steady(1.0)), Some(Steady(0.0)), Some(Steady(0.0)));
      var t := ForecastTable([Some("A"), Some("B")], map[Some("A") := a, Some("B") := b]);
      && t.Valid() && AllScorable(t)
      && SortDesc(Entries(t, WeightsFor("beginner"))) == [Ranked(Some("B"), 1.0), Ranked(Some("A"), 0.8)]
      && SortDesc(Entries(t, WeightsFor("advanced"))) == [Ranked(Some("A"), 1.0), Ranked(Some("B"), 0.8)]
  {
    SteadyMean(0.0);
    SteadyMean(1.0);
    SteadyMean(2.0);
    var a := Bundle(Some(Steady(1.0)), Some(Steady(2.0)), Some(Steady(0.0)), Some(Steady(0.0)));
    var b := Bundle(Some(Steady(2.0)), Some(Steady(1.0)), Some(Steady(0.0)), Some(Steady(0.0)));
    var t := ForecastTable([Some("A"), Some("B")], map[Some("A") := a, Some("B") := b]);
    var beginner := Entries(t, WeightsFor("beginner"));
    assert beginner == [Ranked(Some("A"), 0.8), Ranked(Some("B"), 1.0)];
    assert beginner[..1] == [Ranked(Some("A"), 0.8)];
    assert SortDesc(beginner[..1]) == [Ranked(Some("A"), 0.8)];
    assert SortDesc(beginner) == InsertDesc(Ranked(Some("B"), 1.0), [Ranked(Some("A"), 0.8)]);
    var advanced := Entries(t, WeightsFor("advanced"));
    assert advanced == [Ranked(Some("A"), 1.0), Ranked(Some("B"), 0.8)];
    assert advanced[..1] == [Ranked(Some("A"), 1.0)];
    assert SortDesc(advanced[..1]) == [Ranked(Some("A"), 1.0)];
    assert SortDesc(advanced) == InsertDesc(Ranked(Some("B"), 0.8), [Ranked(Some("A"), 1.0)]);
    assert [Ranked(Some("A"), 1.0)][1..] == [];
  }
}
