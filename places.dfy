/**
 * The candidate list of `find_nearby_beaches`: the places collaborator's
 * results, deduplicated by name (first occurrence wins, order kept) and cut
 * to at most five entries.
 */
module Places {
  import opened Wrappers

  /** `place.get('name')`: a record without a name yields None, and the
      dedup set treats None as one more name. */
  type BeachName = Option<string>

  /** One candidate beach: its name and the coordinates read from
      `geometry.location` (either may be missing). */
  datatype Beach = Beach(name: BeachName, latitude: Option<real>, longitude: Option<real>)

  /** The truncation bound of `beaches[:5]`. */
  const MaxBeaches: nat := 5

  function NameSet(s: seq<Beach>): set<BeachName> {
    set i | 0 <= i < |s| :: s[i].name
  }

  predicate DistinctNames(s: seq<Beach>) {
    forall i, j :: 0 <= i < j < |s| ==> s[i].name != s[j].name
  }

  /** No entry before index `i` carries the name of entry `i`. */
  predicate IsFirstOccurrence(s: seq<Beach>, i: int) {
    0 <= i < |s| && forall j :: 0 <= j < i ==> s[j].name != s[i].name
  }

  /** The list the loop builds: scanning left to right, an entry is appended
      unless its name was already seen. */
  function Dedup(s: seq<Beach>): seq<Beach> {
    if s == [] then []
    else
      var kept := Dedup(s[..|s| - 1]);
      if s[|s| - 1].name in NameSet(kept) then kept else kept + [s[|s| - 1]]
  }

  /** The input positions `Dedup` keeps, in the order it keeps them. */
  ghost function KeptIndices(s: seq<Beach>): seq<nat> {
    if s == [] then []
    else
      var kept := KeptIndices(s[..|s| - 1]);
      if s[|s| - 1].name in NameSet(Dedup(s[..|s| - 1])) then kept else kept + [|s| - 1]
  }

  /** Python's `s[:n]`. */
  function Truncate<T>(s: seq<T>, n: nat): (r: seq<T>)
    ensures |r| == if |s| <= n then |s| else n
    ensures r == s[..|r|]
  {
    if |s| <= n then s else s[..n]
  }

  lemma NameSetAppend(s: seq<Beach>, b: Beach)
    ensures NameSet(s + [b]) == NameSet(s) + {b.name}
  {
    var t := s + [b];
    assert forall i :: 0 <= i < |s| ==> t[i] == s[i];
    assert t[|s|] == b;
  }

  /** The kept entries carry pairwise distinct names, and every name of the
      input survives. */
  lemma {:induction false} DedupNames(s: seq<Beach>)
    ensures DistinctNames(Dedup(s))
    ensures NameSet(Dedup(s)) == NameSet(s)
  {
    if s != [] {
      var p, x := s[..|s| - 1], s[|s| - 1];
      assert s == p + [x];
      DedupNames(p);
      NameSetAppend(p, x);
      var d := Dedup(p);
      if x.name !in NameSet(d) {
        NameSetAppend(d, x);
        forall i | 0 <= i < |d| ensures d[i].name != x.name {
          assert d[i].name in NameSet(d);
        }
      }
    }
  }

  /** `Dedup(s)` is a subsequence of `s`: it takes the entries at the
      positions `KeptIndices(s)`, which increase, so input order is kept. */
  lemma {:induction false} DedupIsSubsequence(s: seq<Beach>)
    ensures |KeptIndices(s)| == |Dedup(s)|
    ensures forall k :: 0 <= k < |Dedup(s)| ==>
      KeptIndices(s)[k] < |s| && Dedup(s)[k] == s[KeptIndices(s)[k]]
    ensures forall k, l :: 0 <= k < l < |Dedup(s)| ==> KeptIndices(s)[k] < KeptIndices(s)[l]
  {
    if s != [] {
      var p := s[..|s| - 1];
      DedupIsSubsequence(p);
      assert forall i :: 0 <= i < |p| ==> s[i] == p[i];
    }
  }

  /** The positions `Dedup` keeps are exactly the first occurrences of each
      name. */
  lemma {:induction false} DedupKeepsFirstOccurrences(s: seq<Beach>)
    ensures forall i :: i in KeptIndices(s) <==> IsFirstOccurrence(s, i)
  {
    if s != [] {
      var p, x := s[..|s| - 1], s[|s| - 1];
      DedupKeepsFirstOccurrences(p);
      DedupNames(p);
      var ks := KeptIndices(p);
      assert forall i :: 0 <= i < |p| ==> s[i] == p[i];
      assert forall i :: 0 <= i < |p| ==> (IsFirstOccurrence(s, i) <==> IsFirstOccurrence(p, i));
      assert forall i :: i in ks ==> i < |p|;
      if x.name in NameSet(Dedup(p)) {
        var j :| 0 <= j < |p| && p[j].name == x.name;
        assert !IsFirstOccurrence(s, |p|);
        assert KeptIndices(s) == ks;
      } else {
        forall j | 0 <= j < |p| ensures s[j].name != x.name {
          assert p[j].name in NameSet(p);
        }
        assert IsFirstOccurrence(s, |p|);
        assert KeptIndices(s) == ks + [|p|];
      }
    }
  }

  /** `places_result.get('results')`: an absent key and an empty list are
      both falsy and leave nothing to scan. */
  function Candidates(results: Option<seq<Beach>>): seq<Beach> {
    results.GetOr([])
  }

  /**
   * The loop of `find_nearby_beaches` over the places collaborator's
   * results (the `places_nearby` call itself is replaced by `results`).
   */
  method FindNearbyBeaches(results: Option<seq<Beach>>) returns (beaches: seq<Beach>)
    ensures beaches == Truncate(Dedup(Candidates(results)), MaxBeaches)
    ensures |beaches| <= MaxBeaches
    ensures DistinctNames(beaches)
    ensures NameSet(beaches) <= NameSet(Candidates(results))
    ensures |Candidates(results)| > 0 ==> |beaches| > 0
  {
    var found: seq<Beach> := [];
    var unique: set<BeachName> := {};
    if results.Some? && results.value != [] {
      var places := results.value;
      for i := 0 to |places|
        invariant found == Dedup(places[..i])
        invariant unique == NameSet(found)
      {
        var place := places[i];
        assert places[..i + 1] == places[..i] + [place];
        if place.name !in unique {
          NameSetAppend(found, place);
          found := found + [place];
          unique := unique + {place.name};
        }
      }
      assert places[..|places|] == places;
    }
    beaches := Truncate(found, MaxBeaches);
    DedupNames(Candidates(results));
    assert forall i :: 0 <= i < |beaches| ==> beaches[i] == found[i];
    forall n | n in NameSet(beaches) ensures n in NameSet(found) {
      var i :| 0 <= i < |beaches| && beaches[i].name == n;
      assert found[i].name == n;
    }
    if |Candidates(results)| > 0 {
      assert Candidates(results)[0].name in NameSet(Candidates(results));
    }
  }
}
