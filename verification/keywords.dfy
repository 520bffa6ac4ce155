/** The filename keyword scorer of the backup upload component
    (`analyzeImageForFlood`): a stand-in for image analysis that looks for
    flood-related words in the lower-cased filename. */
module FloodKeywords {
  import opened Text
  import opened Types
  import opened Random

  datatype Indicator = Indicator(term: string, weight: real)

  /** The fixed, ordered table of terms and their weights. */
  const Indicators: seq<Indicator> := [
    Indicator("flood", 0.8),
    Indicator("water", 0.6),
    Indicator("river", 0.7),
    Indicator("lake", 0.5),
    Indicator("overflow", 0.9),
    Indicator("damage", 0.7),
    Indicator("disaster", 0.8),
    Indicator("rain", 0.5),
    Indicator("storm", 0.6),
    Indicator("wet", 0.4)
  ]

  /** A matched term with a weight above this ends the scan. */
  const StrongWeight: real := 0.7

  /** Entry `i` of the table occurs in the (already lower-cased) filename. */
  predicate Matches(lower: string, i: nat)
    requires i < |Indicators|
  {
    Contains(lower, Indicators[i].term)
  }

  /** Entry `i` occurs and is strong enough to end the scan. */
  predicate StrongMatch(lower: string, i: nat)
    requires i < |Indicators|
  {
    Matches(lower, i) && Indicators[i].weight > StrongWeight
  }

  /** The largest weight among the entries below `n` that occur, or 0. */
  function MaxMatched(lower: string, n: nat): real
    requires n <= |Indicators|
  {
    if n == 0 then 0.0
    else Max(MaxMatched(lower, n - 1), if Matches(lower, n - 1) then Indicators[n - 1].weight else 0.0)
  }

  /** `MaxMatched` is 0 or the weight of a matched entry below `n`. */
  lemma {:induction false} MaxMatchedIsMatchedWeight(lower: string, n: nat)
    requires n <= |Indicators|
    ensures var m := MaxMatched(lower, n);
      m == 0.0 || exists j :: 0 <= j < n && Matches(lower, j) && m == Indicators[j].weight
  {
    if n > 0 {
      MaxMatchedIsMatchedWeight(lower, n - 1);
    }
  }

  /** `MaxMatched` is at least every matched weight below `n`, and at most any
      non-negative bound on them. */
  lemma {:induction false} MaxMatchedIsLeastBound(lower: string, n: nat, c: real)
    requires n <= |Indicators|
    ensures forall j :: 0 <= j < n && Matches(lower, j) ==> Indicators[j].weight <= MaxMatched(lower, n)
    ensures 0.0 <= c && (forall j :: 0 <= j < n && Matches(lower, j) ==> Indicators[j].weight <= c) ==>
      MaxMatched(lower, n) <= c
  {
    if n > 0 {
      MaxMatchedIsLeastBound(lower, n - 1, c);
    }
  }

  /** Without a strong match below `n`, the maximum stays at or below 0.7. */
  lemma {:induction false} MaxMatchedBelowStrong(lower: string, n: nat)
    requires n <= |Indicators|
    requires forall j :: 0 <= j < n ==> !StrongMatch(lower, j)
    ensures MaxMatched(lower, n) <= StrongWeight
  {
    if n > 0 {
      MaxMatchedBelowStrong(lower, n - 1);
      assert !StrongMatch(lower, n - 1);
    }
  }

  /** The first entry at or after `i` that is a strong match. */
  function FirstStrongFrom(lower: string, i: nat): (r: Option<nat>)
    requires i <= |Indicators|
    ensures r.Some? ==> i <= r.value < |Indicators| && StrongMatch(lower, r.value)
    ensures r.Some? ==> forall j :: i <= j < r.value ==> !StrongMatch(lower, j)
    ensures r.None? ==> forall j :: i <= j < |Indicators| ==> !StrongMatch(lower, j)
    decreases |Indicators| - i
  {
    if i == |Indicators| then None
    else if StrongMatch(lower, i) then Some(i)
    else FirstStrongFrom(lower, i + 1)
  }

  /** What the scan computes, stated without the loop: the scan looks at the
      entries up to and including the first strong match (all of them when
      there is none) and keeps the largest matched weight. */
  function KeywordScore(filename: string): real
  {
    var lower := ToLower(filename);
    match FirstStrongFrom(lower, 0)
    case Some(j) => MaxMatched(lower, j + 1)
    case None => MaxMatched(lower, |Indicators|)
  }

  /** `analyzeImageForFlood`: scan the table in order, keep the maximum matched
      weight, stop at the first matched term whose weight exceeds 0.7. */
  method AnalyzeImageForFlood(filename: string) returns (floodScore: real)
    ensures floodScore == KeywordScore(filename)
  {
    if filename == [] {
      EmptyScoresZero();
      return 0.0;
    }
    var lower := ToLower(filename);
    floodScore := 0.0;
    var i := 0;
    while i < |Indicators|
      invariant 0 <= i <= |Indicators|
      invariant floodScore == MaxMatched(lower, i)
      invariant forall j :: 0 <= j < i ==> !StrongMatch(lower, j)
    {
      var indicator := Indicators[i];
      if Contains(lower, indicator.term) {
        floodScore := Max(floodScore, indicator.weight);
        if indicator.weight > StrongWeight {
          ScanStopsAt(filename, i);
          break;
        }
      }
      i := i + 1;
    }
    if i == |Indicators| {
      ScanStopsAt(filename, i);
    }
  }

  /** The specification seen from the loop: the score is the maximum over
      the entries up to the first strong match, or over the whole table. */
  lemma ScanStopsAt(filename: string, i: nat)
    requires i <= |Indicators|
    requires forall j :: 0 <= j < i ==> !StrongMatch(ToLower(filename), j)
    requires i < |Indicators| ==> StrongMatch(ToLower(filename), i)
    ensures KeywordScore(filename) == MaxMatched(ToLower(filename), if i < |Indicators| then i + 1 else i)
  {
    var r := FirstStrongFrom(ToLower(filename), 0);
    if i < |Indicators| {
      assert r == Some(i);
    } else {
      assert r == None;
    }
  }

  /** Every weight of the table lies in [0.4, 0.9]; exactly the entries
      "flood", "overflow" and "disaster" are strong. */
  lemma TableWeights()
    ensures forall j :: 0 <= j < |Indicators| ==> 0.4 <= Indicators[j].weight <= 0.9
    ensures forall j :: 0 <= j < |Indicators| ==>
      (Indicators[j].weight > StrongWeight <==> Indicators[j].term in {"flood", "overflow", "disaster"})
  {
  }

  /** A filename none of whose terms occur (after lower-casing) scores 0;
      in particular the empty filename does. */
  lemma NoTermScoresZero(filename: string)
    requires forall j :: 0 <= j < |Indicators| ==> !Matches(ToLower(filename), j)
    ensures KeywordScore(filename) == 0.0
  {
    var lower := ToLower(filename);
    MaxMatchedIsLeastBound(lower, |Indicators|, 0.0);
    match FirstStrongFrom(lower, 0)
    case Some(j) =>
    case None =>
  }

  lemma EmptyScoresZero()
    ensures KeywordScore("") == 0.0
  {
    NoTermScoresZero("");
  }

  /** The score is 0 or the weight of a term that occurs, so it lies in [0, 0.9]. */
  lemma ScoreIsMatchedWeight(filename: string)
    ensures var s := KeywordScore(filename);
      s == 0.0 || exists j :: 0 <= j < |Indicators| && Matches(ToLower(filename), j) && s == Indicators[j].weight
    ensures 0.0 <= KeywordScore(filename) <= 0.9
  {
    TableWeights();
    var lower := ToLower(filename);
    match FirstStrongFrom(lower, 0)
    case Some(j) =>
      MaxMatchedIsMatchedWeight(lower, j + 1);
      MaxMatchedIsLeastBound(lower, j + 1, 0.9);
    case None =>
      MaxMatchedIsMatchedWeight(lower, |Indicators|);
      MaxMatchedIsLeastBound(lower, |Indicators|, 0.9);
  }

  /** A score above 0.7 is the weight of the first strong term that occurs;
      later terms, however heavy, are not looked at. */
  lemma StrongScoreIsFirstStrongWeight(filename: string, j: nat)
    requires FirstStrongFrom(ToLower(filename), 0) == Some(j)
    ensures KeywordScore(filename) == Indicators[j].weight
  {
    var lower := ToLower(filename);
    MaxMatchedBelowStrong(lower, j);
  }

  /** When no strong term occurs, the scan runs to the end and the score is
      at most 0.7. */
  lemma WeakScoreBounded(filename: string)
    requires FirstStrongFrom(ToLower(filename), 0).None?
    ensures KeywordScore(filename) <= StrongWeight
  {
    MaxMatchedBelowStrong(ToLower(filename), |Indicators|);
  }

  /** The score exceeds 0.7 exactly when "flood", "overflow" or "disaster"
      occurs in the lower-cased filename. */
  lemma StrongScoreIff(filename: string)
    ensures var lower := ToLower(filename);
      KeywordScore(filename) > StrongWeight <==>
        Contains(lower, "flood") || Contains(lower, "overflow") || Contains(lower, "disaster")
  {
    var lower := ToLower(filename);
    TableWeights();
    match FirstStrongFrom(lower, 0)
    case Some(j) =>
      StrongScoreIsFirstStrongWeight(filename, j);
    case None =>
      WeakScoreBounded(filename);
      assert !StrongMatch(lower, 0) && !StrongMatch(lower, 4) && !StrongMatch(lower, 6);
  }

  /** Stopping at the first strong term can only lower the score below the
      maximum over the whole table, and only when both are above 0.7. */
  lemma EarlyStopBelowFullMax(filename: string)
    ensures var full := MaxMatched(ToLower(filename), |Indicators|);
      && KeywordScore(filename) <= full
      && (KeywordScore(filename) > StrongWeight <==> full > StrongWeight)
  {
    var lower := ToLower(filename);
    MaxMatchedIsLeastBound(lower, |Indicators|, 0.0);
    match FirstStrongFrom(lower, 0)
    case Some(j) =>
      StrongScoreIsFirstStrongWeight(filename, j);
    case None =>
  }

  /** "flood" is the first entry of the table: a filename containing it scores 0.8. */
  lemma FloodScoresPointEight(filename: string)
    requires Contains(ToLower(filename), "flood")
    ensures KeywordScore(filename) == 0.8
  {
    var lower := ToLower(filename);
    assert StrongMatch(lower, 0);
    assert FirstStrongFrom(lower, 0) == Some(0);
    assert MaxMatched(lower, 0) == 0.0;
    assert MaxMatched(lower, 1) == 0.8;
  }

  /** Lower-casing is idempotent, so the score ignores letter case. */
  lemma ScoreIgnoresCase(filename: string)
    ensures KeywordScore(ToLower(filename)) == KeywordScore(filename)
  {
    ToLowerIdempotent(filename);
  }

  /** "flood" ends the scan before "overflow" (0.9) is looked at. */
  lemma FloodOverflowScoresPointEight(filename: string)
    requires filename == "flood_overflow.jpg"
    ensures KeywordScore(filename) == 0.8
  {
    ContainsAt(ToLower(filename), "flood", 0);
    FloodScoresPointEight(filename);
  }

  /** "water" (0.6) occurs first in the name, but "flood" comes first in the table. */
  lemma WaterFloodScoresPointEight(filename: string)
    requires filename == "water_flood.png"
    ensures KeywordScore(filename) == 0.8
  {
    ContainsAt(ToLower(filename), "flood", 6);
    FloodScoresPointEight(filename);
  }

  /** Upper-case names score like their lower-case forms. */
  lemma UpperCaseScoresLikeLowerCase(upper: string, lower: string)
    requires upper == "FLOOD.JPG" && lower == "flood.jpg"
    ensures KeywordScore(upper) == KeywordScore(lower) == 0.8
  {
    ContainsAt(ToLower(upper), "flood", 0);
    FloodScoresPointEight(upper);
    ContainsAt(ToLower(lower), "flood", 0);
    FloodScoresPointEight(lower);
  }
}
