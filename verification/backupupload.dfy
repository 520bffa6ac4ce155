/** The richer copy of the upload component (backupupload.tsx): its analysis
    picks a location, fabricates cloud and weather readings, and decides
    whether to report a flood from a weighted sum of factors, a draw and the
    filename keyword score. */
module BackupUpload {
  import opened Types
  import opened Text
  import opened Random
  import opened UploadState
  import opened FloodKeywords
  import ImageUpload

  const CloudTypes: seq<CloudType> := [Cumulus, Cumulonimbus, Stratus, Cirrus]

  /** The six candidate locations, Dharali first. */
  const Locations: seq<Location> := [
    Location("Dharali, Uttarakhand", 31.0169, 78.3831),
    Location("Gangotri, Uttarakhand", 30.9944, 78.4419),
    Location("Harsil, Uttarakhand", 31.0393, 78.6068),
    Location("Dehradun, Uttarakhand", 30.3165, 78.0322),
    Location("Rishikesh, Uttarakhand", 30.0869, 78.2676),
    Location("Nainital, Uttarakhand", 30.2661, 78.3472)
  ]

  predicate IsDharali(loc: Location)
  {
    Contains(loc.name, "Dharali")
  }

  /** Of the six locations only the first is Dharali. */
  lemma OnlyFirstLocationIsDharali(i: nat)
    requires i < |Locations|
    ensures IsDharali(Locations[i]) <==> i == 0
  {
    var name := Locations[i].name;
    if i == 0 {
      ContainsAt(name, "Dharali", 0);
    } else if i == 1 {
      NotDharaliName(name);
    } else if i == 2 {
      NotDharaliName(name);
    } else if i == 3 {
      NotDharaliName(name);
    } else if i == 4 {
      NotDharaliName(name);
    } else {
      NotDharaliName(name);
    }
  }

  /** The five other names lack a letter of "Dharali" ('l' for Dehradun, 'D' for the rest). */
  lemma NotDharaliName(name: string)
    requires name in {"Gangotri, Uttarakhand", "Harsil, Uttarakhand", "Dehradun, Uttarakhand",
                         "Rishikesh, Uttarakhand", "Nainital, Uttarakhand"}
    ensures !Contains(name, "Dharali")
  {
    if name == "Dehradun, Uttarakhand" {
      assert 'l' !in name;
      LacksCharNotContains(name, "Dharali", 5);
    } else {
      assert 'D' !in name;
      LacksCharNotContains(name, "Dharali", 0);
    }
  }

  /** Dharali is chosen exactly when the location draw is below 1/6. */
  lemma DharaliChosenBelowOneSixth(r: Draw)
    ensures IsDharali(PickLocation(r)) <==> r < 1.0 / 6.0
  {
    OnlyFirstLocationIsDharali(RandomInt(r, |Locations|, 0));
  }

  /** One draw per `Math.random()` call of `simulateAnalysis`, in source order.
      A draw whose call is skipped (the other arm of a conditional) is unused. */
  datatype AnalysisDraws = AnalysisDraws(
    location: Draw,
    burstFirst: Draw, burstSecond: Draw,
    riskFirst: Draw, riskSecond: Draw,
    cloudType: Draw, coverage: Draw, windShear: Draw,
    waterBodies: Draw, terrain: Draw, decision: Draw,
    confidence: Draw, area: Draw,
    patternType: Draw, patternCoverage: Draw, patternWindShear: Draw,
    moisture: Draw, patternConfidence: Draw,
    temperature: Draw, humidity: Draw, windSpeed: Draw, pressure: Draw)

  /** The chosen location: `locations[Math.floor(Math.random() * locations.length)]`. */
  function PickLocation(r: Draw): (loc: Location)
    ensures loc in Locations
  {
    Locations[RandomInt(r, |Locations|, 0)]
  }

  /** `cloudburstRisk`: Dharali gets extreme or high, elsewhere high, medium or low. */
  function CloudburstLevel(dharali: bool, first: Draw, second: Draw): (level: RiskLevel)
    ensures dharali ==> level.High? || level.Extreme?
    ensures !dharali ==> !level.Extreme?
    ensures dharali ==> (level.Extreme? <==> first > 0.3)
    ensures !dharali ==> (level.High? <==> first > 0.7)
    ensures !dharali ==> (level.Low? <==> first <= 0.7 && second <= 0.4)
  {
    if dharali then (if first > 0.3 then RiskLevel.Extreme else RiskLevel.High)
    else if first > 0.7 then RiskLevel.High
    else if second > 0.4 then Medium
    else RiskLevel.Low
  }

  /** `riskLevel`: Dharali gets high or extreme, elsewhere the tiered draw. */
  function AnalysisRisk(dharali: bool, first: Draw, second: Draw): (level: RiskLevel)
    ensures dharali ==> level.High? || level.Extreme?
    ensures dharali ==> (level.High? <==> first > 0.3)
    ensures !dharali ==> level == ImageUpload.TieredRisk(first, second) && !level.Extreme?
  {
    if dharali then (if first > 0.3 then RiskLevel.High else RiskLevel.Extreme)
    else ImageUpload.TieredRisk(first, second)
  }

  /** The readings the flood decision is made from: Dharali always has
      cumulonimbus cloud, 70..99 % coverage and wind shear 10..19; elsewhere
      any cloud type, 20..79 % and 2..9. */
  datatype Readings = Readings(cloudType: CloudType, coverage: int, windShear: int)

  function DecisionReadings(dharali: bool, d: AnalysisDraws): (r: Readings)
    ensures dharali ==> r.cloudType == Cumulonimbus
    ensures dharali ==> 70 <= r.coverage <= 99 && 10 <= r.windShear <= 19
    ensures !dharali ==> 20 <= r.coverage <= 79 && 2 <= r.windShear <= 9
  {
    Readings(
      if dharali then Cumulonimbus else CloudTypes[RandomInt(d.cloudType, |CloudTypes|, 0)],
      if dharali then RandomInt(d.coverage, 30, 70) else RandomInt(d.coverage, 60, 20),
      if dharali then RandomInt(d.windShear, 10, 10) else RandomInt(d.windShear, 8, 2))
  }

  /** `file ? analyzeImageForFlood(file.name) : 0` */
  function ImageScore(filename: Option<string>): (s: real)
    ensures 0.0 <= s <= 0.9
    ensures filename.None? ==> s == 0.0
  {
    match filename
    case None => 0.0
    case Some(name) => ScoreIsMatchedWeight(name); KeywordScore(name)
  }

  /** `cloudFactor`. The `'nimbostratus'` arm (0.7) cannot be reached: the cloud
      type always comes from the four types above. */
  function CloudFactor(t: CloudType): real
  {
    if t == Cumulonimbus then 0.8 else 0.3
  }

  /** `floodProbability`: the weighted sum of cloud, coverage, wind, water
      bodies and terrain. `pow` stands for `Math.pow`. */
  function WeightedSum(pow: (real, real) -> real, readings: Readings, waterBodies: Draw, terrain: Draw): real
  {
    var coverageFactor := pow(readings.coverage as real / 100.0, 1.5);
    var windFactor := Min(pow(readings.windShear as real / 8.0, 1.5), 1.2);
    CloudFactor(readings.cloudType) * 0.4
      + coverageFactor * 0.3
      + windFactor * 0.2
      + (if waterBodies > 0.7 then 0.2 else 0.0)
      + (if terrain > 0.7 then 0.3 else 0.0)
  }

  /** `finalProbability`: the sum plus the location bonus and half the image
      score, capped at 0.95. */
  function FinalProbability(weighted: real, dharali: bool, imageScore: real): (p: real)
    ensures p <= 0.95
    ensures p <= weighted + (if dharali then 0.5 else 0.15) + imageScore * 0.5
    ensures p == 0.95 || p == weighted + (if dharali then 0.5 else 0.15) + imageScore * 0.5
  {
    Min(weighted + (if dharali then 0.5 else 0.15) + imageScore * 0.5, 0.95)
  }

  /** `isFloodLikely`: a strong image score decides on its own; otherwise the
      decision draw must fall below the final probability. */
  function IsFloodLikely(imageScore: real, p: real, decision: Draw): bool
  {
    if imageScore > StrongWeight then true else decision < p
  }

  /** A keyword score above 0.7 yields a flood whatever the probability and the draw. */
  lemma StrongImageForcesFlood(imageScore: real, p: real, decision: Draw)
    requires imageScore > StrongWeight
    ensures IsFloodLikely(imageScore, p, decision)
  {
  }

  /** Without the keyword override a draw of 0.95 or more never yields a flood,
      whatever the capped probability. */
  lemma HighDrawNeedsKeyword(imageScore: real, weighted: real, dharali: bool, decision: Draw)
    requires decision >= 0.95
    ensures IsFloodLikely(imageScore, FinalProbability(weighted, dharali, imageScore), decision) <==> imageScore > StrongWeight
  {
  }

  /** The early stop of the keyword scan never changes the decision: scoring
      with the maximum over the whole table would decide the same way. */
  lemma EarlyStopKeepsDecision(filename: string, weighted: real, dharali: bool, decision: Draw)
    ensures var score := KeywordScore(filename);
      var full := MaxMatched(ToLower(filename), |Indicators|);
      IsFloodLikely(score, FinalProbability(weighted, dharali, score), decision)
        == IsFloodLikely(full, FinalProbability(weighted, dharali, full), decision)
  {
    EarlyStopBelowFullMax(filename);
  }

  /** A smaller draw decides for a flood whenever a larger one does. */
  lemma DecisionMonotone(imageScore: real, p: real, lower: Draw, higher: Draw)
    requires lower <= higher && IsFloodLikely(imageScore, p, higher)
    ensures IsFloodLikely(imageScore, p, lower)
  {
  }

  /** When `Math.pow` of a non-negative base is non-negative, the final
      probability is at least the location bonus. */
  lemma FinalProbabilityAtLeastBonus(pow: (real, real) -> real, readings: Readings, waterBodies: Draw, terrain: Draw, dharali: bool, imageScore: real)
    requires forall x, y :: x >= 0.0 ==> pow(x, y) >= 0.0
    requires readings.coverage >= 0 && readings.windShear >= 0 && imageScore >= 0.0
    ensures FinalProbability(WeightedSum(pow, readings, waterBodies, terrain), dharali, imageScore)
      >= if dharali then 0.5 else 0.15
  {
    assert pow(readings.coverage as real / 100.0, 1.5) >= 0.0;
    assert pow(readings.windShear as real / 8.0, 1.5) >= 0.0;
  }

  /** Only the final probability is capped: at Dharali, with water bodies and
      rough terrain, the value before the cap (the weighted sum plus the
      location bonus) exceeds 0.95 whatever the drawn readings. */
  lemma UncappedSumCanExceedCap(pow: (real, real) -> real, d: AnalysisDraws)
    requires forall x, y :: x >= 0.0 ==> pow(x, y) >= 0.0
    requires d.waterBodies > 0.7 && d.terrain > 0.7
    ensures WeightedSum(pow, DecisionReadings(true, d), d.waterBodies, d.terrain) + 0.5 > 0.95
  {
    var readings := DecisionReadings(true, d);
    assert pow(readings.coverage as real / 100.0, 1.5) >= 0.0;
    assert pow(readings.windShear as real / 8.0, 1.5) >= 0.0;
  }

  /** The draws and the filename decide the flood. */
  function FloodDecision(filename: Option<string>, d: AnalysisDraws, pow: (real, real) -> real): bool
  {
    var dharali := IsDharali(PickLocation(d.location));
    var readings := DecisionReadings(dharali, d);
    var score := ImageScore(filename);
    IsFloodLikely(score, FinalProbability(WeightedSum(pow, readings, d.waterBodies, d.terrain), dharali, score), d.decision)
  }

  /** `mockResult` of `simulateAnalysis`, for the given filename (`None` when
      there is no file), draws, `Math.pow` and timestamp. */
  function MockAnalysis(filename: Option<string>, d: AnalysisDraws, pow: (real, real) -> real, timestamp: string): (r: AnalysisResult)
    ensures r.location in Locations && r.timestamp == timestamp
    ensures r.floodDetected == FloodDecision(filename, d, pow)
    ensures filename.Some? && KeywordScore(filename.value) > StrongWeight ==> r.floodDetected
    ensures r.floodDetected ==> 85 <= r.confidence <= 99
    ensures !r.floodDetected ==> 65 <= r.confidence <= 89
    ensures r.floodDetected && IsDharali(r.location) ==> 200 <= r.affectedArea <= 999
    ensures r.floodDetected && !IsDharali(r.location) ==> 100 <= r.affectedArea <= 599
    ensures !r.floodDetected ==> 0 <= r.affectedArea <= 99
    ensures r.cloudPattern.Some? && r.cloudPattern.value.detected
    ensures r.weather.Some? && r.weather.value.location == r.location.name
    ensures IsDharali(r.location) ==> DharaliPattern(r)
    ensures !IsDharali(r.location) ==> ElsewherePattern(r)
  {
    var loc := PickLocation(d.location);
    var dharali := IsDharali(loc);
    var flood := FloodDecision(filename, d, pow);
    AnalysisResult(
      flood,
      if flood then RandomInt(d.confidence, 15, 85) else RandomInt(d.confidence, 25, 65),
      AnalysisRisk(dharali, d.riskFirst, d.riskSecond),
      if flood then (if dharali then RandomInt(d.area, 800, 200) else RandomInt(d.area, 500, 100))
      else RandomInt(d.area, 100, 0),
      timestamp,
      loc,
      Some(CloudPattern(
        true,
        if dharali then Cumulonimbus else CloudTypes[RandomInt(d.patternType, |CloudTypes|, 0)],
        CloudburstLevel(dharali, d.burstFirst, d.burstSecond),
        if dharali then RandomInt(d.patternCoverage, 30, 70) else RandomInt(d.patternCoverage, 60, 20),
        Some(if dharali then RandomInt(d.patternWindShear, 10, 10) else RandomInt(d.patternWindShear, 8, 2)),
        Some(if dharali then RandomInt(d.moisture, 5, 10) else RandomInt(d.moisture, 8, 3)),
        Some(if dharali then RandomInt(d.patternConfidence, 15, 85) else RandomInt(d.patternConfidence, 30, 70)))),
      Some(WeatherData(
        if dharali then RandomInt(d.temperature, 10, 15) else RandomInt(d.temperature, 25, 15),
        if dharali then RandomInt(d.humidity, 20, 70) else RandomInt(d.humidity, 40, 40),
        if dharali then RandomInt(d.windSpeed, 15, 15) else RandomInt(d.windSpeed, 30, 5),
        if dharali then RandomInt(d.pressure, 20, 980) else RandomInt(d.pressure, 50, 990),
        loc.name)))
  }

  /** A Dharali result: high or extreme risk and cloudburst risk, cumulonimbus
      cloud with 70..99 % coverage, wind shear 10..19, moisture 10..14,
      pattern confidence 85..99, and its own weather ranges. */
  predicate DharaliPattern(r: AnalysisResult)
  {
    && (r.riskLevel.High? || r.riskLevel.Extreme?)
    && r.cloudPattern.Some?
    && var p := r.cloudPattern.value;
    && p.cloudType == Cumulonimbus
    && (p.cloudBurstRisk.High? || p.cloudBurstRisk.Extreme?)
    && 70 <= p.coverage <= 99
    && p.windShear.Some? && 10 <= p.windShear.value <= 19
    && p.moistureContent.Some? && 10 <= p.moistureContent.value <= 14
    && p.confidence.Some? && 85 <= p.confidence.value <= 99
    && r.weather.Some?
    && var w := r.weather.value;
    && 15 <= w.temperature <= 24 && 70 <= w.humidity <= 89
    && 15 <= w.windSpeed <= 29 && 980 <= w.pressure <= 999
  }

  /** Any other location: never extreme risk or cloudburst risk, 20..79 %
      coverage, wind shear 2..9, moisture 3..10, pattern confidence 70..99,
      and the wider weather ranges. */
  predicate ElsewherePattern(r: AnalysisResult)
  {
    && !r.riskLevel.Extreme?
    && r.cloudPattern.Some?
    && var p := r.cloudPattern.value;
    && !p.cloudBurstRisk.Extreme?
    && 20 <= p.coverage <= 79
    && p.windShear.Some? && 2 <= p.windShear.value <= 9
    && p.moistureContent.Some? && 3 <= p.moistureContent.value <= 10
    && p.confidence.Some? && 70 <= p.confidence.value <= 99
    && r.weather.Some?
    && var w := r.weather.value;
    && 15 <= w.temperature <= 39 && 40 <= w.humidity <= 79
    && 5 <= w.windSpeed <= 34 && 990 <= w.pressure <= 1039
  }

  /** A file named "flood_damage.jpg" is always reported as a flood. */
  lemma FloodDamageAlwaysDetected(filename: string, d: AnalysisDraws, pow: (real, real) -> real, timestamp: string)
    requires filename == "flood_damage.jpg"
    ensures MockAnalysis(Some(filename), d, pow, timestamp).floodDetected
  {
    ContainsAt(ToLower(filename), "flood", 0);
    FloodScoresPointEight(filename);
  }

  /** `simulateAnalysis`: run the progress loop, build the result, stop analysing. */
  method SimulateAnalysis(w: Uploader, filename: Option<string>, d: AnalysisDraws, pow: (real, real) -> real, timestamp: string)
    returns (result: AnalysisResult)
    modifies w
    ensures w.Valid()
    ensures !w.isAnalyzing && w.analysisProgress == 100
    ensures w.progressTrace == [0] + Intervals
    ensures w.uploadedImage == old(w.uploadedImage)
    ensures result == MockAnalysis(filename, d, pow, timestamp)
  {
    w.RunProgress();
    result := MockAnalysis(filename, d, pow, timestamp);
    w.FinishAnalysis();
  }

  /** `handleFiles` of this component: the same guards, then the richer
      analysis, which scores the name of the accepted file. */
  method HandleFiles(w: Uploader, files: seq<File>, dataUrl: string, d: AnalysisDraws, pow: (real, real) -> real, timestamp: string)
    returns (outcome: UploadOutcome<AnalysisResult>)
    requires w.Valid()
    modifies w
    ensures w.Valid()
    ensures ValidateUpload(files).Rejected? ==>
      outcome == Refused(ValidateUpload(files).error) && unchanged(w)
    ensures ValidateUpload(files).Accepted? ==>
      && outcome == Completed(MockAnalysis(Some(ValidateUpload(files).file.name), d, pow, timestamp))
      && w.uploadedImage == Some(dataUrl)
      && !w.isAnalyzing && w.analysisProgress == 100
      && w.progressTrace == [0] + Intervals
  {
    match ValidateUpload(files)
    case Rejected(e) =>
      outcome := Refused(e);
    case Accepted(file) =>
      w.ShowImage(dataUrl);
      var result := SimulateAnalysis(w, Some(file.name), d, pow, timestamp);
      outcome := Completed(result);
  }
}
