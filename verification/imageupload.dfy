/** The upload component (`ImageUpload`): validate the dropped files, show the
    image, step the progress bar, then hand a fabricated result to
    `onAnalysisComplete`. */
module ImageUpload {
  import opened Types
  import opened Random
  import opened UploadState

  /** `Math.random() > 0.6 ? 'high' : Math.random() > 0.3 ? 'medium' : 'low'`,
      the second draw read only when the first is at most 0.6. */
  function TieredRisk(first: Draw, second: Draw): (level: RiskLevel)
    ensures !level.Extreme?
    ensures level.High? <==> first > 0.6
    ensures level.Low? <==> first <= 0.6 && second <= 0.3
  {
    if first > 0.6 then RiskLevel.High else if second > 0.3 then Medium else RiskLevel.Low
  }

  /** Each of the three levels is produced by some pair of draws. */
  lemma TieredRiskReachesEveryLevel(level: RiskLevel)
    requires !level.Extreme?
    ensures exists first: Draw, second: Draw :: TieredRisk(first, second) == level
  {
    var high: Draw := 0.7;
    var low: Draw := 0.0;
    assert TieredRisk(high, low) == RiskLevel.High;
    assert TieredRisk(low, high) == Medium;
    assert TieredRisk(low, low) == RiskLevel.Low;
  }

  /** One draw per `Math.random()` call of the result literal, in source order. */
  datatype ResultDraws = ResultDraws(
    flood: Draw, confidence: Draw, riskFirst: Draw, riskSecond: Draw, area: Draw)

  /** The result literal of this component (no location, cloud pattern or weather). */
  datatype BasicResult = BasicResult(
    floodDetected: bool,
    confidence: int,
    riskLevel: RiskLevel,
    affectedArea: int,
    timestamp: string)

  /** `mockResult`: a coin flip for the flood, confidence 70..99, a tiered risk
      level and an affected area of 100..599. */
  function MockResult(d: ResultDraws, timestamp: string): (r: BasicResult)
    ensures r.floodDetected <==> d.flood > 0.5
    ensures 70 <= r.confidence <= 99
    ensures 100 <= r.affectedArea <= 599
    ensures !r.riskLevel.Extreme?
    ensures r.riskLevel.High? <==> d.riskFirst > 0.6
    ensures r.riskLevel == TieredRisk(d.riskFirst, d.riskSecond)
    ensures r.timestamp == timestamp
  {
    BasicResult(
      d.flood > 0.5,
      RandomInt(d.confidence, 30, 70),
      TieredRisk(d.riskFirst, d.riskSecond),
      RandomInt(d.area, 500, 100),
      timestamp)
  }

  /** `simulateAnalysis`: run the progress loop, build the result, stop analysing. */
  method SimulateAnalysis(w: Uploader, d: ResultDraws, timestamp: string) returns (result: BasicResult)
    modifies w
    ensures w.Valid()
    ensures !w.isAnalyzing && w.analysisProgress == 100
    ensures w.progressTrace == [0] + Intervals
    ensures w.uploadedImage == old(w.uploadedImage)
    ensures result == MockResult(d, timestamp)
  {
    w.RunProgress();
    result := MockResult(d, timestamp);
    w.FinishAnalysis();
  }

  /** `handleFiles`: a rejected upload leaves the state alone; an accepted one
      shows the image (`dataUrl`, what the file reader produced) and runs the
      analysis to completion. */
  method HandleFiles(w: Uploader, files: seq<File>, dataUrl: string, d: ResultDraws, timestamp: string)
    returns (outcome: UploadOutcome<BasicResult>)
    requires w.Valid()
    modifies w
    ensures w.Valid()
    ensures ValidateUpload(files).Rejected? ==>
      outcome == Refused(ValidateUpload(files).error) && unchanged(w)
    ensures ValidateUpload(files).Accepted? ==>
      && outcome == Completed(MockResult(d, timestamp))
      && w.uploadedImage == Some(dataUrl)
      && !w.isAnalyzing && w.analysisProgress == 100
      && w.progressTrace == [0] + Intervals
  {
    match ValidateUpload(files)
    case Rejected(e) =>
      outcome := Refused(e);
    case Accepted(_) =>
      w.ShowImage(dataUrl);
      var result := SimulateAnalysis(w, d, timestamp);
      outcome := Completed(result);
  }
}
