/** The mock flood service: filtering the built-in alert list, the
    coordinate-based cloudburst risk, and the flood-risk report. */
module FloodService {
  import opened Types
  import opened Text
  import opened Random

  datatype Source = IMD | BOM | Local
  datatype EventType = Flood | Cloudburst
  datatype Intensity = Low | Moderate | High

  datatype CloudData = CloudData(
    cloudType: CloudType,
    intensity: Intensity,
    coverage: int,
    windShear: real,
    moistureContent: real)

  datatype Coordinates = Coordinates(lat: real, lon: real)

  /** A `FloodAlert` (its `issuedAt` and `validUntil` clock readings are not kept). */
  datatype FloodAlert = FloodAlert(
    id: string,
    region: string,
    severity: Severity,
    description: string,
    affectedAreas: seq<string>,
    coordinates: Option<seq<Coordinates>>,
    source: Source,
    eventType: Option<EventType>,
    cloudData: Option<CloudData>)

  /** `mockFloodAlerts` */
  const MockFloodAlerts: seq<FloodAlert> := [
    FloodAlert(
      "alert-1", "Uttarakhand", Severity.Extreme,
      "Cloudburst warning for Dharali, Uttarkashi. Extremely heavy rainfall expected within a short duration.",
      ["Dharali", "Gangotri", "Harsil"],
      Some([Coordinates(31.0169, 78.3831), Coordinates(30.9944, 78.4419), Coordinates(31.0393, 78.6068)]),
      Local, Some(Cloudburst),
      Some(CloudData(Cumulonimbus, Intensity.High, 95, 15.5, 12.8))),
    FloodAlert(
      "alert-2", "Uttarakhand", Severity.High,
      "Heavy rainfall expected in the region with potential for flash floods.",
      ["Dehradun", "Haridwar", "Rishikesh"],
      None, IMD, Some(Flood), None),
    FloodAlert(
      "alert-3", "Kerala", Severity.Moderate,
      "Moderate flood warning issued for low-lying areas.",
      ["Ernakulam", "Alappuzha"],
      None, IMD, Some(Flood), None)
  ]

  /** `r` is `s` with some elements left out, the rest in their original order. */
  predicate IsSubsequence<T(==)>(r: seq<T>, s: seq<T>)
  {
    if r == [] then true
    else if s == [] then false
    else (r[0] == s[0] && IsSubsequence(r[1..], s[1..])) || IsSubsequence(r, s[1..])
  }

  /** Every sequence is a subsequence of itself. */
  lemma {:induction false} SubsequenceReflexive<T>(s: seq<T>)
    ensures IsSubsequence(s, s)
  {
    if s != [] {
      SubsequenceReflexive(s[1..]);
    }
  }

  /** Dropping elements twice still drops elements. */
  lemma {:induction false} SubsequenceTransitive<T>(a: seq<T>, b: seq<T>, c: seq<T>)
    requires IsSubsequence(a, b) && IsSubsequence(b, c)
    ensures IsSubsequence(a, c)
    decreases |c|
  {
    if a != [] {
      if b[0] == c[0] && IsSubsequence(b[1..], c[1..]) {
        if a[0] == b[0] && IsSubsequence(a[1..], b[1..]) {
          SubsequenceTransitive(a[1..], b[1..], c[1..]);
        } else {
          SubsequenceTransitive(a, b[1..], c[1..]);
        }
      } else {
        SubsequenceTransitive(a, b, c[1..]);
      }
    }
  }

  /** `Array.prototype.filter`: the elements satisfying `keep`, in order. */
  function Filter<T>(s: seq<T>, keep: T -> bool): seq<T>
  {
    if s == [] then []
    else if keep(s[0]) then [s[0]] + Filter(s[1..], keep)
    else Filter(s[1..], keep)
  }

  /** `filter` keeps exactly the elements that pass, in their original order. */
  lemma {:induction false} FilterKeepsPassing<T>(s: seq<T>, keep: T -> bool)
    ensures IsSubsequence(Filter(s, keep), s)
    ensures forall x :: x in Filter(s, keep) <==> x in s && keep(x)
  {
    if s != [] {
      FilterKeepsPassing(s[1..], keep);
      if keep(s[0]) {
        assert ([s[0]] + Filter(s[1..], keep))[1..] == Filter(s[1..], keep);
      }
    }
  }

  /** Filtering with a test every element passes changes nothing. */
  lemma {:induction false} FilterKeepsAll<T>(s: seq<T>, keep: T -> bool)
    requires forall x :: x in s ==> keep(x)
    ensures Filter(s, keep) == s
  {
    if s != [] {
      FilterKeepsAll(s[1..], keep);
    }
  }

  /** The region test: the region equals the query ignoring case, or some
      affected area contains it ignoring case. */
  predicate RegionMatches(alert: FloodAlert, region: string)
  {
    || ToLower(alert.region) == ToLower(region)
    || exists k :: 0 <= k < |alert.affectedAreas| && Contains(ToLower(alert.affectedAreas[k]), ToLower(region))
  }

  /** The cloudburst test: a cloudburst event, or high-intensity cumulonimbus cloud. */
  predicate CloudburstAlert(alert: FloodAlert)
  {
    || alert.eventType == Some(Cloudburst)
    || (alert.cloudData.Some? && alert.cloudData.value.cloudType == Cumulonimbus
        && alert.cloudData.value.intensity == Intensity.High)
  }

  /** `region` is given and not the empty string (the `if (region)` test). */
  predicate RegionGiven(region: Option<string>)
  {
    region.Some? && region.value != ""
  }

  /** The filtering of `getFloodAlerts`, over any alert list. */
  function FilterAlerts(alerts: seq<FloodAlert>, region: Option<string>, checkCloudburst: bool): (r: seq<FloodAlert>)
    ensures IsSubsequence(r, alerts)
    ensures forall a :: a in r <==>
      && a in alerts
      && (RegionGiven(region) ==> RegionMatches(a, region.value))
      && (checkCloudburst ==> CloudburstAlert(a))
  {
    var byRegion := (
      if RegionGiven(region) then
        FilterKeepsPassing(alerts, a => RegionMatches(a, region.value));
        Filter(alerts, a => RegionMatches(a, region.value))
      else
        SubsequenceReflexive(alerts);
        alerts);
    var result := (
      if checkCloudburst then
        FilterKeepsPassing(byRegion, CloudburstAlert);
        Filter(byRegion, CloudburstAlert)
      else
        SubsequenceReflexive(byRegion);
        byRegion);
    SubsequenceTransitive(result, byRegion, alerts);
    result
  }

  /** `getFloodAlerts`: the mock alerts that pass the requested filters. */
  function GetFloodAlerts(region: Option<string>, checkCloudburst: bool): (r: seq<FloodAlert>)
    ensures IsSubsequence(r, MockFloodAlerts)
    ensures checkCloudburst ==> forall a :: a in r ==> CloudburstAlert(a)
  {
    FilterAlerts(MockFloodAlerts, region, checkCloudburst)
  }

  /** With no region (or an empty one) and no cloudburst check, every alert
      comes back, in its original order. */
  lemma NoFilterReturnsAll(region: Option<string>)
    requires !RegionGiven(region)
    ensures GetFloodAlerts(region, false) == MockFloodAlerts
  {
  }

  /** Filtering a three-element list, element by element. */
  lemma FilterThree<T>(s: seq<T>, keep: T -> bool)
    requires |s| == 3
    ensures Filter(s, keep) ==
      (if keep(s[0]) then [s[0]] else []) + (if keep(s[1]) then [s[1]] else []) + (if keep(s[2]) then [s[2]] else [])
  {
    var rest := s[1..];
    var last := rest[1..];
    assert last == [s[2]] && last[1..] == [];
    assert Filter(last, keep) == if keep(s[2]) then [s[2]] else [];
    assert Filter(rest, keep) == (if keep(s[1]) then [s[1]] else []) + Filter(last, keep);
  }

  /** Of the mock alerts only the Dharali cloudburst warning passes the cloudburst check. */
  lemma CloudburstCheckKeepsFirstAlert()
    ensures GetFloodAlerts(None, true) == [MockFloodAlerts[0]]
  {
    var alerts := MockFloodAlerts;
    assert CloudburstAlert(alerts[0]);
    assert !CloudburstAlert(alerts[1]) && !CloudburstAlert(alerts[2]);
    FilterThree(alerts, CloudburstAlert);
  }

  /** "UTTARAKHAND" equals the region of the first two alerts ignoring case. */
  lemma UttarakhandMatchesRegion(query: string, i: nat)
    requires query == "UTTARAKHAND" && i < 2
    ensures RegionMatches(MockFloodAlerts[i], query)
  {
    assert ToLower(query) == "uttarakhand";
    assert ToLower(MockFloodAlerts[i].region) == "uttarakhand";
  }

  /** "UTTARAKHAND" is longer than the Kerala alert's region and areas. */
  lemma UttarakhandMissesKerala(query: string)
    requires query == "UTTARAKHAND"
    ensures !RegionMatches(MockFloodAlerts[2], query)
  {
    var a := MockFloodAlerts[2];
    var q := ToLower(query);
    assert |q| == 11 && |ToLower(a.region)| == 6;
    forall k | 0 <= k < |a.affectedAreas|
      ensures !Contains(ToLower(a.affectedAreas[k]), q)
    {
      LongerNotContained(ToLower(a.affectedAreas[k]), q);
    }
  }

  /** A region query matches the alert region ignoring case: "UTTARAKHAND"
      keeps both Uttarakhand alerts and drops the Kerala one. */
  lemma RegionQueryIgnoresCase(query: string)
    requires query == "UTTARAKHAND"
    ensures GetFloodAlerts(Some(query), false) == MockFloodAlerts[..2]
  {
    UttarakhandMatchesRegion(query, 0);
    UttarakhandMatchesRegion(query, 1);
    UttarakhandMissesKerala(query);
    FilterThree(MockFloodAlerts, x => RegionMatches(x, query));
  }

  /** An alert whose region and affected areas all lack one letter of the
      query (ignoring case) does not match it. */
  lemma LacksCharNoMatch(alert: FloodAlert, query: string, j: nat)
    requires j < |query|
    requires LowerChar(query[j]) !in ToLower(alert.region)
    requires forall k :: 0 <= k < |alert.affectedAreas| ==> LowerChar(query[j]) !in ToLower(alert.affectedAreas[k])
    ensures !RegionMatches(alert, query)
  {
    var q := ToLower(query);
    assert q[j] == LowerChar(query[j]);
    assert ToLower(alert.region) != q;
    forall k | 0 <= k < |alert.affectedAreas|
      ensures !Contains(ToLower(alert.affectedAreas[k]), q)
    {
      LacksCharNotContains(ToLower(alert.affectedAreas[k]), q, j);
    }
  }

  /** "gang" is part of Gangotri, an area of the Dharali alert. */
  lemma GangMatchesGangotri(query: string)
    requires query == "gang"
    ensures RegionMatches(MockFloodAlerts[0], query)
  {
    var q := ToLower(query);
    assert q == "gang";
    var gangotri := ToLower(MockFloodAlerts[0].affectedAreas[1]);
    assert gangotri[0..4] == q;
    ContainsAt(gangotri, q, 0);
  }

  /** No name in the other two alerts has a 'g'. */
  lemma GangMissesAlert(query: string, i: nat)
    requires query == "gang" && 1 <= i < 3
    ensures !RegionMatches(MockFloodAlerts[i], query)
  {
    var a := MockFloodAlerts[i];
    assert LowerChar(query[0]) == 'g';
    assert 'g' !in ToLower(a.region);
    forall k | 0 <= k < |a.affectedAreas|
      ensures 'g' !in ToLower(a.affectedAreas[k])
    {
    }
    LacksCharNoMatch(a, query, 0);
  }

  /** A region query also matches part of an affected area: "gang" (part of
      Gangotri) keeps only the Dharali warning. */
  lemma AreaSubstringMatches(query: string)
    requires query == "gang"
    ensures GetFloodAlerts(Some(query), false) == [MockFloodAlerts[0]]
  {
    GangMatchesGangotri(query);
    GangMissesAlert(query, 1);
    GangMissesAlert(query, 2);
    FilterThree(MockFloodAlerts, x => RegionMatches(x, query));
  }

  /** `getCloudburstRisk`'s box around Dharali, with strict bounds. */
  predicate NearDharali(lat: real, lon: real)
  {
    30.9 < lat < 31.1 && 78.3 < lon < 78.5
  }

  /** The draws `getCloudburstRisk` makes inside the box, in call order. */
  datatype CloudburstDraws = CloudburstDraws(
    riskFirst: Draw, riskSecond: Draw, confidence: Draw, windShear: Draw, moisture: Draw)

  /** `getCloudburstRisk`: inside the box a random extreme/high/moderate risk
      with cumulonimbus readings; elsewhere a fixed low-risk cumulus report. */
  function GetCloudburstRisk(lat: real, lon: real, d: CloudburstDraws): (r: CloudburstRiskData)
    ensures NearDharali(lat, lon) ==>
      && r.risk != Severity.Low
      && (r.risk == Severity.Extreme <==> d.riskFirst > 0.7)
      && (r.risk == Severity.High <==> d.riskFirst <= 0.7 && d.riskSecond > 0.4)
      && 70.0 <= r.confidence <= 99.0
      && r.cloudType == Some(Cumulonimbus)
      && r.windShear.Some? && 10.0 <= r.windShear.value <= 19.0
      && r.moistureContent.Some? && 10.0 <= r.moistureContent.value <= 14.0
    ensures !NearDharali(lat, lon) ==>
      r == CloudburstRiskData(Severity.Low, 0.85, Some(Cumulus), Some(5.2), Some(7.3))
  {
    if NearDharali(lat, lon) then
      var risk := if d.riskFirst > 0.7 then Severity.Extreme
                  else if d.riskSecond > 0.4 then Severity.High
                  else Severity.Moderate;
      CloudburstRiskData(
        risk,
        RandomInt(d.confidence, 30, 70) as real,
        Some(Cumulonimbus),
        Some(RandomInt(d.windShear, 10, 10) as real),
        Some(RandomInt(d.moisture, 5, 10) as real))
    else
      CloudburstRiskData(Severity.Low, 0.85, Some(Cumulus), Some(5.2), Some(7.3))
  }

  /** The risk is low exactly outside the box, whatever the draws. */
  lemma LowRiskExactlyOutsideBox(lat: real, lon: real, d: CloudburstDraws)
    ensures GetCloudburstRisk(lat, lon, d).risk == Severity.Low <==> !NearDharali(lat, lon)
  {
  }

  /** The box is open: a point on its edge gets the default report. */
  lemma BoxEdgeIsOutside(lon: real, d: CloudburstDraws)
    ensures GetCloudburstRisk(30.9, lon, d).risk == Severity.Low
    ensures GetCloudburstRisk(31.1, lon, d).risk == Severity.Low
  {
  }

  /** The Dharali alert's first coordinate lies in the box. */
  lemma DharaliAlertInBox(d: CloudburstDraws)
    ensures MockFloodAlerts[0].coordinates.Some?
    ensures var c := MockFloodAlerts[0].coordinates.value[0];
      GetCloudburstRisk(c.lat, c.lon, d).risk != Severity.Low
  {
  }

  /** Inside the box the confidence is a percentage (70 to 99), outside it
      the fraction 0.85: every in-box confidence exceeds the default one. */
  lemma InBoxConfidenceExceedsDefault(lat: real, lon: real, d: CloudburstDraws)
    requires NearDharali(lat, lon)
    ensures GetCloudburstRisk(lat, lon, d).confidence > GetCloudburstRisk(31.5, lon, d).confidence
  {
  }

  /** `FloodRiskData`. */
  datatype FloodRiskData = FloodRiskData(riskLevel: Severity, confidence: int, factors: seq<string>, updatedAt: string)

  const RiskLevels: seq<Severity> := [Severity.Low, Severity.Moderate, Severity.High, Severity.Extreme]

  const RiskFactors: seq<string> :=
    ["Elevation data", "Historical flood data", "Current weather conditions", "River levels"]

  /** `getFloodRisk`: a uniformly drawn risk level and a confidence of 40 to
      99, whatever the coordinates; `updatedAt` is the clock reading passed in. */
  function GetFloodRisk(lat: real, lon: real, riskDraw: Draw, confidenceDraw: Draw, timestamp: string): (r: FloodRiskData)
    ensures r.riskLevel == Severity.Low <==> riskDraw < 0.25
    ensures r.riskLevel == Severity.Extreme <==> riskDraw >= 0.75
    ensures 40 <= r.confidence <= 99
    ensures r.factors == RiskFactors
    ensures r.updatedAt == timestamp
  {
    var k := RandomInt(riskDraw, |RiskLevels|, 0);
    assert k == 0 <==> riskDraw < 0.25;
    assert k == 3 <==> riskDraw >= 0.75;
    FloodRiskData(
      RiskLevels[k],
      RandomInt(confidenceDraw, 60, 40),
      RiskFactors,
      timestamp)
  }

  /** The coordinates do not influence `getFloodRisk`. */
  lemma FloodRiskIgnoresCoordinates(lat: real, lon: real, lat': real, lon': real, r: Draw, c: Draw, timestamp: string)
    ensures GetFloodRisk(lat, lon, r, c, timestamp) == GetFloodRisk(lat', lon', r, c, timestamp)
  {
  }

  /** Every risk level is reachable: the draw picks level `i` exactly when it
      lies in the i-th quarter of [0, 1). */
  lemma {:induction false} FloodRiskQuarters(lat: real, lon: real, r: Draw, c: Draw, timestamp: string, i: nat)
    requires i < 4
    ensures GetFloodRisk(lat, lon, r, c, timestamp).riskLevel == RiskLevels[i] <==>
      i as real / 4.0 <= r < (i + 1) as real / 4.0
  {
    var k := RandomInt(r, 4, 0);
    assert k == (r * 4.0).Floor;
    assert RiskLevels[k] == RiskLevels[i] <==> k == i;
  }
}
