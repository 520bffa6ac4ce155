/** The records the components exchange (`CloudPattern`, `WeatherData`,
    `AnalysisResult`, `CloudburstRiskData`). Two different four-level scales
    are in use: an analysis says `Medium` where a cloudburst risk, a flood alert
    or a flood-risk report says `Moderate`. */
module Types {

  datatype Option<T> = None | Some(value: T)

  /** `'low' | 'medium' | 'high' | 'extreme'` of an analysis and a cloud pattern. */
  datatype RiskLevel = Low | Medium | High | Extreme

  /** `'low' | 'moderate' | 'high' | 'extreme'` of a cloudburst risk, an alert and a flood risk. */
  datatype Severity = Low | Moderate | High | Extreme

  datatype CloudType = Cumulus | Cumulonimbus | Stratus | Cirrus

  datatype CloudPattern = CloudPattern(
    detected: bool,
    cloudType: CloudType,
    cloudBurstRisk: RiskLevel,
    coverage: int,
    windShear: Option<int>,
    moistureContent: Option<int>,
    confidence: Option<int>)

  datatype WeatherData = WeatherData(
    temperature: int,
    humidity: int,
    windSpeed: int,
    pressure: int,
    location: string)

  datatype Location = Location(name: string, lat: real, lon: real)

  datatype AnalysisResult = AnalysisResult(
    floodDetected: bool,
    confidence: int,
    riskLevel: RiskLevel,
    affectedArea: int,
    timestamp: string,
    location: Location,
    cloudPattern: Option<CloudPattern>,
    weather: Option<WeatherData>)

  /** `cloudType` is a free string in the record type; the service only ever
      fills in a cloud type, so it is one here. */
  datatype CloudburstRiskData = CloudburstRiskData(
    risk: Severity,
    confidence: real,
    cloudType: Option<CloudType>,
    windShear: Option<real>,
    moistureContent: Option<real>)
}
