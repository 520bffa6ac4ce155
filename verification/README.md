# Cloudburst and flood detection front end, modelled in Dafny

The repository is a React front end. It lets a user drop a sky or terrain
photo and then shows a fabricated flood analysis. The model covers three parts
of it:

- **Upload components** (`ImageUpload` and its richer copy `backupupload`).
  - `handleFiles` picks the first image among the dropped files and rejects a
    drop with no image or a first image above 20 MiB.
  - `simulateAnalysis` steps a progress bar through
    10, 25, 45, 65, 80, 95, 100 and then builds a mock `AnalysisResult`.
  - `resetUpload` clears the state.
- **Backup analysis.** The backup component does more:
  - it picks one of six Uttarakhand locations;
  - it gives Dharali higher risk levels and its own reading ranges;
  - it decides whether there is a flood from a weighted sum of cloud, coverage,
    wind, water-body and terrain factors, a location bonus, and a keyword
    score taken from the filename (`analyzeImageForFlood`). A strong keyword
    (`flood`, `overflow` or `disaster`) forces a flood.
- **Flood service** (`floodService.ts`).
  - `getFloodAlerts` filters three built-in alerts. The region filter
    compares case-insensitively against the alert region, or looks for the
    query as a substring of an affected area. The cloudburst filter is
    optional.
  - `getCloudburstRisk` returns a random extreme, high or moderate report
    inside an open box around Dharali, and a fixed low-risk report elsewhere.
  - `getFloodRisk` returns a random risk level and confidence.

## Modelling choices

- **Randomness.** Each `Math.random()` call is a parameter of type
  `Random.Draw`, a real in [0, 1). `Math.floor(Math.random() * n) + lo`
  becomes `RandomInt(d, n, lo)`.
- **Injected values.** `Math.pow` is a function parameter `pow`. Values the
  program gets from the browser are passed in as parameters:
  - the clock reading (`new Date().toISOString()`);
  - the data URL that `FileReader` produces;
  - the filename being scored.
- **Component state.** The `useState` hooks that both components update
  (`uploadedImage`, `isAnalyzing`, `analysisProgress`) are the fields of the
  class `UploadState.Uploader`. A ghost field records every progress value
  since the last start or reset.
- **The loops** of `analyzeImageForFlood` and of the progress bar are
  methods with loop invariants. Each method is proved against a
  specification function (`KeywordScore`) or a specified final state.
- **Two behaviours of the code that are easy to misread:**
  - Only the final probability is capped at 0.95 (`backupupload.tsx`,
    line 160). The value before the cap, which is the weighted sum plus the
    location bonus, can exceed it (`UncappedSumCanExceedCap`).
  - The scan stops at the first matched term heavier than 0.7 (line 123,
    whose comment says so). So `flood_overflow.jpg` scores 0.8, not the
    table maximum 0.9. This changes the score but never the decision
    (`EarlyStopKeepsDecision`).

## Model

| member | source | states |
|---|---|---|
| Text.LowerChar | src/components/backupupload.tsx:115 | Upper-case ASCII letters map to their lower-case forms (code point + 32). Every other character is unchanged. The result is never an upper-case letter. |
| Text.ToLower | src/lib/api/floodService.ts:86-87 | `toLowerCase` keeps the length and leaves no upper-case letter. Each character equals the one it replaces when case is ignored. Together these fix the result. |
| Text.StartsWith | src/components/ImageUpload.tsx:33 | Defines `startsWith`: the first characters of `s` are `p`, compared one at a time. Its meaning is stated by `Text.StartsWithIsPrefix`. |
| Text.Contains | src/lib/api/floodService.ts:87 | Defines `includes`: `t` starts at some suffix of `s`. Its meaning is stated by `Text.ContainsIsWindow`. |
| Text.ToLowerIdempotent | src/components/backupupload.tsx:115 | Lower-casing twice is the same as lower-casing once. |
| Text.StartsWithIsPrefix | src/components/ImageUpload.tsx:33 | `startsWith(p)` holds exactly when `p` is the prefix of length `|p|`. |
| Text.ContainsIsWindow | src/components/backupupload.tsx:120 | `includes(t)` holds exactly when `t` appears as a contiguous window at some offset. |
| Text.ContainsAt | src/components/backupupload.tsx:120 | A window equal to `t` at any offset makes `includes(t)` true. |
| Text.ContainsChar | src/components/backupupload.tsx:120 | Every character of an included string occurs in the host string. |
| Text.LacksCharNotContains | src/lib/api/floodService.ts:87 | If the host string lacks one character of `t`, then it does not include `t`. |
| Text.LongerNotContained | src/lib/api/floodService.ts:87 | A string never includes a longer one. |
| Random.RandomInt | src/components/backupupload.tsx:86 | `Math.floor(r * n) + lo` lies in `lo .. lo + n - 1`. |
| Random.RandomIntMonotone | src/components/backupupload.tsx:86 | A larger draw never gives a smaller value. |
| Random.RandomIntCovers | src/components/backupupload.tsx:86 | Every value in `lo .. lo + n - 1` is produced by some draw. |
| UploadState.IsImage | src/components/ImageUpload.tsx:33 | Defines the image test: the MIME type starts with `image/`. |
| UploadState.FindImage | src/components/ImageUpload.tsx:33 | `find` returns the first file whose MIME type starts with `image/`. It returns nothing exactly when no file is an image. |
| UploadState.ValidateUpload | src/components/ImageUpload.tsx:32-51 | Three outcomes, each stated both ways. "Invalid File Type" happens exactly when there is no image. "File Too Large" happens exactly when the first image exceeds 20 MiB. Otherwise the first image is accepted. |
| UploadState.FirstImageUnique | src/components/ImageUpload.tsx:33 | There is at most one first image. |
| UploadState.LaterFilesIgnored | src/components/backupupload.tsx:35 | Once an image is present, files appended after it do not change the validation. |
| UploadState.FindImagePrefix | src/components/backupupload.tsx:35 | Once an image is present, files appended after it do not change what `find` returns. |
| UploadState.ExactLimitAccepted | src/components/backupupload.tsx:46 | The size guard is strict: an image of exactly 20 MiB is accepted. |
| UploadState.ProgressClimbsToFull | src/components/ImageUpload.tsx:66 | Starting at 0, the progress values strictly increase, stay within 1..100 and end at 100. |
| UploadState.Uploader.constructor | src/components/ImageUpload.tsx:13-15 | Initial state: no image, not analysing, progress 0, and the state invariant holds. |
| UploadState.Uploader.ShowImage | src/components/ImageUpload.tsx:55 | Sets the image to the data URL. Nothing else changes. |
| UploadState.Uploader.RunProgress | src/components/ImageUpload.tsx:62-71 | Starts the analysis and resets progress to 0. Progress then takes each interval value in order. It ends at 100 with the record `[0] + intervals`, and the invariant holds. |
| UploadState.Uploader.FinishAnalysis | src/components/ImageUpload.tsx:82 | Stops analysing. The image and the progress stay as they were. |
| UploadState.Uploader.ResetUpload | src/components/ImageUpload.tsx:92-96 | Whatever the state before, clears the image, stops analysing and sets progress to 0. The invariant is restored. |
| ImageUpload.TieredRisk | src/components/ImageUpload.tsx:77 | Never extreme. High exactly when the first draw exceeds 0.6. Low exactly when neither draw passes its threshold. |
| ImageUpload.TieredRiskReachesEveryLevel | src/components/ImageUpload.tsx:77 | Each of low, medium and high is produced by some draws. |
| ImageUpload.MockResult | src/components/ImageUpload.tsx:74-80 | Flood exactly when the draw exceeds 0.5. Confidence 70..99, area 100..599. The risk is the tiered draw: never extreme, and high exactly when the first risk draw exceeds 0.6. The timestamp is the one passed in. |
| ImageUpload.SimulateAnalysis | src/components/ImageUpload.tsx:61-83 | Runs the full progress sequence, stops analysing, keeps the image and returns `MockResult` of the draws. |
| ImageUpload.HandleFiles | src/components/ImageUpload.tsx:32-59 | A rejected drop returns its notice and leaves the state unchanged. An accepted drop shows the image and completes the analysis with `MockResult`. |
| FloodKeywords.KeywordScore | src/components/backupupload.tsx:99-128 | Defines the score the loop computes: the largest matched weight among the table entries up to and including the first strong match (the whole table if there is none). Its properties are the `FloodKeywords` lemmas below. |
| FloodKeywords.AnalyzeImageForFlood | src/components/backupupload.tsx:99-128 | The loop (empty name 0, table order, running maximum, break on weight > 0.7) computes `KeywordScore`, the largest matched weight up to and including the first strong term. |
| FloodKeywords.FirstStrongFrom | src/components/backupupload.tsx:119-123 | Finds the first table entry at or after `i` that matches with weight > 0.7, or reports that there is none. |
| FloodKeywords.MaxMatchedIsMatchedWeight | src/components/backupupload.tsx:121 | The running maximum is 0 or the weight of a matched term. |
| FloodKeywords.MaxMatchedIsLeastBound | src/components/backupupload.tsx:121 | The running maximum is at least every matched weight and at most any bound on them. |
| FloodKeywords.MaxMatchedBelowStrong | src/components/backupupload.tsx:123 | Without a strong match, the running maximum stays at or below 0.7. |
| FloodKeywords.ScanStopsAt | src/components/backupupload.tsx:119-125 | Where the loop leaves (at the break or at the end of the table), its maximum equals `KeywordScore`. |
| FloodKeywords.TableWeights | src/components/backupupload.tsx:102-113 | Every weight lies in 0.4..0.9. Exactly flood, overflow and disaster weigh more than 0.7. |
| FloodKeywords.NoTermScoresZero | src/components/backupupload.tsx:116-127 | A name with no term scores 0. |
| FloodKeywords.EmptyScoresZero | src/components/backupupload.tsx:100 | The empty name scores 0. |
| FloodKeywords.ScoreIsMatchedWeight | src/components/backupupload.tsx:116-127 | The score is 0 or the weight of a term in the name, so it lies in 0..0.9. |
| FloodKeywords.StrongScoreIsFirstStrongWeight | src/components/backupupload.tsx:122-123 | When a strong term occurs, the score is the weight of the first one in table order. |
| FloodKeywords.WeakScoreBounded | src/components/backupupload.tsx:119-125 | Without a strong term, the score is at most 0.7. |
| FloodKeywords.StrongScoreIff | src/components/backupupload.tsx:102-123 | The score exceeds 0.7 exactly when the lower-cased name contains flood, overflow or disaster. |
| FloodKeywords.EarlyStopBelowFullMax | src/components/backupupload.tsx:122-123 | The early stop never raises the score above the maximum over the whole table. It leaves the score above 0.7 exactly when that maximum is above 0.7. |
| FloodKeywords.FloodScoresPointEight | src/components/backupupload.tsx:103 | Any name containing "flood" scores 0.8. |
| FloodKeywords.ScoreIgnoresCase | src/components/backupupload.tsx:115 | Lower-casing the name first does not change the score. |
| FloodKeywords.FloodOverflowScoresPointEight | src/components/backupupload.tsx:103-123 | "flood_overflow.jpg" scores 0.8, not overflow's 0.9, because the scan stops at flood. |
| FloodKeywords.WaterFloodScoresPointEight | src/components/backupupload.tsx:103-123 | "water_flood.png" scores 0.8: table order decides, not position in the name. |
| FloodKeywords.UpperCaseScoresLikeLowerCase | src/components/backupupload.tsx:115 | "FLOOD.JPG" and "flood.jpg" both score 0.8. |
| BackupUpload.IsDharali | src/components/backupupload.tsx:87 | Defines `isDharali`: the location name includes "Dharali". Which locations satisfy it is stated by `BackupUpload.OnlyFirstLocationIsDharali`. |
| BackupUpload.OnlyFirstLocationIsDharali | src/components/backupupload.tsx:77-87 | Of the six locations, exactly the first has "Dharali" in its name. |
| BackupUpload.NotDharaliName | src/components/backupupload.tsx:79-83 | None of the other five names includes "Dharali". |
| BackupUpload.DharaliChosenBelowOneSixth | src/components/backupupload.tsx:86-87 | Dharali is chosen exactly when the location draw is below 1/6. |
| BackupUpload.PickLocation | src/components/backupupload.tsx:86 | The chosen location is one of the six. |
| BackupUpload.CloudburstLevel | src/components/backupupload.tsx:90-92 | Dharali: extreme exactly when the draw exceeds 0.3, otherwise high. Elsewhere: never extreme, high exactly when the first draw exceeds 0.7, and low exactly when neither draw passes its threshold (0.7, then 0.4). |
| BackupUpload.AnalysisRisk | src/components/backupupload.tsx:94-96 | Dharali: high exactly when the draw exceeds 0.3, otherwise extreme. Elsewhere: the same tiered draw as the simple component, never extreme. |
| BackupUpload.DecisionReadings | src/components/backupupload.tsx:170-172 | Dharali: cumulonimbus, coverage 70..99 and wind shear 10..19. Elsewhere: coverage 20..79 and wind shear 2..9. |
| BackupUpload.ImageScore | src/components/backupupload.tsx:133 | The image score lies in 0..0.9 and is 0 without a file. |
| BackupUpload.CloudFactor | src/components/backupupload.tsx:135-136 | Defines `cloudFactor`: 0.8 for cumulonimbus, 0.3 otherwise. The unreachable `nimbostratus` arm is listed under Left out. |
| BackupUpload.WeightedSum | src/components/backupupload.tsx:139-154 | Defines `floodProbability`, the weighted sum of the cloud, coverage, wind, water-body and terrain factors, with `Math.pow` passed in. Its bounds are stated by `BackupUpload.FinalProbabilityAtLeastBonus` and `BackupUpload.UncappedSumCanExceedCap`. |
| BackupUpload.FinalProbability | src/components/backupupload.tsx:157-160 | The minimum of 0.95 and the uncapped value (the sum plus the location bonus, 0.5 or 0.15, plus half the image score). It is at most both, and equal to one of them. |
| BackupUpload.IsFloodLikely | src/components/backupupload.tsx:163-167 | Defines the decision: true when the image score exceeds 0.7, otherwise whether the decision draw is below the final probability. Its properties are stated by the four lemmas below. |
| BackupUpload.StrongImageForcesFlood | src/components/backupupload.tsx:163-165 | An image score above 0.7 returns true whatever the probability and the draw. |
| BackupUpload.HighDrawNeedsKeyword | src/components/backupupload.tsx:160-167 | With a decision draw of 0.95 or more, there is a flood exactly when the image score exceeds 0.7. |
| BackupUpload.EarlyStopKeepsDecision | src/components/backupupload.tsx:122-167 | Scoring with the full-table maximum instead of the early-stopped score would give the same decision. |
| BackupUpload.DecisionMonotone | src/components/backupupload.tsx:167 | A smaller decision draw reports a flood whenever a larger one does. |
| BackupUpload.FinalProbabilityAtLeastBonus | src/components/backupupload.tsx:135-160 | If `Math.pow` of a non-negative base is non-negative, the final probability is at least the location bonus. |
| BackupUpload.UncappedSumCanExceedCap | src/components/backupupload.tsx:149-160 | At Dharali with water bodies and rough terrain, the weighted sum of the drawn readings plus the Dharali bonus exceeds 0.95 whenever `Math.pow` of a non-negative base is non-negative. Only the final value is capped. |
| BackupUpload.FloodDecision | src/components/backupupload.tsx:170-174 | Defines `floodDetected`: the chosen location, its readings and the filename score fed through `isFloodLikely`. It is connected to the result by `BackupUpload.MockAnalysis`. |
| BackupUpload.MockAnalysis | src/components/backupupload.tsx:176-203 | The location is one of the six. A strong filename keyword forces a flood. Confidence is 85..99 with a flood and 65..89 without. Affected area is 200..999 (Dharali flood), 100..599 (other flood) or 0..99 (no flood). The pattern and weather are present and named after the location. The Dharali and elsewhere ranges hold for every pattern and weather field. |
| BackupUpload.FloodDamageAlwaysDetected | src/components/backupupload.tsx:99-165 | A file named "flood_damage.jpg" is reported as a flood for every draw. |
| BackupUpload.SimulateAnalysis | src/components/backupupload.tsx:63-205 | Runs the full progress sequence, stops analysing, keeps the image and returns `MockAnalysis`. |
| BackupUpload.HandleFiles | src/components/backupupload.tsx:34-61 | A rejected drop leaves the state unchanged. An accepted drop shows the image and completes with the analysis of the accepted file's name. |
| FloodService.Filter | src/lib/api/floodService.ts:85-95 | Defines `Array.prototype.filter`. Its properties are stated by `FloodService.FilterKeepsPassing`. |
| FloodService.SubsequenceReflexive | src/lib/api/floodService.ts:82 | The copied list is a subsequence of the original. |
| FloodService.SubsequenceTransitive | src/lib/api/floodService.ts:84-96 | Two successive filters still give a subsequence of the original. |
| FloodService.FilterKeepsPassing | src/lib/api/floodService.ts:85 | `filter` returns a subsequence holding exactly the elements that pass the test. |
| FloodService.FilterKeepsAll | src/lib/api/floodService.ts:85 | A test every element passes keeps the whole list. |
| FloodService.FilterThree | src/lib/api/floodService.ts:92 | Filtering three elements keeps each one that passes, in order. |
| FloodService.RegionGiven | src/lib/api/floodService.ts:84 | Defines the `if (region)` test: a region is given and it is not empty. |
| FloodService.RegionMatches | src/lib/api/floodService.ts:85-88 | Defines the region test: the lower-cased region equals the lower-cased query, or some lower-cased area includes it. |
| FloodService.CloudburstAlert | src/lib/api/floodService.ts:92-95 | Defines the cloudburst test: the event is a cloudburst, or the cloud data is cumulonimbus of high intensity. |
| FloodService.FilterAlerts | src/lib/api/floodService.ts:82-98 | The result is a subsequence. An alert is in it exactly when it passes the region test (if a non-empty region is given) and the cloudburst test (if requested). |
| FloodService.GetFloodAlerts | src/lib/api/floodService.ts:75-99 | A subsequence of the built-in alerts. With the cloudburst check, every alert returned is a cloudburst alert. |
| FloodService.NoFilterReturnsAll | src/lib/api/floodService.ts:82-84 | With no region (or an empty one) and no cloudburst check, all alerts come back in order. |
| FloodService.CloudburstCheckKeepsFirstAlert | src/lib/api/floodService.ts:27-96 | The cloudburst check keeps only the Dharali warning. |
| FloodService.UttarakhandMatchesRegion | src/lib/api/floodService.ts:86 | "UTTARAKHAND" matches the region of the first two alerts, ignoring case. |
| FloodService.UttarakhandMissesKerala | src/lib/api/floodService.ts:86-87 | "UTTARAKHAND" matches neither the Kerala alert's region nor its areas. |
| FloodService.RegionQueryIgnoresCase | src/lib/api/floodService.ts:84-88 | The query "UTTARAKHAND" returns exactly the first two alerts. |
| FloodService.LacksCharNoMatch | src/lib/api/floodService.ts:86-87 | An alert whose region and areas all lack one letter of the lower-cased query does not match it. |
| FloodService.GangMatchesGangotri | src/lib/api/floodService.ts:87 | "gang" matches the Dharali alert through its area Gangotri. |
| FloodService.GangMissesAlert | src/lib/api/floodService.ts:86-87 | "gang" matches neither of the other two alerts. |
| FloodService.AreaSubstringMatches | src/lib/api/floodService.ts:84-88 | The query "gang" returns exactly the Dharali alert. |
| FloodService.NearDharali | src/lib/api/floodService.ts:109 | Defines `isNearDharali`: the open box 30.9 < lat < 31.1 and 78.3 < lon < 78.5. |
| FloodService.GetCloudburstRisk | src/lib/api/floodService.ts:101-134 | Inside the open box around Dharali the report is never low: extreme exactly when the first draw exceeds 0.7, high exactly when the first draw does not and the second exceeds 0.4. Confidence is 70..99, cloud cumulonimbus, wind shear 10..19 and moisture 10..14. Outside the box the report is the fixed low-risk cumulus one. |
| FloodService.LowRiskExactlyOutsideBox | src/lib/api/floodService.ts:109-128 | The risk is low exactly outside the box. |
| FloodService.BoxEdgeIsOutside | src/lib/api/floodService.ts:109 | The bounds are strict: latitude 30.9 or 31.1 gets the default report. |
| FloodService.DharaliAlertInBox | src/lib/api/floodService.ts:46-109 | The Dharali alert's first coordinate lies inside the box. |
| FloodService.InBoxConfidenceExceedsDefault | src/lib/api/floodService.ts:119-129 | In-box confidence is a percentage and the default is the fraction 0.85, so every in-box confidence exceeds the default. |
| FloodService.GetFloodRisk | src/lib/api/floodService.ts:143-162 | The risk is low exactly when the draw is below 0.25, and extreme exactly when it is 0.75 or more. Confidence is 40..99, the four factors are fixed and the timestamp is the one passed in. |
| FloodService.FloodRiskIgnoresCoordinates | src/lib/api/floodService.ts:143-161 | The coordinates do not affect the report. |
| FloodService.FloodRiskQuarters | src/lib/api/floodService.ts:148-149 | Level `i` is picked exactly when the draw lies in the i-th quarter of [0, 1). |

## Left out

- Probabilities and call order: each random call is an independent
  parameter. The model says nothing about the distribution beyond which
  draws lead to which outcome, and does not fix how many calls a
  short-circuited conditional makes.
- Floating point: the model uses exact reals. `Math.pow` is an arbitrary
  injected function, and rounding of `0.4 * x` and similar products is not
  modelled.
- Browser and timing effects: `FileReader`, `toast`, `setTimeout`,
  `console.log`, `new Date()`, `onAnalysisComplete`, and the `async`
  interleaving of an upload with a reset while the analysis runs. Each state
  change is modelled as happening at once.
- `toLowerCase` beyond ASCII: only `A`..`Z` are lower-cased.
- `FloodAlert.issuedAt` and `validUntil` are clock readings and are not kept.
- `getIMDFloodData` and `getBOMFloodData` only throw "not implemented", so
  they are not modelled.
- Other code is not part of this model: `weatherService.ts`, the
  dashboard, the result views, and all rendering and drag-and-drop event
  handling.
- BackupUpload.CloudFactor: the `'nimbostratus'` arm (0.7) is dropped. The
  cloud type always comes from the four-element list, so that arm can never
  be reached.
- The cloud-pattern fields of the backup result are drawn again,
  independently of the readings used for the flood decision, exactly as in
  the code. The model proves no link between the two.
- Four range comments in `floodService.ts` disagree with the code:
  - line 119 says "70-100%", and the model proves 70..99;
  - line 121 says "10-20 m/s", and the model proves 10..19;
  - line 122 says "10-15 g/m³", and the model proves 10..14;
  - line 153 says "40-100%", and the model proves 40..99.

  `Math.floor(Math.random() * n)` never reaches `n`.
- BackupUpload.MockAnalysis: `isFloodLikely` (backupupload.tsx, line 133)
  reads a `file` that is not in scope anywhere in the component. As
  written, the first call of `isFloodLikely` throws a `ReferenceError`.
  `simulateAnalysis` then never reaches `setIsAnalyzing(false)` (line 205)
  or `onAnalysisComplete` (line 206). The model describes the evident
  intent instead: it scores a filename passed in as an `Option`, and `None`
  gives an image score of 0.
- BackupUpload.SimulateAnalysis: it models the evidently intended run,
  which ends analysing and returns a result. As written, the run stops at
  line 133 with the progress at 100 and `isAnalyzing` still true.
- BackupUpload.HandleFiles: it passes the accepted file's name to the
  analysis, the binding that line 133 lacks. As written, the analysis never
  completes.
