# Exoplanet analyzer: a Dafny model of the client-side logic

The exoplanet-hunting web client is mostly presentation code. This project
models the three pieces of it that carry logic:

- **`MockData`** (`mock_data.dfy`) models the mock candidate registry and
  `predictPlanet`. It also models the two synthetic chart generators.
  `generateLightCurve` makes a 100-sample raw light curve with periodic
  transit dips and a detrended copy. `generateFoldedCurve` makes a
  200-sample phase-folded curve with one transit centred at phase 0.5.
  The generators are methods whose loops build the sample list. Each is
  proved against a per-sample specification written on integers:
  - raw curve: a sample is in transit exactly when `i % 35 < 2`;
  - folded curve: a sample is in transit exactly when `91 <= i <= 109`.
- **`ConfidenceMeter`** (`confidence_meter.dfy`) models the gauge. It
  covers the rounded percentage, the needle angle, the length of the
  coloured arc and the verdict label.
- **`ExoplanetAnalyzer`** (`exoplanet_analyzer.dfy`) models the analyzer
  form:
  - the feature tables;
  - the component state, as a class whose methods are the event handlers;
  - payload assembly in simple and advanced mode;
  - the missing-feature validation and its error message;
  - the `canAnalyze` gate;
  - the derived `isPlanet` and `confidence`.
- **`JsObject`** (`js_object.dfy`) models the JavaScript object operations
  the form relies on: property read and assignment, object spread and
  `Object.fromEntries`. Objects are property lists kept in insertion order,
  so the order in which `Object.entries` lists payload keys is part of the
  model.

Modelling choices:

- All arithmetic is exact: times, phases, fluxes and confidences are `real`.
- `Math.random()` is replaced by a sequence of draws, one per sample. The
  lemmas assume each draw is in [0, 1).
- `Math.sin` is replaced by a parameter `sinPi(t)`, standing for
  sin(π·t). The lemmas assume it lies in [0, 1] on [0, 1]. One lemma also
  assumes `sinPi(0.5) == 1`.
- `parseFloat` is a parameter `string -> Option<real>`, where `None`
  stands for NaN.
- A payload value is `Undefined`, `NaN` or `Number(v)`.

Behaviour of the code worth stating, since a reader might expect otherwise:

- An unknown candidate id is not an error. It falls back to confidence 0.5,
  which is not a planet (`frontend/src/utils/mockData.ts:72`).
- The classifier uses the registry's own confidence field. No policy based
  on a disposition label exists in the code.
- The generators have no parameter validation, because period and duration
  are hard-coded constants.

## Model

| member | source | states |
|---|---|---|
| MockData.FindFrom | frontend/src/utils/mockData.ts:71 | the index returned is the first registry entry with the id; `None` exactly when no entry has it |
| MockData.PredictPlanet | frontend/src/utils/mockData.ts:70-77 | confidence is that of the first entry with the id, or 0.5 when none has it; `isPlanet` holds exactly when confidence > 0.6 |
| MockData.ThresholdIsStrict | frontend/src/utils/mockData.ts:76 | the planet test is strict (0.6 itself is not a planet) and upward closed: a higher confidence keeps the planet verdict |
| MockData.RegistryIdsDistinct | frontend/src/utils/mockData.ts:60-67 | no two registry entries share an id |
| MockData.RegistryConfidencesInUnitInterval | frontend/src/utils/mockData.ts:60-67 | every registry confidence lies in [0, 1] |
| MockData.PredictRegistered | frontend/src/utils/mockData.ts:60-76 | looking up any registered id returns that entry's confidence, and a planet verdict exactly when it exceeds 0.6 |
| MockData.RegistryVerdicts | frontend/src/utils/mockData.ts:61-76 | KIC-11904151 (0.96) and KIC-12557548 (0.91) are planets; KIC-8462852 (0.42) and TIC-400799224 (0.15) are not |
| MockData.UnknownIdIsNotPlanet | frontend/src/utils/mockData.ts:72-76 | an id missing from the registry gives confidence 0.5 and no planet, with no error |
| MockData.RawPhase | frontend/src/utils/mockData.ts:9-14 | at sample i, time i·0.1 modulo the 3.5-day period is (i mod 35)/10 |
| MockData.RawTransitWindow | frontend/src/utils/mockData.ts:14-17 | the test phase < duration/period holds exactly when i mod 35 < 2, and the sine argument is π·(i mod 35)/2 |
| MockData.GenerateLightCurve | frontend/src/utils/mockData.ts:2-33 | returns exactly 100 samples. Sample i is the specified sample: time i·0.1, so times strictly increase. Its detrended value is flux − 0.0001·time |
| MockData.NoDipWithoutPlanet | frontend/src/utils/mockData.ts:10-12 | without a planet no dip is subtracted and the flux stays in [0.995, 1.005) |
| MockData.NoPlanetCurveIsFlat | frontend/src/utils/mockData.ts:8-20 | for any draws of `Math.random()` in [0, 1), every sample of a curve without a planet is undipped and within [0.995, 1.005) |
| MockData.RawDipBounds | frontend/src/utils/mockData.ts:12-20 | with a planet, the dip is zero outside the window i mod 35 < 2 and always lies in [0, 0.02] |
| MockData.DipAtMidTransit | frontend/src/utils/mockData.ts:14-18 | at mid-transit (i mod 35 = 1) the full 0.02 depth is subtracted, pushing the flux below 0.9855 |
| MockData.FoldedTransitWindow | frontend/src/utils/mockData.ts:41-46 | the test abs(i/200 − 0.5) < 0.05 holds exactly when 91 ≤ i ≤ 109, and the sine argument is π·(i − 90)/20 |
| MockData.GenerateFoldedCurve | frontend/src/utils/mockData.ts:36-57 | returns exactly 200 samples. Sample i is the specified sample. Phases strictly increase within [0, 1). The `period` argument has no effect on the result |
| MockData.FoldedNoDipOutsideWindow | frontend/src/utils/mockData.ts:42-45 | outside the window the folded flux is noise only, within [0.9975, 1.0025) |
| MockData.FoldedCurveFlatOutsideWindow | frontend/src/utils/mockData.ts:40-48 | for any draws of `Math.random()` in [0, 1), every folded sample outside the window is undipped and within [0.9975, 1.0025) |
| MockData.FoldedDipBounds | frontend/src/utils/mockData.ts:44-48 | the folded dip always lies in [0, 0.02] |
| ConfidenceMeter.Round | frontend/src/components/ConfidenceMeter.tsx:10 | `Math.round` gives the nearest integer, with halves rounded up |
| ConfidenceMeter.Percentage | frontend/src/components/ConfidenceMeter.tsx:10 | the percentage is within 0.5 of confidence·100; for confidence in [0, 1] it lies in [0, 100] |
| ConfidenceMeter.PercentageMonotone | frontend/src/components/ConfidenceMeter.tsx:10 | a larger confidence never shows a smaller percentage |
| ConfidenceMeter.Rotation | frontend/src/components/ConfidenceMeter.tsx:11 | for a percentage in [0, 100] the needle angle lies in [−90, 90] |
| ConfidenceMeter.RotationMonotone | frontend/src/components/ConfidenceMeter.tsx:11 | the angle strictly increases with the percentage: 0% gives −90, 50% gives 0, 100% gives 90 |
| ConfidenceMeter.DashLength | frontend/src/components/ConfidenceMeter.tsx:43 | for a percentage in [0, 100] the arc length lies in [0, 251] |
| ConfidenceMeter.NeedleFollowsArc | frontend/src/components/ConfidenceMeter.tsx:11-43 | the needle angle is the arc's filled fraction of 180°, shifted by −90°, so the needle points at the end of the arc |
| ConfidenceMeter.Label | frontend/src/components/ConfidenceMeter.tsx:82-84 | "Planet Detected" exactly when `isPlanet`, "False Positive" exactly when not |
| ConfidenceMeter.MockPredictionOnGauge | frontend/src/components/ConfidenceMeter.tsx:10-84 | a mock prediction shows a percentage in [0, 100]: at least 60 for a planet, at most 60 otherwise |
| JsObject.Get | frontend/src/components/ExoplanetAnalyzer.tsx:197 | a read is `undefined` exactly when the key is absent; otherwise it returns a property of the object |
| JsObject.GetSet | frontend/src/components/ExoplanetAnalyzer.tsx:182 | after an assignment, the assigned key reads the new value and every other key reads as before |
| JsObject.KeysSet | frontend/src/components/ExoplanetAnalyzer.tsx:187 | an assignment keeps the key order, appends a new key at the end and keeps keys distinct |
| JsObject.GetSpread | frontend/src/components/ExoplanetAnalyzer.tsx:120-123 | in `{...a, ...b}` a key of `b` reads `b`'s value; any other key reads `a`'s |
| JsObject.FromDistinctEntries | frontend/src/components/ExoplanetAnalyzer.tsx:125-127 | `Object.fromEntries` of entries with distinct keys gives those entries, in order |
| ExoplanetAnalyzer.FeaturesDistinct | frontend/src/components/ExoplanetAnalyzer.tsx:55-59 | the 14 feature names are distinct |
| ExoplanetAnalyzer.FeatureTables | frontend/src/components/ExoplanetAnalyzer.tsx:55-93 | `featureDefaults` has exactly the features, in `features` order; the four slider keys are distinct features |
| ExoplanetAnalyzer.SimplePayload | frontend/src/components/ExoplanetAnalyzer.tsx:119-123 | the simple payload has all 14 features in order. The four slider keys carry the slider values; the rest carry their defaults |
| ExoplanetAnalyzer.FieldValueCases | frontend/src/components/ExoplanetAnalyzer.tsx:126 | an empty or absent field gives undefined; a non-empty field gives NaN when it does not parse and its number when it does; a value is missing exactly when the field is not ready |
| ExoplanetAnalyzer.AdvancedPayloadFields | frontend/src/components/ExoplanetAnalyzer.tsx:124-127 | the advanced payload's keys are exactly `features`, in order, each holding its field's value |
| ExoplanetAnalyzer.MissingFeatures | frontend/src/components/ExoplanetAnalyzer.tsx:130 | a name is listed exactly when some payload entry with that key is undefined or NaN; the list is empty exactly when every value is a number |
| ExoplanetAnalyzer.JoinAppend | frontend/src/components/ExoplanetAnalyzer.tsx:132 | `join` of two non-empty name lists is the first join, the separator, then the second join |
| ExoplanetAnalyzer.MissingMessage | frontend/src/components/ExoplanetAnalyzer.tsx:132 | the error text starts with "Please fill in all feature fields. Missing: "; one missing name follows it alone, none leaves the prefix only |
| ExoplanetAnalyzer.MissingMessageAppend | frontend/src/components/ExoplanetAnalyzer.tsx:132 | the message for two runs of missing names lists the first run, ", ", then the second |
| ExoplanetAnalyzer.MissingAppend | frontend/src/components/ExoplanetAnalyzer.tsx:130 | the missing-key filter distributes over concatenation, so missing names keep entry order |
| ExoplanetAnalyzer.NotReady | frontend/src/components/ExoplanetAnalyzer.tsx:195-198 | a feature is listed exactly when it is one of the features and its field is empty or does not parse; the list is empty exactly when every field is ready |
| ExoplanetAnalyzer.AdvancedMissingAreNotReady | frontend/src/components/ExoplanetAnalyzer.tsx:124-132 | in advanced mode the error names exactly the features whose fields are not ready, in `features` order |
| ExoplanetAnalyzer.SimpleNeverMissing | frontend/src/components/ExoplanetAnalyzer.tsx:119-131 | a simple-mode payload never has a missing feature |
| ExoplanetAnalyzer.GateMatchesValidation | frontend/src/components/ExoplanetAnalyzer.tsx:195-200 | `canAnalyze` always holds in simple mode. In both modes it holds exactly when validation finds nothing missing |
| ExoplanetAnalyzer.EmptyAdvancedInputsFields | frontend/src/components/ExoplanetAnalyzer.tsx:165 | the reset advanced inputs are `Object.fromEntries` of the features, in order, each with an empty field |
| ExoplanetAnalyzer.ResetBlocksAdvanced | frontend/src/components/ExoplanetAnalyzer.tsx:195-198 | after a reset the advanced form cannot be submitted, whatever `parseFloat` does |
| ExoplanetAnalyzer.InitialSimpleInputsDefaults | frontend/src/components/ExoplanetAnalyzer.tsx:166-171 | the reset simple inputs are the four slider keys, each holding its default |
| ExoplanetAnalyzer.DefaultSlidersGiveDefaults | frontend/src/components/ExoplanetAnalyzer.tsx:119-123 | sliders that all sit at their defaults give exactly `featureDefaults` as the payload |
| ExoplanetAnalyzer.ResetPayloadIsDefaults | frontend/src/components/ExoplanetAnalyzer.tsx:161-172 | after a reset the simple-mode payload is exactly `featureDefaults` |
| ExoplanetAnalyzer.DisplayedVerdict | frontend/src/components/ExoplanetAnalyzer.tsx:178-179 | `isPlanet` is false exactly when there is no prediction or it is labelled "False Positive"; with no prediction the confidence is 0 |
| ExoplanetAnalyzer.Analyzer.constructor | frontend/src/components/ExoplanetAnalyzer.tsx:96-109 | initial state: simple mode on tab 0, not analyzing, no prediction or error, empty advanced fields, default sliders |
| ExoplanetAnalyzer.Analyzer.HandleAnalyze | frontend/src/components/ExoplanetAnalyzer.tsx:111-137 | the previous prediction is cleared. The payload is sent exactly when nothing is missing, which is exactly when `canAnalyze` held. If sent, analysis stays pending with no error. Otherwise analysis ends with an error naming the missing keys. The inputs are unchanged |
| ExoplanetAnalyzer.Analyzer.HandleReset | frontend/src/components/ExoplanetAnalyzer.tsx:161-172 | not analyzing, no prediction or error, all advanced fields empty, sliders at their defaults, tab and mode kept |
| ExoplanetAnalyzer.Analyzer.HandleTabChange | frontend/src/components/ExoplanetAnalyzer.tsx:190-193 | tab 0 selects simple mode and any other tab advanced mode; nothing else changes |
| ExoplanetAnalyzer.Analyzer.HandleAdvancedInputChange | frontend/src/components/ExoplanetAnalyzer.tsx:181-183 | only the named field changes, to the new text |
| ExoplanetAnalyzer.Analyzer.HandleSimpleSliderChange | frontend/src/components/ExoplanetAnalyzer.tsx:185-188 | only the named slider changes; an array value contributes its first element |

## Left out

- The HTTP request to the prediction service is not modelled, nor is its result: setting `prediction` from the response, the thrown error's message, and `isAnalyzing` going false in `finally` (`frontend/src/components/ExoplanetAnalyzer.tsx:139-158`). `HandleAnalyze` stops at the decision to send and returns the payload it would send.
- Rendering, styling and theme are not modelled. This covers the page components, the navigation bar, the chart and star-selector views, the feedback widget's own state and the console logging in `handleFeedback`. None of them holds logic.
- The leaderboard fetch is not modelled; it is a network call.
- The Flask backend is not modelled. Its feature statistics are floating-point library calls.
- `toFixed` rounding of the generated samples is not modelled: the model's values are exact reals.
- IEEE-754 rounding is not modelled. Under doubles, the samples at the window edges (i = 90 or 110 of the folded curve) may fall differently than in exact arithmetic.
- The analyzer passes a `probability` prop to the gauge, which declares `confidence` and `isPlanet` (`frontend/src/components/ExoplanetAnalyzer.tsx:362`). That call site is not modelled; the gauge is modelled by its own props.
- The default arguments `hasPlanet = true` (`frontend/src/utils/mockData.ts:2`) and `period = 3.5` (`frontend/src/utils/mockData.ts:36`) are not modelled as defaults: the model's generators take both as explicit parameters, and a caller relying on the default passes `true` or `3.5`.
- MockData.RealMod: is defined only for a non-negative dividend. JavaScript's `%` truncates toward zero for negative operands, but the generator only applies it to non-negative times.
- ExoplanetAnalyzer.Analyzer.HandleSimpleSliderChange: requires a non-empty array when the slider reports an array. With an empty array the source stores `undefined`, and the next render's `toFixed` call on it fails.
