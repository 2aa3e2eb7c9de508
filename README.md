# Weather classifier model

A Dafny model of the decision logic behind the `weather-prediction` endpoint
of a small Next.js weather app. The endpoint classifies one observation into
one of four categories: Sunny, Rainy, Cloudy or Partly Cloudy. The
observation has four readings: temperature, humidity, pressure and wind speed.
The endpoint also reports a confidence for the category it picks.

The classifier `calculateWeatherScore` works in three steps:

1. It scores each category with its own group of four threshold rules. Each
   rule adds a weight of 0.3 or 0.2 when its test passes.
2. It walks the score record in key order (Sunny, Rainy, Cloudy, Partly
   Cloudy) and keeps the first score that is strictly larger than the best so
   far. The best starts at 0, with Sunny as the default prediction.
3. It reports `min(maxScore, 1)` as the confidence.

Before scoring, the request handler rejects any body where one of the four
fields is falsy, that is missing, NaN or 0.

Everything is in `weather_prediction.dfy`, module `WeatherPrediction`:

- **Weights.** Weights are integer tenths (0.3 is 3, 0.2 is 2). Scores are
  exact `nat`s, and a confidence of 1.0 stands for a score of 10. Readings
  are `real`.
- **Rule table.** The rules are data: `Rules(c)` lists each category's four
  threshold tests with their weights. `Score(o, c)` sums the weights of the
  rules that fire. This rule table is the reference definition.
- **`AccumulateScores`.** This method performs the sixteen guarded additions
  exactly as `calculateWeatherScore` writes them. It is proved to produce `Score` for
  every category.
- **`Classify`.** This function is the specification of the result. It
  returns the first category, in key order, whose score equals the maximum
  of the score sequence, with the capped confidence. It is defined from
  `MaxOf` and `FirstIndexOf`, not from the loop.
- **`CalculateWeatherScore`.** This method runs the strict-`>` scan over the
  record's entries and is proved equal to `Classify`. The lemmas about
  `Classify` prove:
  - the winner has the highest score;
  - ties go to the category listed first;
  - if no rule fires, the result is the default Sunny with confidence 0;
  - the confidence lies in [0, 1] and equals the maximum score.
- **`Post`.** This method models the handler after the JSON body has been
  parsed. Each field is `Missing`, `NotANumber` or a `Number`. The method
  rejects a falsy field with the handler's message. Otherwise it reports the
  classifier's category name and confidence.

Three consequences of the code worth knowing:

- **Zero readings.** Readings 0, 0, 0 with wind 1000 fire one Sunny rule
  (humidity below 60) and three Rainy rules (pressure below 1010,
  temperature below 20, wind above 20). The classifier therefore answers
  Rainy with 0.7 (`ZeroReadingsExample`). The request guard rejects these
  readings anyway, because three of them are 0.
- **What the guard rejects.** The guard rejects only falsy values. A
  reading of exactly 0 is rejected as missing (`ZeroReadingIsRejected`),
  while a non-numeric string would pass it.
- **Largest score.** No score exceeds 1.0 (`ScoreBounds`), so the cap in
  `min(maxScore, 1)` never applies (`ConfidenceIsMaxScore`).

## Model

| member | source | states |
|---|---|---|
| `WeatherPrediction.Label` | src/app/api/weather-prediction/route.ts:12-17 | the reported prediction is always one of "Sunny", "Rainy", "Cloudy", "Partly Cloudy" |
| `WeatherPrediction.LabelsDistinct` | src/app/api/weather-prediction/route.ts:12-17 | two categories share a reported name only if they are the same category |
| `WeatherPrediction.Rank` | src/app/api/weather-prediction/route.ts:12-17 | each category sits at one position of the key order Sunny, Rainy, Cloudy, Partly Cloudy |
| `WeatherPrediction.SunnyRules` | src/app/api/weather-prediction/route.ts:20-23 | the Sunny score is 3 for temperature > 25, 2 for humidity < 60, 2 for pressure > 1015 and 3 for wind < 15, summed over the tests that pass |
| `WeatherPrediction.RainyRules` | src/app/api/weather-prediction/route.ts:26-29 | the Rainy score is 3 for humidity > 70, 3 for pressure < 1010, 2 for temperature < 20 and 2 for wind > 20, summed over the tests that pass |
| `WeatherPrediction.CloudyRules` | src/app/api/weather-prediction/route.ts:32-35 | the Cloudy score is 3 for humidity in (60, 80), 3 for pressure in (1005, 1015), 2 for temperature in (15, 25) and 2 for wind in (10, 25), summed over the tests that pass |
| `WeatherPrediction.PartlyCloudyRules` | src/app/api/weather-prediction/route.ts:38-41 | the Partly Cloudy score is 3 for humidity in (50, 70), 3 for pressure in (1010, 1020), 2 for temperature in (20, 30) and 2 for wind in (5, 20), summed over the tests that pass |
| `WeatherPrediction.RuleGroupShape` | src/app/api/weather-prediction/route.ts:19-41 | every category has four rules, each of positive weight, whose weights add up to 1.0 |
| `WeatherPrediction.TotalAtMostWeightSum` | src/app/api/weather-prediction/route.ts:19-41 | the weights of the rules that fire never add up to more than all the group's weights |
| `WeatherPrediction.TotalZeroIff` | src/app/api/weather-prediction/route.ts:19-41 | with positive weights, a group scores nothing if and only if none of its rules fires |
| `WeatherPrediction.TotalFullIff` | src/app/api/weather-prediction/route.ts:19-41 | with positive weights, a group scores its full weight if and only if every rule fires |
| `WeatherPrediction.ScoreBounds` | src/app/api/weather-prediction/route.ts:12-41 | every category's score lies between 0 and 1.0 |
| `WeatherPrediction.ScoreZeroIffNoRuleFires` | src/app/api/weather-prediction/route.ts:19-41 | a category scores 0 if and only if none of its four rules fires |
| `WeatherPrediction.ScoreFullIffAllRulesFire` | src/app/api/weather-prediction/route.ts:19-41 | a category scores 1.0 if and only if all four of its rules fire |
| `WeatherPrediction.MaxOf` | src/app/api/weather-prediction/route.ts:44-52 | the running maximum over the scores is at least every score and is one of them; it stays 0 when there is no score |
| `WeatherPrediction.FirstIndexOf` | src/app/api/weather-prediction/route.ts:47-51 | the chosen position holds the value and no earlier position does |
| `WeatherPrediction.ClassifyIsFirstMaximum` | src/app/api/weather-prediction/route.ts:44-52 | the prediction is c if and only if c has the highest score and every category listed before c scores strictly less (first-in-order tie-break) |
| `WeatherPrediction.MaxScoreIsWinnerScore` | src/app/api/weather-prediction/route.ts:44-52 | the maximum score is the winner's score and no category scores more |
| `WeatherPrediction.ConfidenceIsMaxScore` | src/app/api/weather-prediction/route.ts:55 | the confidence min(maxScore, 1) lies in [0, 1] and equals the maximum score exactly |
| `WeatherPrediction.DefaultWhenNoRuleFires` | src/app/api/weather-prediction/route.ts:44-55 | no rule fires if and only if the result is Sunny with confidence 0 |
| `WeatherPrediction.AccumulateScores` | src/app/api/weather-prediction/route.ts:12-41 | the sixteen guarded additions leave each category's field equal to its score under the rule table |
| `WeatherPrediction.CalculateWeatherScore` | src/app/api/weather-prediction/route.ts:11-61 | the accumulation followed by the strict-greater scan from (0, Sunny) returns the first category of highest score and min(maxScore, 1) |
| `WeatherPrediction.RequiredReadings` | src/app/api/weather-prediction/route.ts:68-73 | an observation is produced if and only if all four fields are truthy (present, not NaN, not 0), and it carries the four readings unchanged |
| `WeatherPrediction.Post` | src/app/api/weather-prediction/route.ts:63-87 | a body with a falsy field is rejected with "Missing required weather parameters" and is not scored; otherwise the response carries the classifier's category name and confidence |
| `WeatherPrediction.ZeroReadingIsRejected` | src/app/api/weather-prediction/route.ts:68 | a field holding exactly 0 makes the guard reject the request |
| `WeatherPrediction.SunnyExample` | src/app/api/weather-prediction/route.ts:20-41 | temperature 30, humidity 40, pressure 1020, wind 5 fire all Sunny rules and no other rule, giving Sunny with confidence 1.0 |
| `WeatherPrediction.RainyExample` | src/app/api/weather-prediction/route.ts:20-41 | temperature 15, humidity 85, pressure 1000, wind 30 give Rainy with confidence 1.0 |
| `WeatherPrediction.SunnyRainyTieExample` | src/app/api/weather-prediction/route.ts:44-52 | Sunny and Rainy both scoring 0.5 gives Sunny, the one listed first |
| `WeatherPrediction.OverlapExample` | src/app/api/weather-prediction/route.ts:44-52 | temperature 22, humidity 65, pressure 1012, wind 15 give Cloudy and Partly Cloudy 1.0 each, and Cloudy wins |
| `WeatherPrediction.ZeroReadingsExample` | src/app/api/weather-prediction/route.ts:12-73 | readings 0, 0, 0 with wind 1000 score Sunny 0.2 and Rainy 0.7, so the classifier gives Rainy 0.7, and the guard rejects the request |

## Left out

- HTTP and JSON plumbing in `POST` is not modelled: `request.json()`, `NextResponse`, the status codes, the `timestamp` from `new Date()` and the catch-all 500 response. `Post` starts from the parsed body and returns either the reported fields or the rejection message.
- JSON values other than numbers are not modelled. A body field is `Missing` (undefined or null), `NotANumber` or a `Number`. A non-empty string would pass the handler's truthiness test and then be compared after coercion; that path is not captured.
- IEEE-754 arithmetic is not modelled; the weights are exact tenths. Nothing is lost by this. Each group adds its weights left to right from 0, in the TypeScript code's order (Sunny 0.3, 0.2, 0.2, 0.3; the other groups 0.3, 0.3, 0.2, 0.2). Every such partial sum rounds to the double nearest its tenths value, so equal tenths give equal doubles in every group. The tenths model therefore agrees with the floating-point code on every `>`, every tie and `Math.min(maxScore, 1)`.
- AccumulateScores: in `calculateWeatherScore` the `scores` object is mutated field by field; the model keeps its four fields in four local counters and assembles the record at the end. The additions, their guards and their order are those of the TypeScript code.
- `calculateWeatherScore` is modelled as two methods: `AccumulateScores` (the sixteen additions) and `CalculateWeatherScore`, which calls it and then runs the scan. This keeps each proof small.
- Determinism and concurrency need no statement: Dafny functions and these methods have no shared state.
- The OpenWeather proxy (src/app/api/weather/route.ts), the React components (WeatherCard.tsx, WeatherMap.tsx, page.tsx) and the build configuration are not part of this model. They contain I/O, UI state and rendering, not classification logic.
