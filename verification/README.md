# Morning mist monitor: fog scoring, photo windows and alert gating in Dafny

This project models the deterministic core of a morning-fog dashboard. It has four parts:

- **Fog probability** (`fog.dfy`, module `FogModel`). One hourly weather sample, and optionally the sample of the hour before, yield two scores:
  - a radiation-fog score built from humidity, wind, temperature–dew-point gap, temperature trend and cloud cover;
  - an advection-fog score built from humidity, wind, gap and cloud cover.
  Each factor is a first-match band table. Each score is capped at 100. The overall value is the rounded blend `0.6·r + 0.4·a`. The risk level is read off the blend **before** it is rounded, so a blend of 69.8 is reported as overall 70 with risk `medium`. The module also derives the factor summary: high humidity, low wind, the gap rounded to a tenth, the trend and a sky description.
- **Cloud layers** (`cloud_layers.dfy`, module `CloudLayers`).
  - The low-cloud cover is reduced by 0.015 percentage points per 100 m of altitude and clamped into [0, 100]. The other layers pass through.
  - A trend is computed per layer from the first and last readings of a sequence. A difference of at most 5 points either way counts as stable.
- **Sun times** (`sun_times.dfy`, module `SunTimes`).
  - The provider's `HH:MM:SS` sunrise string is reduced to an hour and a minute.
  - The blue hour runs from sunrise −30 min to +20 min. The golden hour runs from −10 min to +60 min. Both use minute arithmetic with one borrow or carry and a wrap at midnight.
  - Properties are stated over minutes of the day modulo 1440.
- **Alert gating** (`notification.dfy`, module `Notification`). This is the decision whether a notification configuration fires. It depends on three things: whether the configuration is enabled, a threshold on the fog probability, and a `daily`/`always` frequency with the time of the last alert. The current time is a parameter.

`common.dfy` (module `Common`) holds the shared pieces: `Option`, the three-way `Trend`, and JavaScript's `Math.round` written as `floor(x + 0.5)`.

Weather inputs are `real` and scores are `int`. The blend `(3r + 2a)/5` never ends in .5, so rounding over the reals gives the same result as the source's floating-point code.

Where the repository's own descriptions and the code disagree, the model follows the code:
- The risk level uses the unrounded blend (shared/algorithms.ts:219-223), not the rounded value returned at line 228.
- The altitude correction is 0.015 points per 100 m (shared/algorithms.ts:389). The "1-2 %" in server/routers.ts:631 is not what the code does.
- The advection score is also capped at 100 (shared/algorithms.ts:343), but the cap never changes it: the largest band sum is 40 + 35 + 15 + 10 = 100, so the sum is never above the cap.

A worked low-risk reading: humidity 50, wind 10 m/s, a gap of 8 °C and 90 % cloud give advection 10 (wind above 8 gives +5, cloud above 70 gives +5), overall 4 and risk `low`. See `FogModel.WorkedExampleLowRisk`.

## Model

| member | source | states |
|---|---|---|
| Common.Round | shared/algorithms.ts:226-228 | `Math.round` returns the integer k with k − 0.5 ≤ x < k + 0.5, so halves go up |
| Common.Clamp | shared/algorithms.ts:392 | `max(0, min(100, x))` lies in [0, 100], is x inside the range and the nearer bound outside it |
| FogModel.FirstAtMost | shared/algorithms.ts:261-280 | a first-match `<=` table yields 0 or the weight of one of its bands, and 0 when the value is above every bound |
| FogModel.FirstAtLeast | shared/algorithms.ts:252-258 | a first-match `>=` table yields 0 or the weight of one of its bands, and 0 when the value is below every bound |
| FogModel.FirstAtMostAntitone | shared/algorithms.ts:261-280 | in a table whose bounds rise and weights fall, a larger value never earns a larger weight |
| FogModel.FirstAtLeastMonotone | shared/algorithms.ts:252-258 | in a table whose bounds and weights fall, a larger value never earns a smaller weight |
| FogModel.HumidityWeight | shared/algorithms.ts:252-258 | humidity ≥ 90 gives 40, [80, 90) gives 30, [70, 80) gives 15 and below 70 gives 0; both scores use these bands |
| FogModel.RadiationWindWeight | shared/algorithms.ts:261-269 | wind ≤ 1 gives 30, (1, 2] gives 25, (2, 3] gives 15, (3, 5] gives 5 and above 5 gives 0 |
| FogModel.RadiationGapWeight | shared/algorithms.ts:272-280 | gap ≤ 1 gives 20, (1, 2] gives 15, (2, 3] gives 10, (3, 5] gives 5 and above 5 gives 0 |
| FogModel.AdvectionGapWeight | shared/algorithms.ts:326-334 | gap ≤ 1 gives 15, (1, 2] gives 12, (2, 3] gives 8, (3, 5] gives 3 and above 5 gives 0 |
| FogModel.AdvectionWindWeight | shared/algorithms.ts:315-323 | the advection wind weight is one of 35, 20, 20, 5, 0 |
| FogModel.AdvectionWindPartition | shared/algorithms.ts:315-323 | the bands [2,6], [1,2), (6,8], above 8 and below 1 cover every speed, no speed is in two bands, and each speed gets its band's weight |
| FogModel.RadiationCloudWeight | shared/algorithms.ts:288-290 | +5 exactly when cloud cover ≤ 20 |
| FogModel.AdvectionCloudWeight | shared/algorithms.ts:337-341 | +10 exactly for cover in [30, 70], +5 exactly above 70, 0 exactly below 30 |
| FogModel.TrendWeight | shared/algorithms.ts:283-285 | +10 exactly when the temperature is decreasing |
| FogModel.RadiationRawSum | shared/algorithms.ts:249-290 | the uncapped radiation sum lies in [0, 105] |
| FogModel.RadiationFogProbability | shared/algorithms.ts:244-293 | the radiation score lies in [0, 100], never exceeds the raw sum and equals it whenever the sum is at most 100, and is exactly 100 whenever the sum is above 100 |
| FogModel.AdvectionRawSum | shared/algorithms.ts:303-341 | the uncapped advection sum lies in [0, 100] |
| FogModel.AdvectionFogProbability | shared/algorithms.ts:299-344 | the advection score lies in [0, 100] and the cap never changes it |
| FogModel.RadiationCapExercised | shared/algorithms.ts:249-292 | calm, saturated, clear and cooling air gives a raw sum of 105, which the cap cuts to 100 |
| FogModel.RadiationMonotoneInHumidity | shared/algorithms.ts:249-292 | raising humidity never lowers the radiation score |
| FogModel.RadiationAntitoneInWind | shared/algorithms.ts:249-292 | raising wind speed never raises the radiation score |
| FogModel.RadiationAntitoneInGap | shared/algorithms.ts:249-292 | widening the temperature–dew-point gap never raises the radiation score |
| FogModel.AdvectionAntitoneInGap | shared/algorithms.ts:299-343 | widening the gap never raises the advection score |
| FogModel.AdvectionMonotoneInHumidity | shared/algorithms.ts:299-343 | raising humidity never lowers the advection score |
| FogModel.TemperatureTrend | shared/algorithms.ts:191-199 | stable iff there is no previous sample or the change is within ±0.5; decreasing iff the change is below −0.5; increasing iff it is above 0.5 |
| FogModel.GetCloudCondition | shared/algorithms.ts:349-355 | first match over ≤10, ≤25, ≤50, ≤75, else: each description holds exactly on its interval |
| FogModel.CloudConditionMonotone | shared/algorithms.ts:349-355 | more cloud never gives a clearer description |
| FogModel.CloudConditionLabel | shared/algorithms.ts:350-354 | each displayed label reads back as the sky description it was produced for; only this, and hence distinctness, is stated about the label text |
| FogModel.CloudConditionLabelInjective | shared/algorithms.ts:349-355 | the five displayed labels are pairwise distinct |
| FogModel.RoundToTenth | shared/algorithms.ts:233 | the reported gap is a whole number of tenths within 0.05 of the true gap |
| FogModel.Blend | shared/algorithms.ts:215 | five times the blend is 3r + 2a |
| FogModel.RiskLevelOf | shared/algorithms.ts:218-223 | high iff the blend is ≥ 70, medium iff it is in [40, 70), low iff it is below 40 |
| FogModel.BlendBrackets | shared/algorithms.ts:215-228 | for scores in [0, 100] the rounded blend lies in [0, 100] and within half a point of (3r + 2a)/5, and the risk is high iff 3r + 2a ≥ 350, medium iff it is in [200, 350), low iff it is below 200 |
| FogModel.CalculateFogProbability | shared/algorithms.ts:183-238 | all three percentages lie in [0, 100]; the scores are the radiation and advection scores of the sample; overall is 3r + 2a over 5, rounded half up; the risk is read off 3r + 2a against 350 and 200; the factors report humidity ≥ 80, wind ≤ 3, the gap rounded to a whole number of tenths and within 0.05 of the true gap, the trend and the sky description |
| FogModel.OverallMonotoneInHumidity | shared/algorithms.ts:183-238 | more humidity never lowers the overall probability or the risk level |
| FogModel.SelfPreviousIsNoPrevious | shared/algorithms.ts:191-199 | `calculate(w, w)` equals `calculate(w)`, the call pattern of the multi-day forecast |
| FogModel.WorkedExampleHighRisk | shared/algorithms.ts:183-343 | humidity 95, wind 0.5, 10 °C over 9.5 °C, cloud 10 gives radiation 95, advection 55, overall 79, risk high |
| FogModel.WorkedExampleLowRisk | shared/algorithms.ts:183-343 | humidity 50, wind 10, gap 8, cloud 90 gives radiation 0, advection 10, overall 4, risk low |
| FogModel.RoundedSeventyCanBeMedium | shared/algorithms.ts:215-228 | a blend of 69.8 is returned as overall 70 with risk medium |
| CloudLayers.AltitudeCorrection | shared/algorithms.ts:389 | the correction is 0.015 points per 100 m and is non-negative for non-negative altitude |
| CloudLayers.ProcessCloudLayerData | shared/algorithms.ts:384-397 | low cloud is clamped into [0, 100] and equals the corrected value when that is in range, 0 when the corrected value is below 0 and 100 when it is above 100; mid, high and total pass through; the altitude is copied; at altitude 0 an in-range low cover is unchanged; at non-negative altitude it never grows |
| CloudLayers.LowCloudAntitoneInAltitude | shared/algorithms.ts:389-392 | a higher site never reports more low cloud for the same reading |
| CloudLayers.AltitudeCorrectionExample | shared/algorithms.ts:384-397 | 50 % low cloud at 1000 m becomes 49.85 % |
| CloudLayers.GetTrend | shared/algorithms.ts:435-439 | stable iff the difference is within ±5, 5 included; increasing iff it is above 5; decreasing iff it is below −5 |
| CloudLayers.AnalyzeTrend | shared/algorithms.ts:417-447 | fewer than two readings gives all stable; otherwise each layer is classified by last minus first |
| CloudLayers.AnalyzeTrendIgnoresMiddle | shared/algorithms.ts:432-446 | readings between the first and the last never change the result |
| CloudLayers.AnalyzeTrendIgnoresTime | shared/algorithms.ts:417-447 | the readings' timestamps never change the result |
| CloudLayers.AnalyzeTrendExample | shared/algorithms.ts:417-447 | total cloud going from 20 to 80 is increasing |
| CloudLayers.AnalyzeTrendReverse | shared/algorithms.ts:417-447 | reversing the readings swaps increasing and decreasing in every layer and keeps stable |
| SunTimes.MinutesBefore | shared/sunriseSunsetAPI.ts:98-107 | for a valid time, moving back at most an hour with one borrow and a wrap gives a valid time at (t − offset) mod 1440 |
| SunTimes.MinutesAfter | shared/sunriseSunsetAPI.ts:110-118 | for a valid time, moving on less than an hour with one carry and a wrap gives a valid time at (t + offset) mod 1440 |
| SunTimes.NextHour | shared/sunriseSunsetAPI.ts:146-150 | the minute is kept and a valid time moves to (t + 60) mod 1440 |
| SunTimes.GetBlueHour | shared/sunriseSunsetAPI.ts:94-124 | for a valid sunrise the start is a valid time at (t − 30) mod 1440 and the end a valid time at (t + 20) mod 1440 |
| SunTimes.GetGoldenHourRange | shared/sunriseSunsetAPI.ts:130-156 | for a valid sunrise the start is at (t − 10) mod 1440 and the end at (t + 60) mod 1440, with the sunrise minute kept |
| SunTimes.BlueHourSpan | shared/sunriseSunsetAPI.ts:94-124 | the blue hour spans 50 minutes modulo a day, with sunrise 30 minutes in |
| SunTimes.GoldenHourSpan | shared/sunriseSunsetAPI.ts:130-156 | the golden hour spans 70 minutes modulo a day, with sunrise 10 minutes in |
| SunTimes.MidnightWrapExamples | shared/sunriseSunsetAPI.ts:98-150 | sunrise 00:10 gives blue hour 23:40–00:30; sunrise 23:30 gives golden end 00:30 |
| SunTimes.Split | shared/sunriseSunsetAPI.ts:65 | `split(":")` yields at least one field and no field contains a colon |
| SunTimes.JoinSplit | shared/sunriseSunsetAPI.ts:65 | joining the fields with colons gives back the original string |
| SunTimes.SplitField | shared/sunriseSunsetAPI.ts:65 | a colon-free leading field is split off unchanged |
| SunTimes.NumberOf | shared/sunriseSunsetAPI.ts:65 | a field is read as a number exactly when it is all decimal digits |
| SunTimes.ParseTime | shared/sunriseSunsetAPI.ts:64-67 | a parsed time has non-negative fields and comes from a string containing a colon |
| SunTimes.GetSunriseTime | shared/sunriseSunsetAPI.ts:72-74 | the sunrise is read from the response's sunrise string: a string without a colon gives no time, and a parsed time has non-negative fields |
| SunTimes.ParseTimeFields | shared/sunriseSunsetAPI.ts:64-67 | `HH:MM:rest` parses to the decimal values of HH and MM, whatever the rest |
| SunTimes.ParseFormattedTime | shared/sunriseSunsetAPI.ts:64-67 | a zero-padded `HH:MM:SS` parses to its hour and minute; the seconds are dropped, not rounded |
| SunTimes.SunriseWindowsFromResponse | shared/sunriseSunsetAPI.ts:72-74 | the sunrise of a well-formed response is its parsed field, and the windows derived from it are offset from it as above |
| Notification.DaysBetween | server/notificationService.ts:181 | whole elapsed days, rounded down; below 1 exactly when less than 86 400 000 ms have passed |
| Notification.ShouldSendNotification | server/notificationService.ts:162-188 | sends iff enabled, the probability reaches the threshold, and the frequency is `always`, or there was no earlier alert, or at least 86 400 000 ms have passed |
| Notification.DisabledNeverSends | server/notificationService.ts:168-170 | a disabled configuration never sends |
| Notification.ThresholdIsInclusive | server/notificationService.ts:173-175 | below the threshold nothing is sent; exactly at the threshold the check passes |
| Notification.MonotoneInProbability | server/notificationService.ts:162-188 | if a configuration sends at probability p it sends at every higher probability |
| Notification.AlwaysIgnoresTimestamps | server/notificationService.ts:178 | with frequency `always` the decision does not depend on the last alert or the clock |
| Notification.DailyFirstAlertSends | server/notificationService.ts:178-187 | a `daily` configuration that has never sent sends once enabled and at threshold |
| Notification.DailyWaitsOneDay | server/notificationService.ts:178-185 | a `daily` configuration sends again iff now − last ≥ 86 400 000 ms, so a clock behind the last alert never sends |

## Left out

- The astronomical sunrise calculator (shared/algorithms.ts:10-112) is left out. It uses sine, tangent and arc-cosine over floats, plus a day-of-year taken from a local-time `Date`. The server does not call it: it takes sunrise from the sunrise/sunset provider instead.
- The `Date`-based photography timings (shared/algorithms.ts:117-145) are left out. The server uses the minute-arithmetic versions modelled in `SunTimes`.
- The Open-Meteo adapter (shared/algorithms.ts:453-503) is left out. It is a field copy and a code-to-description lookup table.
- `getCloudHeightExplanation` (shared/algorithms.ts:403-412) is left out. It returns a fixed explanatory text.
- `fetchSunTimes` (shared/sunriseSunsetAPI.ts:30-57) is left out. It is a network request.
- `getSunsetTime` and `getGoldenHourTime` (shared/sunriseSunsetAPI.ts:79-88) are left out. Each is `parseTime` applied to another response field, and the server flow does not use them.
- Notification delivery, history and configuration storage (server/notificationService.ts:29-156, 193-386) are left out. They are webhooks, message templating and database access.
- The HTTP routers, authentication, database layer, schema, maintenance scripts and UI components are not part of this model.
- The current time, used by `new Date()` in the gating rule, is an explicit millisecond parameter.
- SunTimes.ParseTime: covers fields made only of decimal digits. JavaScript's `Number` also accepts surrounding whitespace, a sign, a fraction, an exponent and hex literals; the model reports those as not-a-number. It also merges "hour is NaN" and "minute is NaN or missing" into one `None`. `GetBlueHour` and `GetGoldenHourRange` take an integer time, so NaN arithmetic is not modelled.
- FogModel.CalculateFogProbability: the inputs are exact reals. The floating-point error of `0.6·r + 0.4·a` and of `gap·10` is not reproduced. This matters only at the exact 70 and 40 boundaries, and at gaps whose tenth-rounding falls on a float tie.
- FogModel.CloudConditionLabel: the five labels are kept as a datatype `CloudCondition` plus a label function. Only that each label reads back as its description (so the labels are distinct) is stated.
- SunTimes.NumberOf: models JavaScript's `Number` only on strings of decimal digits. Whitespace, signs, fractions, exponents and hex literals, which `Number` accepts, are reported as not-a-number.
- A `Date` in a cloud reading is modelled as an integer timestamp. The trend never reads it.
- The default altitude of 0 (shared/algorithms.ts:386) corresponds to calling `CloudLayers.ProcessCloudLayerData` with altitude 0.
