# Football prediction app: a Dafny model of its core

This project models the core of a football prediction web app: its decision logic, checked by the Dafny verifier. The parts modelled are:

- **The lucky-sector algorithm** (`src/utils/predictionAlgorithm.ts`). Three scaled odds are looked up as angles, and the turn direction of the three points on the unit circle is classified. In the counterclockwise case the angles are rotated so that C lands on A. Then an arc midpoint is taken, and the shorter arc between it and C is described as text.
- **The two predictions pages** (`app/dashboard/predictions/page.tsx` and `src/pages/PredictionsPage.tsx`):
  - the odds-based pick and its confidence;
  - the search-filter effect and the team search;
  - selecting a match and entering a match by hand;
  - the guarded submission, with its insert, token charge and reset;
  - the result label.
- **The two-step registration form** (`src/pages/RegisterPage.tsx`).
- **The `fetch-matches` edge function** (`supabase/functions/fetch-matches/index.ts`). It picks a date window, upserts the mock fixtures of that window one by one and reads the window back.

How the model represents these:

- **Angles** are exact integers that count quarter-degrees, so a turn is 1440. Every value the algorithm computes from whole-degree inputs lands on this grid, so nothing is lost to rounding.
- **JavaScript's `%`** truncates toward zero. It is written out as `JsRemTurn`.
- **Sine and cosine** are a parameter (`Trig`) of the orientation test. Every property proved holds for any values they return.
- **Page state.** Each page's React state is the fields of a class, and its handlers are methods that change those fields.
- **Remote results.** Everything a handler receives from the database, the clock or `parseFloat` is a parameter of the method. Every row the handler would write is returned by the method.
- **Shared definitions.** The pick, label and search logic that the two predictions pages repeat word for word is defined once, in module `Prediction`. The manual-match logic lives there too, although only the dashboard page has manual entry.

Files:

| file | module | models |
|---|---|---|
| `lucky_sector.dfy` | `LuckySector` | `src/utils/predictionAlgorithm.ts` |
| `prediction.dfy` | `Prediction` | the pure logic the two predictions pages share |
| `dashboard_predictions.dfy` | `DashboardPredictions` | `app/dashboard/predictions/page.tsx` |
| `src_predictions.dfy` | `SrcPredictions` | `src/pages/PredictionsPage.tsx` |
| `register_page.dfy` | `Register` | `src/pages/RegisterPage.tsx` |
| `fetch_matches.dfy` | `FetchMatches` | `supabase/functions/fetch-matches/index.ts` |
| `text.dfy`, `seqs.dfy`, `wrappers.dfy` | `Text`, `Sequences`, `Wrappers` | the JavaScript string and array built-ins the core uses |

## Model

| member | source | states |
|---|---|---|
| `LuckySector.JsRemTurn` | src/utils/predictionAlgorithm.ts:73-76 | JavaScript `% 360`: the result has the sign of the operand, is less than one turn in magnitude, and is congruent to the operand |
| `LuckySector.TableAngle` | src/utils/predictionAlgorithm.ts:1-8 | the table has an entry exactly for 0..50 and 360, and every entry is one of the six base angles 0, 45, 135, 180, 225 and 315 |
| `LuckySector.ConvertUserInputToAngle` | src/utils/predictionAlgorithm.ts:19-21 | a table key gives one of the six base angles; any other input falls through as that many degrees; the result is always a whole degree, and is non-negative for non-negative input |
| `LuckySector.CalculateOrientation` | src/utils/predictionAlgorithm.ts:23-40 | counterclockwise iff the cross product is positive, clockwise iff it is negative, collinear iff it is zero |
| `LuckySector.RepeatedAngleIsCollinear` | src/utils/predictionAlgorithm.ts:23-40 | two equal angles make the cross product zero and the orientation collinear, whatever sine and cosine return |
| `LuckySector.NormalizeAngle` | src/utils/predictionAlgorithm.ts:42-44 | from minus one turn upward the result is in [0, 360); below that it is in (-360, 0], and zero only for multiples of 360; it always denotes the same direction |
| `LuckySector.NormalizeIdempotent` | src/utils/predictionAlgorithm.ts:42-44 | normalising twice is normalising once, and angles already in [0, 360) are left alone |
| `LuckySector.NormalizeNegativeBelowOneTurn` | src/utils/predictionAlgorithm.ts:42-44 | below minus one turn, an angle that is not a multiple of 360 normalises to a negative value |
| `LuckySector.RotateOntoA` | src/utils/predictionAlgorithm.ts:50-54 | all three angles move by the same `normalizeAngle(A - C)` |
| `LuckySector.CalculateShift` | src/utils/predictionAlgorithm.ts:46-58 | only the counterclockwise case rotates; every other case returns the angles unchanged |
| `LuckySector.RotationBringsCOntoA` | src/utils/predictionAlgorithm.ts:50-54 | after the rotation, C points where A pointed |
| `LuckySector.RotationKeepsWholeDegrees` | src/utils/predictionAlgorithm.ts:50-54 | rotating whole-degree angles gives whole-degree angles |
| `LuckySector.ShiftKeepsWholeDegrees` | src/utils/predictionAlgorithm.ts:46-58 | the shift keeps whole degrees in every orientation |
| `LuckySector.RotationOfNonNegativeAngles` | src/utils/predictionAlgorithm.ts:50-54 | for non-negative angles, the rotated angles lie in [0, 360) and the new C equals the normalised A |
| `LuckySector.CongruentNormalFormsAreEqual` | src/utils/predictionAlgorithm.ts:42-44 | two angles in [0, 360) that denote the same direction are equal |
| `LuckySector.ForwardDistance` | src/utils/predictionAlgorithm.ts:66-71 | the distance going up from one direction to another is in [0, 360) |
| `LuckySector.FixUp` | src/utils/predictionAlgorithm.ts:67-68 | the `+= 360` fix-up of a negative difference; `FixedUpDifferences` states what it gives for two normalised angles |
| `LuckySector.FixedUpDifferences` | src/utils/predictionAlgorithm.ts:66-71 | the two fixed-up differences lie in [0, 360), are zero for equal angles, and otherwise sum to a full turn |
| `LuckySector.CalculateMidpointAngle` | src/utils/predictionAlgorithm.ts:60-77 | for inputs of at least minus one turn, both midpoints lie in [0, 360) |
| `LuckySector.MidpointOnHalfDegreeGrid` | src/utils/predictionAlgorithm.ts:60-77 | whole-degree endpoints give midpoints on the half-degree grid, so the model's integer angles are exact |
| `LuckySector.HalfArcOnGrid` | src/utils/predictionAlgorithm.ts:70-71 | half of a whole-degree arc, added to a whole-degree endpoint, is a half degree |
| `LuckySector.ForwardDistanceCongruent` | src/utils/predictionAlgorithm.ts:66-71 | the forward distance depends only on the two directions |
| `LuckySector.ForwardDistanceOfShortStep` | src/utils/predictionAlgorithm.ts:66-71 | a step of less than a turn is its own forward distance |
| `LuckySector.HalfwayPoint` | src/utils/predictionAlgorithm.ts:70-71 | the point half an arc along splits the arc into two equal halves |
| `LuckySector.MidpointBisectsArc` | src/utils/predictionAlgorithm.ts:60-77 | the clockwise midpoint bisects the arc from B up to A, and the counterclockwise midpoint bisects the arc from A up to B |
| `LuckySector.MidpointSwapSymmetry` | src/utils/predictionAlgorithm.ts:60-77 | swapping the arguments swaps the clockwise and counterclockwise midpoints |
| `LuckySector.CalculateFinalMidpoint` | src/utils/predictionAlgorithm.ts:79-96 | for inputs of at least minus one turn, both final midpoints lie in [0, 360) |
| `LuckySector.FinalMidpointIsMidpoint` | src/utils/predictionAlgorithm.ts:79-96 | the final midpoint is the ordinary midpoint under other names |
| `LuckySector.CalculateSmallestSector` | src/utils/predictionAlgorithm.ts:98-123 | the sector is at most half a turn and runs from start by its angle to end; clockwise keeps the normalised endpoints, counterclockwise swaps them and is strictly shorter than half a turn, and equal endpoints give a clockwise sector of angle 0 |
| `LuckySector.SmallestSectorIsShorterArc` | src/utils/predictionAlgorithm.ts:98-123 | the reported angle is the forward distance between the reported endpoints, and it is no longer than either arc between the two inputs |
| `LuckySector.CallerGuardIsRedundant` | src/utils/predictionAlgorithm.ts:138-146 | the caller's own orientation check before `calculateShift` changes nothing, since `calculateShift` makes the same check |
| `LuckySector.LuckySectorStages` | src/utils/predictionAlgorithm.ts:129-152 | the counterclockwise midpoint is chosen exactly in the counterclockwise case, and the sector runs from the shifted C to that midpoint |
| `LuckySector.LuckySectorInRange` | src/utils/predictionAlgorithm.ts:129-155 | for non-negative inputs every stage lies in [0, 360) and the sector is at most 180°; the counterclockwise case moves C onto A, and the other cases shift nothing |
| `LuckySector.RepeatedAngleUsesClockwiseMidpoint` | src/utils/predictionAlgorithm.ts:129-152 | two equal looked-up angles give a collinear orientation, no shift, and the clockwise midpoint |
| `LuckySector.ToFixed0` | src/utils/predictionAlgorithm.ts:154 | `toFixed(0)` of an angle in degrees: a minus sign below zero, then the digits of the rounded magnitude; `ToFixed0OfNonNegative` states what it prints |
| `LuckySector.RoundToDegree` | src/utils/predictionAlgorithm.ts:154 | `toFixed(0)` rounds to the nearest whole degree, halves up |
| `LuckySector.ToFixed0OfNonNegative` | src/utils/predictionAlgorithm.ts:154 | a non-negative angle prints as decimal digits whose value is the angle rounded to the nearest degree |
| `LuckySector.ScaleOdds` | src/utils/predictionAlgorithm.ts:130-132 | `Math.round(odds * 10)` is within a half of ten times the odds, and positive odds give a non-negative table input |
| `LuckySector.CalculateLuckySector` | src/utils/predictionAlgorithm.ts:129-155 | `calculateLuckySector`: scales the odds, runs the stages, and renders only the smallest sector; the final midpoints never reach the text. `LuckySectorText` states what the text is |
| `LuckySector.PrintsBoundedDegrees` | src/utils/predictionAlgorithm.ts:154 | a non-negative angle of at most `most` degrees (plus a quarter) prints as digits whose value is its rounded degree, at most `most` |
| `LuckySector.LuckySectorText` | src/utils/predictionAlgorithm.ts:129-155 | for positive odds the text is the arc name, then the start and end as whole degrees 0..360 and the angle as whole degrees 0..180, each the rounded value of the sector's own; counterclockwise, the sector begins or ends at A |
| `LuckySector.LongOddsGiveNegativeShift` | src/utils/predictionAlgorithm.ts:42-48 | odds of 100.0 scale past the table to more than a turn, and the shift `normalizeAngle(A - C)` comes out negative |
| `LuckySector.RenderedArcIsRecoverable` | src/utils/predictionAlgorithm.ts:154 | the text starts with "clockwise" exactly when the arc is clockwise |
| `LuckySector.RenderSector` | src/utils/predictionAlgorithm.ts:154 | the template of line 154; `RenderedArcIsRecoverable` and `LuckySectorText` state what it prints |
| `LuckySector.DecimalDigits` | src/utils/predictionAlgorithm.ts:154 | a three-digit number prints as its hundreds, tens and units digits |
| `LuckySector.MidpointOf135And180` | src/utils/predictionAlgorithm.ts:60-77 | the clockwise midpoint of 135° and 180° is 337.5° |
| `LuckySector.SectorFrom180To337` | src/utils/predictionAlgorithm.ts:98-123 | the sector from 180° to 337.5° is clockwise, with an angle of 157.5° |
| `LuckySector.ManchesterUnitedChelseaSector` | src/utils/predictionAlgorithm.ts:129-152 | inputs 25, 32 and 28 (odds 2.5, 3.2 and 2.8) give the clockwise sector from 180° to 337.5° |
| `LuckySector.ManchesterUnitedChelseaText` | src/utils/predictionAlgorithm.ts:154 | that sector prints as "clockwise from 180° to 338° with angle 158°" |
| `LuckySector.Prints180` | src/utils/predictionAlgorithm.ts:154 | 180° prints as "180" |
| `LuckySector.Prints338` | src/utils/predictionAlgorithm.ts:154 | 337.5° prints as "338" |
| `LuckySector.Prints158` | src/utils/predictionAlgorithm.ts:154 | 157.5° prints as "158" |
| `LuckySector.ExampleManchesterUnitedChelsea` | src/utils/predictionAlgorithm.ts:129-155 | `calculateLuckySector(2.5, 3.2, 2.8)` (scaled to 25, 32, 28) returns "clockwise from 180° to 338° with angle 158°", whatever sine and cosine return |
| `LuckySector.MidpointOf45And0` | src/utils/predictionAlgorithm.ts:60-77 | the clockwise midpoint of 45° and 0° is 22.5° |
| `LuckySector.SectorFrom0To22` | src/utils/predictionAlgorithm.ts:98-123 | the sector from 0° to 22.5° is clockwise, with an angle of 22.5° |
| `LuckySector.CollinearSectorStages` | src/utils/predictionAlgorithm.ts:129-152 | inputs 1, 4 and 14 (two equal angles) give the clockwise sector from 0° to 22.5° |
| `LuckySector.CollinearSectorText` | src/utils/predictionAlgorithm.ts:154 | that sector prints as "clockwise from 0° to 23° with angle 23°" |
| `LuckySector.ExampleCollinearSector` | src/utils/predictionAlgorithm.ts:129-155 | `calculateLuckySector(0.1, 0.4, 1.4)` (scaled to 1, 4, 14) returns "clockwise from 0° to 23° with angle 23°" |
| `LuckySector.RoundUpToNextTens` | src/utils/predictionAlgorithm.ts:125-127 | the result is a multiple of ten degrees and is the least one not below the input |
| `LuckySector.LuckyValueOfDegrees` | src/utils/predictionAlgorithm.ts:10-17 | the lucky-value table keyed by whole degrees; its keys, inverse and onto-ness are the three lemmas below |
| `LuckySector.LuckyTableKeys` | src/utils/predictionAlgorithm.ts:10-17 | the lucky-value table has keys exactly at the 37 multiples of ten from 0 to 360 |
| `LuckySector.LuckyTableInverse` | src/utils/predictionAlgorithm.ts:10-17 | each key's value is a wheel number from 0 to 36, and the inverse table maps it back to the key |
| `LuckySector.LuckyTableOnto` | src/utils/predictionAlgorithm.ts:10-17 | every wheel number from 0 to 36 is the value of some key, so the table is a bijection |
| `Prediction.ImpliedProbability` | app/dashboard/predictions/page.tsx:144-146 | the implied probability is positive, and times the odds it gives 100 |
| `Prediction.ProbabilityOrder` | app/dashboard/predictions/page.tsx:144-146 | shorter odds mean a strictly larger probability, and equal odds mean an equal one |
| `Prediction.MathRound` | app/dashboard/predictions/page.tsx:162 | `Math.round` gives the nearest integer, halves up |
| `Prediction.CalculatePrediction` | app/dashboard/predictions/page.tsx:143-163 | home and away are picked exactly when their probability is strictly the largest, and draw otherwise; the confidence is the picked outcome's probability, rounded |
| `Prediction.PredictionByOdds` | app/dashboard/predictions/page.tsx:143-163 | the same rule stated on the odds: a side is picked exactly when its odds are strictly the shortest |
| `Prediction.WinnerHasTopConfidence` | app/dashboard/predictions/page.tsx:143-163 | a home or away pick reports the largest rounded probability |
| `Prediction.MathRoundMonotone` | app/dashboard/predictions/page.tsx:162 | rounding keeps order |
| `Prediction.TopTieIsDraw` | app/dashboard/predictions/page.tsx:151-160 | when home and away share the shortest odds, the pick is a draw with the draw's (lower) confidence |
| `Prediction.ConfidenceIsPercentage` | app/dashboard/predictions/page.tsx:143-163 | the confidence is non-negative, and at most 100 when all odds are at least 1 |
| `Prediction.ResultLabel` | app/dashboard/predictions/page.tsx:292-296 | `getResultLabel`; `ResultLabelIsReadable` states what it shows |
| `Prediction.ResultLabelIsReadable` | app/dashboard/predictions/page.tsx:292-296 | the label is "Draw" exactly for a draw; otherwise it is the picked team's name followed by " Win" |
| `Prediction.MatchesQuery` | app/dashboard/predictions/page.tsx:46-51 | the filter effect's test: home team, away team or league contains the query, both lower-cased |
| `Prediction.MatchesTeam` | app/dashboard/predictions/page.tsx:121-125 | the team search's test: home or away team contains the query, both lower-cased; the league is not searched |
| `Prediction.SearchFilter` | app/dashboard/predictions/page.tsx:46-51 | a match is kept iff its home team, away team or league contains the query, ignoring case |
| `Prediction.TeamSearch` | app/dashboard/predictions/page.tsx:121-125 | a match is found iff its home or away team contains the query, ignoring case; the league is not searched |
| `Prediction.SearchesKeepOrder` | app/dashboard/predictions/page.tsx:121-125 | both searches keep list order: they distribute over concatenation |
| `Prediction.TeamSearchWithinSearchFilter` | app/dashboard/predictions/page.tsx:121-125 | every team-search hit is also kept by the search filter |
| `Prediction.FirstTeamHit` | app/dashboard/predictions/page.tsx:127-129 | the first hit is the earliest match in the list that names the team |
| `Prediction.SearchIgnoresQueryCase` | app/dashboard/predictions/page.tsx:48-50 | lower-casing the query first changes neither search |
| `Prediction.IsManualId` | app/dashboard/predictions/page.tsx:179 | `id.toString().startsWith('manual-')`; `ManualIdRoundTrip` states that every built id passes it |
| `Prediction.ManualFormComplete` | app/dashboard/predictions/page.tsx:505 | both teams and all three odds fields are non-empty; the league may be left out |
| `Prediction.ManualId` | app/dashboard/predictions/page.tsx:510 | a manual id is longer than its `manual-` prefix |
| `Prediction.ManualIdRoundTrip` | app/dashboard/predictions/page.tsx:179 | every id built for a manual match is recognised as manual, and its timestamp reads back from the digits |
| `Prediction.ManualMatch` | app/dashboard/predictions/page.tsx:508-518 | the built match has a manual id, the typed teams, the league or "Custom Match", and the parsed odds |
| `Prediction.SubmitFailure` | app/dashboard/predictions/page.tsx:286 | the error banner shows the error's message, or "Failed to submit prediction" when the message is empty |
| `DashboardPredictions.OrElseOdds` | app/dashboard/predictions/page.tsx:255-257 | `x \|\| fallback` on odds: zero falls back, and the result is never zero |
| `DashboardPredictions.SubmissionRow` | app/dashboard/predictions/page.tsx:179-263 | a manual match gets a null match id and its own data; any other match gets its id, with each non-empty stored column winning over the selected match's; the confidence is always the computed one |
| `DashboardPredictions.ManualMatchIsSubmittedAsManual` | app/dashboard/predictions/page.tsx:504-526 | a match loaded from the manual form is inserted with no match id, with the typed teams and league and the parsed odds |
| `DashboardPredictions.PredictionsPage.constructor` | app/dashboard/predictions/page.tsx:15-35 | the initial state of the page's hooks |
| `DashboardPredictions.PredictionsPage.FetchData` | app/dashboard/predictions/page.tsx:56-83 | matches and token are replaced only when their query returned data; then the filter effect runs on the new matches |
| `DashboardPredictions.PredictionsPage.ApplySearchFilter` | app/dashboard/predictions/page.tsx:41-54 | a blank query shows every match and clears the searched match; any other query shows the search-filter result |
| `DashboardPredictions.PredictionsPage.EditSearchQuery` | app/dashboard/predictions/page.tsx:41-54 | typing sets the query and reruns the filter effect |
| `DashboardPredictions.PredictionsPage.SearchTeam` | app/dashboard/predictions/page.tsx:112-135 | a blank query only shows a message; a hit shows the hits and selects the first; no hit shows a "No upcoming matches" message |
| `DashboardPredictions.PredictionsPage.SelectMatch` | app/dashboard/predictions/page.tsx:165-170 | selects the match, preselects the computed pick, and clears the message |
| `DashboardPredictions.PredictionsPage.PredictSearchedMatch` | app/dashboard/predictions/page.tsx:137-141 | selects the searched match if there is one, and otherwise changes nothing |
| `DashboardPredictions.PredictionsPage.SetPrediction` | app/dashboard/predictions/page.tsx:681 | a result button sets the pick to the user's choice, which may differ from the computed one |
| `DashboardPredictions.PredictionsPage.ToggleManualEntry` | app/dashboard/predictions/page.tsx:412 | the manual-entry form is shown when it was hidden, and hidden when it was shown |
| `DashboardPredictions.PredictionsPage.LoadManualMatch` | app/dashboard/predictions/page.tsx:504-526 | an incomplete form is refused with a message; a complete one is selected as a manual match and the form closes |
| `DashboardPredictions.PredictionsPage.SubmitPrediction` | app/dashboard/predictions/page.tsx:172-290 | without a selection, a pick or a token nothing happens; otherwise the row is inserted; an insert error stops there; otherwise the token is charged one; on full success the selection, pick, query, searched match and manual form are reset; a charged token never goes below zero |
| `SrcPredictions.SubmissionRow` | src/pages/PredictionsPage.tsx:166-174 | the inserted row carries the match id, the user's pick and the token; its confidence is the computed one whichever result was picked |
| `SrcPredictions.PredictionsPage.constructor` | src/pages/PredictionsPage.tsx:11-22 | the initial state of the page's hooks |
| `SrcPredictions.PredictionsPage.FetchData` | src/pages/PredictionsPage.tsx:43-70 | matches and token are replaced only when their query returned data; then the filter effect runs |
| `SrcPredictions.PredictionsPage.ApplySearchFilter` | src/pages/PredictionsPage.tsx:28-41 | a blank query shows every match and clears the searched match; any other query shows the search-filter result |
| `SrcPredictions.PredictionsPage.EditSearchQuery` | src/pages/PredictionsPage.tsx:28-41 | typing sets the query and reruns the filter effect |
| `SrcPredictions.PredictionsPage.SearchTeam` | src/pages/PredictionsPage.tsx:99-122 | a blank query only shows a message; a hit shows the hits and selects the first; no hit shows a "No upcoming matches" message |
| `SrcPredictions.PredictionsPage.SelectMatch` | src/pages/PredictionsPage.tsx:152-157 | selects the match, preselects the computed pick, and clears the message |
| `SrcPredictions.PredictionsPage.PredictSearchedMatch` | src/pages/PredictionsPage.tsx:124-128 | selects the searched match if there is one, and otherwise changes nothing |
| `SrcPredictions.PredictionsPage.SetPrediction` | src/pages/PredictionsPage.tsx:441 | a result button sets the pick to the user's choice, which may differ from the computed one |
| `SrcPredictions.PredictionsPage.SubmitPrediction` | src/pages/PredictionsPage.tsx:159-196 | the same guard and order as the dashboard page, with the shorter row; on success the selection, pick, query and searched match are reset |
| `Register.With` | src/pages/RegisterPage.tsx:24-27 | the edited field takes the value, and every other field keeps its own |
| `Register.Shown` | src/pages/RegisterPage.tsx:128-253 | step 1 renders the three credential inputs, and step 2 the four profile inputs |
| `Register.Step1Error` | src/pages/RegisterPage.tsx:29-43 | a missing field comes first, then a password shorter than six characters, then a mismatched confirmation; no message iff all three checks pass |
| `Register.Step2Error` | src/pages/RegisterPage.tsx:45-51 | no message iff username, full name and phone are non-empty; the country is not checked |
| `Register.Step1IgnoresProfile` | src/pages/RegisterPage.tsx:24-43 | editing a profile field never changes the step-1 verdict |
| `Register.Step2IgnoresCredentials` | src/pages/RegisterPage.tsx:24-51 | editing a credential field never changes the step-2 verdict |
| `Register.EmptyFormIsIncomplete` | src/pages/RegisterPage.tsx:10-51 | the initial form fails both steps with "Please fill in all fields" |
| `Register.FiveCharacterPasswordIsTooShort` | src/pages/RegisterPage.tsx:34-37 | a matching five-character password is refused as too short |
| `Register.RegisterPage.constructor` | src/pages/RegisterPage.tsx:9-19 | step 1, the initial form with Uganda preselected, and no error |
| `Register.RegisterPage.HandleInputChange` | src/pages/RegisterPage.tsx:24-27 | the field changes, the error clears, and the page's invariant is kept |
| `Register.RegisterPage.ValidateStep1` | src/pages/RegisterPage.tsx:29-43 | returns true iff the credentials pass; otherwise it shows the first problem |
| `Register.RegisterPage.ValidateStep2` | src/pages/RegisterPage.tsx:45-51 | returns true iff the profile passes; otherwise it shows "Please fill in all fields" |
| `Register.RegisterPage.NextStep` | src/pages/RegisterPage.tsx:53-57 | step 1 advances to step 2 exactly when the credentials pass |
| `Register.RegisterPage.Submit` | src/pages/RegisterPage.tsx:59-80 | nothing is sent unless the profile passes; a sent request carries data that passes both steps; success shows step 3, and failure shows the reported message or "Failed to create account"; the request's country is always one of the select's options |
| `Register.RegisterPage.Back` | src/pages/RegisterPage.tsx:263 | back to step 1, with the invariant kept |
| `FetchMatches.SelectWindow` | supabase/functions/fetch-matches/index.ts:44-54 | `today` is today's midnight to tomorrow's, `tomorrow` is tomorrow's to the day after's, and anything else is today's to the day after's |
| `FetchMatches.DefaultWindowIsTodayPlusTomorrow` | supabase/functions/fetch-matches/index.ts:44-54 | the default window is exactly the union of the two one-day windows, which do not overlap |
| `FetchMatches.MockMatches` | supabase/functions/fetch-matches/index.ts:56-137 | there are eight fixtures |
| `FetchMatches.RowOf` | supabase/functions/fetch-matches/index.ts:142-158 | the upserted row copies the fixture's fields, with status "upcoming" |
| `FetchMatches.TailKeysDiffer` | supabase/functions/fetch-matches/index.ts:157 | in a table with unique `external_id`s, the rows after the first keep unique keys that differ from the first row's |
| `FetchMatches.Upsert` | supabase/functions/fetch-matches/index.ts:142-158 | upsert on `external_id`: the keys stay unique, the row is afterwards the only one with its key (an old row with that key is replaced), rows with other keys stay, and nothing else appears |
| `FetchMatches.UpsertStep` | supabase/functions/fetch-matches/index.ts:139-164 | one more fixture, written or refused, keeps the loop invariant |
| `FetchMatches.EarlierIdsDiffer` | supabase/functions/fetch-matches/index.ts:139-164 | with distinct ids, no fixture sent so far shares the next fixture's id |
| `FetchMatches.UpsertInWindow` | supabase/functions/fetch-matches/index.ts:139-164 | exactly the in-window fixtures are sent, in order; the keys stay unique; every written fixture's row is in the table and is the only row with its key, untouched rows stay, and nothing else appears; a refused write is only logged |
| `FetchMatches.MockIdsDistinct` | supabase/functions/fetch-matches/index.ts:56-137 | the eight fixture ids are distinct |
| `FetchMatches.MockDates` | supabase/functions/fetch-matches/index.ts:56-137 | fixtures 001, 004, 006 and 008 are dated today, and the others tomorrow |
| `FetchMatches.FilterFour` | supabase/functions/fetch-matches/index.ts:139-141 | filtering four fixtures reduces to the kept ones, one by one |
| `FetchMatches.FilterEight` | supabase/functions/fetch-matches/index.ts:139-141 | filtering eight fixtures reduces to filtering its two halves |
| `FetchMatches.TodaySendsFourFixtures` | supabase/functions/fetch-matches/index.ts:139-141 | with that date pattern, the `today` window sends fixtures 001, 004, 006 and 008 |
| `FetchMatches.TomorrowSendsFourFixtures` | supabase/functions/fetch-matches/index.ts:139-141 | with that date pattern, the `tomorrow` window sends fixtures 002, 003, 005 and 007 |
| `FetchMatches.DefaultSendsAllFixtures` | supabase/functions/fetch-matches/index.ts:139-141 | the default window sends all eight fixtures |
| `FetchMatches.FixturesSentByDate` | supabase/functions/fetch-matches/index.ts:35-141 | which fixtures each `date` value sends: four, the other four, or all eight |
| `FetchMatches.ReadBack` | supabase/functions/fetch-matches/index.ts:166-172 | a row is read back iff it lies in the window (`gte` start, `lt` end) and its status is "upcoming" |
| `FetchMatches.WrittenFixturesAreReadBack` | supabase/functions/fetch-matches/index.ts:139-172 | every in-window fixture whose upsert went through is in the read-back, and no stale row with its key is read back beside it |
| `FetchMatches.Serve` | supabase/functions/fetch-matches/index.ts:20-196 | OPTIONS gets 200 with no body and no write; otherwise the window's fixtures are upserted; a read error becomes a 500 with its message or "Internal server error"; otherwise 200 lists the read-back, which contains every written fixture's new row and no stale row with its key |
| `Text.Trim` | app/dashboard/predictions/page.tsx:42 | `String.prototype.trim`: `TrimStart` then `TrimEnd`, over the ECMAScript white-space and line-terminator characters |
| `Text.IsBlank` | app/dashboard/predictions/page.tsx:113 | `!s.trim()`: the trimmed string is empty; `BlankIffAllWhitespace` states when |
| `Text.TrimStart` | app/dashboard/predictions/page.tsx:42 | `trim` drops a whitespace prefix: the rest is a suffix that does not start with whitespace |
| `Text.TrimEnd` | app/dashboard/predictions/page.tsx:42 | `trim` drops a whitespace suffix: the rest is a prefix that does not end with whitespace |
| `Text.TrimStartEmptyIff` | app/dashboard/predictions/page.tsx:42 | the prefix-trimmed string is empty iff the string is all whitespace |
| `Text.BlankIffAllWhitespace` | app/dashboard/predictions/page.tsx:113 | `!s.trim()` holds iff the string is all whitespace |
| `Text.TrimEndEmptyOnlyIfBlank` | app/dashboard/predictions/page.tsx:42 | the suffix-trimmed string is empty only if the string is all whitespace |
| `Text.LowerChar` | app/dashboard/predictions/page.tsx:48 | `toLowerCase` on one character leaves no capital letter and changes nothing else |
| `Text.ToLower` | app/dashboard/predictions/page.tsx:48 | lower-casing works character by character and keeps the length |
| `Text.ToLowerIdempotent` | app/dashboard/predictions/page.tsx:48 | lower-casing twice is lower-casing once |
| `Text.ContainsIffOccurs` | app/dashboard/predictions/page.tsx:48 | `includes` holds iff the needle occurs at some position of the haystack |
| `Text.DigitChar` | app/dashboard/predictions/page.tsx:510 | a digit prints as a character from '0' to '9' |
| `Text.DecimalString` | app/dashboard/predictions/page.tsx:510 | a number prints as a non-empty string of digits |
| `Text.DecimalRoundTrip` | app/dashboard/predictions/page.tsx:510 | reading back the printed digits gives the number |
| `Text.StartsWith` | app/dashboard/predictions/page.tsx:179 | `startsWith`: the string begins with the prefix |
| `Text.Contains` | app/dashboard/predictions/page.tsx:48 | `includes`; `ContainsIffOccurs` states it as an occurrence at some index |
| `Text.OrElse` | app/dashboard/predictions/page.tsx:513 | `s \|\| fallback` on strings: the result is one of the two, and it is empty only when both are |
| `Sequences.Filter` | app/dashboard/predictions/page.tsx:46-51 | `Array.filter` keeps exactly the elements that pass, and never lengthens the list |
| `Sequences.FilterAppend` | app/dashboard/predictions/page.tsx:46-51 | filtering distributes over concatenation, so order is kept |
| `Sequences.FilterPrefixStep` | supabase/functions/fetch-matches/index.ts:139-141 | filtering one more element appends it exactly when it passes |
| `Sequences.FilterKeepsAll` | supabase/functions/fetch-matches/index.ts:139-141 | when every element passes, the filter returns the list unchanged |
| `Sequences.FilterFirst` | app/dashboard/predictions/page.tsx:127-129 | the first element kept is the earliest element that passes |
| `Sequences.FilterEmptyIff` | app/dashboard/predictions/page.tsx:127 | the filter is empty iff no element passes |

## Left out

- **I/O.** All I/O is left out: the Supabase client, `fetch`, `Deno.serve`, the CORS headers, environment variables, console logging, `alert` and the redirect after sign-up. What these calls return is a parameter of the method that makes them.
- **The clock.** `Date.now()` and `new Date()` are parameters: the three local midnights and one `now` for all upserts. Each upsert in the source stamps its own `updated_at`.
- **Floating point.**
  - Sine and cosine are an abstract `Trig` parameter.
  - The scaling `Math.round(odds * 10)` inside `calculateLuckySector` is computed on exact reals (`LuckySector.ScaleOdds`), so a double product that lands just below a half is not modelled.
  - The implied probabilities are exact reals, not doubles.
- **Odds parsing.** `parseFloat` of the manual odds is a parameter that is always positive. NaN and zero odds from malformed text are not modelled.
- **Flags.** The loading, submitting, refreshing and search-loading flags are left out. They only drive the UI.
- **Refetch after submit.** The refetch that follows a successful submission is left out. `FetchData` models that call on its own.
- **handleRefreshMatches** (`app/dashboard/predictions/page.tsx:84-110` and its twin in `src/pages/PredictionsPage.tsx`) is left out. It only calls the edge function over the network and then refetches.
- **The dashboard caller of the lucky sector** (`app/dashboard/predictions/page.tsx:648-662`) is left out. It is display code.
- **Other pages.** The admin and history pages and the rendered UI are not part of this model.
- **Database order.** The read-back's `order('match_date')` is not modelled: `FetchMatches.ReadBack` keeps table order. `matches \|\| []` on a null result is not modelled either.
- **Other errors.** Errors thrown by `createClient` or the URL parser, which the edge function also turns into a 500, are not modelled.
- **Strings.** Strings are sequences of characters:
  - `length` counts characters, not UTF-16 code units;
  - `toLowerCase` folds only A-Z;
  - `trim` strips the ECMAScript white-space and line-terminator characters, listed in `Text.IsWhitespace`.
- **Register.RegisterPage.HandleInputChange** requires that the field is one the current step renders, and that a country comes from the select's options. This reflects the UI, not a check in the handler.
- **Register.RegisterPage.Submit** requires step 2, the only step that renders the submit button.
- **LuckySector.NormalizeAngle** follows the code, not the stated intent of "0 to 360". Below minus one turn the result can be negative, because the code computes `(angle + 360) % 360` with a remainder that keeps the sign. The range is proved only for angles of at least minus one turn. The pipeline can go below that: odds above the table (100.0 scales to 1000, looked up as 1000°) make `normalizeAngle(A - C)` negative, as `LuckySector.LongOddsGiveNegativeShift` shows. The later stages still land in [0, 360) for any non-negative scaled odds (`LuckySector.LuckySectorInRange`).
- **The collinear example.** For the collinear scaled inputs 1, 4 and 14, the code prints "clockwise from 0° to 23° with angle 23°". This is `LuckySector.ExampleCollinearSector`, and the model follows the code.
- **FetchMatches.UpsertInWindow** and **FetchMatches.Serve** require that the table's `external_id`s are unique. The database guarantees this: `onConflict: 'external_id'` needs a unique index on that column.
