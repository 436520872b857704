# Dieta Popular: assessment scoring and re-assessment gate

A Dafny model of the decision logic in `script.js` of the Dieta Popular nutrition dashboard:

- the six wellness sub-scores drawn on the results radar chart (`calculateRadarScores`);
- what a submitted questionnaire turns into: body-mass index (BMI), BMI class, the ordered risk alerts and the profile tag;
- the re-assessment gate that `checkAssessmentLock` and `handleAssessmentSubmit` both apply;
- the in-memory stores these handlers change: the user list `usersDb` and the per-client assessment history `assessmentsDb`;
- three small helpers: `calculateAge`, the duplicate-email check at registration, and the essential-meals check of the plan editor.

Modules, one per component:

| file | module | what it holds |
|---|---|---|
| wrappers.dfy | `Wrappers` | `Option`, used where the source has NaN, `undefined` or 'N/A' |
| questionnaire.dfy | `Questionnaire` | the exact Portuguese answer labels and the parsed `Answers` record |
| radar_scores.dfy | `RadarScores` | the six sub-scores |
| assessment.dfy | `Assessment` | BMI, classification, alerts, profile and the stored record |
| gate.dfy | `AssessmentGate` | the day-difference rule |
| js_text.dfy | `JsText` | `String.prototype.trim` |
| meal_plan.dfy | `MealPlan` | the essential-meals rule |
| age.dfy | `Age` | `calculateAge` |
| store.dfy | `Store` | users, histories and the handlers that change them (class `Database`) |

Answer labels are strings. Any string outside a lookup's labels is accepted and scores 0, as a `switch` without a `default` does. The one exception is the stress level: there an unknown answer keeps the initial 100. Numbers read with `parseFloat` are `Option<real>`, where `None` stands for NaN. BMI is the exact quotient over `real`. Instants are integer milliseconds since the epoch.

The gate is kept exactly as written. It computes `diffDays = floor((now - last) / 86400000)` and blocks only when `diffDays < 0`, that is, only when the last record is dated in the future. No minimum interval is ever enforced between two assessments. `AssessmentGate.NoCooldown` and `Store.LockAgreesWithSubmit` state this outright.

Two details of the code that the model keeps:

- The general-health score subtracts once per list entry, not once per distinct value: three symptoms and one disease give 100 − 45 − 20 = 35 (`RadarScores.HealthScoreExample`).
- The stored BMI is `toFixed(2)` text; classification uses the unrounded quotient, and so does the model.

## Model

| member | source | states |
|---|---|---|
| RadarScores.SleepHoursPoints | script.js:245-250 | points for sleep duration are at most 50, and are 0 exactly when the answer is none of the four duration labels |
| RadarScores.SleepQualityPoints | script.js:251-255 | points for sleep quality are at most 50, and are 0 exactly when the answer is none of the three quality labels |
| RadarScores.ActivityFreqPoints | script.js:260-265 | frequency points are at most 50, and are 0 exactly for 'Sedentário' or an unknown label |
| RadarScores.ActivityTypePoints | script.js:266-271 | intensity points are at most 50, and are 0 exactly for 'Nenhuma' or an unknown label |
| RadarScores.FruitPoints | script.js:277-282 | fruit and vegetable points are at most 35, and are 0 exactly for an unknown label |
| RadarScores.ProcessedPoints | script.js:284-289 | processed-food points are at most 35, and are 0 exactly for 'Diariamente' or an unknown label |
| RadarScores.SweetsPoints | script.js:291-296 | sweets points are at most 30, and are 0 exactly for 'Diariamente' or an unknown label |
| RadarScores.HydrationPoints | script.js:300-304 | hydration is at most 100, and is 0 exactly when the answer is none of the three water labels (there is no default branch) |
| RadarScores.WithoutSentinel | script.js:310 | the filter keeps every entry other than the "none" entry, with its multiplicity, so its length is the list length minus the occurrences of that entry |
| RadarScores.HealthScore | script.js:306-318 | the general-health score always lies in [0,100] |
| RadarScores.StressBase | script.js:321-326 | the stress base lies in [30,100], and is 100 exactly for an unrecognised stress level |
| RadarScores.WellbeingScore | script.js:320-331 | mental wellbeing lies in [15,100] for every input |
| RadarScores.CalculateRadarScores | script.js:233-334 | all six scores lie in [0,100]; wellbeing is at least 15; hydration is 0 exactly for an unrecognised water answer |
| RadarScores.HealthScoreCountsEntries | script.js:306-318 | general health = max(0, 100 − 15·(symptom entries other than 'Nenhum') − 20·(disease entries other than 'Nenhuma')), counting entries, not distinct values |
| RadarScores.HealthScoreExample | script.js:306-318 | three symptoms and one disease give 35, and so does one symptom repeated three times |
| RadarScores.PoorSleepCostsFifteen | script.js:327-331 | for every stress level, 'Ruim (acordo cansado)' makes wellbeing exactly 15 lower than any other sleep quality |
| RadarScores.UnknownStressScoresHighest | script.js:320-331 | an unrecognised stress level gives 100 (85 with poor sleep), strictly above every recognised level |
| Assessment.Bmi | script.js:720 | BMI is defined exactly when weight and height are numbers and height ≠ 0; then BMI · height² = weight |
| Assessment.Classify | script.js:722-728 | empty class exactly when BMI is undefined; closed-open bands: < 18.5, [18.5,25), [25,30), ≥ 30 |
| Assessment.ClassifyMonotone | script.js:724-727 | a larger BMI never gets a lower class |
| Assessment.PushIf | script.js:729-736 | one conditional push keeps the alerts in rule order and adds exactly the pushed alert |
| Assessment.Alerts | script.js:729-736 | alerts come in rule order (sleep, stress, sedentary, processed/sweets, waist), each at most once, so there are at most 5; each one is present exactly when its rule holds; processed food or sweets 'Diariamente' gives one alert; the waist alert needs 'Feminino' with waist > 88 or 'Masculino' with waist > 102 |
| Assessment.ProfileFor | script.js:738 | more than 2 alerts gives critical attention, 1 or 2 gives points of improvement, 0 gives healthy |
| Assessment.Evaluate | script.js:718-747 | the stored record carries the given id, date and answers, the BMI of the weight and height, that BMI's class, the alerts of the answers and the profile of their count; class empty exactly when BMI is undefined; at most 5 alerts; the profile agrees with the alert count |
| Assessment.WorkedExample | script.js:718-738 | 70 kg at 1.75 m with poor sleep, low stress, a sedentary routine, rare processed food and sweets, and no waist is classed normal, with alerts [sleep, sedentary] and the points-of-improvement profile |
| AssessmentGate.DiffDays | script.js:653 | the day difference is the floor of elapsed ms over ms per day: d·day ≤ now − last < (d+1)·day |
| AssessmentGate.CheckEligibility | script.js:646-672 | eligible exactly when the history is empty or the last record is dated at or before now; when blocked, the wait is at least 1 and equals the ceiling of (last − now) in days |
| AssessmentGate.NoCooldown | script.js:651-654 | after appending a record dated at or before now, the gate allows again at that same instant |
| AssessmentGate.EligibleStaysEligible | script.js:651-654 | once allowed, the client stays allowed at every later instant while the history is unchanged |
| AssessmentGate.GateExamples | script.js:651-656 | a record one day old allows; a record dated two days ahead blocks with a wait of 2 |
| JsText.LeadingWhitespace | script.js:482 | the leading-whitespace count covers only whitespace and stops at the first visible character |
| JsText.TrailingWhitespace | script.js:482 | the trailing-whitespace count covers only whitespace and stops at the last visible character |
| JsText.Trim | script.js:482 | trim returns the slice of the input between leading and trailing whitespace, and everything after it is whitespace; it is empty exactly when the input has no visible character; otherwise it starts and ends with a visible character |
| JsText.TrimIdempotent | script.js:482 | a property of the `trim` model: trimming twice equals trimming once |
| MealPlan.EssentialMealsFilled | script.js:1081-1084 | a plan may be saved exactly when breakfast, lunch and dinner each hold a character other than whitespace |
| Age.CalculateAge | script.js:223-231 | 'N/A' exactly for an empty birth date; otherwise the age is the number of birthdays reached by today: the age-th birthday is on or before today and the next one is after today |
| Age.AgeIsUnique | script.js:223-231 | any number of years whose birthday is reached while the next one is not equals the computed age |
| Store.SeedUsers | script.js:191-194 | the two seed accounts are an admin and a nutritionist, with distinct emails |
| Store.AppendFreshEmailKeepsUnique | script.js:483-495 | appending a user whose email is not taken keeps all emails distinct |
| Store.Database.Load | script.js:187-196 | the stored users, or the two seed accounts when none were stored; the stored histories |
| Store.Database.Register | script.js:480-495 | rejects exactly when the trimmed email is already registered, leaving the users unchanged; otherwise appends one 'cliente' account with that email; keeps emails unique; never touches histories |
| Store.Database.CheckAssessmentLock | script.js:646-672 | allowed exactly when the gate is eligible for the client's history at now; otherwise reports the gate's wait in days |
| Store.Database.SubmitAssessment | script.js:674-750 | blocked: stores nothing and reports the wait. Allowed: appends exactly the evaluated record to this client's history, creating it if absent. Other clients' histories and the users are unchanged |
| Store.LockAgreesWithSubmit | script.js:646-686 | the lock and the submit handler decide alike at the same instant, and a rejection reports the wait the lock reported. After an accepted submission dated no later than now, the lock allows again: there is no cooldown |

## Left out

- Rendering, screen routing and event wiring are not modelled: pages, charts, the results screen and the `setTimeout`. Neither is form field collection. The model starts from an already parsed `Answers` record.
- Answers fields that no scoring rule reads are not part of `Answers`. These are the name override, hip circumference, meals per day, eating behaviour, cravings, other drinks, family history, medications, income, goal and diet preferences. The stored record keeps them, but no decision depends on them.
- The stored `imc` is the text `toFixed(2)` or 'N/A'. The model stores the exact quotient as `Option<real>`. IEEE-754 overflow and `parseFloat` parsing are left out: a number too large for a double is not treated as infinite.
- `symptoms` and `diseases` are sequences. A record without these lists behaves as if they were empty, which gives the same score.
- Reading and writing local storage, JSON serialisation and the round trip through it are I/O and are not modelled.
- `uid()` and the clock are parameters. The submit handler reads the clock twice, once for the gate and once for the record date. The model passes these as two separate instants, `now` and `date`.
- Records carry their date as integer milliseconds, not as ISO text. An unparsable stored date (NaN) is not modelled.
- Age.CalculateAge: takes calendar fields. It does not model the UTC parsing of 'YYYY-MM-DD' against the local-time getters, which can shift the birth date by one day.
- Store.Database.Register: the uniqueness it keeps is conditional on the loaded users already having unique emails. Stored data is not validated on load.
- PDF and spreadsheet export, login password matching, the rest of the plan editor and account deletion are not modelled. Account deletion also removes plans through a computed key.
- The current user is the caller's session. Its email is a parameter of the store methods.
