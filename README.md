# Rural health triage: scoring engine and visit store

This project models the decision logic of a rural-health triage app and
proves properties about it. The app is a single Streamlit page, `app.py`.
The model has two modules.

- `Scoring` (`scoring.dfy`) is the risk-scoring engine. A patient earns
  points from four sources:
  - the age band: +15 under five, +20 over sixty;
  - each symptom: +25 if critical, +10 if moderate, +5 for any other tag;
  - five vital-sign thresholds, each checked on its own;
  - each pre-existing condition: +15 if high-risk, +10 if moderate, 0 otherwise.

  The total is capped at 100. `CalculateRiskScore` is the accumulator
  procedure, with its two loops, and is proved equal to the rule-table
  function `RiskScore`. The score maps to a level (LOW, MEDIUM or HIGH) and
  the level to one of three fixed action texts. Symptom and condition tags
  are plain strings. An unknown tag is never rejected: as a symptom it
  earns 5 points, as a condition it earns nothing. A vital-sign entry that
  is missing from the vitals dictionary reads as its default (120/80, 75,
  98.6 °F, 98 %).
- `Visits` (`visits.dfy`) is the visit-record store and the dashboard query.
  - `VisitStore` holds the persisted list of visit records as a sequence
    field.
  - `SubmitVisit` does what the "Calculate Risk & Generate Recommendation"
    button does (`app.py:166-222`):
    - refuses the form when the patient name or the village is empty;
    - scores the patient;
    - builds a record whose id is the prior length plus one;
    - appends the record at the end.
  - The dashboard counts records per level. It keeps the records whose level
    and village are both selected, in stored order (`FilterVisits`). It
    sorts them by score, highest first, with a stable in-place insertion
    sort on an array (`SortByScoreInPlace`). That sort is proved to compute
    `SortByScore`. `SortByScore` is proved to be a permutation of its input,
    in non-increasing score order, and stable: for every score, the records
    with that score keep their relative order.

The free-text "other symptoms" entry is stored in the record after the
selected symptoms (`app.py:211`). It is not passed to the scoring function
(`app.py:180`), so it never adds points. `OtherSymptomsNotScored` states this.

## Model

| member | source | states |
|---|---|---|
| `Scoring.CalculateRiskScore` | app.py:29-79 | The accumulator procedure returns exactly the capped rule-table score `RiskScore`, and that score is always in [0, 100] |
| `Scoring.RiskScore` | app.py:79 | The score never exceeds 100 or the accumulated points, and it equals one of them (the cap, `min(score, 100)`) |
| `Scoring.AgePoints` | app.py:34-37 | The age band adds at most 20 points, and adds some exactly when the age is under 5 or over 60; `AgeOnlyScore` pins the values 15 and 20 |
| `Scoring.RawScore` | app.py:31-77 | The uncapped accumulator earns at least 5 points per symptom and at most 20 + 25 per symptom + 70 + 15 per condition. `SymptomContribution`, `ConditionContribution` and `VitalChecksIndependent` give each rule's exact share |
| `Scoring.SymptomWeight` | app.py:40-49 | Every symptom tag, known or not, is worth between 5 and 25 points |
| `Scoring.ConditionWeight` | app.py:70-77 | Every condition tag is worth at most 15 points |
| `Scoring.VitalPoints` | app.py:52-67 | The vitals add at most 70 points. They add nothing exactly when all five readings, with absent ones at their defaults, are inside the normal thresholds |
| `Scoring.AgeOnlyScore` | app.py:34-37 | With nothing else reported, the score is 15 under five, 20 over sixty and 0 otherwise; the bands are exclusive |
| `Scoring.SymptomContribution` | app.py:40-49 | Inserting one symptom anywhere in the list adds exactly 25 (critical), 10 (moderate) or 5 (any other tag) to the accumulated points; contributions compound |
| `Scoring.ConditionContribution` | app.py:70-77 | Inserting one condition anywhere adds exactly 15 (heart disease, COPD), 10 (diabetes, hypertension, pregnancy) or 0 (any other tag, "none" included) |
| `Scoring.SymptomPointsBounds` | app.py:43-49 | n symptoms earn between 5n and 25n points |
| `Scoring.ConditionPointsBounds` | app.py:73-77 | n conditions earn at most 15n points |
| `Scoring.VitalChecksIndependent` | app.py:52-67 | Each of the five vital readings adds its points (15, 10, 15, 10, 20) exactly when it crosses its own threshold, whatever the other readings; an absent reading adds nothing |
| `Scoring.DefaultVitalsScoreNothing` | app.py:52-56 | Neither an empty vitals dictionary nor the form's baseline readings (120, 80, 75, 98.6, 98) trip any threshold |
| `Scoring.ScoreOrderIndependent` | app.py:43-77 | Lists of symptoms and of conditions that are permutations of each other give the same score |
| `Scoring.ScoreMonotone` | app.py:29-88 | Reporting more symptoms or more conditions never lowers the score or the level |
| `Scoring.WorstCaseHitsCap` | app.py:40-79 | All four critical symptoms with both high-risk conditions give exactly 100, for any age and vitals |
| `Scoring.RiskLevelOf` | app.py:81-88 | HIGH exactly when score >= 60, MEDIUM exactly when 30 <= score < 60, LOW exactly when score < 30 |
| `Scoring.LevelMonotone` | app.py:81-88 | A higher score never gets a lower level |
| `Scoring.LevelBoundaries` | app.py:83-88 | 29 is LOW, 30 MEDIUM, 59 MEDIUM, 60 HIGH (and 0 LOW, 100 HIGH) |
| `Scoring.Recommendation` | app.py:90-97 | The text is one of the three fixed advisory texts |
| `Scoring.RecommendationByLevelOnly` | app.py:90-97 | Two recommendations are equal exactly when their levels are equal, whatever the scores: the score argument is ignored and the level determines the text |
| `Scoring.LevelNamesDistinct` | app.py:83-88 | The stored names "LOW", "MEDIUM", "HIGH" identify their level |
| `Scoring.InfantBaselineCase` | app.py:29-88 | Age 3 with nothing else reported scores 15, level LOW |
| `Scoring.HealthyAdultCase` | app.py:29-97 | Age 30, no symptoms, condition "none", baseline vitals score 0: LOW, home care |
| `Scoring.ElderlyCriticalCase` | app.py:29-97 | Age 70, chest pain, breathlessness, heart disease and SpO2 90 accumulate 105, capped to 100: urgent referral |
| `Visits.StoredSymptoms` | app.py:211 | The stored symptoms are the selected ones, in order, followed by the free-text entry exactly when it is non-empty |
| `Visits.RecordFor` | app.py:203-218 | The record carries the given id and the form's name, village, age, conditions and vitals. Its symptoms are the stored symptoms, and its score is in [0, 100] with the level and recommendation that follow from it. `RecordForWellFormed` and `OtherSymptomsNotScored` tie its score to the engine's score of the selected symptoms only |
| `Visits.RecordForWellFormed` | app.py:167-218 | A record built from a form is well formed exactly when name and village are filled in. Its score is the engine's score of the selected symptoms. Its level and recommendation follow from that score |
| `Visits.OtherSymptomsNotScored` | app.py:180-182 | The free-text symptom entry has no effect on the stored score, level or recommendation |
| `Visits.SequentialIdsIdentify` | app.py:204 | In a list with sequential ids, the ids are distinct and lie in 1..length |
| `Visits.VisitStore.constructor` | app.py:17-22 | A missing backing document loads as an empty list, which has sequential ids and only well-formed records; a present one loads as it is |
| `Visits.VisitStore.SubmitVisit` | app.py:166-222 | An empty name or village is refused with nothing stored. Otherwise the store becomes the old list plus exactly one record at its end. That record has id = prior length + 1, the form's fields and the engine's assessment. Sequential ids and well-formedness are preserved, so N submissions to an empty store give ids 1..N in order |
| `Visits.CountLevel` | app.py:241-249 | A per-level count never exceeds the number of records |
| `Visits.CountsPartition` | app.py:241-250 | The HIGH, MEDIUM and LOW counts add up to the number of records |
| `Visits.CountIsFilterSize` | app.py:241-276 | A level's count equals the number of records the filter keeps with only that level and every village selected |
| `Visits.VillagesOf` | app.py:265 | The default village selection holds exactly the villages that occur in the records |
| `Visits.FilterVisits` | app.py:273-276 | A record is kept exactly when it is stored and both its level and its village are selected; never more records than stored |
| `Visits.FilterAppend` | app.py:273-276 | Filtering keeps stored order: filtering a concatenation is concatenating the filtered parts |
| `Visits.FilterEmptySelection` | app.py:273-276 | An empty level selection or an empty village selection shows nothing |
| `Visits.FilterKeepsAll` | app.py:258-276 | With all levels selected and every record's village selected, the filter returns the whole list unchanged |
| `Visits.DefaultFilterShowsAll` | app.py:258-276 | The dashboard's default selections show every record, in stored order |
| `Visits.SortByScore` | app.py:279 | Sorting keeps the length. `SortPermutes`, `SortSorted` and `SortStable` prove the result is a permutation with non-increasing scores that keeps equal scores in input order, which is what Python's stable `sort(key=..., reverse=True)` returns |
| `Visits.SortPermutes` | app.py:279 | Sorting returns a permutation of its input |
| `Visits.SortSorted` | app.py:279 | The sorted list has non-increasing scores |
| `Visits.SortStable` | app.py:279 | For every score, the records with that score appear in the same relative order before and after sorting |
| `Visits.TiedScoresKeepOrder` | app.py:279 | Scores 40, 40, 80, 10 sort to 80, the first 40, the second 40, 10 |
| `Visits.InsertAt` | app.py:279 | One pass of the in-place insertion: the prefix a[..i+1] becomes the stable insertion of a[i] into a[..i], and the rest of the array is untouched |
| `Visits.SortByScoreInPlace` | app.py:279 | Sorting the array in place leaves exactly `SortByScore` of its old contents: a non-increasing permutation |
| `Visits.DashboardList` | app.py:272-279 | The shown list is sorted by score, highest first. It is a permutation of the filtered records and contains exactly the stored records whose level and village are selected. Records with equal scores keep their stored order |

## Left out

- Page layout, widgets, navigation, colours, HTML and the About text are presentation only (`app.py:1-12`, `99-165`, `184-200`, `224-238`, `281-361`).
- Writing the backing JSON document (`save_data`) and parsing it in `load_data` are file I/O. The document is modelled as the in-memory `visits` sequence, and a failed write is not modelled.
- A backing document that exists but does not parse makes `json.load` raise (`app.py:19-21`). That exception is not modelled: `VisitStore.constructor` takes either a missing document, which reads as empty, or an already parsed list.
- The page loads the document twice per submission (`app.py:204` and `app.py:220`). The model assumes no concurrent writer in between, so both reads see the same list. Concurrent writers are out of scope.
- The clock and date formatting (`datetime.now()`, `strftime`, `isoformat`) are external. The visit date and the timestamp enter the model as opaque strings.
- Temperature is a Dafny `real`, so it is exact rather than a binary float. Only its `> 101` threshold is used.
- The risk level is an enumeration with three values, and the level's stored name is `RiskLevel.Name`. So `get_recommendation`'s fallback for a level string that is none of the three is only ever reached for LOW.
- Dashboard rendering truncates the symptom list to five entries per card (`app.py:297`). That is display only.
