# Surgical risk assessment core

A Dafny model of the decision logic of a pre-operative surgical risk web
application:

- **Risk rule engine** (`RiskEngine`, `risk_engine.dfy`). A patient record
  (demographics, vitals, labs, comorbidities, surgery type and complexity) is
  scored by six guarded rules. Each rule adds fixed increments to four
  category scores (mortality, infection, bleeding, readmission, starting at
  2.5 / 8.0 / 5.5 / 12.0) and appends one explanatory risk factor. The tier
  (Low / Moderate / High) is a threshold on the largest score, and each score
  is capped (25 / 30 / 25 / 35). The engine is modelled twice. `Assess` is a
  left fold over a rule table and serves as the specification.
  `CalculateRiskAssessment` is the code's straight-line method with four
  accumulators, six guarded increments and a factor list that grows by
  appending. The method is proved to return `Assess`, and the listed
  properties are proved about `Assess`.
- **Scheduling advice** (`Scheduling`, `scheduling.dfy`). From an
  assessment it derives the annotated operating-slot catalog (High risk
  recommends only the 07:30 slot), the resources to prepare (ICU bed, blood
  bank, sterile setup, bariatric equipment, each behind a strict threshold),
  and the estimated-duration line. The resource advisor is an imperative
  method proved equal to a masked selection from the catalog.
- **Patient intake form** (`PatientForm`, `patient_form.dfy`). This module
  holds the form's default record and the comorbidity checkbox updater.
  Checking appends the condition without a membership test. Unchecking
  removes every occurrence of the condition.
- `Sequences` (`sequences.dfy`) holds shared helpers. `Embeds` is an
  order-preserving subsequence relation, `NoDup` means no element repeats,
  and `Keep` selects the elements whose mask flag is set.

Scores are exact `real`s, so 2.5 + 0.8 is exactly 3.3. Fields the form reads
with `parseInt` are `int` and fields it reads with `parseFloat` are `real`.
Glucose and temperature are never edited by the form, so each keeps the type
of its default literal: glucose (110) is `int` and temperature (98.6) is
`real`. Tiers are a datatype. Comorbidities, surgery type and complexity stay
free strings, because the code compares them with string literals.

Two facts about the code that the model keeps exactly:
- With all six rules firing, mortality is 2.5 + 1.5 + 0.8 + 2.0 + 1.2 = 8.0.
  `AllRulesScenario` proves this value.
- The tier is taken from the maximum of the uncapped scores
  (app/page.tsx:211), before the caps are applied (app/page.tsx:217-220).
  `Assess` thresholds the uncapped maximum. `ClampIsNoOp` and
  `TierFollowsMaxScore` show that this is the same threshold applied to the
  capped maximum, because no score can reach its cap.

## Model

| member | source | states |
|---|---|---|
| RiskEngine.CalculateRiskAssessment | app/page.tsx:136-224 | The straight-line engine returns exactly the rule-table assessment `Assess(data)`, so every property proved of `Assess` holds for it. |
| RiskEngine.RunRules | app/page.tsx:138-209 | Folding the rule table from the base scores gives each score as its base plus the increments of the rules that fired. The factor list is the fired rules' factors in source order. |
| RiskEngine.RunSixSteps | app/page.tsx:143-209 | The fold over the table is the six rules applied in source order: age, BMI, diabetes, hypertension, complexity, hemoglobin. |
| RiskEngine.SixStepsFactors | app/page.tsx:143-209 | The six guarded steps push exactly the factors of the guards that hold, in guard order. |
| RiskEngine.SixStepsScores | app/page.tsx:138-209 | After the six guarded steps, each score is its base plus the increments of the guards that hold. |
| RiskEngine.RunPrefix | app/page.tsx:145-209 | Evaluating one more rule of the table is one more guarded step. The table holds the six rules in source order. |
| RiskEngine.RunFactors | app/page.tsx:143-209 | For any rule table, the pushed factors are exactly the factors of the rules whose predicate holds, in table order. |
| RiskEngine.Assess | app/page.tsx:136-224 | The reference definition of the engine: the rule-table fold, then the tier and the caps. Every returned score is at most its cap (25 / 30 / 25 / 35). |
| RiskEngine.TierOf | app/page.tsx:212-214 | The tier is High iff the maximum is above 15, Moderate iff it is in (8, 15], and Low iff it is at most 8. |
| RiskEngine.Clamp | app/page.tsx:217-220 | The capped value is at most the cap and at most the input, and it is one of the two. |
| RiskEngine.Max4 | app/page.tsx:211 | The maximum is at least each of the four scores and equals one of them. |
| RiskEngine.RawScoresBounds | app/page.tsx:138-209 | Every uncapped score is at least its base and at most its all-rules value (8 / 20 / 16 / 15), so it stays strictly below its cap. |
| RiskEngine.ClampIsNoOp | app/page.tsx:216-220 | The returned scores equal the uncapped scores, because the caps never bite. |
| RiskEngine.ScoresWithinBaseAndCap | app/page.tsx:138-220 | Each returned score lies between its base (2.5 / 8.0 / 5.5 / 12.0) and its cap (25 / 30 / 25 / 35). |
| RiskEngine.TierFollowsMaxScore | app/page.tsx:211-214 | The tier is High iff the largest returned score is above 15, Moderate iff it is in (8, 15], and Low iff it is at most 8. |
| RiskEngine.NeverLow | app/page.tsx:141-214 | No record is rated Low, because readmission starts at 12 > 8. |
| RiskEngine.RuleFactorsDistinct | app/page.tsx:149-208 | The six rule factors are pairwise different. |
| RiskEngine.RiskFactorsFollowRules | app/page.tsx:143-209 | The factor list has no duplicates and at most six entries, and it is an order-preserving subsequence of the six factors. Each factor is present iff its rule's predicate holds, and every impact lies in [0, 1]. |
| RiskEngine.RawScoresMonotone | app/page.tsx:146-209 | If every predicate true for one record is true for another, each uncapped score of the second is at least that of the first. |
| RiskEngine.FactorsMonotone | app/page.tsx:146-209 | Under the same condition, the first record's factors occur in order within the second's. |
| RiskEngine.AssessMonotone | app/page.tsx:146-223 | Making more rule predicates true never lowers a returned score or the tier, and keeps every earlier factor in order. |
| RiskEngine.AssessDependsOnlyOnRuleInputs | app/page.tsx:146-209 | Records that agree on age, BMI, hemoglobin, complexity and on whether "Diabetes" and "Hypertension" are listed get the same assessment. Vitals, the other labs, gender, surgery type, and the order or duplication of comorbidities are irrelevant. |
| RiskEngine.AllRulesScenario | app/page.tsx:136-224 | Age 70, BMI 32, Diabetes and Hypertension, High complexity and Hb 8 give 8.0 / 20.0 / 16.0 / 15.0, tier High, and all six factors in order. |
| Scheduling.RecommendedTimeSlots | components/scheduling-integration.tsx:19-36 | The result lists the four catalog slots in catalog order. A slot is recommended iff the assessment is not High or the slot is at 07:30 AM. |
| Scheduling.AnnotateSlots | components/scheduling-integration.tsx:28-35 | Annotation keeps the catalog's length, order and slot fields. A slot is recommended iff the tier is not High or its time is 07:30 AM. The reason text depends only on whether the tier is High. |
| Scheduling.HighRiskRecommendsOnlyEarlySlot | components/scheduling-integration.tsx:21-35 | For a High assessment, exactly one of the four catalog slots is recommended: the first, id "1". |
| Scheduling.OtherTiersRecommendAll | components/scheduling-integration.tsx:30-34 | For a Moderate or Low assessment, every slot is recommended with the standard reason. |
| Scheduling.ResourceMask | components/scheduling-integration.tsx:41-52 | There is one threshold flag per catalog resource. |
| Scheduling.GetRequiredResources | components/scheduling-integration.tsx:38-55 | The four guarded pushes produce exactly the catalog entries whose threshold holds, in catalog order. |
| Scheduling.RequiredResourcesProperties | components/scheduling-integration.tsx:39-54 | The resource list is an order-preserving, duplicate-free subsequence of the catalog with at most four entries. Each resource is present iff its strict threshold holds: mortality > 5, bleeding > 8, infection > 10, record BMI > 35. |
| Scheduling.BaseDuration | components/scheduling-integration.tsx:106-110 | The range is "4-6 hours" iff complexity is "High", "2-4 hours" iff it is "Moderate", and "1-2 hours" otherwise. |
| Scheduling.EstimatedDuration | components/scheduling-integration.tsx:106-111 | The line is the complexity range followed by the 30-minute buffer note iff the tier is High, and by nothing otherwise. |
| Scheduling.AllRulesSchedulingScenario | components/scheduling-integration.tsx:19-111 | For the all-rules record, the resources are exactly ICU bed, blood bank and sterile setup, only the 07:30 slot is recommended, and the duration is "4-6 hours" with the buffer note. |
| PatientForm.Without | components/patient-data-form.tsx:55 | Filtering leaves no occurrence of the condition. Every other entry keeps its multiplicity, and a list without the condition is returned unchanged. |
| PatientForm.WithoutEmbeds | components/patient-data-form.tsx:55 | The filtered list keeps the surviving entries in their original relative order. |
| PatientForm.HandleComorbidityChange | components/patient-data-form.tsx:50-57 | Only the comorbidity list changes. Checking appends the condition. Unchecking leaves no occurrence of it and keeps the multiplicity of every other entry. |
| PatientForm.UncheckKeepsOthersInOrder | components/patient-data-form.tsx:55 | Unchecking keeps every other condition, in its original relative order. |
| PatientForm.CheckThenUncheckRestores | components/patient-data-form.tsx:53-55 | If the condition is not listed, checking and then unchecking it restores the record exactly. |
| PatientForm.CheckingNeverLowersRisk | components/patient-data-form.tsx:53-54 | Checking a condition never lowers an assessed score and keeps every earlier risk factor. |
| PatientForm.UncheckingNeverRaisesRisk | components/patient-data-form.tsx:55 | Unchecking a condition never raises an assessed score. |
| PatientForm.DuplicateCheckIsHarmless | components/patient-data-form.tsx:53-54 | Checking a condition that is already listed duplicates it, and the assessment is unchanged. |
| PatientForm.DefaultScenario | components/patient-data-form.tsx:20-43 | The default record (age 45, BMI 28.5, Hypertension, Moderate, Hb 12.5) is assessed as 3.3 / 8.0 / 7.5 / 12.0, Moderate, with the single Hypertension factor. |

## Left out

- Rendering is not modelled: the JSX, cards, tabs and charts, the dashboard's colour and badge lookups, the risk-factor chart component and the page header. These are presentation only.
- The scheduling component's `selectedSlot` click state and its simulated two-second "scheduled" transition are not modelled. They are asynchronous UI state with no decision logic.
- Parsing of form text with `parseInt` / `parseFloat`, including their NaN results, is not modelled. Record fields are taken as already-parsed values.
- IEEE-754 rounding is not modelled. Scores are exact reals, so the model's 3.3 is exact where JavaScript's 2.5 + 0.8 is not.
- There is no validation or error path, because the code has none. Any record is accepted, and gender, surgery type and complexity are free strings.
- The recommendations panel is not part of this model.
- The React state setter that receives the comorbidity updater is framework plumbing. `HandleComorbidityChange` models the updater as a pure function from the previous record to the next one.
