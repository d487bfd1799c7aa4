/** The pre-operative risk rule engine: a patient record is scored by six
    guarded rules, each adding fixed increments to four category scores and
    contributing one explanatory risk factor; the tier comes from the largest
    score and every score is capped. */
module RiskEngine {
  import opened Sequences

  // ---------------------------------------------------------------------------
  // Input and output shapes
  // ---------------------------------------------------------------------------

  datatype Demographics = Demographics(age: int, gender: string, bmi: real)

  datatype Vitals = Vitals(systolicBP: int, diastolicBP: int, heartRate: int,
                           temperature: real, oxygenSaturation: int)

  datatype Labs = Labs(hemoglobin: real, whiteBloodCells: real, platelets: int,
                       creatinine: real, glucose: int)

  datatype PatientData = PatientData(
    demographics: Demographics,
    vitals: Vitals,
    labs: Labs,
    comorbidities: seq<string>,
    surgeryType: string,
    surgeryComplexity: string)

  datatype RiskFactor = RiskFactor(factor: string, impact: real, explanation: string)

  /** The three tier names the engine can assign. */
  datatype Tier = Low | Moderate | High

  datatype RiskAssessment = RiskAssessment(
    mortalityRisk: real,
    infectionRisk: real,
    bleedingRisk: real,
    readmissionRisk: real,
    overallRisk: Tier,
    riskFactors: seq<RiskFactor>)

  // ---------------------------------------------------------------------------
  // Category scores
  // ---------------------------------------------------------------------------

  datatype Scores = Scores(mortality: real, infection: real, bleeding: real, readmission: real)

  const BaseScores := Scores(2.5, 8.0, 5.5, 12.0)
  const Caps := Scores(25.0, 30.0, 25.0, 35.0)

  /** Componentwise sum. */
  function Add(s: Scores, t: Scores): Scores {
    Scores(s.mortality + t.mortality, s.infection + t.infection,
           s.bleeding + t.bleeding, s.readmission + t.readmission)
  }

  /** Componentwise `<=`. */
  ghost predicate Le(s: Scores, t: Scores) {
    s.mortality <= t.mortality && s.infection <= t.infection
    && s.bleeding <= t.bleeding && s.readmission <= t.readmission
  }

  /** Componentwise `<`. */
  ghost predicate Lt(s: Scores, t: Scores) {
    s.mortality < t.mortality && s.infection < t.infection
    && s.bleeding < t.bleeding && s.readmission < t.readmission
  }

  /** `Math.min(x, cap)`. */
  function Clamp(x: real, cap: real): (r: real)
    ensures r <= cap && r <= x
    ensures r == x || r == cap
  {
    if x < cap then x else cap
  }

  /** `Math.max(a, b, c, d)`. */
  function Max4(a: real, b: real, c: real, d: real): (m: real)
    ensures a <= m && b <= m && c <= m && d <= m
    ensures m == a || m == b || m == c || m == d
  {
    var ab := if a < b then b else a;
    var cd := if c < d then d else c;
    if ab < cd then cd else ab
  }

  /** Three-way threshold: above 15 is High, above 8 Moderate, otherwise Low. */
  function TierOf(m: real): (t: Tier)
    ensures t == High <==> m > 15.0
    ensures t == Moderate <==> 8.0 < m <= 15.0
    ensures t == Low <==> m <= 8.0
  {
    if m > 15.0 then High else if m > 8.0 then Moderate else Low
  }

  /** Tiers ordered Low < Moderate < High. */
  function Rank(t: Tier): nat {
    match t
    case Low => 0
    case Moderate => 1
    case High => 2
  }

  // ---------------------------------------------------------------------------
  // The rule table
  // ---------------------------------------------------------------------------

  /** The predicate a rule tests. */
  datatype Condition = AdvancedAge | Obese | Diabetic | Hypertensive | ComplexSurgery | LowHemoglobin

  predicate Fires(c: Condition, data: PatientData) {
    match c
    case AdvancedAge => data.demographics.age > 65
    case Obese => data.demographics.bmi > 30.0
    case Diabetic => "Diabetes" in data.comorbidities
    case Hypertensive => "Hypertension" in data.comorbidities
    case ComplexSurgery => data.surgeryComplexity == "High"
    case LowHemoglobin => data.labs.hemoglobin < 10.0
  }

  datatype Rule = Rule(when: Condition, delta: Scores, factor: RiskFactor)

  const AgeFactor := RiskFactor("Advanced Age", 0.8, "Age > 65 increases mortality and infection risk")
  const ObesityFactor := RiskFactor("Obesity", 0.6, "BMI > 30 increases infection and bleeding complications")
  const DiabetesFactor := RiskFactor("Diabetes", 0.9, "Diabetes significantly increases infection risk and healing complications")
  const HypertensionFactor := RiskFactor("Hypertension", 0.5, "Hypertension increases cardiovascular and bleeding risks")
  const ComplexSurgeryFactor := RiskFactor("Complex Surgery", 0.7, "High complexity surgery increases all risk categories")
  const LowHemoglobinFactor := RiskFactor("Low Hemoglobin", 0.6, "Anemia increases mortality and bleeding complications")

  const AgeRule := Rule(AdvancedAge, Scores(1.5, 2.0, 0.0, 0.0), AgeFactor)
  const ObesityRule := Rule(Obese, Scores(0.0, 3.0, 1.5, 0.0), ObesityFactor)
  const DiabetesRule := Rule(Diabetic, Scores(0.0, 4.0, 0.0, 3.0), DiabetesFactor)
  const HypertensionRule := Rule(Hypertensive, Scores(0.8, 0.0, 2.0, 0.0), HypertensionFactor)
  const ComplexSurgeryRule := Rule(ComplexSurgery, Scores(2.0, 3.0, 4.0, 0.0), ComplexSurgeryFactor)
  const LowHemoglobinRule := Rule(LowHemoglobin, Scores(1.2, 0.0, 3.0, 0.0), LowHemoglobinFactor)

  /** The six rules in evaluation order. */
  const Rules: seq<Rule> :=
    [AgeRule, ObesityRule, DiabetesRule, HypertensionRule, ComplexSurgeryRule, LowHemoglobinRule]

  /** The scores accumulated so far and the factors pushed so far. */
  datatype Tally = Tally(scores: Scores, factors: seq<RiskFactor>)

  /** One guarded rule: when it fires, add its increments and push its factor. */
  function Step(r: Rule, data: PatientData, t: Tally): Tally {
    var fired := Fires(r.when, data);
    Tally(if fired then Add(t.scores, r.delta) else t.scores,
          t.factors + (if fired then [r.factor] else []))
  }

  /** Evaluates `rules` left to right, starting from the base scores and no factors. */
  function Run(rules: seq<Rule>, data: PatientData): Tally
    decreases |rules|
  {
    if rules == [] then Tally(BaseScores, [])
    else Step(rules[|rules| - 1], data, Run(rules[..|rules| - 1], data))
  }

  /** The factor of each rule, in table order. */
  function FactorsOf(rules: seq<Rule>): (fs: seq<RiskFactor>)
    ensures |fs| == |rules| && forall i :: 0 <= i < |rules| ==> fs[i] == rules[i].factor
  {
    seq(|rules|, i requires 0 <= i < |rules| => rules[i].factor)
  }

  /** Which rules fire for `data`, in table order. */
  function Mask(rules: seq<Rule>, data: PatientData): (m: seq<bool>)
    ensures |m| == |rules| && forall i :: 0 <= i < |rules| ==> (m[i] <==> Fires(rules[i].when, data))
  {
    seq(|rules|, i requires 0 <= i < |rules| => Fires(rules[i].when, data))
  }

  /** The unclamped category scores after all six rules. */
  function RawScores(data: PatientData): Scores {
    Run(Rules, data).scores
  }

  /** The assessment: scores clamped to their caps, the tier from the
      maximum of the UNCLAMPED scores, and the factors of the rules that fired. */
  function Assess(data: PatientData): (a: RiskAssessment)
    ensures Le(ScoresOf(a), Caps)
  {
    var t := Run(Rules, data);
    var s := t.scores;
    RiskAssessment(
      Clamp(s.mortality, Caps.mortality),
      Clamp(s.infection, Caps.infection),
      Clamp(s.bleeding, Caps.bleeding),
      Clamp(s.readmission, Caps.readmission),
      TierOf(Max4(s.mortality, s.infection, s.bleeding, s.readmission)),
      t.factors)
  }

  function ScoresOf(a: RiskAssessment): Scores {
    Scores(a.mortalityRisk, a.infectionRisk, a.bleedingRisk, a.readmissionRisk)
  }

  function MaxScore(a: RiskAssessment): real {
    Max4(a.mortalityRisk, a.infectionRisk, a.bleedingRisk, a.readmissionRisk)
  }

  // ---------------------------------------------------------------------------
  // The straight-line form: four accumulators, six guarded steps
  // ---------------------------------------------------------------------------

  /** The six guarded steps written out: each score is its base plus the
      increments of the guards that hold, and the factors are appended in
      guard order. */
  function ClosedForm(data: PatientData): Tally {
    Tally(
      Scores(
        2.5 + (if data.demographics.age > 65 then 1.5 else 0.0)
          + (if "Hypertension" in data.comorbidities then 0.8 else 0.0)
          + (if data.surgeryComplexity == "High" then 2.0 else 0.0)
          + (if data.labs.hemoglobin < 10.0 then 1.2 else 0.0),
        8.0 + (if data.demographics.age > 65 then 2.0 else 0.0)
          + (if data.demographics.bmi > 30.0 then 3.0 else 0.0)
          + (if "Diabetes" in data.comorbidities then 4.0 else 0.0)
          + (if data.surgeryComplexity == "High" then 3.0 else 0.0),
        5.5 + (if data.demographics.bmi > 30.0 then 1.5 else 0.0)
          + (if "Hypertension" in data.comorbidities then 2.0 else 0.0)
          + (if data.surgeryComplexity == "High" then 4.0 else 0.0)
          + (if data.labs.hemoglobin < 10.0 then 3.0 else 0.0),
        12.0 + (if "Diabetes" in data.comorbidities then 3.0 else 0.0)),
      (if data.demographics.age > 65 then [AgeFactor] else [])
      + (if data.demographics.bmi > 30.0 then [ObesityFactor] else [])
      + (if "Diabetes" in data.comorbidities then [DiabetesFactor] else [])
      + (if "Hypertension" in data.comorbidities then [HypertensionFactor] else [])
      + (if data.surgeryComplexity == "High" then [ComplexSurgeryFactor] else [])
      + (if data.labs.hemoglobin < 10.0 then [LowHemoglobinFactor] else []))
  }

  /** Evaluating one more rule of the table is one more step of the fold. */
  lemma RunPrefix(k: nat, data: PatientData)
    requires k < |Rules|
    ensures Run(Rules[..k + 1], data) == Step(Rules[k], data, Run(Rules[..k], data))
    ensures Rules[0] == AgeRule && Rules[1] == ObesityRule && Rules[2] == DiabetesRule
    ensures Rules[3] == HypertensionRule && Rules[4] == ComplexSurgeryRule && Rules[5] == LowHemoglobinRule
  {
    assert Rules[..k + 1][..k] == Rules[..k];
  }

  /** The six rules applied in table order to the base tally. */
  function SixSteps(data: PatientData): Tally {
    Step(LowHemoglobinRule, data, Step(ComplexSurgeryRule, data, Step(HypertensionRule, data,
      Step(DiabetesRule, data, Step(ObesityRule, data, Step(AgeRule, data, Tally(BaseScores, [])))))))
  }

  /** The fold over the whole table is six steps from the base tally. */
  lemma RunSixSteps(data: PatientData)
    ensures Run(Rules, data) == SixSteps(data)
  {
    assert Rules[..0] == [];
    RunPrefix(0, data);
    RunPrefix(1, data);
    RunPrefix(2, data);
    RunPrefix(3, data);
    RunPrefix(4, data);
    RunPrefix(5, data);
    assert Rules[..6] == Rules;
  }

  /** The six steps append the factors of the guards that hold, in guard order. */
  lemma SixStepsFactors(data: PatientData)
    ensures SixSteps(data).factors == ClosedForm(data).factors
  {
    var t := Tally(BaseScores, []);
    t := Step(AgeRule, data, t);
    assert t.factors == (if data.demographics.age > 65 then [AgeFactor] else []);
    t := Step(ObesityRule, data, t);
    assert t.factors == (if data.demographics.age > 65 then [AgeFactor] else [])
        + (if data.demographics.bmi > 30.0 then [ObesityFactor] else []);
    t := Step(DiabetesRule, data, t);
    assert t.factors == (if data.demographics.age > 65 then [AgeFactor] else [])
        + (if data.demographics.bmi > 30.0 then [ObesityFactor] else [])
        + (if "Diabetes" in data.comorbidities then [DiabetesFactor] else []);
    t := Step(HypertensionRule, data, t);
    assert t.factors == (if data.demographics.age > 65 then [AgeFactor] else [])
        + (if data.demographics.bmi > 30.0 then [ObesityFactor] else [])
        + (if "Diabetes" in data.comorbidities then [DiabetesFactor] else [])
        + (if "Hypertension" in data.comorbidities then [HypertensionFactor] else []);
    t := Step(ComplexSurgeryRule, data, t);
    assert t.factors == (if data.demographics.age > 65 then [AgeFactor] else [])
        + (if data.demographics.bmi > 30.0 then [ObesityFactor] else [])
        + (if "Diabetes" in data.comorbidities then [DiabetesFactor] else [])
        + (if "Hypertension" in data.comorbidities then [HypertensionFactor] else [])
        + (if data.surgeryComplexity == "High" then [ComplexSurgeryFactor] else []);
    t := Step(LowHemoglobinRule, data, t);
    assert t == SixSteps(data);
    assert t.factors == ClosedForm(data).factors;
  }

  /** The six steps add to each base score the increments of the guards that hold. */
  lemma SixStepsScores(data: PatientData)
    ensures SixSteps(data).scores == ClosedForm(data).scores
  {
    var t := Tally(BaseScores, []);
    t := Step(AgeRule, data, t);
    assert t.scores.mortality == 2.5
          + (if data.demographics.age > 65 then 1.5 else 0.0);
    assert t.scores.infection == 8.0
          + (if data.demographics.age > 65 then 2.0 else 0.0);
    t := Step(ObesityRule, data, t);
    assert t.scores.infection == 8.0
          + (if data.demographics.age > 65 then 2.0 else 0.0)
          + (if data.demographics.bmi > 30.0 then 3.0 else 0.0);
    assert t.scores.bleeding == 5.5
          + (if data.demographics.bmi > 30.0 then 1.5 else 0.0);
    t := Step(DiabetesRule, data, t);
    assert t.scores.infection == 8.0
          + (if data.demographics.age > 65 then 2.0 else 0.0)
          + (if data.demographics.bmi > 30.0 then 3.0 else 0.0)
          + (if "Diabetes" in data.comorbidities then 4.0 else 0.0);
    assert t.scores.readmission == 12.0
          + (if "Diabetes" in data.comorbidities then 3.0 else 0.0);
    t := Step(HypertensionRule, data, t);
    assert t.scores.mortality == 2.5
          + (if data.demographics.age > 65 then 1.5 else 0.0)
          + (if "Hypertension" in data.comorbidities then 0.8 else 0.0);
    assert t.scores.bleeding == 5.5
          + (if data.demographics.bmi > 30.0 then 1.5 else 0.0)
          + (if "Hypertension" in data.comorbidities then 2.0 else 0.0);
    t := Step(ComplexSurgeryRule, data, t);
    assert t.scores.mortality == 2.5
          + (if data.demographics.age > 65 then 1.5 else 0.0)
          + (if "Hypertension" in data.comorbidities then 0.8 else 0.0)
          + (if data.surgeryComplexity == "High" then 2.0 else 0.0);
    assert t.scores.infection == 8.0
          + (if data.demographics.age > 65 then 2.0 else 0.0)
          + (if data.demographics.bmi > 30.0 then 3.0 else 0.0)
          + (if "Diabetes" in data.comorbidities then 4.0 else 0.0)
          + (if data.surgeryComplexity == "High" then 3.0 else 0.0);
    assert t.scores.bleeding == 5.5
          + (if data.demographics.bmi > 30.0 then 1.5 else 0.0)
          + (if "Hypertension" in data.comorbidities then 2.0 else 0.0)
          + (if data.surgeryComplexity == "High" then 4.0 else 0.0);
    t := Step(LowHemoglobinRule, data, t);
    assert t.scores.mortality == 2.5
          + (if data.demographics.age > 65 then 1.5 else 0.0)
          + (if "Hypertension" in data.comorbidities then 0.8 else 0.0)
          + (if data.surgeryComplexity == "High" then 2.0 else 0.0)
          + (if data.labs.hemoglobin < 10.0 then 1.2 else 0.0);
    assert t.scores.infection == 8.0
          + (if data.demographics.age > 65 then 2.0 else 0.0)
          + (if data.demographics.bmi > 30.0 then 3.0 else 0.0)
          + (if "Diabetes" in data.comorbidities then 4.0 else 0.0)
          + (if data.surgeryComplexity == "High" then 3.0 else 0.0);
    assert t.scores.bleeding == 5.5
          + (if data.demographics.bmi > 30.0 then 1.5 else 0.0)
          + (if "Hypertension" in data.comorbidities then 2.0 else 0.0)
          + (if data.surgeryComplexity == "High" then 4.0 else 0.0)
          + (if data.labs.hemoglobin < 10.0 then 3.0 else 0.0);
    assert t.scores.readmission == 12.0
          + (if "Diabetes" in data.comorbidities then 3.0 else 0.0);
  }

  /** The fold over the whole table, written out as the six guarded increments. */
  lemma RunRules(data: PatientData)
    ensures Run(Rules, data) == ClosedForm(data)
  {
    RunSixSteps(data);
    SixStepsFactors(data);
    SixStepsScores(data);
  }

  /** The engine in its straight-line form: four accumulators, six guarded
      increments each appending one factor, then the tier and the caps. */
  method CalculateRiskAssessment(data: PatientData) returns (a: RiskAssessment)
    ensures a == Assess(data)
  {
    var mortalityRisk, infectionRisk, bleedingRisk, readmissionRisk := 2.5, 8.0, 5.5, 12.0;
    var riskFactors: seq<RiskFactor> := [];

    if data.demographics.age > 65 {
      mortalityRisk := mortalityRisk + 1.5;
      infectionRisk := infectionRisk + 2.0;
      riskFactors := riskFactors + [AgeFactor];
    }
    assert riskFactors == (if data.demographics.age > 65 then [AgeFactor] else []);

    if data.demographics.bmi > 30.0 {
      infectionRisk := infectionRisk + 3.0;
      bleedingRisk := bleedingRisk + 1.5;
      riskFactors := riskFactors + [ObesityFactor];
    }
    assert riskFactors == (if data.demographics.age > 65 then [AgeFactor] else [])
        + (if data.demographics.bmi > 30.0 then [ObesityFactor] else []);

    if "Diabetes" in data.comorbidities {
      infectionRisk := infectionRisk + 4.0;
      readmissionRisk := readmissionRisk + 3.0;
      riskFactors := riskFactors + [DiabetesFactor];
    }
    assert riskFactors == (if data.demographics.age > 65 then [AgeFactor] else [])
        + (if data.demographics.bmi > 30.0 then [ObesityFactor] else [])
        + (if "Diabetes" in data.comorbidities then [DiabetesFactor] else []);

    if "Hypertension" in data.comorbidities {
      mortalityRisk := mortalityRisk + 0.8;
      bleedingRisk := bleedingRisk + 2.0;
      riskFactors := riskFactors + [HypertensionFactor];
    }
    assert riskFactors == (if data.demographics.age > 65 then [AgeFactor] else [])
        + (if data.demographics.bmi > 30.0 then [ObesityFactor] else [])
        + (if "Diabetes" in data.comorbidities then [DiabetesFactor] else [])
        + (if "Hypertension" in data.comorbidities then [HypertensionFactor] else []);

    if data.surgeryComplexity == "High" {
      mortalityRisk := mortalityRisk + 2.0;
      infectionRisk := infectionRisk + 3.0;
      bleedingRisk := bleedingRisk + 4.0;
      riskFactors := riskFactors + [ComplexSurgeryFactor];
    }
    assert riskFactors == (if data.demographics.age > 65 then [AgeFactor] else [])
        + (if data.demographics.bmi > 30.0 then [ObesityFactor] else [])
        + (if "Diabetes" in data.comorbidities then [DiabetesFactor] else [])
        + (if "Hypertension" in data.comorbidities then [HypertensionFactor] else [])
        + (if data.surgeryComplexity == "High" then [ComplexSurgeryFactor] else []);

    if data.labs.hemoglobin < 10.0 {
      mortalityRisk := mortalityRisk + 1.2;
      bleedingRisk := bleedingRisk + 3.0;
      riskFactors := riskFactors + [LowHemoglobinFactor];
    }
    assert riskFactors == (if data.demographics.age > 65 then [AgeFactor] else [])
        + (if data.demographics.bmi > 30.0 then [ObesityFactor] else [])
        + (if "Diabetes" in data.comorbidities then [DiabetesFactor] else [])
        + (if "Hypertension" in data.comorbidities then [HypertensionFactor] else [])
        + (if data.surgeryComplexity == "High" then [ComplexSurgeryFactor] else [])
        + (if data.labs.hemoglobin < 10.0 then [LowHemoglobinFactor] else []);
    RunRules(data);
    assert Run(Rules, data) == Tally(Scores(mortalityRisk, infectionRisk, bleedingRisk, readmissionRisk), riskFactors);

    var overallRisk := Max4(mortalityRisk, infectionRisk, bleedingRisk, readmissionRisk);
    var riskLevel := Low;
    if overallRisk > 15.0 {
      riskLevel := High;
    } else if overallRisk > 8.0 {
      riskLevel := Moderate;
    }

    a := RiskAssessment(
      Clamp(mortalityRisk, 25.0),
      Clamp(infectionRisk, 30.0),
      Clamp(bleedingRisk, 25.0),
      Clamp(readmissionRisk, 35.0),
      riskLevel,
      riskFactors);
  }

  // ---------------------------------------------------------------------------
  // What the engine promises
  // ---------------------------------------------------------------------------

  /** The factors pushed by any rule table are exactly the factors of the
      rules that fired, in table order. */
  lemma {:induction false} RunFactors(rules: seq<Rule>, data: PatientData)
    ensures Run(rules, data).factors == Keep(FactorsOf(rules), Mask(rules, data))
    decreases |rules|
  {
    if rules != [] {
      var n := |rules| - 1;
      RunFactors(rules[..n], data);
      assert FactorsOf(rules)[..n] == FactorsOf(rules[..n]);
      assert Mask(rules, data)[..n] == Mask(rules[..n], data);
    }
  }

  /** Highest reachable unclamped scores: every rule firing gives
      mortality 8.0, infection 20.0, bleeding 16.0 and readmission 15.0. */
  const MaxRawScores := Scores(8.0, 20.0, 16.0, 15.0)

  /** Every unclamped score lies between its base and its highest reachable
      value, and so strictly below its cap. */
  lemma RawScoresBounds(data: PatientData)
    ensures Le(BaseScores, RawScores(data)) && Le(RawScores(data), MaxRawScores)
    ensures Lt(RawScores(data), Caps)
  {
    RunRules(data);
  }

  /** Clamping never bites: the returned scores are the unclamped ones. */
  lemma ClampIsNoOp(data: PatientData)
    ensures ScoresOf(Assess(data)) == RawScores(data)
  {
    RawScoresBounds(data);
  }

  /** Each returned score is at least its base (2.5, 8.0, 5.5, 12.0) and at
      most its cap (25, 30, 25, 35). */
  lemma ScoresWithinBaseAndCap(data: PatientData)
    ensures Le(BaseScores, ScoresOf(Assess(data))) && Le(ScoresOf(Assess(data)), Caps)
  {
    RawScoresBounds(data);
    ClampIsNoOp(data);
  }

  /** The tier is a three-way threshold on the largest returned score: above
      15 High, in (8, 15] Moderate, otherwise Low. The code thresholds the
      unclamped maximum; since clamping never bites the two agree. */
  lemma TierFollowsMaxScore(data: PatientData)
    ensures Assess(data).overallRisk == High <==> MaxScore(Assess(data)) > 15.0
    ensures Assess(data).overallRisk == Moderate <==> 8.0 < MaxScore(Assess(data)) <= 15.0
    ensures Assess(data).overallRisk == Low <==> MaxScore(Assess(data)) <= 8.0
  {
  }

  /** Readmission starts at 12.0, above the Moderate threshold, so no record
      is ever rated Low. */
  lemma NeverLow(data: PatientData)
    ensures Assess(data).overallRisk != Low
  {
    RawScoresBounds(data);
  }

  /** The factors of the six rules are pairwise different. */
  lemma RuleFactorsDistinct()
    ensures NoDup(FactorsOf(Rules))
  {
  }

  /** One risk factor per fired rule, at most six, in rule order, no
      duplicates; each named factor is present iff its rule's predicate
      holds; every impact lies in [0, 1]. */
  lemma RiskFactorsFollowRules(data: PatientData)
    ensures Embeds(Assess(data).riskFactors, FactorsOf(Rules))
    ensures NoDup(Assess(data).riskFactors) && |Assess(data).riskFactors| <= 6
    ensures AgeFactor in Assess(data).riskFactors <==> data.demographics.age > 65
    ensures ObesityFactor in Assess(data).riskFactors <==> data.demographics.bmi > 30.0
    ensures DiabetesFactor in Assess(data).riskFactors <==> "Diabetes" in data.comorbidities
    ensures HypertensionFactor in Assess(data).riskFactors <==> "Hypertension" in data.comorbidities
    ensures ComplexSurgeryFactor in Assess(data).riskFactors <==> data.surgeryComplexity == "High"
    ensures LowHemoglobinFactor in Assess(data).riskFactors <==> data.labs.hemoglobin < 10.0
    ensures forall f :: f in Assess(data).riskFactors ==> 0.0 <= f.impact <= 1.0
  {
    var mask, fs := Mask(Rules, data), FactorsOf(Rules);
    assert fs == [AgeFactor, ObesityFactor, DiabetesFactor, HypertensionFactor,
                  ComplexSurgeryFactor, LowHemoglobinFactor];
    RunFactors(Rules, data);
    KeepEmbeds(fs, mask);
    RuleFactorsDistinct();
    KeepDistinct(fs, mask);
    assert Assess(data).riskFactors == Keep(fs, mask);
    assert mask[0] == Fires(AdvancedAge, data) && mask[1] == Fires(Obese, data);
    assert mask[2] == Fires(Diabetic, data) && mask[3] == Fires(Hypertensive, data);
    assert mask[4] == Fires(ComplexSurgery, data) && mask[5] == Fires(LowHemoglobin, data);
  }


  /** `d2` meets every rule predicate that `d1` meets. */
  ghost predicate AtLeastAsRisky(d1: PatientData, d2: PatientData) {
    forall c: Condition :: Fires(c, d1) ==> Fires(c, d2)
  }

  /** Raising rule predicates never lowers an unclamped score. */
  lemma RawScoresMonotone(d1: PatientData, d2: PatientData)
    requires AtLeastAsRisky(d1, d2)
    ensures Le(RawScores(d1), RawScores(d2))
  {
    assert Fires(AdvancedAge, d1) ==> Fires(AdvancedAge, d2);
    assert Fires(Obese, d1) ==> Fires(Obese, d2);
    assert Fires(Diabetic, d1) ==> Fires(Diabetic, d2);
    assert Fires(Hypertensive, d1) ==> Fires(Hypertensive, d2);
    assert Fires(ComplexSurgery, d1) ==> Fires(ComplexSurgery, d2);
    assert Fires(LowHemoglobin, d1) ==> Fires(LowHemoglobin, d2);
    RunRules(d1);
    RunRules(d2);
  }

  /** Raising rule predicates keeps every earlier factor, in order. */
  lemma FactorsMonotone(d1: PatientData, d2: PatientData)
    requires AtLeastAsRisky(d1, d2)
    ensures Embeds(Assess(d1).riskFactors, Assess(d2).riskFactors)
  {
    var m1, m2 := Mask(Rules, d1), Mask(Rules, d2);
    forall i | 0 <= i < |Rules| && m1[i] ensures m2[i] {
      assert Fires(Rules[i].when, d1);
    }
    RunFactors(Rules, d1);
    RunFactors(Rules, d2);
    KeepMonotone(FactorsOf(Rules), m1, m2);
  }

  /** Making more rule predicates true never lowers a score or the tier and
      keeps every earlier factor, in order. */
  lemma AssessMonotone(d1: PatientData, d2: PatientData)
    requires AtLeastAsRisky(d1, d2)
    ensures Le(ScoresOf(Assess(d1)), ScoresOf(Assess(d2)))
    ensures Rank(Assess(d1).overallRisk) <= Rank(Assess(d2).overallRisk)
    ensures Embeds(Assess(d1).riskFactors, Assess(d2).riskFactors)
  {
    RawScoresMonotone(d1, d2);
    ClampIsNoOp(d1);
    ClampIsNoOp(d2);
    FactorsMonotone(d1, d2);
  }

  /** Two records that agree on every rule predicate get the same assessment:
      vitals, the other labs, gender, surgery type, and the order or
      repetition of comorbidities play no part. */
  lemma AssessDependsOnlyOnRuleInputs(d1: PatientData, d2: PatientData)
    requires d1.demographics.age == d2.demographics.age
    requires d1.demographics.bmi == d2.demographics.bmi
    requires d1.labs.hemoglobin == d2.labs.hemoglobin
    requires d1.surgeryComplexity == d2.surgeryComplexity
    requires ("Diabetes" in d1.comorbidities) == ("Diabetes" in d2.comorbidities)
    requires ("Hypertension" in d1.comorbidities) == ("Hypertension" in d2.comorbidities)
    ensures Assess(d1) == Assess(d2)
  {
    RunRules(d1);
    RunRules(d2);
  }

  /** A record meeting all six predicates: every rule fires and the tier is High. */
  lemma AllRulesScenario(data: PatientData)
    requires data.demographics.age == 70 && data.demographics.bmi == 32.0
    requires data.comorbidities == ["Diabetes", "Hypertension"]
    requires data.surgeryComplexity == "High" && data.labs.hemoglobin == 8.0
    ensures Assess(data) == RiskAssessment(8.0, 20.0, 16.0, 15.0, High,
      [AgeFactor, ObesityFactor, DiabetesFactor, HypertensionFactor, ComplexSurgeryFactor, LowHemoglobinFactor])
  {
    RunRules(data);
  }
}
