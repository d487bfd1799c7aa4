/** Scheduling decisions derived from an assessment: which operating slots to
    recommend, which resources to prepare, and the estimated duration. */
module Scheduling {
  import opened Sequences
  import opened RiskEngine

  // ---------------------------------------------------------------------------
  // Slot recommender
  // ---------------------------------------------------------------------------

  datatype TimeSlot = TimeSlot(id: string, time: string, date: string, room: string, team: string)

  /** A catalog slot with the recommendation flag and its rationale. */
  datatype AnnotatedSlot = AnnotatedSlot(slot: TimeSlot, recommended: bool, reason: string)

  const EarlySlotTime := "07:30 AM"
  const HighRiskReason := "Early morning slot recommended for high-risk patients"
  const StandardReason := "Standard scheduling available"

  /** The fixed slot catalog. */
  const BaseSlots: seq<TimeSlot> := [
    TimeSlot("1", "07:30 AM", "2024-01-15", "OR-1", "Team A"),
    TimeSlot("2", "09:00 AM", "2024-01-15", "OR-2", "Team B"),
    TimeSlot("3", "11:30 AM", "2024-01-15", "OR-3", "Team C"),
    TimeSlot("4", "02:00 PM", "2024-01-16", "OR-1", "Team A")
  ]

  /** Annotates every slot of `slots`, in order, for an assessment of tier `tier`. */
  function AnnotateSlots(tier: Tier, slots: seq<TimeSlot>): (r: seq<AnnotatedSlot>)
    ensures |r| == |slots|
    ensures forall i :: 0 <= i < |slots| ==> r[i].slot == slots[i]
    ensures forall i :: 0 <= i < |slots| ==>
      (r[i].recommended <==> tier != High || slots[i].time == EarlySlotTime)
    ensures forall i :: 0 <= i < |slots| ==>
      r[i].reason == if tier == High then HighRiskReason else StandardReason
    decreases |slots|
  {
    if slots == [] then []
    else
      [AnnotatedSlot(slots[0],
                     if tier == High then slots[0].time == EarlySlotTime else true,
                     if tier == High then HighRiskReason else StandardReason)]
      + AnnotateSlots(tier, slots[1..])
  }

  /** The catalog annotated for `assessment`. */
  function RecommendedTimeSlots(assessment: RiskAssessment): (r: seq<AnnotatedSlot>)
    ensures |r| == |BaseSlots| && forall i :: 0 <= i < |r| ==> r[i].slot == BaseSlots[i]
    ensures forall i :: 0 <= i < |r| ==>
      (r[i].recommended <==> assessment.overallRisk != High || BaseSlots[i].time == EarlySlotTime)
  {
    AnnotateSlots(assessment.overallRisk, BaseSlots)
  }

  /** For a High-tier assessment exactly one slot, the first ("1" at 07:30 AM), is recommended. */
  lemma HighRiskRecommendsOnlyEarlySlot(assessment: RiskAssessment)
    requires assessment.overallRisk == High
    ensures |RecommendedTimeSlots(assessment)| == 4
    ensures RecommendedTimeSlots(assessment)[0].slot.id == "1"
    ensures forall i :: 0 <= i < 4 ==> (RecommendedTimeSlots(assessment)[i].recommended <==> i == 0)
  {
  }

  /** For a Moderate or Low assessment every slot is recommended. */
  lemma OtherTiersRecommendAll(assessment: RiskAssessment)
    requires assessment.overallRisk != High
    ensures forall s :: s in RecommendedTimeSlots(assessment) ==> s.recommended && s.reason == StandardReason
  {
  }

  // ---------------------------------------------------------------------------
  // Resource advisor
  // ---------------------------------------------------------------------------

  const IcuBed := "ICU bed reserved"
  const BloodBank := "Blood bank notification"
  const SterileSetup := "Enhanced sterile setup"
  const BariatricEquipment := "Bariatric equipment"

  /** Every resource the advisor may ask for, in the order it checks them. */
  const ResourceCatalog: seq<string> := [IcuBed, BloodBank, SterileSetup, BariatricEquipment]

  /** The threshold each resource depends on; the bariatric check reads the
      record's BMI, the others read the assessment. */
  function ResourceMask(assessment: RiskAssessment, data: PatientData): (m: seq<bool>)
    ensures |m| == |ResourceCatalog|
  {
    [assessment.mortalityRisk > 5.0, assessment.bleedingRisk > 8.0,
     assessment.infectionRisk > 10.0, data.demographics.bmi > 35.0]
  }

  /** The resources to prepare: the catalog entries whose threshold holds. */
  function RequiredResources(assessment: RiskAssessment, data: PatientData): seq<string> {
    Keep(ResourceCatalog, ResourceMask(assessment, data))
  }

  /** The advisor in its imperative form: four guarded appends to a growing list. */
  method GetRequiredResources(assessment: RiskAssessment, data: PatientData) returns (resources: seq<string>)
    ensures resources == RequiredResources(assessment, data)
  {
    resources := [];
    if assessment.mortalityRisk > 5.0 {
      resources := resources + [IcuBed];
    }
    if assessment.bleedingRisk > 8.0 {
      resources := resources + [BloodBank];
    }
    assert resources == (if assessment.mortalityRisk > 5.0 then [IcuBed] else [])
                        + (if assessment.bleedingRisk > 8.0 then [BloodBank] else []);
    if assessment.infectionRisk > 10.0 {
      resources := resources + [SterileSetup];
    }
    assert resources == (if assessment.mortalityRisk > 5.0 then [IcuBed] else [])
                        + (if assessment.bleedingRisk > 8.0 then [BloodBank] else [])
                        + (if assessment.infectionRisk > 10.0 then [SterileSetup] else []);
    if data.demographics.bmi > 35.0 {
      resources := resources + [BariatricEquipment];
    }
    assert resources == (if assessment.mortalityRisk > 5.0 then [IcuBed] else [])
                        + (if assessment.bleedingRisk > 8.0 then [BloodBank] else [])
                        + (if assessment.infectionRisk > 10.0 then [SterileSetup] else [])
                        + (if data.demographics.bmi > 35.0 then [BariatricEquipment] else []);
    KeepOfFour(ResourceCatalog, ResourceMask(assessment, data));
  }

  /** The resource list is an order-preserving, duplicate-free selection from
      the catalog, and each entry is present iff its strict threshold holds. */
  lemma RequiredResourcesProperties(assessment: RiskAssessment, data: PatientData)
    ensures Embeds(RequiredResources(assessment, data), ResourceCatalog)
    ensures NoDup(RequiredResources(assessment, data)) && |RequiredResources(assessment, data)| <= 4
    ensures IcuBed in RequiredResources(assessment, data) <==> assessment.mortalityRisk > 5.0
    ensures BloodBank in RequiredResources(assessment, data) <==> assessment.bleedingRisk > 8.0
    ensures SterileSetup in RequiredResources(assessment, data) <==> assessment.infectionRisk > 10.0
    ensures BariatricEquipment in RequiredResources(assessment, data) <==> data.demographics.bmi > 35.0
  {
    var mask := ResourceMask(assessment, data);
    assert NoDup(ResourceCatalog);
    KeepEmbeds(ResourceCatalog, mask);
    KeepDistinct(ResourceCatalog, mask);
    assert ResourceCatalog[0] == IcuBed && ResourceCatalog[1] == BloodBank;
    assert ResourceCatalog[2] == SterileSetup && ResourceCatalog[3] == BariatricEquipment;
  }

  // ---------------------------------------------------------------------------
  // Estimated duration
  // ---------------------------------------------------------------------------

  const BufferNote := " (+ 30 min buffer for high-risk)"

  /** The duration range by surgery complexity; any complexity other than
      "High" or "Moderate" gets the shortest range. */
  function BaseDuration(complexity: string): (s: string)
    ensures |s| == 9
    ensures s == "4-6 hours" <==> complexity == "High"
    ensures s == "2-4 hours" <==> complexity == "Moderate"
    ensures s == "1-2 hours" <==> complexity != "High" && complexity != "Moderate"
  {
    if complexity == "High" then "4-6 hours"
    else if complexity == "Moderate" then "2-4 hours"
    else "1-2 hours"
  }

  /** The duration line: the range for the complexity, then the buffer note iff the tier is High. */
  function EstimatedDuration(complexity: string, tier: Tier): (s: string)
    ensures |s| >= 9 && s[..9] == BaseDuration(complexity)
    ensures s[9..] == BufferNote <==> tier == High
    ensures s[9..] == "" <==> tier != High
  {
    BaseDuration(complexity) + (if tier == High then BufferNote else "")
  }

  // ---------------------------------------------------------------------------
  // The engine and its consumers together
  // ---------------------------------------------------------------------------

  /** For the record that triggers all six rules: ICU bed, blood bank and
      sterile setup but no bariatric equipment (BMI 32 is not above 35), only
      the 07:30 slot recommended, and the buffered long duration. */
  lemma AllRulesSchedulingScenario(data: PatientData)
    requires data.demographics.age == 70 && data.demographics.bmi == 32.0
    requires data.comorbidities == ["Diabetes", "Hypertension"]
    requires data.surgeryComplexity == "High" && data.labs.hemoglobin == 8.0
    ensures RequiredResources(Assess(data), data) == [IcuBed, BloodBank, SterileSetup]
    ensures forall i :: 0 <= i < 4 ==> (RecommendedTimeSlots(Assess(data))[i].recommended <==> i == 0)
    ensures EstimatedDuration(data.surgeryComplexity, Assess(data).overallRisk) == "4-6 hours" + BufferNote
  {
    AllRulesScenario(data);
    HighRiskRecommendsOnlyEarlySlot(Assess(data));
    assert ResourceMask(Assess(data), data) == [true, true, true, false];
    KeepOfFour(ResourceCatalog, ResourceMask(Assess(data), data));
  }
}
