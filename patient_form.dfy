/** The patient intake form's state: its default record and the comorbidity
    checkbox updater. */
module PatientForm {
  import opened Sequences
  import opened RiskEngine

  /** The record the form starts from. */
  const DefaultPatient: PatientData := PatientData(
    Demographics(45, "Female", 28.5),
    Vitals(140, 90, 78, 98.6, 98),
    Labs(12.5, 7.2, 250, 1.1, 110),
    ["Hypertension"],
    "Orthopedic",
    "Moderate")

  /** `xs` with every occurrence of `c` dropped, the rest kept in order. */
  function Without(xs: seq<string>, c: string): (r: seq<string>)
    ensures c !in r
    ensures multiset(r) == multiset(xs)[c := 0]
    ensures c !in xs ==> r == xs
    decreases |xs|
  {
    if xs == [] then []
    else
      var init, last := xs[..|xs| - 1], xs[|xs| - 1];
      assert xs == init + [last];
      Without(init, c) + (if last == c then [] else [last])
  }

  /** Dropping entries never reorders the survivors. */
  lemma {:induction false} WithoutEmbeds(xs: seq<string>, c: string)
    ensures Embeds(Without(xs, c), xs)
    decreases |xs|
  {
    if xs != [] {
      var init, last := xs[..|xs| - 1], xs[|xs| - 1];
      WithoutEmbeds(init, c);
      assert init + [last] == xs;
      if last == c {
        assert Without(xs, c) == Without(init, c);
        EmbedsSnocRight(Without(init, c), init, last);
      } else {
        EmbedsSnocBoth(Without(init, c), init, last);
      }
    }
  }

  /** The checkbox updater: checking appends `c` (with no membership test),
      unchecking removes every occurrence of `c`; nothing else in the record changes. */
  function HandleComorbidityChange(prev: PatientData, c: string, checked: bool): (next: PatientData)
    ensures next == prev.(comorbidities := next.comorbidities)
    ensures checked ==> next.comorbidities == prev.comorbidities + [c]
    ensures !checked ==> c !in next.comorbidities
    ensures !checked ==> multiset(next.comorbidities) == multiset(prev.comorbidities)[c := 0]
  {
    prev.(comorbidities := if checked then prev.comorbidities + [c] else Without(prev.comorbidities, c))
  }

  /** Unchecking keeps every other entry, in its original relative order. */
  lemma UncheckKeepsOthersInOrder(prev: PatientData, c: string)
    ensures Embeds(HandleComorbidityChange(prev, c, false).comorbidities, prev.comorbidities)
    ensures forall x :: x != c ==>
      (x in HandleComorbidityChange(prev, c, false).comorbidities <==> x in prev.comorbidities)
  {
    WithoutEmbeds(prev.comorbidities, c);
    var r := HandleComorbidityChange(prev, c, false).comorbidities;
    forall x | x != c
      ensures x in r <==> x in prev.comorbidities
    {
      assert multiset(r)[x] == multiset(prev.comorbidities)[x];
    }
  }

  /** Checking a condition that is not yet listed and then unchecking it restores the record. */
  lemma CheckThenUncheckRestores(prev: PatientData, c: string)
    requires c !in prev.comorbidities
    ensures HandleComorbidityChange(HandleComorbidityChange(prev, c, true), c, false) == prev
  {
  }

  /** Checking a condition never makes the assessment less severe. */
  lemma CheckingNeverLowersRisk(prev: PatientData, c: string)
    ensures AtLeastAsRisky(prev, HandleComorbidityChange(prev, c, true))
    ensures Le(ScoresOf(Assess(prev)), ScoresOf(Assess(HandleComorbidityChange(prev, c, true))))
    ensures Embeds(Assess(prev).riskFactors, Assess(HandleComorbidityChange(prev, c, true)).riskFactors)
  {
    AssessMonotone(prev, HandleComorbidityChange(prev, c, true));
  }

  /** Unchecking a condition never makes the assessment more severe. */
  lemma UncheckingNeverRaisesRisk(prev: PatientData, c: string)
    ensures AtLeastAsRisky(HandleComorbidityChange(prev, c, false), prev)
    ensures Le(ScoresOf(Assess(HandleComorbidityChange(prev, c, false))), ScoresOf(Assess(prev)))
  {
    var next := HandleComorbidityChange(prev, c, false);
    UncheckKeepsOthersInOrder(prev, c);
    AssessMonotone(next, prev);
  }

  /** Checking a condition that is already listed duplicates it, which the engine ignores. */
  lemma DuplicateCheckIsHarmless(prev: PatientData, c: string)
    requires c in prev.comorbidities
    ensures Assess(HandleComorbidityChange(prev, c, true)) == Assess(prev)
  {
    AssessDependsOnlyOnRuleInputs(HandleComorbidityChange(prev, c, true), prev);
  }

  /** The default record fires only the hypertension rule: 3.3 / 8.0 / 7.5 / 12.0, Moderate. */
  lemma DefaultScenario()
    ensures Assess(DefaultPatient) == RiskAssessment(3.3, 8.0, 7.5, 12.0, Moderate, [HypertensionFactor])
  {
    RunRules(DefaultPatient);
  }
}
