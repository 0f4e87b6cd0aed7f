/** The risk-scoring engine of the triage app.

    A patient earns points from four independent sources -- the age band,
    every reported symptom, five vital-sign thresholds and every pre-existing
    condition -- and the sum is capped at 100. The capped score is mapped to a
    three-tier risk level, and the level to one of three fixed action texts.
    Symptom and condition tags are free strings: a tag outside the known
    vocabulary is never rejected, it simply earns the lowest weight.
 */
module Scoring {

  datatype Option<+T> = None | Some(value: T)

  /** Reading one entry of the vitals dictionary with its fallback value. */
  function ValueOr<T>(o: Option<T>, default: T): T {
    match o
    case Some(v) => v
    case None => default
  }

  /** The vitals dictionary. An absent entry reads as its clinically normal
      default. Temperature is in degrees Fahrenheit. */
  datatype Vitals = Vitals(
    bpSystolic: Option<int>,
    bpDiastolic: Option<int>,
    heartRate: Option<int>,
    temperature: Option<real>,
    spo2: Option<int>)

  const NoVitals := Vitals(None, None, None, None, None)

  const DefaultSystolic := 120
  const DefaultDiastolic := 80
  const DefaultHeartRate := 75
  const DefaultTemperature := 98.6
  const DefaultSpo2 := 98

  /** The vitals the data-entry form submits when nothing is changed. */
  const BaselineVitals := Vitals(Some(DefaultSystolic), Some(DefaultDiastolic),
    Some(DefaultHeartRate), Some(DefaultTemperature), Some(DefaultSpo2))

  const CriticalSymptoms: seq<string> := ["chest_pain", "breathlessness", "confusion", "severe_bleeding"]
  const ModerateSymptoms: seq<string> := ["high_fever", "persistent_cough", "severe_pain"]
  const HighRiskConditions: seq<string> := ["heart_disease", "copd"]
  const ModerateRiskConditions: seq<string> := ["diabetes", "hypertension", "pregnancy"]

  const ScoreCap := 100

  // ---------------------------------------------------------------------
  // The rule table
  // ---------------------------------------------------------------------

  /** Points for the age band: infants under five and patients over sixty. */
  function AgePoints(age: int): (p: nat)
    ensures p <= 20
    ensures p != 0 <==> age < 5 || age > 60
  {
    if age < 5 then 15 else if age > 60 then 20 else 0
  }

  /** Points for one symptom tag; any tag outside the two tiers earns 5. */
  function SymptomWeight(tag: string): (w: nat)
    ensures 5 <= w <= 25
  {
    if tag in CriticalSymptoms then 25
    else if tag in ModerateSymptoms then 10
    else 5
  }

  /** Points for one condition tag; any tag outside the two tiers earns 0. */
  function ConditionWeight(tag: string): (w: nat)
    ensures w <= 15
  {
    if tag in HighRiskConditions then 15
    else if tag in ModerateRiskConditions then 10
    else 0
  }

  /** The sum of `weight` over the tags of `tags`, counting repeats. */
  function Total(tags: seq<string>, weight: string -> nat): nat {
    if tags == [] then 0 else Total(tags[..|tags| - 1], weight) + weight(tags[|tags| - 1])
  }

  /** The five vital-sign checks, each independent of the others. */
  function VitalPoints(v: Vitals): (p: nat)
    ensures p <= 70
    ensures p == 0 <==>
      && 90 <= ValueOr(v.bpSystolic, DefaultSystolic) <= 140
      && 60 <= ValueOr(v.bpDiastolic, DefaultDiastolic) <= 90
      && 50 <= ValueOr(v.heartRate, DefaultHeartRate) <= 100
      && ValueOr(v.temperature, DefaultTemperature) <= 101.0
      && ValueOr(v.spo2, DefaultSpo2) >= 94
  {
    var sys := ValueOr(v.bpSystolic, DefaultSystolic);
    var dia := ValueOr(v.bpDiastolic, DefaultDiastolic);
    var hr := ValueOr(v.heartRate, DefaultHeartRate);
    var temp := ValueOr(v.temperature, DefaultTemperature);
    var spo2 := ValueOr(v.spo2, DefaultSpo2);
    (if sys > 140 || sys < 90 then 15 else 0)
    + (if dia > 90 || dia < 60 then 10 else 0)
    + (if hr > 100 || hr < 50 then 15 else 0)
    + (if temp > 101.0 then 10 else 0)
    + (if spo2 < 94 then 20 else 0)
  }

  /** The accumulated points before the cap: at least 5 per symptom, and at
      most 20 for age, 25 per symptom, 70 for the vitals and 15 per condition. */
  function RawScore(age: int, symptoms: seq<string>, vitals: Vitals, conditions: seq<string>): (raw: nat)
    ensures 5 * |symptoms| <= raw
    ensures raw <= 20 + 25 * |symptoms| + 70 + 15 * |conditions|
  {
    SymptomPointsBounds(symptoms);
    ConditionPointsBounds(conditions);
    AgePoints(age) + Total(symptoms, SymptomWeight) + VitalPoints(vitals) + Total(conditions, ConditionWeight)
  }

  /** The risk score: the accumulated points, capped at 100. */
  function RiskScore(age: int, symptoms: seq<string>, vitals: Vitals, conditions: seq<string>): (score: nat)
    ensures score <= ScoreCap
    ensures score <= RawScore(age, symptoms, vitals, conditions)
    ensures score == ScoreCap || score == RawScore(age, symptoms, vitals, conditions)
  {
    var raw := RawScore(age, symptoms, vitals, conditions);
    if raw < ScoreCap then raw else ScoreCap
  }

  // ---------------------------------------------------------------------
  // The scoring procedure, as the app runs it: one accumulator, updated
  // rule by rule and tag by tag.
  // ---------------------------------------------------------------------

  method CalculateRiskScore(age: int, symptoms: seq<string>, vitals: Vitals, conditions: seq<string>)
    returns (score: int)
    ensures score == RiskScore(age, symptoms, vitals, conditions)
    ensures 0 <= score <= ScoreCap
  {
    score := 0;

    if age < 5 {
      score := score + 15;
    } else if age > 60 {
      score := score + 20;
    }

    for i := 0 to |symptoms|
      invariant score == AgePoints(age) + Total(symptoms[..i], SymptomWeight)
    {
      var symptom := symptoms[i];
      if symptom in CriticalSymptoms {
        score := score + 25;
      } else if symptom in ModerateSymptoms {
        score := score + 10;
      } else {
        score := score + 5;
      }
      assert symptoms[..i + 1][..i] == symptoms[..i];
    }
    assert symptoms[..|symptoms|] == symptoms;

    var sys := ValueOr(vitals.bpSystolic, DefaultSystolic);
    var dia := ValueOr(vitals.bpDiastolic, DefaultDiastolic);
    var heartRate := ValueOr(vitals.heartRate, DefaultHeartRate);
    var temp := ValueOr(vitals.temperature, DefaultTemperature);
    var spo2 := ValueOr(vitals.spo2, DefaultSpo2);

    if sys > 140 || sys < 90 {
      score := score + 15;
    }
    if dia > 90 || dia < 60 {
      score := score + 10;
    }
    if heartRate > 100 || heartRate < 50 {
      score := score + 15;
    }
    if temp > 101.0 {
      score := score + 10;
    }
    if spo2 < 94 {
      score := score + 20;
    }
    ghost var beforeConditions := score;
    assert beforeConditions == AgePoints(age) + Total(symptoms, SymptomWeight) + VitalPoints(vitals);

    for i := 0 to |conditions|
      invariant score == beforeConditions + Total(conditions[..i], ConditionWeight)
    {
      var condition := conditions[i];
      if condition in HighRiskConditions {
        score := score + 15;
      } else if condition in ModerateRiskConditions {
        score := score + 10;
      }
      assert conditions[..i + 1][..i] == conditions[..i];
    }
    assert conditions[..|conditions|] == conditions;

    if score > ScoreCap {
      score := ScoreCap;
    }
  }

  // ---------------------------------------------------------------------
  // Classification and recommendation
  // ---------------------------------------------------------------------

  datatype RiskLevel = Low | Medium | High {
    /** The name the level is stored and displayed under. */
    function Name(): string {
      match this
      case Low => "LOW"
      case Medium => "MEDIUM"
      case High => "HIGH"
    }

    /** The position of the level in the order LOW < MEDIUM < HIGH. */
    function Rank(): nat {
      match this
      case Low => 0
      case Medium => 1
      case High => 2
    }
  }

  /** The level of a score; each tier includes its lower bound. */
  function RiskLevelOf(score: int): (level: RiskLevel)
    ensures level == High <==> score >= 60
    ensures level == Medium <==> 30 <= score < 60
    ensures level == Low <==> score < 30
  {
    if score >= 60 then High
    else if score >= 30 then Medium
    else Low
  }

  const UrgentReferral := "\U{26A0}\U{FE0F} URGENT REFERRAL TO PHC/HOSPITAL"
  const FollowUp := "\U{1F4CB} Schedule Follow-up within 48 hours"
  const HomeCare := "\U{2705} Home Care with monitoring"

  /** The action text for a level. The score is accepted but never consulted. */
  function Recommendation(level: RiskLevel, score: int): (text: string)
    ensures text in {UrgentReferral, FollowUp, HomeCare}
  {
    match level
    case High => UrgentReferral
    case Medium => FollowUp
    case Low => HomeCare
  }

  // ---------------------------------------------------------------------
  // Properties of the rule table
  // ---------------------------------------------------------------------

  /** Totals add up over concatenation. */
  lemma {:induction false} TotalAppend(a: seq<string>, b: seq<string>, weight: string -> nat)
    ensures Total(a + b, weight) == Total(a, weight) + Total(b, weight)
    decreases |b|
  {
    if b == [] {
      assert a + b == a;
    } else {
      var b' := b[..|b| - 1];
      assert (a + b)[..|a + b| - 1] == a + b';
      TotalAppend(a, b', weight);
    }
  }

  /** Taking one tag out of a list takes its weight out of the total. */
  lemma TotalRemove(b: seq<string>, i: nat, weight: string -> nat)
    requires i < |b|
    ensures Total(b, weight) == Total(b[..i] + b[i + 1..], weight) + weight(b[i])
  {
    assert b == (b[..i] + [b[i]]) + b[i + 1..];
    TotalAppend(b[..i] + [b[i]], b[i + 1..], weight);
    TotalAppend(b[..i], b[i + 1..], weight);
    assert (b[..i] + [b[i]])[..i] == b[..i];
  }

  lemma MultisetRemove(b: seq<string>, i: nat)
    requires i < |b|
    ensures multiset(b[..i] + b[i + 1..]) == multiset(b) - multiset{b[i]}
  {
    assert b == b[..i] + [b[i]] + b[i + 1..];
  }

  /** A total does not depend on the order of the tags. */
  lemma {:induction false} TotalPermutation(a: seq<string>, b: seq<string>, weight: string -> nat)
    requires multiset(a) == multiset(b)
    ensures Total(a, weight) == Total(b, weight)
    decreases |a|
  {
    if a != [] {
      var a' := a[..|a| - 1];
      var x := a[|a| - 1];
      assert x in multiset(b) by {
        assert a == a' + [x];
      }
      var i :| 0 <= i < |b| && b[i] == x;
      MultisetRemove(a, |a| - 1);
      MultisetRemove(b, i);
      assert a[..|a| - 1] + a[|a| - 1 + 1..] == a';
      TotalPermutation(a', b[..i] + b[i + 1..], weight);
      TotalRemove(b, i, weight);
    }
  }

  /** The score does not depend on the order in which symptoms and
      conditions are listed. */
  lemma ScoreOrderIndependent(age: int, s1: seq<string>, s2: seq<string>, vitals: Vitals,
                              c1: seq<string>, c2: seq<string>)
    requires multiset(s1) == multiset(s2) && multiset(c1) == multiset(c2)
    ensures RiskScore(age, s1, vitals, c1) == RiskScore(age, s2, vitals, c2)
  {
    TotalPermutation(s1, s2, SymptomWeight);
    TotalPermutation(c1, c2, ConditionWeight);
  }

  /** One more symptom, anywhere in the list, adds exactly its tier weight:
      25 for a critical one, 10 for a moderate one, 5 for any other tag. */
  lemma SymptomContribution(age: int, before: seq<string>, tag: string, after: seq<string>,
                            vitals: Vitals, conditions: seq<string>)
    ensures RawScore(age, before + [tag] + after, vitals, conditions)
         == RawScore(age, before + after, vitals, conditions)
            + (if tag in CriticalSymptoms then 25 else if tag in ModerateSymptoms then 10 else 5)
  {
    TotalAppend(before + [tag], after, SymptomWeight);
    TotalAppend(before, after, SymptomWeight);
    assert Total(before + [tag], SymptomWeight) == Total(before, SymptomWeight) + SymptomWeight(tag) by {
      assert (before + [tag])[..|before|] == before;
    }
  }

  /** One more condition, anywhere in the list, adds exactly its tier weight:
      15 for heart disease or COPD, 10 for diabetes, hypertension or
      pregnancy, and nothing for any other tag, "none" included. */
  lemma ConditionContribution(age: int, symptoms: seq<string>, vitals: Vitals,
                              before: seq<string>, tag: string, after: seq<string>)
    ensures RawScore(age, symptoms, vitals, before + [tag] + after)
         == RawScore(age, symptoms, vitals, before + after)
            + (if tag in HighRiskConditions then 15 else if tag in ModerateRiskConditions then 10 else 0)
  {
    TotalAppend(before + [tag], after, ConditionWeight);
    TotalAppend(before, after, ConditionWeight);
    assert Total(before + [tag], ConditionWeight) == Total(before, ConditionWeight) + ConditionWeight(tag) by {
      assert (before + [tag])[..|before|] == before;
    }
  }

  /** Each symptom earns between 5 and 25 points. */
  lemma {:induction false} SymptomPointsBounds(symptoms: seq<string>)
    ensures 5 * |symptoms| <= Total(symptoms, SymptomWeight) <= 25 * |symptoms|
  {
    if symptoms != [] {
      SymptomPointsBounds(symptoms[..|symptoms| - 1]);
    }
  }

  /** Each condition earns at most 15 points. */
  lemma {:induction false} ConditionPointsBounds(conditions: seq<string>)
    ensures Total(conditions, ConditionWeight) <= 15 * |conditions|
  {
    if conditions != [] {
      ConditionPointsBounds(conditions[..|conditions| - 1]);
    }
  }

  /** With no symptoms, no conditions and no vitals, only the age band
      counts: 15 under five, 20 over sixty, nothing in between. */
  lemma AgeOnlyScore(age: int)
    ensures RiskScore(age, [], NoVitals, []) == (if age < 5 then 15 else if age > 60 then 20 else 0)
  {
  }

  /** Each vital check contributes on its own threshold, independently of
      the other four, and an absent reading contributes nothing. */
  lemma VitalChecksIndependent(v: Vitals, sys: int, dia: int, hr: int, temp: real, spo2: int)
    ensures VitalPoints(v.(bpSystolic := Some(sys)))
         == VitalPoints(v.(bpSystolic := None)) + (if sys > 140 || sys < 90 then 15 else 0)
    ensures VitalPoints(v.(bpDiastolic := Some(dia)))
         == VitalPoints(v.(bpDiastolic := None)) + (if dia > 90 || dia < 60 then 10 else 0)
    ensures VitalPoints(v.(heartRate := Some(hr)))
         == VitalPoints(v.(heartRate := None)) + (if hr > 100 || hr < 50 then 15 else 0)
    ensures VitalPoints(v.(temperature := Some(temp)))
         == VitalPoints(v.(temperature := None)) + (if temp > 101.0 then 10 else 0)
    ensures VitalPoints(v.(spo2 := Some(spo2)))
         == VitalPoints(v.(spo2 := None)) + (if spo2 < 94 then 20 else 0)
  {
  }

  /** The default readings trip none of the thresholds. */
  lemma DefaultVitalsScoreNothing()
    ensures VitalPoints(NoVitals) == 0
    ensures VitalPoints(BaselineVitals) == 0
  {
  }

  /** More symptoms or more conditions never lower the score. */
  lemma {:induction false} ScoreMonotone(age: int, symptoms: seq<string>, moreSymptoms: seq<string>,
                                         vitals: Vitals, conditions: seq<string>, moreConditions: seq<string>)
    ensures RiskScore(age, symptoms, vitals, conditions)
         <= RiskScore(age, symptoms + moreSymptoms, vitals, conditions + moreConditions)
    ensures RiskLevelOf(RiskScore(age, symptoms, vitals, conditions)).Rank()
         <= RiskLevelOf(RiskScore(age, symptoms + moreSymptoms, vitals, conditions + moreConditions)).Rank()
  {
    TotalAppend(symptoms, moreSymptoms, SymptomWeight);
    TotalAppend(conditions, moreConditions, ConditionWeight);
    LevelMonotone(RiskScore(age, symptoms, vitals, conditions),
                  RiskScore(age, symptoms + moreSymptoms, vitals, conditions + moreConditions));
  }

  /** Every critical symptom together with every high-risk condition reaches
      the cap exactly, whatever the age and the vitals. */
  lemma WorstCaseHitsCap(age: int, vitals: Vitals)
    ensures RiskScore(age, CriticalSymptoms, vitals, HighRiskConditions) == ScoreCap
  {
    SymptomPointsBounds(CriticalSymptoms);
    assert |CriticalSymptoms| == 4;
  }

  // ---------------------------------------------------------------------
  // Properties of the classification and the recommendation
  // ---------------------------------------------------------------------

  /** A higher score never gets a lower level. */
  lemma LevelMonotone(a: int, b: int)
    requires a <= b
    ensures RiskLevelOf(a).Rank() <= RiskLevelOf(b).Rank()
  {
  }

  /** The boundaries of the tiers. */
  lemma LevelBoundaries()
    ensures RiskLevelOf(29) == Low && RiskLevelOf(30) == Medium
    ensures RiskLevelOf(59) == Medium && RiskLevelOf(60) == High
    ensures RiskLevelOf(0) == Low && RiskLevelOf(100) == High
  {
  }

  /** The recommendation depends on the level alone, and different levels
      get different texts, so the text also tells the level back. */
  lemma RecommendationByLevelOnly(l1: RiskLevel, s1: int, l2: RiskLevel, s2: int)
    ensures Recommendation(l1, s1) == Recommendation(l2, s2) <==> l1 == l2
  {
  }

  /** The level names are distinct, so a stored name identifies its level. */
  lemma LevelNamesDistinct(l1: RiskLevel, l2: RiskLevel)
    ensures l1.Name() == l2.Name() <==> l1 == l2
  {
  }

  // ---------------------------------------------------------------------
  // Worked cases
  // ---------------------------------------------------------------------

  /** A three-year-old with nothing else reported scores 15: LOW. */
  lemma InfantBaselineCase()
    ensures RiskScore(3, [], NoVitals, []) == 15
    ensures RiskLevelOf(RiskScore(3, [], NoVitals, [])) == Low
  {
  }

  /** A thirty-year-old with no symptoms, condition "none" and the baseline
      vitals scores 0: LOW, home care. */
  lemma HealthyAdultCase()
    ensures RiskScore(30, [], BaselineVitals, ["none"]) == 0
    ensures RiskLevelOf(0) == Low && Recommendation(Low, 0) == HomeCare
  {
  }

  /** Seventy years, chest pain and breathlessness, heart disease and SpO2 90:
      20 + 25 + 25 + 15 + 20 = 105 points, capped to 100: HIGH, urgent
      referral. */
  lemma ElderlyCriticalCase()
    ensures RawScore(70, ["chest_pain", "breathlessness"], NoVitals.(spo2 := Some(90)), ["heart_disease"]) == 105
    ensures RiskScore(70, ["chest_pain", "breathlessness"], NoVitals.(spo2 := Some(90)), ["heart_disease"]) == 100
    ensures Recommendation(RiskLevelOf(100), 100) == UrgentReferral
  {
    var s := ["chest_pain", "breathlessness"];
    assert s[..1] == ["chest_pain"] && s[..1][..0] == [];
    assert ["heart_disease"][..0] == [];
    assert SymptomWeight("chest_pain") == 25 by { assert CriticalSymptoms[0] == "chest_pain"; }
    assert SymptomWeight("breathlessness") == 25 by { assert CriticalSymptoms[1] == "breathlessness"; }
    assert ConditionWeight("heart_disease") == 15 by { assert HighRiskConditions[0] == "heart_disease"; }
    assert Total(s, SymptomWeight) == 50;
    assert Total(["heart_disease"], ConditionWeight) == 15;
    assert VitalPoints(NoVitals.(spo2 := Some(90))) == 20;
  }
}
