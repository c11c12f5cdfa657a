/**
 * The priority scoring engine (src/rescue_gent/triage_logic.py).
 *
 * `CalculateRescueScore` is the staged computation as the source writes it:
 * a running score that successive stages reassign and a list of reasons that
 * they append to. The functions before it state what each stage means, and
 * `PriorityScore` / `Reasoning` are the specification the method is proved
 * against. The lemmas at the end state the engine's promises.
 */
module Triage {
  import opened Wrappers

  /** The extractor's structured record (TriageData). Coordinates are opaque:
      the core only passes them on to the team selector. */
  datatype TriageData = TriageData(
    urgency: int,
    vulnerableIndividuals: seq<string>,
    injurySeverity: string,
    peopleAffected: int,
    latitude: Option<real>,
    longitude: Option<real>,
    summary: string,
    resourceNeeds: seq<string>)

  /** One entry of the reasoning, tagged by the stage that produced it. */
  datatype Reason =
    | CriticalInjury
    | SeriousInjuries
    | MinorInjuries
    | HighUrgency(level: int)
    | VulnerableGroups(bonus: int, groups: seq<string>)
    | Scale(bonus: int, people: int)
    | CriticalResourceNeeds
    | LowQualityPenalty
    | ElevatedToCriticalMinimum
    | StandardAssessment

  /** What `calculate_rescue_score` returns: the score, the input echoed back
      as `details`, and the reasoning (never empty). */
  datatype ScoreResult = ScoreResult(priorityScore: int, details: TriageData, reasoning: seq<Reason>)

  const Critical: string := "Critical"
  const Serious: string := "Serious"
  const Minor: string := "Minor"
  const NoInjury: string := "None"

  /** Resource needs that earn the flat bonus, compared after lower-casing. */
  const CriticalNeeds: set<string> := {"firefighters", "ambulance", "heavy machinery"}

  function Max(a: int, b: int): int { if a >= b then a else b }
  function Min(a: int, b: int): int { if a <= b then a else b }

  // ---------------------------------------------------------------------
  // Stage 1: direct threat to life

  /** The injury lookup: any severity other than the three named tiers
      (including "None" and unrecognised text) gives 0. */
  function BaseThreat(severity: string): (base: int)
    ensures 0 <= base <= 80
    ensures base == 80 <==> severity == Critical
    ensures base >= 50 <==> severity == Critical || severity == Serious
    ensures base == 0 <==> severity != Critical && severity != Serious && severity != Minor
  {
    if severity == Critical then 80
    else if severity == Serious then 60
    else if severity == Minor then 20
    else 0
  }

  function SeverityReasons(severity: string): seq<Reason>
  {
    if severity == Critical then [CriticalInjury]
    else if severity == Serious then [SeriousInjuries]
    else if severity == Minor then [MinorInjuries]
    else []
  }

  /** The score after stage 1 is the larger of the injury baseline and the
      urgency contribution; it is never negative, whatever the urgency. */
  function StageOneScore(data: TriageData): (score: int)
    ensures score >= BaseThreat(data.injurySeverity) && score >= 5 * data.urgency
    ensures score == BaseThreat(data.injurySeverity) || score == 5 * data.urgency
    ensures score >= 0
  {
    Max(BaseThreat(data.injurySeverity), 5 * data.urgency)
  }

  /** The informational "high urgency" entry: urgent, but not already a
      serious or critical injury. */
  predicate IsHighUrgency(data: TriageData)
  {
    data.urgency >= 8 && BaseThreat(data.injurySeverity) < 50
  }

  // ---------------------------------------------------------------------
  // Stage 2: contextual modifiers

  /** 15 points per list entry, duplicates included; nothing for an empty list. */
  function VulnerabilityBonus(groups: seq<string>): (bonus: int)
    ensures bonus == 15 * |groups|
  {
    if |groups| > 0 then 15 * |groups| else 0
  }

  /** Two points per person, capped at 20, only for more than one person. */
  function ScaleBonus(people: int): (bonus: int)
    ensures people <= 1 ==> bonus == 0
    ensures people > 1 ==> 0 < bonus <= 20 && bonus <= 2 * people
    ensures people >= 10 ==> bonus == 20
  {
    if people > 1 then Min(people * 2, 20) else 0
  }

  /** ASCII lower-casing. For membership in `CriticalNeeds` it agrees with
      Python's `str.lower`: the only non-ASCII character whose lower-case form
      is entirely ASCII is the Kelvin sign (to 'k'), and no critical need
      contains a 'k'. */
  function LowerChar(c: char): char
  {
    if 'A' <= c <= 'Z' then (c as int + 32) as char else c
  }

  function Lower(s: string): string
  {
    seq(|s|, i requires 0 <= i < |s| => LowerChar(s[i]))
  }

  predicate IsCriticalNeed(need: string)
  {
    Lower(need) in CriticalNeeds
  }

  predicate HasCriticalNeed(needs: seq<string>)
  {
    exists i :: 0 <= i < |needs| && IsCriticalNeed(needs[i])
  }

  /** A single flat bonus, however many critical needs are listed. */
  function ResourceBonus(needs: seq<string>): (bonus: int)
    ensures bonus == 0 || bonus == 5
    ensures bonus == 5 <==> HasCriticalNeed(needs)
  {
    if HasCriticalNeed(needs) then 5 else 0
  }

  /** Python's `any(need.lower() in critical_needs_list for need in ...)`:
      a left-to-right scan that stops at the first critical need. */
  method AnyCriticalNeed(needs: seq<string>) returns (found: bool)
    ensures found <==> HasCriticalNeed(needs)
  {
    found := false;
    var i := 0;
    while i < |needs| && !found
      invariant 0 <= i <= |needs|
      invariant found <==> exists j :: 0 <= j < i && IsCriticalNeed(needs[j])
    {
      found := IsCriticalNeed(needs[i]);
      i := i + 1;
    }
  }

  /** The running score once every additive bonus has been applied. */
  function AdditiveScore(data: TriageData): (score: int)
    ensures score >= StageOneScore(data) >= 0
    ensures score <= StageOneScore(data) + 15 * |data.vulnerableIndividuals| + 20 + 5
  {
    StageOneScore(data)
      + VulnerabilityBonus(data.vulnerableIndividuals)
      + ScaleBonus(data.peopleAffected)
      + ResourceBonus(data.resourceNeeds)
  }

  // ---------------------------------------------------------------------
  // Stage 3: quality check and finalisation

  /** The spam / low-quality test: low urgency, no injury, short text.
      The length is counted in Unicode code points, as Python's `len`. */
  predicate IsLowQuality(data: TriageData, message: string)
  {
    data.urgency <= 2 && data.injurySeverity == NoInjury && |message| < 20
  }

  /** The score before the clamp: the penalty can only lower it, never below
      zero; when all three conditions hold it takes 30 off (floored at 0), and
      when any of them fails it leaves the score alone. */
  function ScoreBeforeClamp(data: TriageData, message: string): (score: int)
    ensures 0 <= score <= AdditiveScore(data)
    ensures !IsLowQuality(data, message) ==> score == AdditiveScore(data)
    ensures IsLowQuality(data, message) ==> score == Max(0, AdditiveScore(data) - 30)
  {
    if IsLowQuality(data, message) then Max(0, AdditiveScore(data) - 30)
    else AdditiveScore(data)
  }

  /** The priority score: in [0, 100] for every input, at least 85 for a
      critical injury, and otherwise exactly the clamped running score. */
  function PriorityScore(data: TriageData, message: string): (score: int)
    ensures 0 <= score <= 100
    ensures data.injurySeverity == Critical ==> 85 <= score
    ensures data.injurySeverity != Critical ==> score == Min(ScoreBeforeClamp(data, message), 100)
    ensures score >= Min(ScoreBeforeClamp(data, message), 100)
  {
    var clamped := Min(ScoreBeforeClamp(data, message), 100);
    if data.injurySeverity == Critical && clamped < 85 then 85 else clamped
  }

  /** True when the critical floor is what set the final score. */
  predicate IsElevated(data: TriageData, message: string)
  {
    data.injurySeverity == Critical && Min(ScoreBeforeClamp(data, message), 100) < 85
  }

  /** The entries appended by stage 1: the injury tier, then high urgency. */
  function StageOneReasons(data: TriageData): seq<Reason>
  {
    SeverityReasons(data.injurySeverity)
      + (if IsHighUrgency(data) then [HighUrgency(data.urgency)] else [])
  }

  function VulnerabilityReasons(data: TriageData): seq<Reason>
  {
    if |data.vulnerableIndividuals| > 0
    then [VulnerableGroups(VulnerabilityBonus(data.vulnerableIndividuals), data.vulnerableIndividuals)]
    else []
  }

  function ScaleReasons(data: TriageData): seq<Reason>
  {
    if data.peopleAffected > 1 then [Scale(ScaleBonus(data.peopleAffected), data.peopleAffected)] else []
  }

  function ResourceReasons(data: TriageData): seq<Reason>
  {
    if HasCriticalNeed(data.resourceNeeds) then [CriticalResourceNeeds] else []
  }

  /** The entries appended by stages 1 and 2, in order. */
  function StageTwoReasons(data: TriageData): seq<Reason>
  {
    StageOneReasons(data) + VulnerabilityReasons(data) + ScaleReasons(data) + ResourceReasons(data)
  }

  /** The entries appended by all the stages that fired, in stage order. */
  function TriggeredReasons(data: TriageData, message: string): seq<Reason>
  {
    StageTwoReasons(data)
      + (if IsLowQuality(data, message) then [LowQualityPenalty] else [])
      + (if IsElevated(data, message) then [ElevatedToCriticalMinimum] else [])
  }

  /** The reasoning is never empty: the default entry stands in, alone, exactly
      when no stage fired. */
  function Reasoning(data: TriageData, message: string): (reasons: seq<Reason>)
    ensures |reasons| > 0
    ensures StandardAssessment in reasons <==> TriggeredReasons(data, message) == []
    ensures TriggeredReasons(data, message) == [] ==> reasons == [StandardAssessment]
    ensures TriggeredReasons(data, message) != [] ==> reasons == TriggeredReasons(data, message)
  {
    var triggered := TriggeredReasons(data, message);
    if triggered == [] then [StandardAssessment] else triggered
  }

  /** `calculate_rescue_score`, stage by stage, on a local score and a local
      reasoning list. */
  method CalculateRescueScore(data: TriageData, originalMessage: string) returns (result: ScoreResult)
    ensures result.priorityScore == PriorityScore(data, originalMessage)
    ensures result.reasoning == Reasoning(data, originalMessage)
    ensures result.details == data
  {
    var score := 0;
    var reasoning: seq<Reason> := [];

    // Stage 1
    var baseThreatScore := 0;
    if data.injurySeverity == Critical {
      baseThreatScore := 80;
      reasoning := reasoning + [CriticalInjury];
    } else if data.injurySeverity == Serious {
      baseThreatScore := 60;
      reasoning := reasoning + [SeriousInjuries];
    } else if data.injurySeverity == Minor {
      baseThreatScore := 20;
      reasoning := reasoning + [MinorInjuries];
    }
    var urgencyContribution := data.urgency * 5;
    score := Max(baseThreatScore, urgencyContribution);
    if data.urgency >= 8 && baseThreatScore < 50 {
      reasoning := reasoning + [HighUrgency(data.urgency)];
    }
    assert score == StageOneScore(data);
    assert reasoning == StageOneReasons(data);

    // Stage 2
    if |data.vulnerableIndividuals| > 0 {
      var vulnerabilityBonus := 15 * |data.vulnerableIndividuals|;
      score := score + vulnerabilityBonus;
      reasoning := reasoning + [VulnerableGroups(vulnerabilityBonus, data.vulnerableIndividuals)];
    }
    assert reasoning == StageOneReasons(data) + VulnerabilityReasons(data);
    if data.peopleAffected > 1 {
      var scaleBonus := Min(data.peopleAffected * 2, 20);
      score := score + scaleBonus;
      reasoning := reasoning + [Scale(scaleBonus, data.peopleAffected)];
    }
    assert reasoning == StageOneReasons(data) + VulnerabilityReasons(data) + ScaleReasons(data);
    var anyCritical := AnyCriticalNeed(data.resourceNeeds);
    if anyCritical {
      score := score + 5;
      reasoning := reasoning + [CriticalResourceNeeds];
    }
    assert score == AdditiveScore(data);
    assert reasoning == StageTwoReasons(data);

    // Stage 3
    if data.urgency <= 2 && data.injurySeverity == NoInjury && |originalMessage| < 20 {
      score := Max(0, score - 30);
      reasoning := reasoning + [LowQualityPenalty];
    }
    assert score == ScoreBeforeClamp(data, originalMessage);
    var finalScore := Min(score, 100);
    if data.injurySeverity == Critical && finalScore < 85 {
      finalScore := 85;
      reasoning := reasoning + [ElevatedToCriticalMinimum];
    }

    assert reasoning == TriggeredReasons(data, originalMessage);
    var summary := if reasoning == [] then [StandardAssessment] else reasoning;
    result := ScoreResult(finalScore, data, summary);
  }

  // ---------------------------------------------------------------------
  // Properties of the engine

  /** Stage ordering: the floor runs after the clamp, so a critical report
      ends at exactly the clamped score raised to 85. */
  lemma CriticalScore(data: TriageData, message: string)
    requires data.injurySeverity == Critical
    ensures PriorityScore(data, message) == Max(Min(ScoreBeforeClamp(data, message), 100), 85)
  {
  }

  /** The "High Urgency" entry appears iff urgency >= 8 and the injury
      baseline is below 50. */
  lemma HighUrgencyReasonIff(data: TriageData, message: string)
    ensures HighUrgency(data.urgency) in Reasoning(data, message) <==> IsHighUrgency(data)
  {
  }

  /** The penalty entry appears exactly when the penalty fires. */
  lemma PenaltyReasonIff(data: TriageData, message: string)
    ensures LowQualityPenalty in Reasoning(data, message) <==> IsLowQuality(data, message)
  {
  }

  /** The elevation entry appears exactly when the floor changed the score. */
  lemma ElevationReasonIff(data: TriageData, message: string)
    ensures ElevatedToCriticalMinimum in Reasoning(data, message)
            <==> PriorityScore(data, message) != Min(ScoreBeforeClamp(data, message), 100)
  {
  }

  /** The vulnerability bonus counts list entries: repeating a group that is
      already listed adds another 15. */
  lemma VulnerabilityCountsDuplicates(groups: seq<string>, i: int)
    requires 0 <= i < |groups|
    ensures VulnerabilityBonus(groups + [groups[i]]) == VulnerabilityBonus(groups) + 15
  {
  }

  /** The scale bonus never decreases as more people are affected. */
  lemma ScaleBonusMonotone(people: int, morePeople: int)
    requires people <= morePeople
    ensures ScaleBonus(people) <= ScaleBonus(morePeople)
  {
  }

  /** The resource bonus depends only on which needs are listed, not on how
      often or in what order: listing a need twice still earns it once. */
  lemma {:induction false} ResourceBonusOnce(needs: seq<string>, sameNeeds: seq<string>)
    requires forall n :: n in needs <==> n in sameNeeds
    ensures ResourceBonus(needs) == ResourceBonus(sameNeeds)
  {
    if HasCriticalNeed(needs) {
      CriticalNeedCarriesOver(needs, sameNeeds);
    }
    if HasCriticalNeed(sameNeeds) {
      CriticalNeedCarriesOver(sameNeeds, needs);
    }
  }

  /** A critical need listed in `needs` is also listed in any list holding
      every entry of `needs`. */
  lemma {:induction false} CriticalNeedCarriesOver(needs: seq<string>, moreNeeds: seq<string>)
    requires HasCriticalNeed(needs)
    requires forall n :: n in needs ==> n in moreNeeds
    ensures HasCriticalNeed(moreNeeds)
  {
    var i :| 0 <= i < |needs| && IsCriticalNeed(needs[i]);
    assert needs[i] in needs;
    var j :| 0 <= j < |moreNeeds| && moreNeeds[j] == needs[i];
    assert IsCriticalNeed(moreNeeds[j]);
  }

  /** A more urgent report never scores lower, all else equal: raising the
      urgency raises stage 1 and can only switch the penalty off. */
  lemma UrgencyMonotone(data: TriageData, moreUrgency: int, message: string)
    requires data.urgency <= moreUrgency
    ensures PriorityScore(data, message) <= PriorityScore(data.(urgency := moreUrgency), message)
  {
  }

  // ---------------------------------------------------------------------
  // Worked examples

  /** The record the extractor substitutes when extraction fails
      (src/rescue_gent/llm_parser.py:113). */
  const ExtractionFallback: TriageData :=
    TriageData(1, [], NoInjury, 1, None, None, "Error: Could not parse emergency report.", [])

  /** A failed extraction always yields a low score: 0 for a short message,
      5 otherwise. */
  lemma ExtractionFallbackScore(message: string)
    ensures PriorityScore(ExtractionFallback, message) == if |message| < 20 then 0 else 5
  {
  }

  /** Urgency 9, critical, one vulnerable group, three people, an ambulance:
      80 + 15 + 6 + 5 = 106, clamped to 100; the floor does not fire. */
  lemma ScenarioCriticalWithChild(message: string)
    requires |message| == 80
    ensures var data := TriageData(9, ["children"], Critical, 3, None, None, "Building collapse", ["ambulance"]);
            PriorityScore(data, message) == 100
            && Reasoning(data, message)
               == [CriticalInjury, VulnerableGroups(15, ["children"]), Scale(6, 3), CriticalResourceNeeds]
  {
    var data := TriageData(9, ["children"], Critical, 3, None, None, "Building collapse", ["ambulance"]);
    assert Lower("ambulance") == "ambulance";
    assert IsCriticalNeed(data.resourceNeeds[0]);
  }

  /** Urgency 1, no injury, message "hi": 5 - 30 is floored at 0. */
  lemma ScenarioSpam()
    ensures var data := TriageData(1, [], NoInjury, 1, None, None, "hi", []);
            PriorityScore(data, "hi") == 0 && Reasoning(data, "hi") == [LowQualityPenalty]
  {
  }

  /** Urgency 3, serious injuries: max(60, 15) = 60, no bonus, no penalty. */
  lemma ScenarioSerious(message: string)
    ensures var data := TriageData(3, [], Serious, 1, None, None, "Broken leg", []);
            PriorityScore(data, message) == 60 && Reasoning(data, message) == [SeriousInjuries]
  {
  }
}
