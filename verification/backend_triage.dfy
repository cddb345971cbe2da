/** backend/src/services/triageService.ts: the backend's triage service. It
    asks the AI service first and, on any failure, classifies locally with a
    fixed rule table (tier cascade over vital signs, or a keyword cascade over
    the complaint when no vitals object was given). */
module BackendTriage {
  import opened Wrappers
  import opened Text
  import opened Js
  import opened Assessment

  /** A numeric vital sign as a JavaScript object holds it: the property is
      missing (`undefined`), `null`, or a number. */
  datatype Field = Missing | Null | Given(value: real)

  datatype BloodPressure = BloodPressure(systolic: Field, diastolic: Field)

  datatype VitalSigns = VitalSigns(
    heartRate: Field,
    respiratoryRate: Field,
    oxygenSaturation: Field,
    bloodPressure: Option<BloodPressure>,
    temperature: Field,
    consciousness: Option<string>,
    painLevel: Field,
    skinColor: Option<string>,
    capillaryRefill: Field)

  /** A vitals object with no property at all: `{}`. */
  const NoReadings := VitalSigns(Missing, Missing, Missing, None, Missing, None, Missing, None, Missing)

  datatype TriageInput = TriageInput(
    patientId: string,
    chiefComplaint: string,
    additionalNotes: Option<string>,
    vitalSigns: Option<VitalSigns>,
    assessedBy: string)

  // ---------------------------------------------------------------------------
  // Tier cascade (lines 120-174). Every test is guarded by `field && …`, so a
  // missing, null or zero reading never triggers anything.

  predicate Measured(f: Field) { f.Given? && f.value != 0.0 }
  predicate Below(f: Field, bound: real) { Measured(f) && f.value < bound }
  predicate Above(f: Field, bound: real) { Measured(f) && f.value > bound }
  predicate AtLeast(f: Field, bound: real) { Measured(f) && f.value >= bound }

  /** `vitalSigns.bloodPressure?.systolic`. */
  function Systolic(v: VitalSigns): Field {
    match v.bloodPressure
    case Some(bp) => bp.systolic
    case None => Missing
  }

  predicate Tier1(v: VitalSigns) {
    || Below(v.heartRate, 40.0) || Above(v.heartRate, 150.0)
    || Below(v.respiratoryRate, 8.0) || Above(v.respiratoryRate, 30.0)
    || Below(v.oxygenSaturation, 90.0)
    || Below(Systolic(v), 80.0)
    || v.consciousness == Some("unresponsive")
  }

  predicate Tier2(v: VitalSigns) {
    || Below(v.heartRate, 50.0) || Above(v.heartRate, 120.0)
    || Below(v.respiratoryRate, 12.0) || Above(v.respiratoryRate, 24.0)
    || Below(v.oxygenSaturation, 94.0)
    || Below(Systolic(v), 100.0)
    || v.consciousness == Some("confused")
    || AtLeast(v.painLevel, 8.0)
  }

  predicate Tier3(v: VitalSigns) {
    || Below(v.heartRate, 60.0) || Above(v.heartRate, 100.0)
    || Below(v.respiratoryRate, 14.0) || Above(v.respiratoryRate, 20.0)
    || Below(v.oxygenSaturation, 96.0)
    || AtLeast(v.painLevel, 5.0)
  }

  predicate Tier4(v: VitalSigns) {
    AtLeast(v.painLevel, 3.0) || Above(v.temperature, 38.5)
  }

  /** The trigger of each tier; tier 5 is the default and always applies. */
  predicate Trigger(t: nat, v: VitalSigns) {
    if t == 1 then Tier1(v)
    else if t == 2 then Tier2(v)
    else if t == 3 then Tier3(v)
    else if t == 4 then Tier4(v)
    else true
  }

  /** The if/else-if chain: the first tier, most severe first, whose trigger holds. */
  function VitalsTier(v: VitalSigns): (t: nat)
    ensures ValidTier(t)
    ensures Trigger(t, v)
    ensures forall k :: 1 <= k < t ==> !Trigger(k, v)
  {
    if Tier1(v) then 1
    else if Tier2(v) then 2
    else if Tier3(v) then 3
    else if Tier4(v) then 4
    else 5
  }

  function VitalsScore(t: nat): int
    requires ValidTier(t)
  {
    [100, 80, 60, 40, 20][t - 1]
  }

  function VitalsRecommendations(t: nat): seq<string>
    requires ValidTier(t)
  {
    if t == 1 then [ImmediateAssessment, "Prepare resuscitation equipment"]
    else if t == 2 then ["Urgent assessment within 10 minutes"]
    else if t == 3 then ["Assessment within 30 minutes"]
    else if t == 4 then ["Assessment within 1 hour"]
    else ["Routine assessment"]
  }

  /** A classification with a valid tier and advice, whose tier-1 advice
      opens with the immediate-assessment instruction. */
  predicate Advised(c: Classification) {
    && ValidTier(c.tier) && |c.recommendations| > 0
    && (c.tier == 1 ==> c.recommendations[0] == ImmediateAssessment)
  }

  function ClassifyVitals(v: VitalSigns): (c: Classification)
    ensures c.tier == VitalsTier(v) && Advised(c)
  {
    var t := VitalsTier(v);
    Classification(t, VitalsScore(t), VitalsRecommendations(t))
  }

  // ---------------------------------------------------------------------------
  // Keyword cascade (lines 175-200), used only when no vitals object was given.

  const CriticalKeywords: seq<string> := [
    "chest pain", "difficulty breathing", "unconscious", "severe pain",
    "bleeding", "trauma", "stroke", "heart attack", "seizure"]

  const UrgentKeywords: seq<string> := [
    "fever", "abdominal pain", "headache", "nausea", "vomiting"]

  /** Case-insensitive substring match, critical list first: a critical
      keyword anywhere in the lower-cased complaint gives 2, otherwise an
      urgent one gives 3, otherwise 4. */
  function KeywordTier(complaint: string): (t: nat)
    ensures t == 2 || t == 3 || t == 4
    ensures t == 2 <==> OccursAny(Lower(complaint), CriticalKeywords)
    ensures t == 3 <==> !OccursAny(Lower(complaint), CriticalKeywords) && OccursAny(Lower(complaint), UrgentKeywords)
    ensures t == 4 <==> !OccursAny(Lower(complaint), CriticalKeywords) && !OccursAny(Lower(complaint), UrgentKeywords)
  {
    var lowered := Lower(complaint);
    ContainsAnyIffOccursAny(lowered, CriticalKeywords);
    ContainsAnyIffOccursAny(lowered, UrgentKeywords);
    if ContainsAny(lowered, CriticalKeywords) then 2
    else if ContainsAny(lowered, UrgentKeywords) then 3
    else 4
  }

  function ClassifyComplaint(complaint: string): (c: Classification)
    ensures c.tier == KeywordTier(complaint) && Advised(c)
    ensures (c.tier, c.score) in {(2, 75), (3, 55), (4, 35)}
  {
    var t := KeywordTier(complaint);
    if t == 2 then Classification(2, 75, ["Urgent assessment - collect vital signs immediately"])
    else if t == 3 then Classification(3, 55, ["Standard assessment - collect vital signs"])
    else Classification(4, 35, ["Routine assessment"])
  }

  // ---------------------------------------------------------------------------
  // Wait table (lines 213-222).

  /** The `waitTimes` record: `undefined` for a key it does not hold. */
  function WaitTable(level: string): Option<nat> {
    if level == "1" then Some(0)
    else if level == "2" then Some(10)
    else if level == "3" then Some(30)
    else if level == "4" then Some(60)
    else if level == "5" then Some(120)
    else None
  }

  /** `waitTimes[level] || 60`: the `||` also replaces level 1's 0. */
  function EstimatedWaitTime(level: string): (w: nat)
    ensures WaitTable(level).Some? && WaitTable(level).value != 0 ==> w == WaitTable(level).value
    ensures WaitTable(level) == Some(0) || WaitTable(level).None? ==> w == 60
  {
    match WaitTable(level)
    case Some(minutes) => if minutes != 0 then minutes else 60
    case None => 60
  }

  /** Level 1, listed as "immediate" in the table, is estimated at an hour. */
  lemma LevelOneWaitsAnHour()
    ensures WaitTable("1") == Some(0)
    ensures EstimatedWaitTime("1") == 60
    ensures EstimatedWaitTime("2") == 10 && EstimatedWaitTime("3") == 30
    ensures EstimatedWaitTime("4") == 60 && EstimatedWaitTime("5") == 120
  {
  }

  // ---------------------------------------------------------------------------
  // fallbackTriageAssessment (lines 111-211).

  function Fallback(input: TriageInput): (r: TriageResult)
    ensures IsLevel(r.level)
    ensures input.vitalSigns.Some? ==> r.level == LevelName(VitalsTier(input.vitalSigns.value))
    ensures input.vitalSigns.None? ==> r.level == LevelName(KeywordTier(input.chiefComplaint))
    ensures |r.recommendations| > 0
    ensures r.level == "1" ==> r.recommendations[0] == ImmediateAssessment
    ensures StartsWith(r.notes, NotesHead + VitalsMention) <==> input.vitalSigns.Some?
    ensures r.estimatedWaitTime == EstimatedWaitTime(r.level)
  {
    var c := match input.vitalSigns
      case Some(v) => ClassifyVitals(v)
      case None => ClassifyComplaint(input.chiefComplaint);
    LevelNameValid(c.tier);
    var level := LevelName(c.tier);
    var notes := BaseNotes(input.vitalSigns.Some?, input.chiefComplaint);
    BaseNotesMentionVitals(input.vitalSigns.Some?, input.chiefComplaint, "");
    assert notes + "" == notes;
    TriageResult(level, c.score, notes, c.recommendations, EstimatedWaitTime(level))
  }

  /** The (level, score) pairs of the vitals path are exactly
      (1,100), (2,80), (3,60), (4,40), (5,20). */
  lemma VitalsPathScores(input: TriageInput)
    requires input.vitalSigns.Some?
    ensures var r := Fallback(input);
      || (r.level == "1" && r.priorityScore == 100)
      || (r.level == "2" && r.priorityScore == 80)
      || (r.level == "3" && r.priorityScore == 60)
      || (r.level == "4" && r.priorityScore == 40)
      || (r.level == "5" && r.priorityScore == 20)
  {
  }

  /** The keyword path's pairs are (2,75), (3,55), (4,35). */
  lemma KeywordPathScores(input: TriageInput)
    requires input.vitalSigns.None?
    ensures var r := Fallback(input);
      || (r.level == "2" && r.priorityScore == 75)
      || (r.level == "3" && r.priorityScore == 55)
      || (r.level == "4" && r.priorityScore == 35)
  {
  }

  function LevelRank(level: string): nat {
    if level == "1" then 1 else if level == "2" then 2 else if level == "3" then 3
    else if level == "4" then 4 else 5
  }

  /** Across both paths, a more urgent level always carries a strictly higher
      priority score, so ordering by score never inverts the levels. */
  lemma ScoreOrdersLevels(a: TriageInput, b: TriageInput)
    requires LevelRank(Fallback(a).level) < LevelRank(Fallback(b).level)
    ensures Fallback(a).priorityScore > Fallback(b).priorityScore
  {
    var ra, rb := Fallback(a), Fallback(b);
    ScoreBand(a);
    ScoreBand(b);
  }

  /** The score bands of the five levels do not overlap. */
  lemma ScoreBand(input: TriageInput)
    ensures var r := Fallback(input);
      && (r.level == "1" ==> r.priorityScore == 100)
      && (r.level == "2" ==> 75 <= r.priorityScore <= 80)
      && (r.level == "3" ==> 55 <= r.priorityScore <= 60)
      && (r.level == "4" ==> 35 <= r.priorityScore <= 40)
      && (r.level == "5" ==> r.priorityScore == 20)
  {
    if input.vitalSigns.Some? {
      VitalsPathScores(input);
    } else {
      KeywordPathScores(input);
    }
  }

  // ---------------------------------------------------------------------------
  // Threshold boundaries, one reading at a time (the rest of the object empty).

  /** Heart rate: tier 1 below 40 or above 150, tier 2 below 50 or above 120,
      tier 3 below 60 or above 100, otherwise (or 0) tier 5. */
  lemma HeartRateBands(hr: real)
    ensures var t := VitalsTier(NoReadings.(heartRate := Given(hr)));
      && (t == 1 <==> hr != 0.0 && (hr < 40.0 || hr > 150.0))
      && (t == 2 <==> (40.0 <= hr < 50.0) || (120.0 < hr <= 150.0))
      && (t == 3 <==> (50.0 <= hr < 60.0) || (100.0 < hr <= 120.0))
      && (t == 5 <==> hr == 0.0 || 60.0 <= hr <= 100.0)
  {
  }

  lemma RespiratoryRateBands(rr: real)
    ensures var t := VitalsTier(NoReadings.(respiratoryRate := Given(rr)));
      && (t == 1 <==> rr != 0.0 && (rr < 8.0 || rr > 30.0))
      && (t == 2 <==> (8.0 <= rr < 12.0) || (24.0 < rr <= 30.0))
      && (t == 3 <==> (12.0 <= rr < 14.0) || (20.0 < rr <= 24.0))
      && (t == 5 <==> rr == 0.0 || 14.0 <= rr <= 20.0)
  {
  }

  lemma OxygenSaturationBands(spo2: real)
    ensures var t := VitalsTier(NoReadings.(oxygenSaturation := Given(spo2)));
      && (t == 1 <==> spo2 != 0.0 && spo2 < 90.0)
      && (t == 2 <==> 90.0 <= spo2 < 94.0)
      && (t == 3 <==> 94.0 <= spo2 < 96.0)
      && (t == 5 <==> spo2 == 0.0 || spo2 >= 96.0)
  {
  }

  /** Systolic pressure has no tier-3 or tier-4 band. */
  lemma SystolicBands(sys: real, dia: Field)
    ensures var t := VitalsTier(NoReadings.(bloodPressure := Some(BloodPressure(Given(sys), dia))));
      && (t == 1 <==> sys != 0.0 && sys < 80.0)
      && (t == 2 <==> 80.0 <= sys < 100.0)
      && (t == 5 <==> sys == 0.0 || sys >= 100.0)
  {
  }

  /** Pain bounds are the only inclusive ones: 8 is tier 2, 5 tier 3, 3 tier 4. */
  lemma PainLevelBands(pain: real)
    ensures var t := VitalsTier(NoReadings.(painLevel := Given(pain)));
      && (t == 2 <==> pain >= 8.0)
      && (t == 3 <==> 5.0 <= pain < 8.0)
      && (t == 4 <==> 3.0 <= pain < 5.0)
      && (t == 5 <==> pain < 3.0)
  {
  }

  /** Temperature only matters strictly above 38.5. */
  lemma TemperatureBands(temp: real)
    ensures var t := VitalsTier(NoReadings.(temperature := Given(temp)));
      && (t == 4 <==> temp > 38.5)
      && (t == 5 <==> temp <= 38.5)
  {
  }

  lemma ConsciousnessBands(state: string)
    ensures var t := VitalsTier(NoReadings.(consciousness := Some(state)));
      && (t == 1 <==> state == "unresponsive")
      && (t == 2 <==> state == "confused")
      && (t == 5 <==> state != "unresponsive" && state != "confused")
  {
  }

  /** A zero or null reading is skipped exactly like a missing one. */
  lemma ZeroReadsAsAbsent(v: VitalSigns, dia: Field)
    ensures VitalsTier(v.(heartRate := Given(0.0))) == VitalsTier(v.(heartRate := Missing))
    ensures VitalsTier(v.(respiratoryRate := Given(0.0))) == VitalsTier(v.(respiratoryRate := Missing))
    ensures VitalsTier(v.(oxygenSaturation := Given(0.0))) == VitalsTier(v.(oxygenSaturation := Null))
    ensures VitalsTier(v.(painLevel := Given(0.0))) == VitalsTier(v.(painLevel := Missing))
    ensures VitalsTier(v.(temperature := Given(0.0))) == VitalsTier(v.(temperature := Missing))
    ensures VitalsTier(v.(bloodPressure := Some(BloodPressure(Given(0.0), dia)))) == VitalsTier(v.(bloodPressure := None))
  {
  }

  /** Diastolic pressure, skin colour and capillary refill never change the tier. */
  lemma IgnoredReadings(v: VitalSigns, dia: Field, skin: Option<string>, refill: Field)
    ensures var bp := match v.bloodPressure
        case Some(b) => Some(b.(diastolic := dia))
        case None => None;
      VitalsTier(v.(bloodPressure := bp, skinColor := skin, capillaryRefill := refill)) == VitalsTier(v)
  {
  }

  /** An empty vitals object is "given": it takes the tier path and lands on level 5. */
  lemma EmptyVitalsAreRoutine(input: TriageInput)
    requires input.vitalSigns == Some(NoReadings)
    ensures Fallback(input).level == "5" && Fallback(input).priorityScore == 20
    ensures Fallback(input).estimatedWaitTime == 120
  {
  }

  lemma HeartRate160IsLevelOne(input: TriageInput)
    requires input.vitalSigns == Some(NoReadings.(heartRate := Given(160.0)))
    ensures Fallback(input).level == "1" && Fallback(input).priorityScore == 100
    ensures Fallback(input).recommendations[0] == ImmediateAssessment
  {
  }

  /** "chest pain" is critical, whatever the case of the letters. */
  lemma ChestPainIsCritical()
    ensures KeywordTier("Chest Pain") == 2
  {
    LowerChestPain();
    var lowered := Lower("Chest Pain");
    assert OccursAt(lowered, CriticalKeywords[0], 0);
    ContainsIffOccurs(lowered, CriticalKeywords[0]);
  }

  lemma LowerChestPain()
    ensures Lower("Chest Pain") == "chest pain"
  {
  }

  /** "fever" on its own is urgent. */
  lemma FeverIsUrgent()
    ensures KeywordTier("fever") == 3
  {
    var lowered := Lower("fever");
    assert lowered == "fever";
    ShortTextMissesAll(lowered, CriticalKeywords);
    assert OccursAt(lowered, UrgentKeywords[0], 0);
    ContainsIffOccurs(lowered, UrgentKeywords[0]);
  }

  /** A complaint matching no keyword is routine. */
  lemma UnknownComplaintIsRoutine()
    ensures KeywordTier("sore") == 4
  {
    var lowered := Lower("sore");
    assert lowered == "sore";
    ShortTextMissesAll(lowered, CriticalKeywords);
    ShortTextMissesAll(lowered, UrgentKeywords);
  }

  // ---------------------------------------------------------------------------
  // The AI service calls (lines 45-106), with the HTTP outcome injected.

  /** What `processVideoForVitalSigns` did: whether it called the analyser and
      what it returns. */
  datatype VideoOutcome = VideoOutcome(called: bool, vitals: Option<VitalSigns>)

  /** `analyser` is the HTTP call's `response.data.vitalSigns`, `None` when the
      call failed, timed out or returned none. */
  function ProcessVideoForVitalSigns(videoPath: Option<string>, videoBuffer: Option<seq<bv8>>,
                                     analyser: Option<VitalSigns>): (r: VideoOutcome)
    ensures r.called <==> GivenText(videoPath) || videoBuffer.Some?
    ensures r.vitals.Some? ==> r.called && r.vitals == analyser
    ensures r.called ==> r.vitals == analyser
  {
    if !GivenText(videoPath) && videoBuffer.None? then VideoOutcome(false, None)
    else VideoOutcome(true, analyser)
  }

  /** `performTriageAssessment`: the AI service's answer when it gave one,
      the local fallback on any failure. It always produces a result. */
  function PerformTriageAssessment(input: TriageInput, assessor: Option<TriageResult>): (r: TriageResult)
    ensures assessor.Some? ==> r == assessor.value
    ensures assessor.None? ==> r == Fallback(input)
  {
    match assessor
    case Some(answer) => answer
    case None => Fallback(input)
  }
}
