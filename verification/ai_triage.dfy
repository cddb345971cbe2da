/** ai-service/src/services/triage_service.py: the AI service's rule-based
    assessor. Vital signs arrive as a Python dict decoded from JSON, so values
    are dynamically typed: `bool` is a subclass of `int`, so `True` and
    `False` compare as 1 and 0; a comparison on any other value that is not a
    number raises `TypeError`, which `assess` re-raises. */
module AiTriage {
  import opened Wrappers
  import opened Text
  import opened Assessment

  /** The JSON-decoded values a vitals dict can hold. */
  datatype PyValue =
    | PyNone
    | PyBool(b: bool)
    | PyNum(n: real)
    | PyStr(s: string)
    | PyList(items: seq<PyValue>)
    | PyDict(entries: map<string, PyValue>)

  datatype PyError = TypeError

  type Dict = map<string, PyValue>

  type Check = Result<bool, PyError>

  /** Python truthiness. */
  predicate Truthy(v: PyValue) {
    match v
    case PyNone => false
    case PyBool(b) => b
    case PyNum(n) => n != 0.0
    case PyStr(s) => s != ""
    case PyList(xs) => |xs| > 0
    case PyDict(d) => |d| > 0
  }

  /** Values an ordering comparison with a number accepts: numbers and bools. */
  predicate Comparable(v: PyValue) { v.PyNum? || v.PyBool? }

  /** The numeric value of a comparable value (`True` is 1, `False` is 0). */
  function AsReal(v: PyValue): real
    requires Comparable(v)
  {
    match v
    case PyBool(b) => if b then 1.0 else 0.0
    case PyNum(n) => n
  }

  /** `d.get(key)` and `d.get(key, default)`. */
  function Get(d: Dict, key: string): PyValue {
    if key in d then d[key] else PyNone
  }

  function GetOr(d: Dict, key: string, default: PyValue): PyValue {
    if key in d then d[key] else default
  }

  /** `v < c`, `v > c`, `v >= c` against a numeric constant. */
  function Less(v: PyValue, c: real): Check {
    if Comparable(v) then Ok(AsReal(v) < c) else Err(TypeError)
  }

  function Greater(v: PyValue, c: real): Check {
    if Comparable(v) then Ok(AsReal(v) > c) else Err(TypeError)
  }

  function AtLeast(v: PyValue, c: real): Check {
    if Comparable(v) then Ok(AsReal(v) >= c) else Err(TypeError)
  }

  /** `a or b` in an `if` test: `b` is evaluated only when `a` is false. */
  function Or(a: Check, b: Check): Check {
    match a
    case Err(e) => Err(e)
    case Ok(x) => if x then Ok(true) else b
  }

  /** `v and test`: the test runs only on a truthy value. */
  function Guard(v: PyValue, test: Check): Check {
    if Truthy(v) then test else Ok(false)
  }

  function HeartRate(d: Dict): PyValue { Get(d, "heartRate") }
  function RespiratoryRate(d: Dict): PyValue { Get(d, "respiratoryRate") }
  function OxygenSaturation(d: Dict): PyValue { Get(d, "oxygenSaturation") }

  /** `bloodPressure["systolic"]` only when `bloodPressure` is a dict (line 83). */
  function Systolic(d: Dict): PyValue {
    match Get(d, "bloodPressure")
    case PyDict(bp) => Get(bp, "systolic")
    case _ => PyNone
  }

  function Pain(d: Dict): PyValue { GetOr(d, "painLevel", PyNum(0.0)) }
  function Temperature(d: Dict): PyValue { GetOr(d, "temperature", PyNum(0.0)) }

  function Tier1(d: Dict): Check {
    var hr, rr, spo2, sys := HeartRate(d), RespiratoryRate(d), OxygenSaturation(d), Systolic(d);
    Or(Guard(hr, Or(Less(hr, 40.0), Greater(hr, 150.0))),
    Or(Guard(rr, Or(Less(rr, 8.0), Greater(rr, 30.0))),
    Or(Guard(spo2, Less(spo2, 90.0)),
    Or(Guard(sys, Less(sys, 80.0)),
       Ok(Get(d, "consciousness") == PyStr("unresponsive"))))))
  }

  function Tier2(d: Dict): Check {
    var hr, rr, spo2, sys := HeartRate(d), RespiratoryRate(d), OxygenSaturation(d), Systolic(d);
    Or(Guard(hr, Or(Less(hr, 50.0), Greater(hr, 120.0))),
    Or(Guard(rr, Or(Less(rr, 12.0), Greater(rr, 24.0))),
    Or(Guard(spo2, Less(spo2, 94.0)),
    Or(Guard(sys, Less(sys, 100.0)),
    Or(Ok(Get(d, "consciousness") == PyStr("confused")),
       AtLeast(Pain(d), 8.0))))))
  }

  function Tier3(d: Dict): Check {
    var hr, rr, spo2 := HeartRate(d), RespiratoryRate(d), OxygenSaturation(d);
    Or(Guard(hr, Or(Less(hr, 60.0), Greater(hr, 100.0))),
    Or(Guard(rr, Or(Less(rr, 14.0), Greater(rr, 20.0))),
    Or(Guard(spo2, Less(spo2, 96.0)),
       AtLeast(Pain(d), 5.0))))
  }

  function Tier4(d: Dict): Check {
    Or(AtLeast(Pain(d), 3.0), Greater(Temperature(d), 38.5))
  }

  function Trigger(t: nat, d: Dict): Check {
    if t == 1 then Tier1(d)
    else if t == 2 then Tier2(d)
    else if t == 3 then Tier3(d)
    else if t == 4 then Tier4(d)
    else Ok(true)
  }

  /** The `if/elif` chain of lines 86-141: the first tier whose test is true;
      a test that raises stops the chain with that error. */
  function VitalsTier(d: Dict): (r: Result<nat, PyError>)
    ensures r.Ok? ==> ValidTier(r.value)
  {
    match Tier1(d)
    case Err(e) => Err(e)
    case Ok(t1) => if t1 then Ok(1) else
    match Tier2(d)
    case Err(e) => Err(e)
    case Ok(t2) => if t2 then Ok(2) else
    match Tier3(d)
    case Err(e) => Err(e)
    case Ok(t3) => if t3 then Ok(3) else
    match Tier4(d)
    case Err(e) => Err(e)
    case Ok(t4) => if t4 then Ok(4) else Ok(5)
  }

  /** The chain picks the first tier whose test holds, after every earlier
      test came out false; it raises only when some test raises after every
      earlier one came out false. */
  lemma VitalsTierIsFirstMatch(d: Dict)
    ensures VitalsTier(d).Ok? ==> Trigger(VitalsTier(d).value, d) == Ok(true)
    ensures VitalsTier(d).Ok? ==> forall k :: 1 <= k < VitalsTier(d).value ==> Trigger(k, d) == Ok(false)
    ensures VitalsTier(d).Err? ==> exists k :: 1 <= k <= 4 && Trigger(k, d).Err?
                                             && forall j :: 1 <= j < k ==> Trigger(j, d) == Ok(false)
  {
    if Tier1(d).Err? {
      assert Trigger(1, d).Err?;
    } else if Tier1(d) == Ok(false) && Tier2(d).Err? {
      assert Trigger(2, d).Err? && Trigger(1, d) == Ok(false);
    } else if Tier1(d) == Ok(false) && Tier2(d) == Ok(false) && Tier3(d).Err? {
      assert Trigger(3, d).Err? && Trigger(1, d) == Ok(false) && Trigger(2, d) == Ok(false);
    } else if Tier1(d) == Ok(false) && Tier2(d) == Ok(false) && Tier3(d) == Ok(false) && Tier4(d).Err? {
      assert Trigger(4, d).Err? && Trigger(1, d) == Ok(false) && Trigger(2, d) == Ok(false) && Trigger(3, d) == Ok(false);
    }
  }

  function VitalsScore(t: nat): int
    requires ValidTier(t)
  {
    [100, 80, 60, 40, 20][t - 1]
  }

  function VitalsRecommendations(t: nat): seq<string>
    requires ValidTier(t)
  {
    if t == 1 then [ImmediateAssessment, "Prepare resuscitation equipment", "Continuous monitoring essential"]
    else if t == 2 then ["Urgent assessment within 10 minutes", "Monitor vital signs closely"]
    else if t == 3 then ["Assessment within 30 minutes", "Standard monitoring"]
    else if t == 4 then ["Assessment within 1 hour"]
    else ["Routine assessment"]
  }

  /** A classification with a valid tier and advice, whose tier-1 advice
      opens with the immediate-assessment instruction. */
  predicate Advised(c: Classification) {
    && ValidTier(c.tier) && |c.recommendations| > 0
    && (c.tier == 1 ==> |c.recommendations| == 3 && c.recommendations[0] == ImmediateAssessment)
  }

  /** The vitals classification of lines 86-141: the cascade's tier, its
      score (100, 80, 60, 40 or 20 from tier 1 to 5) and its advice. */
  function ClassifyVitals(d: Dict): (r: Result<Classification, PyError>)
    ensures r.Ok? <==> VitalsTier(d).Ok?
    ensures r.Ok? ==> r.value.tier == VitalsTier(d).value && Advised(r.value)
    ensures r.Ok? ==> (r.value.tier, r.value.score) in {(1, 100), (2, 80), (3, 60), (4, 40), (5, 20)}
  {
    var t :- VitalsTier(d);
    Ok(Classification(t, VitalsScore(t), VitalsRecommendations(t)))
  }

  const CriticalKeywords: seq<string> := [
    "chest pain", "heart attack", "cardiac arrest", "unconscious",
    "not breathing", "severe bleeding", "stroke", "seizure",
    "severe trauma", "anaphylaxis"]

  const UrgentKeywords: seq<string> := [
    "difficulty breathing", "severe pain", "high fever",
    "abdominal pain", "head injury", "fracture"]

  /** The keyword cascade of lines 144-162 over the lower-cased complaint. */
  function KeywordTier(lowered: string): (t: nat)
    ensures t == 2 || t == 3 || t == 4
    ensures t == 2 <==> OccursAny(lowered, CriticalKeywords)
    ensures t == 3 <==> !OccursAny(lowered, CriticalKeywords) && OccursAny(lowered, UrgentKeywords)
    ensures t == 4 <==> !OccursAny(lowered, CriticalKeywords) && !OccursAny(lowered, UrgentKeywords)
  {
    ContainsAnyIffOccursAny(lowered, CriticalKeywords);
    ContainsAnyIffOccursAny(lowered, UrgentKeywords);
    if ContainsAny(lowered, CriticalKeywords) then 2
    else if ContainsAny(lowered, UrgentKeywords) then 3
    else 4
  }

  function ClassifyComplaint(lowered: string): (c: Classification)
    ensures c.tier == KeywordTier(lowered) && Advised(c)
    ensures (c.tier, c.score) in {(2, 75), (3, 55), (4, 35)}
  {
    var t := KeywordTier(lowered);
    if t == 2 then Classification(2, 75, ["Urgent assessment - collect vital signs immediately", "Monitor for deterioration"])
    else if t == 3 then Classification(3, 55, ["Standard assessment - collect vital signs", "Monitor symptoms"])
    else Classification(4, 35, ["Routine assessment"])
  }

  /** `wait_times.get(level, 60)`. */
  function EstimatedWaitTime(level: string): (w: nat)
    ensures w == 0 <==> level == "1"
    ensures !IsLevel(level) ==> w == 60
    ensures w <= 120
  {
    if level == "1" then 0
    else if level == "2" then 10
    else if level == "3" then 30
    else if level == "4" then 60
    else if level == "5" then 120
    else 60
  }

  const AdditionalNotesLabel := "\nAdditional notes: "

  /** `_assess_with_rules`: the vitals cascade runs when the dict is truthy
      (non-empty); the keyword cascade only when level is still the default
      "3" and the dict is empty. */
  function AssessWithRules(complaint: string, notes: string, vitals: Dict): (r: Result<TriageResult, PyError>)
    ensures |vitals| == 0 ==> r.Ok? && r.value.level == LevelName(KeywordTier(Lower(complaint)))
    ensures |vitals| > 0 ==> (r.Ok? <==> VitalsTier(vitals).Ok?)
    ensures |vitals| > 0 && r.Ok? ==> r.value.level == LevelName(VitalsTier(vitals).value)
    ensures |vitals| == 0 ==> r.value.priorityScore == ClassifyComplaint(Lower(complaint)).score
    ensures |vitals| == 0 ==> (r.value.level, r.value.priorityScore) in {("2", 75), ("3", 55), ("4", 35)}
    ensures |vitals| > 0 && r.Ok? ==>
              (r.value.level, r.value.priorityScore) in {("1", 100), ("2", 80), ("3", 60), ("4", 40), ("5", 20)}
    ensures r.Ok? ==> r.value.estimatedWaitTime == EstimatedWaitTime(r.value.level)
    ensures r.Ok? ==> r.value.notes == BaseNotes(|vitals| > 0, complaint) + AddedNotes(notes)
  {
    var lowered := Lower(complaint);
    var initial :- if Truthy(PyDict(vitals)) then ClassifyVitals(vitals) else Ok(Classification(3, 50, []));
    var c := if initial.tier == 3 && !Truthy(PyDict(vitals)) then ClassifyComplaint(lowered) else initial;
    LevelNames();
    Ok(Finish(c, Truthy(PyDict(vitals)), complaint, notes))
  }

  /** The dict `_assess_with_rules` returns for a classification. */
  function Finish(c: Classification, usedVitals: bool, complaint: string, notes: string): (r: TriageResult)
    requires ValidTier(c.tier)
    ensures r.level == LevelName(c.tier) && r.priorityScore == c.score
    ensures r.recommendations == c.recommendations
    ensures r.estimatedWaitTime == EstimatedWaitTime(r.level)
    ensures r.notes == BaseNotes(usedVitals, complaint) + AddedNotes(notes)
  {
    var level := LevelName(c.tier);
    TriageResult(level, c.score, BaseNotes(usedVitals, complaint) + AddedNotes(notes), c.recommendations, EstimatedWaitTime(level))
  }

  lemma LevelNames()
    ensures LevelName(1) == "1" && LevelName(2) == "2" && LevelName(3) == "3"
    ensures LevelName(4) == "4" && LevelName(5) == "5"
  {
  }

  /** Every result names a level and carries advice; a level-1 result opens
      with the immediate-assessment instruction. */
  lemma AssessRecommendations(complaint: string, notes: string, vitals: Dict)
    requires AssessWithRules(complaint, notes, vitals).Ok?
    ensures var r := AssessWithRules(complaint, notes, vitals).value;
      && IsLevel(r.level) && |r.recommendations| > 0
      && (r.level == "1" ==> |r.recommendations| == 3 && r.recommendations[0] == ImmediateAssessment)
  {
    if |vitals| > 0 {
      var c := ClassifyVitals(vitals).value;
      LevelNameValid(c.tier);
    } else {
      var c := ClassifyComplaint(Lower(complaint));
      LevelNameValid(c.tier);
      LevelNameValid(1);
    }
  }

  /** The `Additional notes:` tail, present only for non-empty notes. */
  function AddedNotes(notes: string): string {
    if notes != "" then AdditionalNotesLabel + notes else ""
  }

  /** The notes open with the vitals sentence exactly when vitals were sent,
      and carry the caller's notes after the label only when there are some. */
  lemma AssessNotes(complaint: string, notes: string, vitals: Dict)
    requires AssessWithRules(complaint, notes, vitals).Ok?
    ensures var text := AssessWithRules(complaint, notes, vitals).value.notes;
      && (StartsWith(text, NotesHead + VitalsMention) <==> |vitals| > 0)
      && (notes == "" ==> text == BaseNotes(|vitals| > 0, complaint))
      && (notes != "" ==> text == BaseNotes(|vitals| > 0, complaint) + AdditionalNotesLabel + notes)
  {
    BaseNotesMentionVitals(|vitals| > 0, complaint, AddedNotes(notes));
    assert BaseNotes(|vitals| > 0, complaint) + "" == BaseNotes(|vitals| > 0, complaint);
  }

  /** `TriageService.assess`: a missing or empty notes string becomes "", a
      missing or empty vitals dict becomes {}, and any error is re-raised. */
  function Assess(complaint: string, notes: Option<string>, vitals: Option<Dict>): (r: Result<TriageResult, PyError>)
    ensures r == AssessWithRules(complaint, notes.GetOr(""), vitals.GetOr(map[]))
    ensures vitals.None? ==> r.Ok? && r.value.level == LevelName(KeywordTier(Lower(complaint)))
  {
    AssessWithRules(complaint, notes.GetOr(""), vitals.GetOr(map[]))
  }

  // ---------------------------------------------------------------------------
  // Properties of the Python copy.

  /** Every reading the cascade compares is a number or a bool (or falsy
      where the test is guarded); then no comparison can raise. */
  predicate Numeric(d: Dict) {
    && (Comparable(HeartRate(d)) || !Truthy(HeartRate(d)))
    && (Comparable(RespiratoryRate(d)) || !Truthy(RespiratoryRate(d)))
    && (Comparable(OxygenSaturation(d)) || !Truthy(OxygenSaturation(d)))
    && (Comparable(Systolic(d)) || !Truthy(Systolic(d)))
    && Comparable(Pain(d))
    && Comparable(Temperature(d))
  }

  lemma NumericNeverRaises(d: Dict)
    requires Numeric(d)
    ensures VitalsTier(d).Ok?
  {
    assert Tier1(d).Ok? by { GuardedTestsOk(d); }
    assert Tier2(d).Ok? by { GuardedTestsOk(d); }
    assert Tier3(d).Ok? by { GuardedTestsOk(d); }
  }

  /** Each guarded comparison of a numeric or falsy reading succeeds. */
  lemma GuardedTestsOk(d: Dict)
    requires Numeric(d)
    ensures forall a, b :: Guard(HeartRate(d), Or(Less(HeartRate(d), a), Greater(HeartRate(d), b))).Ok?
    ensures forall a, b :: Guard(RespiratoryRate(d), Or(Less(RespiratoryRate(d), a), Greater(RespiratoryRate(d), b))).Ok?
    ensures forall a :: Guard(OxygenSaturation(d), Less(OxygenSaturation(d), a)).Ok?
    ensures forall a :: Guard(Systolic(d), Less(Systolic(d), a)).Ok?
  {
  }

  /** A JSON `true` heart rate passes the guard and compares as 1, which is
      below 40: level 1, with no error. A string reading raises instead. */
  lemma TrueHeartRateIsLevelOne()
    ensures VitalsTier(map["heartRate" := PyBool(true)]) == Ok(1)
    ensures VitalsTier(map["heartRate" := PyStr("80")]).Err?
  {
    var d := map["heartRate" := PyBool(true)];
    assert HeartRate(d) == PyBool(true);
    var s := map["heartRate" := PyStr("80")];
    assert HeartRate(s) == PyStr("80");
  }

  /** A `painLevel` key present with `None` raises once the chain reaches
      tier 2's pain test, but not when tier 1 already matched. */
  lemma NullPainRaises()
    ensures VitalsTier(map["painLevel" := PyNone]).Err?
    ensures VitalsTier(map["painLevel" := PyNone, "heartRate" := PyNum(30.0)]) == Ok(1)
    ensures AssessWithRules("chest pain", "", map["painLevel" := PyNone]).Err?
  {
    var d := map["painLevel" := PyNone];
    assert Get(d, "heartRate") == PyNone;
    assert Get(d, "consciousness") == PyNone;
    var d2 := map["painLevel" := PyNone, "heartRate" := PyNum(30.0)];
    assert HeartRate(d2) == PyNum(30.0);
  }

  /** The same for any dict whose other readings are all falsy. */
  lemma NullPainRaisesAlone(d: Dict)
    requires "painLevel" in d && d["painLevel"] == PyNone
    requires !Truthy(HeartRate(d)) && !Truthy(RespiratoryRate(d))
    requires !Truthy(OxygenSaturation(d)) && !Truthy(Systolic(d))
    requires Get(d, "consciousness") == PyNone
    ensures VitalsTier(d).Err?
  {
  }

  /** A `temperature` key with `None` raises only at the tier-4 test. */
  lemma NullTemperatureRaises()
    ensures VitalsTier(map["temperature" := PyNone]).Err?
    ensures VitalsTier(map["temperature" := PyNone, "painLevel" := PyNum(9.0)]) == Ok(2)
  {
    var d := map["temperature" := PyNone];
    assert Get(d, "heartRate") == PyNone;
    assert Get(d, "consciousness") == PyNone;
    var d2 := map["temperature" := PyNone, "painLevel" := PyNum(9.0)];
    assert Get(d2, "heartRate") == PyNone;
    assert Get(d2, "consciousness") == PyNone;
    assert Pain(d2) == PyNum(9.0);
  }

  /** Here, unlike the backend, a more urgent level never waits longer. */
  lemma WaitGrowsWithLevel(t: nat, u: nat)
    requires ValidTier(t) && ValidTier(u) && t < u
    ensures EstimatedWaitTime(LevelName(t)) < EstimatedWaitTime(LevelName(u))
  {
  }

  /** The default 60 of the wait lookup is never used for a level the rules produce. */
  lemma WaitTableCoversLevels(level: string)
    requires IsLevel(level)
    ensures EstimatedWaitTime(level) == (if level == "1" then 0 else if level == "2" then 10
      else if level == "3" then 30 else if level == "4" then 60 else 120)
    ensures level == "1" ==> EstimatedWaitTime(level) == 0
  {
  }

  lemma ChestPainIsCritical()
    ensures KeywordTier(Lower("chest pain")) == 2
  {
    var lowered := Lower("chest pain");
    assert lowered == CriticalKeywords[0];
    assert OccursAt(lowered, CriticalKeywords[0], 0);
    ContainsIffOccurs(lowered, CriticalKeywords[0]);
  }

  /** "fever" alone matches neither list here (only "high fever" does): level 4. */
  lemma FeverAloneIsRoutine()
    ensures Assess("fever", None, None).Ok?
    ensures Assess("fever", None, None).value.level == "4"
    ensures Assess("fever", None, None).value.priorityScore == 35
  {
    assert Lower("fever") == "fever";
    ShortTextMissesAll("fever", CriticalKeywords);
    ShortTextMissesAll("fever", UrgentKeywords);
  }
}
