/** How the two copies of the triage rules relate. The backend sends its
    vitals object to the AI service as JSON (properties that are `undefined`
    disappear, `null` stays), and the service decodes it into a dict. On a
    non-empty object with numeric readings both copies pick the same tier and
    score; they differ on the empty object, on the keyword lists and on the
    wait estimate of level 1. */
module TriageAgreement {
  import opened Wrappers
  import opened Text
  import opened Assessment
  import B = BackendTriage
  import P = AiTriage

  /** One property of the JSON object: its name and, unless it was
      `undefined` (and so dropped), its decoded value. */
  type Entry = (string, Option<P.PyValue>)

  /** The dict `json.loads` builds from the properties, in order. */
  function FromEntries(es: seq<Entry>): P.Dict
    decreases |es|
  {
    if es == [] then map[]
    else
      var d := FromEntries(es[..|es| - 1]);
      var e := es[|es| - 1];
      if e.1.Some? then d[e.0 := e.1.value] else d
  }

  predicate DistinctNames(es: seq<Entry>) {
    forall a, b :: 0 <= a < b < |es| ==> es[a].0 != es[b].0
  }

  /** With distinct names, each property is found under its own name. */
  lemma {:induction false} FromEntriesLookup(es: seq<Entry>, i: nat)
    requires i < |es| && DistinctNames(es)
    ensures es[i].1.Some? ==> es[i].0 in FromEntries(es) && FromEntries(es)[es[i].0] == es[i].1.value
    ensures es[i].1.None? ==> es[i].0 !in FromEntries(es)
    decreases |es|
  {
    var init := es[..|es| - 1];
    assert DistinctNames(init);
    if i < |es| - 1 {
      assert init[i] == es[i];
      FromEntriesLookup(init, i);
    } else if es[i].0 in FromEntries(init) {
      var a := FromEntriesDomain(init, es[i].0);
    }
  }

  /** Every key of the dict is the name of some property. */
  lemma {:induction false} FromEntriesDomain(es: seq<Entry>, k: string) returns (a: nat)
    requires k in FromEntries(es)
    ensures a < |es| && es[a].0 == k
    decreases |es|
  {
    var init := es[..|es| - 1];
    if k in FromEntries(init) {
      a := FromEntriesDomain(init, k);
      assert init[a] == es[a];
    } else {
      a := |es| - 1;
    }
  }

  /** The dict is empty exactly when every property was dropped. */
  lemma {:induction false} FromEntriesEmpty(es: seq<Entry>)
    ensures |FromEntries(es)| == 0 <==> forall i :: 0 <= i < |es| ==> es[i].1.None?
    decreases |es|
  {
    if es != [] {
      var init := es[..|es| - 1];
      FromEntriesEmpty(init);
      var d := FromEntries(init);
      var e := es[|es| - 1];
      if e.1.Some? {
        assert e.0 in FromEntries(es);
      } else {
        forall i | 0 <= i < |init| ensures init[i] == es[i] { }
      }
    }
  }

  /** JSON encoding of one numeric property. */
  function EncodeField(f: B.Field): Option<P.PyValue> {
    match f
    case Missing => None
    case Null => Some(P.PyNone)
    case Given(x) => Some(P.PyNum(x))
  }

  function EncodeText(s: Option<string>): Option<P.PyValue> {
    match s
    case None => None
    case Some(x) => Some(P.PyStr(x))
  }

  function PressureEntries(bp: B.BloodPressure): seq<Entry> {
    [("systolic", EncodeField(bp.systolic)), ("diastolic", EncodeField(bp.diastolic))]
  }

  function Entries(v: B.VitalSigns): seq<Entry> {
    [ ("heartRate", EncodeField(v.heartRate)),
      ("respiratoryRate", EncodeField(v.respiratoryRate)),
      ("oxygenSaturation", EncodeField(v.oxygenSaturation)),
      ("bloodPressure", match v.bloodPressure
                        case Some(bp) => Some(P.PyDict(FromEntries(PressureEntries(bp))))
                        case None => None),
      ("temperature", EncodeField(v.temperature)),
      ("consciousness", EncodeText(v.consciousness)),
      ("painLevel", EncodeField(v.painLevel)),
      ("skinColor", EncodeText(v.skinColor)),
      ("capillaryRefill", EncodeField(v.capillaryRefill)) ]
  }

  /** The backend vitals object as the AI service receives it. */
  function ToDict(v: B.VitalSigns): P.Dict {
    FromEntries(Entries(v))
  }

  lemma EntryNamesDistinct(v: B.VitalSigns)
    ensures DistinctNames(Entries(v))
  {
    var es := Entries(v);
    assert es[0].0[0] == 'h' && es[1].0[0] == 'r' && es[2].0[0] == 'o' && es[3].0[0] == 'b';
    assert es[4].0[0] == 't' && es[5].0[0] == 'c' && es[6].0[0] == 'p' && es[7].0[0] == 's';
    assert es[8].0[0] == 'c' && es[5].0[1] == 'o' && es[8].0[1] == 'a';
  }

  /** What Python reads back for a numeric property through `.get(key)`. */
  function Received(f: B.Field): P.PyValue {
    match f
    case Missing => P.PyNone
    case Null => P.PyNone
    case Given(x) => P.PyNum(x)
  }

  lemma GetEntry(v: B.VitalSigns, i: nat)
    requires i < 9
    ensures P.Get(ToDict(v), Entries(v)[i].0) == Entries(v)[i].1.GetOr(P.PyNone)
    ensures Entries(v)[i].0 in ToDict(v) <==> Entries(v)[i].1.Some?
  {
    EntryNamesDistinct(v);
    FromEntriesLookup(Entries(v), i);
  }

  /** Each reading the rules look at arrives under its own key. */
  lemma ToDictReadings(v: B.VitalSigns)
    ensures P.HeartRate(ToDict(v)) == Received(v.heartRate)
    ensures P.RespiratoryRate(ToDict(v)) == Received(v.respiratoryRate)
    ensures P.OxygenSaturation(ToDict(v)) == Received(v.oxygenSaturation)
    ensures P.Systolic(ToDict(v)) == Received(B.Systolic(v))
    ensures P.Get(ToDict(v), "consciousness") == (if v.consciousness.Some? then P.PyStr(v.consciousness.value) else P.PyNone)
    ensures v.painLevel != B.Null ==> P.Pain(ToDict(v)) == (if v.painLevel.Given? then P.PyNum(v.painLevel.value) else P.PyNum(0.0))
    ensures v.temperature != B.Null ==> P.Temperature(ToDict(v)) == (if v.temperature.Given? then P.PyNum(v.temperature.value) else P.PyNum(0.0))
  {
    GetEntry(v, 0);
    GetEntry(v, 1);
    GetEntry(v, 2);
    GetEntry(v, 3);
    GetEntry(v, 4);
    GetEntry(v, 5);
    GetEntry(v, 6);
    if v.bloodPressure.Some? {
      var bp := v.bloodPressure.value;
      var es := PressureEntries(bp);
      assert es[0].0[0] != es[1].0[0];
      FromEntriesLookup(es, 0);
    }
  }

  /** The encoded object is empty exactly when no property was defined. */
  lemma ToDictEmpty(v: B.VitalSigns)
    ensures |ToDict(v)| == 0 <==> v == B.NoReadings
  {
    FromEntriesEmpty(Entries(v));
    var es := Entries(v);
    if forall i :: 0 <= i < |es| ==> es[i].1.None? {
      assert es[0].1.None? && es[1].1.None? && es[2].1.None? && es[3].1.None? && es[4].1.None?;
      assert es[5].1.None? && es[6].1.None? && es[7].1.None? && es[8].1.None?;
    }
  }

  /** The readings a dict shows the Python rules are those of a backend
      vitals object with non-null pain and temperature. */
  predicate ReadingsMatch(d: P.Dict, v: B.VitalSigns) {
    && P.HeartRate(d) == Received(v.heartRate)
    && P.RespiratoryRate(d) == Received(v.respiratoryRate)
    && P.OxygenSaturation(d) == Received(v.oxygenSaturation)
    && P.Systolic(d) == Received(B.Systolic(v))
    && P.Get(d, "consciousness") == (if v.consciousness.Some? then P.PyStr(v.consciousness.value) else P.PyNone)
    && P.Pain(d) == (if v.painLevel.Given? then P.PyNum(v.painLevel.value) else P.PyNum(0.0))
    && P.Temperature(d) == (if v.temperature.Given? then P.PyNum(v.temperature.value) else P.PyNum(0.0))
  }

  lemma Tier1Agrees(d: P.Dict, v: B.VitalSigns)
    requires ReadingsMatch(d, v)
    ensures P.Tier1(d) == Ok(B.Tier1(v))
  {
  }

  lemma Tier2Agrees(d: P.Dict, v: B.VitalSigns)
    requires ReadingsMatch(d, v)
    ensures P.Tier2(d) == Ok(B.Tier2(v))
  {
  }

  lemma Tier3Agrees(d: P.Dict, v: B.VitalSigns)
    requires ReadingsMatch(d, v)
    ensures P.Tier3(d) == Ok(B.Tier3(v))
  {
  }

  lemma Tier4Agrees(d: P.Dict, v: B.VitalSigns)
    requires ReadingsMatch(d, v)
    ensures P.Tier4(d) == Ok(B.Tier4(v))
  {
  }

  /** Both copies pick the same tier for the same readings, provided pain and
      temperature are not sent as `null` (Python substitutes 0 only for a
      missing key). */
  lemma TiersAgree(v: B.VitalSigns)
    requires v.painLevel != B.Null && v.temperature != B.Null
    ensures P.VitalsTier(ToDict(v)) == Ok(B.VitalsTier(v))
  {
    var d := ToDict(v);
    ToDictReadings(v);
    assert ReadingsMatch(d, v);
    Tier1Agrees(d, v);
    Tier2Agrees(d, v);
    Tier3Agrees(d, v);
    Tier4Agrees(d, v);
  }

  /** …and hence the same level and score on a non-empty vitals object. */
  lemma NonEmptyVitalsAgree(complaint: string, notes: string, v: B.VitalSigns, input: B.TriageInput)
    requires v.painLevel != B.Null && v.temperature != B.Null
    requires v != B.NoReadings
    requires input.vitalSigns == Some(v) && input.chiefComplaint == complaint
    ensures P.AssessWithRules(complaint, notes, ToDict(v)).Ok?
    ensures P.AssessWithRules(complaint, notes, ToDict(v)).value.level == B.Fallback(input).level
    ensures P.AssessWithRules(complaint, notes, ToDict(v)).value.priorityScore == B.Fallback(input).priorityScore
  {
    TiersAgree(v);
    ToDictEmpty(v);
    var t := B.VitalsTier(v);
    assert B.VitalsScore(t) == P.VitalsScore(t);
  }

  /** The empty object `{}` splits the copies: the backend treats it as given
      (level 5), the service as absent (keyword cascade, level 2 here). */
  lemma EmptyVitalsDiverge(input: B.TriageInput)
    requires input.vitalSigns == Some(B.NoReadings) && input.chiefComplaint == "chest pain"
    ensures B.Fallback(input).level == "5"
    ensures P.AssessWithRules("chest pain", "", ToDict(B.NoReadings)).Ok?
    ensures P.AssessWithRules("chest pain", "", ToDict(B.NoReadings)).value.level == "2"
  {
    var d := ToDict(B.NoReadings);
    ToDictEmpty(B.NoReadings);
    assert d == map[];
    B.EmptyVitalsAreRoutine(input);
    P.ChestPainIsCritical();
  }

  /** The keyword lists differ: "fever" is urgent (3) in the backend and
      routine (4) in the service. */
  lemma FeverDiverges()
    ensures B.KeywordTier("fever") == 3
    ensures P.KeywordTier(Lower("fever")) == 4
  {
    B.FeverIsUrgent();
    P.FeverAloneIsRoutine();
  }

  /** The wait tables agree on every level but 1, which the backend's `|| 60`
      turns from 0 into 60. */
  lemma WaitTablesDiffer(level: string)
    requires IsLevel(level)
    ensures level != "1" ==> B.EstimatedWaitTime(level) == P.EstimatedWaitTime(level)
    ensures level == "1" ==> B.EstimatedWaitTime(level) == 60 && P.EstimatedWaitTime(level) == 0
  {
  }

  // ---------------------------------------------------------------------------
  // The backend calling the service.

  /** The service as the backend's assessor: a raised error becomes an HTTP
      error, i.e. `None`. The request carries complaint, notes and vitals. */
  function ServiceAssessor(input: B.TriageInput): Option<TriageResult> {
    var vitals := match input.vitalSigns
      case Some(v) => Some(ToDict(v))
      case None => None;
    P.Assess(input.chiefComplaint, input.additionalNotes, vitals).ToOption()
  }

  /** A tier-1 patient with the service up is estimated at 0 minutes, but at
      60 minutes when the backend falls back to its own rules. */
  lemma LevelOneWaitDependsOnPath(input: B.TriageInput, v: B.VitalSigns)
    requires input.vitalSigns == Some(v) && B.Tier1(v)
    requires v.painLevel != B.Null && v.temperature != B.Null
    ensures B.PerformTriageAssessment(input, ServiceAssessor(input)).level == "1"
    ensures B.PerformTriageAssessment(input, ServiceAssessor(input)).estimatedWaitTime == 0
    ensures B.PerformTriageAssessment(input, None).level == "1"
    ensures B.PerformTriageAssessment(input, None).estimatedWaitTime == 60
  {
    TiersAgree(v);
    ToDictEmpty(v);
    assert v != B.NoReadings;
  }

  /** A `null` pain level makes the service raise, yet the submission is
      still classified: the backend falls back to its rules, which skip it. */
  lemma NullPainStillClassified(input: B.TriageInput)
    requires input.vitalSigns == Some(B.NoReadings.(painLevel := B.Null))
    ensures ServiceAssessor(input).None?
    ensures B.PerformTriageAssessment(input, ServiceAssessor(input)) == B.Fallback(input)
    ensures B.PerformTriageAssessment(input, ServiceAssessor(input)).level == "5"
  {
    NullPainServiceRaises(input);
    var v := B.NoReadings.(painLevel := B.Null);
    assert !B.Tier1(v) && !B.Tier2(v) && !B.Tier3(v) && !B.Tier4(v);
    assert B.VitalsTier(v) == 5;
  }

  lemma NullPainServiceRaises(input: B.TriageInput)
    requires input.vitalSigns == Some(B.NoReadings.(painLevel := B.Null))
    ensures ServiceAssessor(input).None?
  {
    var v := B.NoReadings.(painLevel := B.Null);
    ToDictReadings(v);
    GetEntry(v, 6);
    P.NullPainRaisesAlone(ToDict(v));
  }
}
