/** backend/src/controllers/vitalSignsController.ts: recording a vital-signs
    reading and the per-patient history query. */
module VitalSignsController {
  import opened Wrappers
  import opened Js
  import opened Errors
  import opened Sql
  import opened AuthMiddleware

  const DefaultSource := "manual"
  const HistoryDefaultLimit := 50

  /** A `vital_signs` row: the readings are stored as their JSON text. */
  datatype Reading = Reading(patientId: string, data: Param, source: string, recordedBy: string, createdAt: nat)

  datatype ReadingTable = ReadingTable(rows: seq<Reading>, up: bool)

  /** `createVitalSigns` (lines 8-43). */
  function CreateVitalSigns(table: ReadingTable, user: AuthUser, patientId: Option<string>, vitalSigns: Option<Json>,
                            source: Option<string>, now: nat): (r: (ReadingTable, Result<Reading, Failure>))
    ensures !(GivenText(patientId) && Given(vitalSigns)) ==>
              r == (table, Err(NewAppError("Patient ID and vital signs are required", 400)))
    ensures r.1.Ok? <==> GivenText(patientId) && Given(vitalSigns) && table.up
    ensures r.1.Err? ==> r.0 == table
    ensures r.1.Ok? ==>
              && r.0.rows == table.rows + [r.1.value]
              && r.1.value.patientId == patientId.value
              && r.1.value.data == PSerialized(vitalSigns.value)
              && r.1.value.source == (if GivenText(source) then source.value else DefaultSource)
              && r.1.value.recordedBy == user.id
  {
    if !(GivenText(patientId) && Given(vitalSigns)) then (table, Err(NewAppError("Patient ID and vital signs are required", 400)))
    else if !table.up then (table, Err(Unexpected("database query failed")))
    else
      var row := Reading(patientId.value, PSerialized(vitalSigns.value), TextOr(source, DefaultSource), user.id, now);
      (table.(rows := table.rows + [row]), Ok(row))
  }

  /** An empty object is still a reading: only a missing or falsy value is refused. */
  lemma EmptyObjectIsAccepted(table: ReadingTable, user: AuthUser, patientId: string, now: nat)
    requires patientId != "" && table.up
    ensures CreateVitalSigns(table, user, Some(patientId), Some(JObj([])), None, now).1.Ok?
    ensures CreateVitalSigns(table, user, Some(patientId), Some(JObj([])), None, now).1.value.source == "manual"
    ensures CreateVitalSigns(table, user, Some(patientId), Some(JNum(0.0)), None, now).1.Err?
  {
  }

  /** `getVitalSignsHistory` (lines 45-65): newest first, `LIMIT $2`. */
  function HistoryQuery(patientId: string, limit: Option<int>): (q: Query)
    ensures q.conds == [Cond(["patient_id"], "=", 1)] && |q.params| == 2 && q.params[0] == PText(patientId)
    ensures q.limitSlot == Some(2) && q.params[1] == PInt(limit.GetOr(HistoryDefaultLimit)) && q.offsetSlot.None?
    ensures q.order == [("created_at", Desc)]
    ensures Executable(q)
  {
    var q := Query([Cond(["patient_id"], "=", 1)], [PText(patientId), PInt(limit.GetOr(HistoryDefaultLimit))],
                   [("created_at", Desc)], Some(2), None);
    assert 1 in Slots(q) by { assert q.conds[0].slot == 1; }
    q
  }
}
