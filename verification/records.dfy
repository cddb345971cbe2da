/** The `triage_assessments` row as the controllers read and write it, and the
    status vocabulary they share (backend/src/controllers/triageController.ts,
    backend/src/controllers/dashboardController.ts). */
module Records {
  import opened Wrappers
  import opened BackendTriage

  datatype Status = Pending | InProgress | Completed | Cancelled

  /** The wire names, in the order of `validStatuses`. */
  const StatusNames: seq<string> := ["pending", "in_progress", "completed", "cancelled"]

  function StatusName(s: Status): string {
    match s
    case Pending => StatusNames[0]
    case InProgress => StatusNames[1]
    case Completed => StatusNames[2]
    case Cancelled => StatusNames[3]
  }

  /** `validStatuses.includes(status)`: exact, case-sensitive membership. */
  function ParseStatus(name: string): (r: Option<Status>)
    ensures r.Some? <==> name in StatusNames
    ensures r.Some? ==> StatusName(r.value) == name
  {
    if name == StatusNames[0] then Some(Pending)
    else if name == StatusNames[1] then Some(InProgress)
    else if name == StatusNames[2] then Some(Completed)
    else if name == StatusNames[3] then Some(Cancelled)
    else None
  }

  lemma StatusNameRoundTrip(s: Status)
    ensures ParseStatus(StatusName(s)) == Some(s)
  {
  }

  /** `status IN ('pending', 'in_progress')`. */
  predicate IsActive(s: Status) { s == Pending || s == InProgress }

  /** Times are seconds on an abstract clock. */
  datatype TriageRecord = TriageRecord(
    id: string,
    patientId: string,
    chiefComplaint: string,
    vitalSigns: Option<VitalSigns>,
    level: string,
    priorityScore: int,
    notes: string,
    recommendations: seq<string>,
    assessedBy: string,
    facilityId: Option<string>,
    status: Status,
    createdAt: nat,
    updatedBy: Option<string>,
    updatedAt: nat)
}
