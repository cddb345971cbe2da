/** backend/src/controllers/triageController.ts: creating an assessment (the
    validation, the optional video analysis, the assessment, the insert and the
    `triage:new` event), changing its status (the `triage:updated` event), and
    the parameterised queries of the listing and the statistics. The AI
    service's answers are parameters; the database is the triage table of the
    dashboard model. */
module TriageController {
  import opened Wrappers
  import opened Js
  import opened Errors
  import opened Sql
  import opened Records
  import opened AuthMiddleware
  import opened Assessment
  import B = BackendTriage
  import D = Dashboard
  import Realtime

  const PatientIdRequired := "Patient ID is required"
  const ChiefComplaintRequired := "Chief complaint is required"
  const InvalidStatus := "Invalid status"
  const TriageNotFound := "Triage assessment not found"
  const NewTriageEvent := "triage:new"
  const UpdatedTriageEvent := "triage:updated"
  const TriagesDefaultLimit := 50

  /** What a handler broadcasts through `io.to(room).emit(event, payload)`. */
  datatype Payload =
    | NewTriage(id: string, patientId: string, level: string, priorityScore: int, timestamp: nat)
    | StatusChange(id: string, status: string, updatedBy: string, timestamp: nat)

  datatype Emission = Emission(room: string, event: string, payload: Payload)

  /** The outside effects of a handler, in the order they happen. */
  datatype Effect = AnalyseVideo | Assess | Write | Broadcast(emission: Emission)

  /** A handler's new table, its response and its effects. */
  datatype Call<T> = Call(db: D.Database, response: Result<T, Failure>, trace: seq<Effect>)

  /** Nothing was written and nothing was broadcast. */
  predicate Quiet(trace: seq<Effect>) {
    forall k :: 0 <= k < |trace| ==> trace[k] == AnalyseVideo || trace[k] == Assess
  }

  /** The sessions an emission reaches. */
  function Recipients(hub: Realtime.Hub, e: Emission): set<Realtime.SessionId> {
    Realtime.Members(hub, e.room)
  }

  // ---------------------------------------------------------------------------
  // createTriage (lines 16-100).

  datatype CreateBody = CreateBody(patientId: Option<string>, chiefComplaint: Option<string>,
                                   additionalNotes: Option<string>)

  datatype Created = Created(record: TriageRecord, result: TriageResult)

  /** The effects before the insert: the video call only when a file came
      with the request, then the assessment. */
  function Prelude(file: Option<seq<bv8>>): seq<Effect> {
    if file.Some? then [AnalyseVideo, Assess] else [Assess]
  }

  /** `vitalSigns`: the analyser's answer for an attached file, else null. */
  function VideoVitals(file: Option<seq<bv8>>, analyser: Option<B.VitalSigns>): (v: Option<B.VitalSigns>)
    ensures file.None? ==> v.None?
    ensures file.Some? ==> v == analyser
  {
    if file.Some? then B.ProcessVideoForVitalSigns(None, file, analyser).vitals else None
  }

  /** `analyser` is what the video service returns for the file and
      `assessor` what the assessment service answers (`None` when it fails);
      `newId` and `now` are the id and `created_at` the database assigns. */
  function CreateTriage(db: D.Database, user: AuthUser, body: CreateBody, file: Option<seq<bv8>>,
                        analyser: Option<B.VitalSigns>, assessor: Option<TriageResult>,
                        newId: string, now: nat): (c: Call<Created>)
    ensures !GivenText(body.patientId) ==> c == Call(db, Err(NewAppError(PatientIdRequired, 400)), [])
    ensures GivenText(body.patientId) && !GivenText(body.chiefComplaint) ==>
              c == Call(db, Err(NewAppError(ChiefComplaintRequired, 400)), [])
    ensures c.response.Ok? <==> GivenText(body.patientId) && GivenText(body.chiefComplaint) && db.up
    ensures c.response.Err? ==> c.db == db && Quiet(c.trace)
    ensures GivenText(body.patientId) && GivenText(body.chiefComplaint) ==>
              |c.trace| >= |Prelude(file)| && c.trace[..|Prelude(file)|] == Prelude(file)
    ensures c.response.Ok? ==>
              var rec := c.response.value.record;
              var result := c.response.value.result;
              && c.db.triages == db.triages + [rec]
              && rec.id == newId && rec.status == Pending && rec.createdAt == now
              && rec.patientId == body.patientId.value && rec.chiefComplaint == body.chiefComplaint.value
              && rec.level == result.level && rec.priorityScore == result.priorityScore
              && rec.assessedBy == user.id && rec.facilityId == user.facilityId
              && rec.vitalSigns == VideoVitals(file, analyser)
              && result == B.PerformTriageAssessment(
                   B.TriageInput(rec.patientId, rec.chiefComplaint, body.additionalNotes, rec.vitalSigns, user.id),
                   assessor)
  {
    if !GivenText(body.patientId) then Call(db, Err(NewAppError(PatientIdRequired, 400)), [])
    else if !GivenText(body.chiefComplaint) then Call(db, Err(NewAppError(ChiefComplaintRequired, 400)), [])
    else
      var vitals := VideoVitals(file, analyser);
      var input := B.TriageInput(body.patientId.value, body.chiefComplaint.value, body.additionalNotes, vitals, user.id);
      var result := B.PerformTriageAssessment(input, assessor);
      if !db.up then Call(db, Err(D.QueryFailed), Prelude(file))
      else
        var rec := TriageRecord(newId, input.patientId, input.chiefComplaint, vitals, result.level,
                                result.priorityScore, result.notes, result.recommendations, user.id,
                                user.facilityId, Pending, now, None, now);
        Call(db.(triages := db.triages + [rec]), Ok(Created(rec, result)),
             Prelude(file) + [Write] + Announcement(user.facilityId, rec))
  }

  /** `if (facilityId) io.to(`facility:${facilityId}`).emit('triage:new', …)`. */
  function Announcement(facilityId: Option<string>, rec: TriageRecord): seq<Effect> {
    if GivenText(facilityId) then
      [Broadcast(Emission(Realtime.FacilityRoom(facilityId.value), NewTriageEvent,
                          NewTriage(rec.id, rec.patientId, rec.level, rec.priorityScore, rec.createdAt)))]
    else []
  }

  lemma CreateTrace(db: D.Database, user: AuthUser, body: CreateBody, file: Option<seq<bv8>>,
                    analyser: Option<B.VitalSigns>, assessor: Option<TriageResult>, newId: string, now: nat)
    requires CreateTriage(db, user, body, file, analyser, assessor, newId, now).response.Ok?
    ensures var c := CreateTriage(db, user, body, file, analyser, assessor, newId, now);
      c.trace == Prelude(file) + [Write] + Announcement(user.facilityId, c.response.value.record)
  {
  }

  /** A created assessment is written right after the assessment, and one
      more effect follows exactly when the creator has a facility. */
  lemma CreateWritesOnce(db: D.Database, user: AuthUser, body: CreateBody, file: Option<seq<bv8>>,
                         analyser: Option<B.VitalSigns>, assessor: Option<TriageResult>, newId: string, now: nat)
    requires CreateTriage(db, user, body, file, analyser, assessor, newId, now).response.Ok?
    ensures var c := CreateTriage(db, user, body, file, analyser, assessor, newId, now);
      && |c.trace| == |Prelude(file)| + 1 + (if GivenText(user.facilityId) then 1 else 0)
      && c.trace[|Prelude(file)|] == Write
  {
    CreateTrace(db, user, body, file, analyser, assessor, newId, now);
  }

  /** The only broadcast of a creation is the last effect, the `triage:new`
      event to the creator's facility room, and it happens whenever the
      creator has a facility. */
  lemma CreateAnnouncesOnce(db: D.Database, user: AuthUser, body: CreateBody, file: Option<seq<bv8>>,
                            analyser: Option<B.VitalSigns>, assessor: Option<TriageResult>, newId: string, now: nat)
    requires CreateTriage(db, user, body, file, analyser, assessor, newId, now).response.Ok?
    ensures var c := CreateTriage(db, user, body, file, analyser, assessor, newId, now);
      var rec := c.response.value.record;
      && (forall k :: 0 <= k < |c.trace| && c.trace[k].Broadcast? ==>
            && k == |c.trace| - 1 && GivenText(user.facilityId)
            && c.trace[k].emission == Emission(Realtime.FacilityRoom(user.facilityId.value), NewTriageEvent,
                 NewTriage(rec.id, rec.patientId, rec.level, rec.priorityScore, rec.createdAt)))
      && (GivenText(user.facilityId) ==> c.trace[|c.trace| - 1].Broadcast?)
  {
    var c := CreateTriage(db, user, body, file, analyser, assessor, newId, now);
    CreateTrace(db, user, body, file, analyser, assessor, newId, now);
    OnlyTailBroadcasts(Prelude(file), Announcement(user.facilityId, c.response.value.record));
  }

  /** In quiet effects, a write and at most one more effect, only that last
      effect can be a broadcast. */
  lemma OnlyTailBroadcasts(pre: seq<Effect>, tail: seq<Effect>)
    requires Quiet(pre) && |tail| <= 1
    ensures var t := pre + [Write] + tail;
      forall k :: 0 <= k < |t| && t[k].Broadcast? ==> k == |t| - 1 && |tail| == 1 && t[k] == tail[0]
  {
  }

  /** Without a file the video service is never consulted: its answer
      changes nothing. */
  lemma NoFileIgnoresAnalyser(db: D.Database, user: AuthUser, body: CreateBody, a: Option<B.VitalSigns>,
                              a': Option<B.VitalSigns>, assessor: Option<TriageResult>, newId: string, now: nat)
    ensures CreateTriage(db, user, body, None, a, assessor, newId, now) == CreateTriage(db, user, body, None, a', assessor, newId, now)
    ensures AnalyseVideo !in CreateTriage(db, user, body, None, a, assessor, newId, now).trace
  {
  }

  /** When the assessment service fails, the assessment is still recorded,
      with the backend's own rules. */
  lemma ServiceFailureStillRecords(db: D.Database, user: AuthUser, body: CreateBody, file: Option<seq<bv8>>,
                                   analyser: Option<B.VitalSigns>, newId: string, now: nat)
    requires GivenText(body.patientId) && GivenText(body.chiefComplaint) && db.up
    ensures var c := CreateTriage(db, user, body, file, analyser, None, newId, now);
      && c.response.Ok?
      && c.response.value.result == B.Fallback(B.TriageInput(body.patientId.value, body.chiefComplaint.value,
                                                             body.additionalNotes, VideoVitals(file, analyser), user.id))
  {
  }

  /** The new assessment joins its facility's real-time queue. */
  lemma CreatedTriageIsQueued(db: D.Database, user: AuthUser, body: CreateBody, file: Option<seq<bv8>>,
                              analyser: Option<B.VitalSigns>, assessor: Option<TriageResult>, newId: string, now: nat)
    requires CreateTriage(db, user, body, file, analyser, assessor, newId, now).response.Ok?
    requires user.facilityId.Some?
    ensures var c := CreateTriage(db, user, body, file, analyser, assessor, newId, now);
      c.response.value.record in D.GetRealTimeData(c.db, user.facilityId).value
  {
    var c := CreateTriage(db, user, body, file, analyser, assessor, newId, now);
    var rec := c.response.value.record;
    assert c.db.triages[|db.triages|] == rec;
    assert rec in multiset(c.db.triages);
    assert D.Waiting(rec, user.facilityId);
    assert rec in multiset(D.ActiveRows(c.db.triages, user.facilityId));
  }

  /** On a hub that keeps its invariant, the `triage:new` event reaches
      exactly the sessions whose claims name the creator's facility. */
  lemma NewTriageReachesOnlyItsFacility(hub: Realtime.Hub, db: D.Database, user: AuthUser, body: CreateBody,
                                        file: Option<seq<bv8>>, analyser: Option<B.VitalSigns>,
                                        assessor: Option<TriageResult>, newId: string, now: nat, k: nat)
    requires Realtime.Valid(hub)
    requires var c := CreateTriage(db, user, body, file, analyser, assessor, newId, now);
      k < |c.trace| && c.trace[k].Broadcast?
    ensures var c := CreateTriage(db, user, body, file, analyser, assessor, newId, now);
      Recipients(hub, c.trace[k].emission) ==
        set s | s in hub.sessions && hub.sessions[s].facilityId == user.facilityId
  {
    CreateAnnouncesOnce(db, user, body, file, analyser, assessor, newId, now);
    Realtime.FacilityEventReach(hub, user.facilityId.value);
  }

  // ---------------------------------------------------------------------------
  // updateStatus (lines 207-248).

  /** `UPDATE … SET status, updated_by, updated_at = NOW() WHERE id = $3`:
      every row with the id, whatever its facility. */
  function SetStatus(rows: seq<TriageRecord>, id: string, s: Status, updater: string, now: nat): (r: seq<TriageRecord>)
    ensures |r| == |rows|
  {
    seq(|rows|, i requires 0 <= i < |rows| =>
      if rows[i].id == id then rows[i].(status := s, updatedBy := Some(updater), updatedAt := now) else rows[i])
  }

  function FindTriage(rows: seq<TriageRecord>, id: string): (r: Option<nat>)
    ensures r.Some? ==> r.value < |rows| && rows[r.value].id == id
    ensures r.None? ==> forall i :: 0 <= i < |rows| ==> rows[i].id != id
  {
    if rows == [] then None
    else if rows[0].id == id then Some(0)
    else match FindTriage(rows[1..], id)
      case None => None
      case Some(i) => Some(i + 1)
  }

  function UpdateStatus(db: D.Database, user: AuthUser, id: string, status: Option<string>, now: nat)
    : (c: Call<TriageRecord>)
    ensures (status.None? || status.value !in StatusNames) ==> c == Call(db, Err(NewAppError(InvalidStatus, 400)), [])
    ensures c.response.Ok? <==>
              && status.Some? && status.value in StatusNames && db.up
              && exists i :: 0 <= i < |db.triages| && db.triages[i].id == id
    ensures c.response.Err? ==> c.db == db && c.trace == []
    ensures status.Some? && status.value in StatusNames && db.up && c.response.Err? ==>
              c.response.error == NewAppError(TriageNotFound, 404)
    ensures c.response.Ok? ==>
              && |c.db.triages| == |db.triages|
              && (forall i :: 0 <= i < |db.triages| ==>
                    c.db.triages[i] == if db.triages[i].id == id
                      then db.triages[i].(status := ParseStatus(status.value).value, updatedBy := Some(user.id), updatedAt := now)
                      else db.triages[i])
              && c.response.value.id == id && c.response.value in c.db.triages
              && StatusName(c.response.value.status) == status.value
    ensures c.response.Ok? ==>
              c.trace == [Write] + (if GivenText(user.facilityId) then
                [Broadcast(Emission(Realtime.FacilityRoom(user.facilityId.value), UpdatedTriageEvent,
                                    StatusChange(id, status.value, user.id, now)))] else [])
  {
    var s := if status.Some? then ParseStatus(status.value) else None;
    if s.None? then Call(db, Err(NewAppError(InvalidStatus, 400)), [])
    else if !db.up then Call(db, Err(D.QueryFailed), [])
    else match FindTriage(db.triages, id)
      case None => Call(db, Err(NewAppError(TriageNotFound, 404)), [])
      case Some(i) =>
        var rows := SetStatus(db.triages, id, s.value, user.id, now);
        var announce := if GivenText(user.facilityId) then
            [Broadcast(Emission(Realtime.FacilityRoom(user.facilityId.value), UpdatedTriageEvent,
                                StatusChange(id, status.value, user.id, now)))]
          else [];
        Call(db.(triages := rows), Ok(rows[i]), [Write] + announce)
  }

  /** Repeating a status change changes nothing more. */
  lemma UpdateStatusIdempotent(db: D.Database, user: AuthUser, id: string, status: Option<string>, now: nat)
    requires UpdateStatus(db, user, id, status, now).response.Ok?
    ensures var once := UpdateStatus(db, user, id, status, now);
      UpdateStatus(once.db, user, id, status, now).db == once.db
  {
    var s := ParseStatus(status.value).value;
    var once := UpdateStatus(db, user, id, status, now);
    assert once.db.triages == SetStatus(db.triages, id, s, user.id, now);
    var i := FindTriage(db.triages, id).value;
    assert FindTriage(once.db.triages, id).Some? by {
      assert once.db.triages[i].id == id;
    }
    SetStatusIdempotent(db.triages, id, s, user.id, now);
  }

  lemma SetStatusIdempotent(rows: seq<TriageRecord>, id: string, s: Status, updater: string, now: nat)
    ensures var once := SetStatus(rows, id, s, updater, now);
      SetStatus(once, id, s, updater, now) == once
  {
  }

  /** A row on a facility's real-time queue is a waiting row of the table. */
  lemma QueuedRowIsWaiting(db: D.Database, f: Option<string>, r: TriageRecord)
    requires db.up && r in D.GetRealTimeData(db, f).value
    ensures D.Waiting(r, f) && r in db.triages
  {
    var active := D.ActiveRows(db.triages, f);
    assert r in multiset(active);
    assert multiset(active)[r] == if D.Waiting(r, f) then multiset(db.triages)[r] else 0;
  }

  /** Completing or cancelling an assessment takes it off every facility's
      real-time queue. */
  lemma ClosedTriageLeavesQueue(db: D.Database, user: AuthUser, id: string, status: string, now: nat,
                                f: Option<string>)
    requires status == StatusName(Completed) || status == StatusName(Cancelled)
    requires UpdateStatus(db, user, id, Some(status), now).response.Ok?
    ensures var c := UpdateStatus(db, user, id, Some(status), now);
      forall r :: r in D.GetRealTimeData(c.db, f).value ==> r.id != id
  {
    var c := UpdateStatus(db, user, id, Some(status), now);
    UpdatedRowsCarryStatus(db, user, id, Some(status), now);
    assert !IsActive(ParseStatus(status).value);
    InactiveRowsNotQueued(c.db, id, f);
  }

  /** After a change, every row with the id has the new status. */
  lemma UpdatedRowsCarryStatus(db: D.Database, user: AuthUser, id: string, status: Option<string>, now: nat)
    requires UpdateStatus(db, user, id, status, now).response.Ok?
    ensures var c := UpdateStatus(db, user, id, status, now);
      forall r :: r in c.db.triages && r.id == id ==> r.status == ParseStatus(status.value).value
  {
    var c := UpdateStatus(db, user, id, status, now);
    forall r | r in c.db.triages && r.id == id
      ensures r.status == ParseStatus(status.value).value
    {
      var i :| 0 <= i < |c.db.triages| && c.db.triages[i] == r;
    }
  }

  /** Rows of an id none of whose rows is active are off every queue. */
  lemma InactiveRowsNotQueued(db: D.Database, id: string, f: Option<string>)
    requires db.up
    requires forall r :: r in db.triages && r.id == id ==> !IsActive(r.status)
    ensures forall r :: r in D.GetRealTimeData(db, f).value ==> r.id != id
  {
    forall r | r in D.GetRealTimeData(db, f).value
      ensures r.id != id
    {
      QueuedRowIsWaiting(db, f, r);
    }
  }

  /** The UPDATE is keyed by id alone and the event goes to the updater's
      room: a user of one facility changes another facility's assessment, and
      that facility's sessions hear nothing of it. */
  lemma UpdateCrossesFacilities(hub: Realtime.Hub, rec: TriageRecord, user: AuthUser, now: nat)
    requires Realtime.Valid(hub)
    requires rec.facilityId == Some("north") && user.facilityId == Some("south")
    ensures var c := UpdateStatus(D.Database([rec], true), user, rec.id, Some("completed"), now);
      && c.response.Ok?
      && c.db.triages[0].status == Completed && c.db.triages[0].facilityId == Some("north")
      && c.trace[1].Broadcast?
      && forall s :: s in Recipients(hub, c.trace[1].emission) ==> hub.sessions[s].facilityId != Some("north")
  {
    var c := UpdateStatus(D.Database([rec], true), user, rec.id, Some("completed"), now);
    assert c.trace[1].emission.room == Realtime.FacilityRoom("south");
    Realtime.FacilityEventReach(hub, "south");
  }

  // ---------------------------------------------------------------------------
  // getTriages (lines 129-205).

  datatype TriageFilters = TriageFilters(status: Option<string>, level: Option<string>, patientId: Option<string>,
                                         startDate: Option<string>, endDate: Option<string>)

  /** The `if (…)` blocks, in source order. */
  function TriageFilterList(f: TriageFilters): seq<Filter> {
    [Filter("t.status", "=", f.status), Filter("t.triage_level", "=", f.level),
     Filter("t.patient_id", "=", f.patientId),
     Filter("t.created_at", ">=", f.startDate), Filter("t.created_at", "<=", f.endDate)]
  }

  const TriageOrder: seq<(string, Dir)> := [("t.priority_score", Desc), ("t.created_at", Asc)]

  /** `conditions = ['t.facility_id = $1']`, `params = [facilityId]`, `paramCount = 2`. */
  function FacilityScope(facilityId: Option<string>): (b: Builder)
    ensures Sound(b) && CoversParams(b)
    ensures b.conds == [Cond(["t.facility_id"], "=", 1)] && b.params == [TextParam(facilityId)]
  {
    var b := Builder([Cond(["t.facility_id"], "=", 1)], [TextParam(facilityId)], 2);
    assert Uses(b.conds, 1) by { assert b.conds[0].slot == 1; }
    b
  }

  /** The page query: the facility at `$1`, the applied filters numbered from
      `$2`, the page pair after them. */
  function TriagesQuery(facilityId: Option<string>, f: TriageFilters, page: Option<int>, limit: Option<int>)
    : (q: Query)
    ensures |q.conds| >= 1 && q.conds[0] == Cond(["t.facility_id"], "=", 1)
    ensures |q.params| >= 3 && q.params[0] == TextParam(facilityId)
    ensures Numbered(q, 1, 1, TriageFilterList(f))
    ensures |q.params| == 1 + |Present(TriageFilterList(f))| + 2
    ensures q.limitSlot == Some(|q.params| - 1) && q.params[|q.params| - 2] == PInt(limit.GetOr(TriagesDefaultLimit))
    ensures q.offsetSlot == Some(|q.params|) &&
              q.params[|q.params| - 1] == PInt((page.GetOr(1) - 1) * limit.GetOr(TriagesDefaultLimit))
    ensures q.order == TriageOrder
    ensures Executable(q)
  {
    var b := FacilityScope(facilityId);
    var fs := TriageFilterList(f);
    var pg := Paging(page, limit, TriagesDefaultLimit);
    PagedKeepsNumbering(b, fs, pg, TriageOrder);
    PageFollowsFilters(b, fs, pg, TriageOrder);
    FilteredPageExecutable(b, fs, pg, TriageOrder);
    Paged(AddFilters(b, fs), pg, TriageOrder)
  }

  /** The count query: the same WHERE clause with the same `params`, no page. */
  function TriageCountQuery(facilityId: Option<string>, f: TriageFilters): (q: Query)
    ensures q.limitSlot.None? && q.offsetSlot.None?
    ensures Executable(q)
  {
    var b := FacilityScope(facilityId);
    FiltersCoverParams(b, TriageFilterList(f));
    UnpagedIsExecutable(AddFilters(b, TriageFilterList(f)), []);
    Unpaged(AddFilters(b, TriageFilterList(f)), [])
  }

  /** The count runs over exactly the page's conditions and the page's
      parameters without the page pair: the two queries count and list the
      same rows. */
  lemma CountMatchesListing(facilityId: Option<string>, f: TriageFilters, page: Option<int>, limit: Option<int>)
    ensures var q := TriagesQuery(facilityId, f, page, limit);
      var n := TriageCountQuery(facilityId, f);
      n.conds == q.conds && n.params == q.params[..|q.params| - 2]
  {
  }

  /** With no filter the page is `facility_id = $1 LIMIT $2 OFFSET $3`. */
  lemma UnfilteredTriagesQuery(facilityId: string)
    ensures var q := TriagesQuery(Some(facilityId), TriageFilters(None, None, None, None, None), None, None);
      q.conds == [Cond(["t.facility_id"], "=", 1)]
      && q.params == [PText(facilityId), PInt(50), PInt(0)]
  {
    var fs := TriageFilterList(TriageFilters(None, None, None, None, None));
    assert Present(fs) == [];
  }

  // ---------------------------------------------------------------------------
  // getStatistics (lines 250-305).

  /** `dateFilter` and `params`: `created_at BETWEEN $1 AND $2` (both ends
      inclusive) only when both dates are truthy. */
  function DateRange(startDate: Option<string>, endDate: Option<string>): (b: Builder)
    ensures Sound(b) && CoversParams(b)
    ensures |b.params| == (if GivenText(startDate) && GivenText(endDate) then 2 else 0)
    ensures |b.params| == 2 ==> b.params == [PText(startDate.value), PText(endDate.value)]
  {
    if GivenText(startDate) && GivenText(endDate) then
      var b := Builder([Cond(["created_at"], ">=", 1), Cond(["created_at"], "<=", 2)],
                       [PText(startDate.value), PText(endDate.value)], 3);
      assert Uses(b.conds, 1) by { assert b.conds[0].slot == 1; }
      assert Uses(b.conds, 2) by { assert b.conds[1].slot == 2; }
      b
    else Empty
  }

  /** The WHERE clause and parameters the three statistics queries share:
      `facility_id = $${params.length + 1}`, then the date range. */
  function StatisticsQuery(facilityId: Option<string>, startDate: Option<string>, endDate: Option<string>)
    : (q: Query)
    ensures var dated := GivenText(startDate) && GivenText(endDate);
      && |q.params| == (if dated then 3 else 1)
      && |q.conds| == |q.params|
      && q.conds[0] == Cond(["facility_id"], "=", |q.params|)
      && q.params[|q.params| - 1] == TextParam(facilityId)
      && (dated ==> q.params[0] == PText(startDate.value) && q.params[1] == PText(endDate.value)
                    && q.conds[1] == Cond(["created_at"], ">=", 1) && q.conds[2] == Cond(["created_at"], "<=", 2))
    ensures Executable(q)
  {
    var range := DateRange(startDate, endDate);
    var slot := |range.params| + 1;
    var q := Query([Cond(["facility_id"], "=", slot)] + range.conds, range.params + [TextParam(facilityId)],
                   [], None, None);
    assert slot in Slots(q) by { assert q.conds[0].slot == slot; }
    forall k | 1 <= k < slot
      ensures k in Slots(q)
    {
      assert Uses(range.conds, k);
      var i :| 0 <= i < |range.conds| && range.conds[i].slot == k;
      assert q.conds[i + 1].slot == k;
    }
    forall k | k in Slots(q)
      ensures 1 <= k <= |q.params|
    {
      var i :| 0 <= i < |q.conds| && q.conds[i].slot == k;
      if i > 0 {
        assert q.conds[i] == range.conds[i - 1];
      }
    }
    q
  }

  /** A single date narrows nothing: the statistics then cover all time. */
  lemma OneDateIsIgnored(facilityId: Option<string>, date: string)
    ensures StatisticsQuery(facilityId, Some(date), None) == StatisticsQuery(facilityId, None, None)
    ensures StatisticsQuery(facilityId, None, Some(date)) == StatisticsQuery(facilityId, None, None)
    ensures StatisticsQuery(facilityId, None, None).params == [TextParam(facilityId)]
  {
  }
}
