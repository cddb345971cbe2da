# Emergency-room triage: a Dafny model of its decision core

The system takes a chief complaint and optional vital signs, classifies the
patient on a five-level urgency scale, records the assessment, and pushes it
to a live queue scoped to the clinician's facility. This project models the
pure decision logic around that flow and proves properties of it. The
modelled parts are:

- **The classification engine**, in both copies:
  - the backend's fallback rules in `triageService.ts`;
  - the AI service's `_assess_with_rules` in `triage_service.py`.

  Both are first-match tier cascades over optional readings, with a keyword
  cascade when no readings are given and a level-to-wait table. The external
  assessor is an injected `Option<TriageResult>`, where `None` means the call
  failed. `TriageAgreement` proves where the two copies agree and where they
  differ.
- **The real-time distributor** (`socketHandler.ts`) and the two emits of the
  triage controller. The distributor is a hub record: each session's verified
  claims, and the set of sessions in each room. Token verification is an
  opaque `Verifier`. A handler's outside effects are a trace: video call,
  assessment call, write, broadcast.
- **The dashboard's cache-aside overview** over the `redis.ts` wrappers. The
  store is a map of entries with optional expiry, a clock and a reachability
  flag. The waiting list is filter, then rank (priority descending, creation
  ascending), then take 20.
- **Request gating**:
  - the `authenticate` and `requireRole` middleware;
  - the role tables of the route files;
  - registration, login, refresh and logout;
  - the error-to-response mapping;
  - the upload MIME filter.
- **The parameterised query builders**: the WHERE conditions and parameter
  list of `getTriages`, `getStatistics`, `getUsers`, `getAuditLogs`,
  `getPatients` and `updatePatient`, plus the camelCase-to-snake_case key
  rewrite. The central invariant is that placeholder `$k` names `params[k-1]`
  (`Sql.Executable`, `Sql.Numbered`).

JavaScript numbers and Python floats are `real`. JavaScript truthiness is
explicit (`Js.Truthy`, `Js.GivenText`), and so is Python's (`AiTriage.Truthy`).
A database is a sequence of rows plus a flag saying whether it answers. A
failing query becomes the error passed to `next`. Clocks are naturals passed
in as parameters.

Behaviour of the code that a reader might not expect, and that the model
keeps as written:

- **Level-1 wait.** The backend's `waitTimes` table lists 0 for level 1
  (backend/src/services/triageService.ts:214), but `waitTimes[level] || 60`
  (line 221) turns that 0 into 60 (`BackendTriage.LevelOneWaitsAnHour`). The
  Python copy returns the 0 through `wait_times.get(level, 60)`
  (ai-service/src/services/triage_service.py:182).
- **Zero readings.** Every vital-sign test is guarded by truthiness, so a
  reading of 0 is skipped exactly like a missing one
  (`BackendTriage.ZeroReadsAsAbsent`).
- **Empty vitals in the backend.** An empty vitals object `{}` is truthy in
  JavaScript, so the backend takes the vitals branch and lands on level 5
  (`BackendTriage.EmptyVitalsAreRoutine`). Python's empty dict is falsy, so
  the AI service takes the keyword branch instead
  (`TriageAgreement.EmptyVitalsDiverge`).
- **Status updates.** `updateStatus` updates by id alone and announces to the
  updater's facility room, not to the room of the facility that owns the
  assessment (`TriageController.UpdateCrossesFacilities`).
- **The assessment service.** The AI service re-raises internal errors,
  e.g. a `painLevel` of `null` (`AiTriage.NullPainRaises`). The backend
  catches every failure of the call and falls back to its own rules
  (`TriageAgreement.NullPainStillClassified`).

## Model

| member | source | states |
|---|---|---|
| BackendTriage.VitalsTier | backend/src/services/triageService.ts:120-174 | the tier chosen is valid, its trigger holds, and no more severe tier's trigger holds (first match, most severe first) |
| BackendTriage.ClassifyVitals | backend/src/services/triageService.ts:120-174 | the vitals classification carries the cascade's tier and valid advice |
| BackendTriage.KeywordTier | backend/src/services/triageService.ts:175-200 | on the lower-cased complaint: a critical keyword occurring anywhere gives 2; otherwise an urgent keyword gives 3; otherwise 4. Each direction is stated against keyword positions, not against the scanning test |
| BackendTriage.ClassifyComplaint | backend/src/services/triageService.ts:175-200 | the keyword classification carries the keyword tier, valid advice, and the score 75, 55 or 35 that goes with tier 2, 3 or 4 |
| BackendTriage.EstimatedWaitTime | backend/src/services/triageService.ts:213-222 | a non-zero table entry is returned as is; a zero or missing entry becomes 60 |
| BackendTriage.LevelOneWaitsAnHour | backend/src/services/triageService.ts:213-222 | level 1's table entry is 0 yet its estimate is 60; levels 2-5 wait 10, 30, 60, 120 |
| BackendTriage.Fallback | backend/src/services/triageService.ts:111-211 | a valid level; the vitals tier when vitals are given, else the keyword tier; recommendations never empty; level 1 opens with the physician-assessment advice; notes mention vital signs exactly when vitals were given; the wait comes from the table |
| BackendTriage.VitalsPathScores | backend/src/services/triageService.ts:131-173 | on the vitals path the (level, score) pair is one of (1,100), (2,80), (3,60), (4,40), (5,20) |
| BackendTriage.KeywordPathScores | backend/src/services/triageService.ts:187-199 | on the keyword path the (level, score) pair is one of (2,75), (3,55), (4,35) |
| BackendTriage.ScoreOrdersLevels | backend/src/services/triageService.ts:131-199 | across both paths a more urgent level always carries a strictly higher score |
| BackendTriage.ScoreBand | backend/src/services/triageService.ts:131-199 | each level's scores lie in a band no other level's scores enter |
| BackendTriage.HeartRateBands | backend/src/services/triageService.ts:123-151 | heart rate alone: tier 1 below 40 or above 150, tier 2 below 50 or above 120, tier 3 below 60 or above 100, else 5 (0 is skipped) |
| BackendTriage.RespiratoryRateBands | backend/src/services/triageService.ts:125-152 | respiratory rate alone: the 8/30, 12/24, 14/20 strict bands |
| BackendTriage.OxygenSaturationBands | backend/src/services/triageService.ts:127-153 | saturation alone: below 90 is tier 1, below 94 tier 2, below 96 tier 3 |
| BackendTriage.SystolicBands | backend/src/services/triageService.ts:128-141 | systolic alone: below 80 tier 1, below 100 tier 2, never tier 3 or 4; diastolic is irrelevant |
| BackendTriage.PainLevelBands | backend/src/services/triageService.ts:143-162 | pain alone: the inclusive bounds 8, 5 and 3 give tiers 2, 3 and 4 |
| BackendTriage.TemperatureBands | backend/src/services/triageService.ts:163 | temperature alone is tier 4 only strictly above 38.5 |
| BackendTriage.ConsciousnessBands | backend/src/services/triageService.ts:129-142 | 'unresponsive' is tier 1, 'confused' tier 2, any other state tier 5 |
| BackendTriage.ZeroReadsAsAbsent | backend/src/services/triageService.ts:123-163 | a zero heart rate, respiratory rate, saturation, systolic pressure, pain level or temperature gives the same tier as a missing or null one |
| BackendTriage.IgnoredReadings | backend/src/services/triageService.ts:120-174 | diastolic pressure, skin colour and capillary refill never change the tier |
| BackendTriage.EmptyVitalsAreRoutine | backend/src/services/triageService.ts:120-174 | an empty vitals object takes the vitals path and gives level 5, score 20, wait 120 |
| BackendTriage.HeartRate160IsLevelOne | backend/src/services/triageService.ts:122-135 | a heart rate of 160 gives level 1, score 100, and the immediate-assessment advice first |
| BackendTriage.ChestPainIsCritical | backend/src/services/triageService.ts:177-190 | "Chest Pain", in any letter case, is a critical complaint (tier 2) |
| BackendTriage.FeverIsUrgent | backend/src/services/triageService.ts:181-194 | "fever" alone is urgent (tier 3) in the backend's list |
| BackendTriage.UnknownComplaintIsRoutine | backend/src/services/triageService.ts:195-199 | "sore" matches no keyword and falls to tier 4 |
| BackendTriage.PerformTriageAssessment | backend/src/services/triageService.ts:83-106 | the AI service's answer when the call succeeds; the backend's own fallback rules when it fails |
| BackendTriage.ProcessVideoForVitalSigns | backend/src/services/triageService.ts:45-78 | the analyser is called exactly when a path or buffer is given; the result is null without input and null whenever the analyser fails |
| AiTriage.VitalsTier | ai-service/src/services/triage_service.py:79-141 | a successful cascade yields a valid tier |
| AiTriage.VitalsTierIsFirstMatch | ai-service/src/services/triage_service.py:86-141 | the tier returned is the first whose test is true after every earlier test was false; an error arises only from one of the four tests raising |
| AiTriage.ClassifyVitals | ai-service/src/services/triage_service.py:86-141 | the classification succeeds exactly when the tier cascade does; it then carries the cascade's tier, the score 100, 80, 60, 40 or 20 that goes with tier 1 to 5, and that tier's advice |
| AiTriage.KeywordTier | ai-service/src/services/triage_service.py:144-162 | a critical keyword occurring anywhere in the lower-cased complaint gives 2; otherwise an urgent keyword gives 3; otherwise 4 |
| AiTriage.ClassifyComplaint | ai-service/src/services/triage_service.py:144-162 | the keyword classification carries the keyword tier, valid advice, and the score 75, 55 or 35 that goes with tier 2, 3 or 4 |
| AiTriage.AssessWithRules | ai-service/src/services/triage_service.py:54-183 | empty vitals take the keyword path and never fail, with the keyword score, so the (level, score) pair is ("2",75), ("3",55) or ("4",35); non-empty vitals use only the tier cascade and fail exactly when it raises, and on success the pair is one of ("1",100), ("2",80), ("3",60), ("4",40), ("5",20); the wait comes from the table; notes are the base sentence plus the optional tail |
| AiTriage.AssessRecommendations | ai-service/src/services/triage_service.py:93-162 | every result has a valid level and non-empty advice; level 1 gives three recommendations led by the physician-assessment advice |
| AiTriage.AssessNotes | ai-service/src/services/triage_service.py:173-175 | the notes mention vital signs exactly when vitals were truthy, and carry the "Additional notes:" tail exactly when the notes are non-empty |
| AiTriage.Assess | ai-service/src/services/triage_service.py:18-52 | missing vitals become {} and missing notes ""; without vitals the keyword level is returned; an internal error propagates |
| AiTriage.NumericNeverRaises | ai-service/src/services/triage_service.py:80-141 | when every compared reading is a number or missing, the cascade never raises |
| AiTriage.GuardedTestsOk | ai-service/src/services/triage_service.py:87-106 | each guarded comparison of a numeric or falsy reading succeeds |
| AiTriage.TrueHeartRateIsLevelOne | ai-service/src/services/triage_service.py:86-88 | a JSON `true` heart rate passes the guard and compares as 1, so it gives level 1 with no error; a string heart rate raises |
| AiTriage.NullPainRaises | ai-service/src/services/triage_service.py:108 | a `painLevel` of None raises when the tier-2 test reaches it, but not when tier 1 already matched |
| AiTriage.NullPainRaisesAlone | ai-service/src/services/triage_service.py:86-108 | any dict with a None pain level and no tier-1 reading raises |
| AiTriage.NullTemperatureRaises | ai-service/src/services/triage_service.py:132 | a None temperature raises only when the tier-4 test is reached |
| AiTriage.EstimatedWaitTime | ai-service/src/services/triage_service.py:165-182 | only level 1 waits 0; any level outside the table gets the default 60; no wait exceeds 120 |
| AiTriage.WaitGrowsWithLevel | ai-service/src/services/triage_service.py:165-171 | a more urgent level always waits strictly less |
| AiTriage.WaitTableCoversLevels | ai-service/src/services/triage_service.py:165-182 | every level gets its table wait, level 1 gets 0, and the default 60 is never used |
| AiTriage.ChestPainIsCritical | ai-service/src/services/triage_service.py:63-67 | "chest pain" is in the critical list (level 2) |
| AiTriage.FeverAloneIsRoutine | ai-service/src/services/triage_service.py:69-72 | "fever" alone matches neither list: level 4, score 35 |
| Assessment.LevelNameValid | ai-service/src/services/triage_service.py:93-139 | every tier 1-5 renders as a level name "1"-"5", and distinct tiers render differently |
| Assessment.BaseNotesMentionVitals | backend/src/services/triageService.ts:202 | the notes start with the "vital signs and" phrase exactly when the vitals branch ran |
| TriageAgreement.FromEntriesLookup | backend/src/services/triageService.ts:88-94 | a defined property reaches the service under its name with its value, and an undefined one is dropped from the JSON body |
| TriageAgreement.FromEntriesDomain | backend/src/services/triageService.ts:88-94 | every key the service sees comes from one of the object's properties |
| TriageAgreement.FromEntriesEmpty | backend/src/services/triageService.ts:88-94 | the received dict is empty exactly when every property is undefined |
| TriageAgreement.EntryNamesDistinct | backend/src/services/triageService.ts:88-94 | the vitals object's property names are distinct |
| TriageAgreement.GetEntry | ai-service/src/services/triage_service.py:80-83 | `vitals.get(name)` returns the sent value, or None for a property that was not sent |
| TriageAgreement.ToDictReadings | backend/src/services/triageService.ts:88-94 | the backend's vitals object, JSON-encoded, shows the Python rules the same readings under the same keys |
| TriageAgreement.ToDictEmpty | ai-service/src/services/triage_service.py:79 | the encoded dict is empty exactly when the backend object defines no reading |
| TriageAgreement.Tier1Agrees | ai-service/src/services/triage_service.py:86-99 | on matching readings the Python tier-1 test succeeds with the backend's answer |
| TriageAgreement.Tier2Agrees | ai-service/src/services/triage_service.py:102-115 | on matching readings the Python tier-2 test succeeds with the backend's answer |
| TriageAgreement.Tier3Agrees | ai-service/src/services/triage_service.py:118-129 | on matching readings the Python tier-3 test succeeds with the backend's answer |
| TriageAgreement.Tier4Agrees | ai-service/src/services/triage_service.py:132-135 | on matching readings the Python tier-4 test succeeds with the backend's answer |
| TriageAgreement.TiersAgree | ai-service/src/services/triage_service.py:86-141 | with pain and temperature not null, both copies pick the same tier for the same readings |
| TriageAgreement.NonEmptyVitalsAgree | ai-service/src/services/triage_service.py:79-141 | on a non-empty vitals object both copies give the same level and score |
| TriageAgreement.EmptyVitalsDiverge | ai-service/src/services/triage_service.py:144 | `{}` with "chest pain" is level 5 in the backend and level 2 in Python |
| TriageAgreement.FeverDiverges | ai-service/src/services/triage_service.py:69-72 | "fever" is level 3 in the backend and level 4 in Python |
| TriageAgreement.WaitTablesDiffer | backend/src/services/triageService.ts:221 | the wait tables agree on every level but 1, which is 60 in the backend and 0 in Python |
| TriageAgreement.LevelOneWaitDependsOnPath | backend/src/services/triageService.ts:83-106 | a tier-1 patient is estimated at 0 minutes when the service answers, and at 60 when the backend falls back |
| TriageAgreement.NullPainStillClassified | backend/src/services/triageService.ts:100-105 | when the service raises on a null pain level, the backend still returns its fallback result (level 5) |
| TriageAgreement.NullPainServiceRaises | ai-service/src/services/triage_service.py:50-52 | a null pain level with no other reading makes the service fail |
| Text.Lower | backend/src/services/triageService.ts:185 | lower-casing keeps the length, maps each character, and leaves no upper-case letter |
| Text.ContainsIffOccurs | backend/src/services/triageService.ts:187 | the substring test holds exactly when the keyword occurs at some position |
| Text.ContainsAnyIffOccursAny | backend/src/services/triageService.ts:187-191 | `keywords.some(k => s.includes(k))` holds exactly when some keyword occurs at some position of the text |
| Text.ShortTextMissesAll | backend/src/services/triageService.ts:187-193 | a complaint shorter than every keyword matches none of them |
| Text.LowerSplits | backend/src/services/triageService.ts:185 | lower-casing a concatenation lower-cases each part |
| Text.NatToStringInjective | backend/src/controllers/triageController.ts:148 | distinct placeholder numbers render as distinct digit strings |
| Text.ParseNatToString | backend/src/controllers/triageController.ts:148 | decimal rendering of a placeholder number is reversible |
| Text.SnakeCaseRoundTrip | backend/src/controllers/patientController.ts:144 | for a key with no underscore, the camel-to-snake rewrite is undone by the inverse rewrite |
| Realtime.RoomNamesDisjoint | backend/src/socket/socketHandler.ts:39-47 | facility, user and triage room names never collide, and each name determines its id |
| Realtime.Authorize | backend/src/socket/socketHandler.ts:6-31 | no token gives 'Authentication error', no secret gives 'JWT_SECRET not configured', a failed verification gives 'Invalid token'; otherwise the verified claims are accepted |
| Realtime.Join | backend/src/socket/socketHandler.ts:39-47 | joining adds the session to that room only |
| Realtime.OnConnection | backend/src/socket/socketHandler.ts:33-43 | the session's claims are recorded; it joins its user room, and its facility room exactly when the facility is truthy; every other room is unchanged |
| Realtime.Connect | backend/src/socket/socketHandler.ts:33-43 | a rejected handshake leaves the hub unchanged; an accepted one records the claims, joins the user room, and joins a facility room exactly when the claims carry a truthy facility |
| Realtime.Subscribe | backend/src/socket/socketHandler.ts:46-48 | any connected session joins the triage room of any id, with no ownership check, and no facility room changes |
| Realtime.Disconnect | backend/src/socket/socketHandler.ts:50-52 | after disconnection the session is in no room and no session list |
| Realtime.FacilityEventReach | backend/src/socket/socketHandler.ts:38-40 | on a valid hub a facility room holds exactly the sessions whose claims name that facility |
| Realtime.ConnectPreservesValid | backend/src/socket/socketHandler.ts:6-43 | connection keeps the hub invariant |
| Realtime.ConnectKeepsScope | backend/src/socket/socketHandler.ts:38-40 | after a connection, facility rooms still hold only sessions of that facility |
| Realtime.ConnectKeepsJoined | backend/src/socket/socketHandler.ts:38-43 | after a connection, every session is still in its user room and its facility room |
| Realtime.ConnectKeepsConnected | backend/src/socket/socketHandler.ts:33-43 | after a connection, room members are still connected sessions |
| Realtime.SubscribePreservesValid | backend/src/socket/socketHandler.ts:46-48 | subscribing keeps the hub invariant |
| Realtime.DisconnectPreservesValid | backend/src/socket/socketHandler.ts:50-52 | disconnection keeps the hub invariant |
| Realtime.RunPreservesValid | backend/src/socket/socketHandler.ts:6-53 | any sequence of connects, subscriptions and disconnects keeps the invariant |
| Realtime.NoCrossFacilityDelivery | backend/src/socket/socketHandler.ts:6-53 | from an empty hub, a facility-F event reaches exactly the sessions whose verified claims name F |
| Realtime.RejectedSessionJoinsNothing | backend/src/socket/socketHandler.ts:9-30 | a session whose credential never verifies joins no room, whatever it asks for later |
| TriageController.VideoVitals | backend/src/controllers/triageController.ts:32-38 | vitals are null without a file and the analyser's answer with one |
| TriageController.CreateTriage | backend/src/controllers/triageController.ts:16-100 | a missing patient id is a 400 before the complaint check, and both 400s happen before any effect; success exactly when both are given and the database answers; a failure leaves the table and writes nothing; the new row is appended, pending, and carries the assessment's level and score |
| TriageController.CreateWritesOnce | backend/src/controllers/triageController.ts:50-68 | a created assessment is written exactly once, right after the calls that precede it |
| TriageController.CreateAnnouncesOnce | backend/src/controllers/triageController.ts:73-81 | the only broadcast is the last effect, after the write: `triage:new` to the creator's facility room with id, patient, level, score and time, and only when the facility is truthy |
| TriageController.NoFileIgnoresAnalyser | backend/src/controllers/triageController.ts:32-38 | without a file the video service is never called and its answer does not matter |
| TriageController.ServiceFailureStillRecords | backend/src/controllers/triageController.ts:41-68 | when the assessor fails, the fallback result is recorded |
| TriageController.CreatedTriageIsQueued | backend/src/controllers/triageController.ts:50-68 | the new assessment is on its facility's real-time queue |
| TriageController.NewTriageReachesOnlyItsFacility | backend/src/controllers/triageController.ts:73-81 | on a valid hub, `triage:new` reaches exactly the sessions of the creator's facility |
| TriageController.UpdateStatus | backend/src/controllers/triageController.ts:207-248 | only the four statuses pass, else 400 with no effect; success exactly when the status is valid, the database answers and the id exists; a missing row is a 404; matching rows get the status, updater and time and no other row changes; one write, then `triage:updated` to the updater's facility room when it is truthy |
| TriageController.UpdateStatusIdempotent | backend/src/controllers/triageController.ts:219-225 | repeating a status change at the same time changes nothing more |
| TriageController.QueuedRowIsWaiting | backend/src/controllers/dashboardController.ts:89-97 | a row on a facility's real-time queue is an active row of that facility |
| TriageController.ClosedTriageLeavesQueue | backend/src/controllers/triageController.ts:219-225 | completing or cancelling an assessment removes it from every facility's real-time queue |
| TriageController.UpdatedRowsCarryStatus | backend/src/controllers/triageController.ts:219-225 | after a change, every row with the id carries the new status |
| TriageController.InactiveRowsNotQueued | backend/src/controllers/dashboardController.ts:89-97 | an assessment whose rows are all completed or cancelled is on no real-time queue |
| TriageController.UpdateCrossesFacilities | backend/src/controllers/triageController.ts:219-239 | a south clinician can complete a north assessment, and the event never reaches north's sessions |
| TriageController.FacilityScope | backend/src/controllers/triageController.ts:143-145 | the listing starts with `t.facility_id = $1` bound to the facility |
| TriageController.TriagesQuery | backend/src/controllers/triageController.ts:137-184 | facility at $1; applied filters numbered from $2 in source order; LIMIT and OFFSET take the next two slots with offset (page-1)*limit and defaults 1 and 50; priority descending, then creation ascending; every placeholder names its parameter |
| TriageController.TriageCountQuery | backend/src/controllers/triageController.ts:186-191 | the count query is unpaged and executable |
| TriageController.CountMatchesListing | backend/src/controllers/triageController.ts:172-191 | the count runs over the page's own conditions and the page's parameters without the last two |
| TriageController.UnfilteredTriagesQuery | backend/src/controllers/triageController.ts:143-183 | with no filter the only condition is the facility at $1, and the parameters are the facility, limit 50 and offset 0 |
| TriageController.DateRange | backend/src/controllers/triageController.ts:255-259 | the date range yields two parameters, the start then the end, exactly when both dates are truthy, and none otherwise; each is used by a condition |
| TriageController.StatisticsQuery | backend/src/controllers/triageController.ts:262-291 | the facility placeholder is `params.length + 1`, the facility is the last parameter, and the statement is executable |
| TriageController.OneDateIsIgnored | backend/src/controllers/triageController.ts:255-259 | a single date narrows nothing: only the facility is bound |
| Cache.GetCache | backend/src/config/redis.ts:29-36 | a value is returned exactly when the server is reachable and the key holds a live entry; otherwise null |
| Cache.SetCache | backend/src/config/redis.ts:38-48 | a reachable write stores the value, with a TTL exactly when the expiry is truthy; an unreachable write changes nothing; other keys are untouched |
| Cache.DeleteCache | backend/src/config/redis.ts:50-56 | a reachable delete removes only that key; an unreachable one changes nothing |
| Cache.SetThenGet | backend/src/config/redis.ts:29-48 | a write is read back for the TTL's duration, or for ever without a TTL |
| Cache.WritesAreLocal | backend/src/config/redis.ts:38-56 | writing or deleting one key never changes what another key reads |
| Cache.DeleteThenGet | backend/src/config/redis.ts:29-56 | a deleted key reads as null |
| Cache.UnreachableIsInert | backend/src/config/redis.ts:29-56 | an unreachable server reads as empty and ignores writes and deletes without any error |
| Dashboard.OverviewKeysSeparateFacilities | backend/src/controllers/dashboardController.ts:12 | two facilities share a cache key exactly when they render alike; only a facility named "null" collides with the null facility |
| Dashboard.Where | backend/src/controllers/dashboardController.ts:24-62 | a WHERE filter keeps exactly the qualifying rows with their multiplicities |
| Dashboard.CountByLevel | backend/src/controllers/dashboardController.ts:32-38 | exactly the levels that occur are keys, and each level's count is the number of rows at that level |
| Dashboard.LevelCount | backend/src/controllers/dashboardController.ts:32-38 | a level's `COUNT(*)` is the number of positions holding a row of that level, positive when the level occurs |
| Dashboard.WhereCountsPositions | backend/src/controllers/dashboardController.ts:24-50 | a WHERE filter keeps as many rows as there are table positions satisfying it |
| Dashboard.ActiveCount | backend/src/controllers/dashboardController.ts:24-29 | the active count is the number of the facility's rows with status pending or in_progress |
| Dashboard.ActiveLevelCounts | backend/src/controllers/dashboardController.ts:32-38 | each level's count is the number of the facility's pending or in-progress rows at that level; completed and cancelled rows and other facilities' rows are not counted |
| Dashboard.ActiveLevelCount | backend/src/controllers/dashboardController.ts:32-38 | for a single level, the active rows at that level are as many as the facility's pending or in-progress rows at that level in the whole table |
| Dashboard.TodayCounts | backend/src/controllers/dashboardController.ts:41-50 | total-today counts the facility's rows created on the current day, and completed-today those of them with status completed |
| Dashboard.ComputeSnapshot | backend/src/controllers/dashboardController.ts:24-70 | the active count is the number of the facility's pending or in-progress rows; the by-level map has one key per level of those rows, each mapped to the number of those rows at that level; total-today is the number of the facility's rows created today and completed-today the number of those with status completed; the waiting list has min(20, active) rows, all active rows of the facility, ranked, and no active row left out ranks ahead of its last entry |
| Dashboard.GetOverview | backend/src/controllers/dashboardController.ts:7-83 | a live cached snapshot is returned with cached=true and no query; on a miss the snapshot is computed, stored for 30 seconds and returned with cached=false; a failing database is an error and stores nothing |
| Dashboard.RepeatWithinTtlIsCached | backend/src/controllers/dashboardController.ts:13-21 | within 30 seconds of a miss, a repeat from the same facility gets the same payload from the cache without a query, whatever the database holds by then |
| Dashboard.ExpiredOverviewIsRecomputed | backend/src/controllers/dashboardController.ts:64-73 | after the TTL the snapshot is recomputed from the current table |
| Dashboard.OverviewEntryExpires | backend/src/controllers/dashboardController.ts:73 | the stored entry is gone once 30 seconds have passed |
| Dashboard.CacheFailureNeverSurfaces | backend/src/controllers/dashboardController.ts:13-79 | with the cache unreachable, the response is the computed one and only database errors surface |
| Dashboard.GetRealTimeData | backend/src/controllers/dashboardController.ts:85-107 | the real-time queue is a ranked permutation of the facility's active rows, with no limit and no cache |
| Dashboard.WaitingListHeadsRealTimeQueue | backend/src/controllers/dashboardController.ts:53-62 | the overview's waiting list is the first min(20, n) entries of the model's single ranking, the one the real-time queue also uses; the database may order rows tied on priority and creation time differently in the two statements |
| Queue.Insert | backend/src/controllers/dashboardController.ts:59 | inserting into a ranked list keeps it ranked and adds exactly that row |
| Queue.Rank | backend/src/controllers/dashboardController.ts:59 | the ranking is ordered by priority descending, then creation ascending, and is a permutation of its input |
| Queue.Take | backend/src/controllers/dashboardController.ts:60 | `LIMIT n` keeps min(n, len) rows of the ranked list, and the last kept row outranks every row left out |
| Queue.AheadTotal | backend/src/controllers/dashboardController.ts:59 | any two rows are comparable in queue order |
| Errors.NewAppError | backend/src/middleware/errorHandler.ts:4-14 | an AppError keeps its message and status and is always operational |
| Errors.HandleError | backend/src/middleware/errorHandler.ts:16-46 | an AppError answers with its own status and message; anything else is a 500 'Internal server error'; details appear only for an unexpected error in development |
| Errors.UnexpectedErrorsIndistinguishable | backend/src/middleware/errorHandler.ts:35-45 | outside development two unexpected errors produce the same response |
| Upload.FileFilter | backend/src/middleware/upload.ts:12-25 | a MIME type is accepted exactly when it is one of the four video types, else rejected with the invalid-file-type message |
| Upload.AcceptUpload | backend/src/middleware/upload.ts:7-26 | no file is no error; a file passes exactly when its type is allowed and it fits the limit; a bad type gets the filter's error |
| Upload.MimeMatchIsExact | backend/src/middleware/upload.ts:9-18 | the limit is 104857600 bytes; 'video/ogg', 'VIDEO/MP4' and 'video/MP4' are rejected |
| AuthMiddleware.BearerToken | backend/src/middleware/auth.ts:21-27 | a token is extracted exactly when the header starts with 'Bearer ', and it is the rest of the header |
| AuthMiddleware.Authenticate | backend/src/middleware/auth.ts:15-66 | every failure is a 401; a missing or malformed header is 'Authentication required'; 'User not found or inactive' exactly when the token verifies but the user is missing or inactive; success exactly when the token verifies and the user is active; the facility is the claim's when truthy, else the account's |
| AuthMiddleware.SchemeIsCaseSensitive | backend/src/middleware/auth.ts:23 | a lower-case scheme is rejected, "Bearer" without a space works only if the token itself starts with a space, and the exact prefix yields the token |
| AuthMiddleware.FacilityFallsBackToAccount | backend/src/middleware/auth.ts:55 | a token without a facility inherits the account's facility |
| AuthMiddleware.RequireRole | backend/src/middleware/auth.ts:68-80 | passes exactly when there is a user whose role is listed; no user is a 401, an unlisted role a 403 |
| Routes.AllowedRoles | backend/src/routes/triage.ts:13-35 | role lists are non-empty and drawn from the four roles; an endpoint is open to every authenticated role exactly when it is a read outside statistics and the admin router, or the recording of vital signs; the admin router lists only admin |
| Routes.Admit | backend/src/routes/triage.ts:10-35 | authentication failures pass through unchanged; a request is admitted exactly when it authenticates, its role is permitted, and (for triage creation) the upload is accepted; a forbidden role is a 403 |
| Routes.AdminRouterIsAdminOnly | backend/src/routes/admin.ts:8-13 | the admin router exposes exactly users, audit-logs and system-stats, and each admits only the admin role |
| Routes.AdminGate | backend/src/routes/admin.ts:8-9 | an anonymous request is a 401 before any role check; an authenticated non-admin is a 403 |
| Routes.ParamedicPermissions | backend/src/routes/patients.ts:10-20 | a paramedic may read patients but not create or change them, may create a triage, and may not change a status or see statistics |
| Routes.OpenEndpoints | backend/src/routes/triage.ts:20-23 | endpoints without a role list admit every authenticated role |
| Routes.RoleCheckPrecedesUpload | backend/src/routes/triage.ts:13-17 | for triage creation, a forbidden role gets 403 whatever file is attached, and a permitted role with a non-video file gets a 500 |
| AuthController.FindByEmail | backend/src/controllers/authController.ts:72-75 | the account found has the email; none is found exactly when no account has it |
| AuthController.FindById | backend/src/controllers/authController.ts:138-141 | a query error exactly when the store is down; no row exactly when no account has the id; a found row is that account's |
| AuthController.GenerateToken | backend/src/controllers/authController.ts:168-186 | fails exactly when the secret is missing; the claims are the four given values and the expiry is the configured one or '24h' |
| AuthController.Register | backend/src/controllers/authController.ts:9-61 | a missing field is a 400 before any query; an existing email is a 409 with no insert; the table grows only by the new account (a falsy facility stored as null); a success returns that account and a token for it |
| AuthController.RegisterWithoutSecretKeepsAccount | backend/src/controllers/authController.ts:31-41 | with no secret, registration fails with a 500 yet the account is already written |
| AuthController.Login | backend/src/controllers/authController.ts:63-115 | the checks run in order: missing fields 400, unknown email 401, inactive 403, wrong password 401, then a token for the account; the table never changes |
| AuthController.LoginHidesWhichCredentialFailed | backend/src/controllers/authController.ts:77-92 | an unknown email and a wrong password for an active account give the same response |
| AuthController.InactiveCheckedBeforePassword | backend/src/controllers/authController.ts:83-92 | an inactive account is a 403 whatever password is sent |
| AuthController.Refresh | backend/src/controllers/authController.ts:117-157 | no token is a 400 and no secret a 500, both before any query; the table is queried exactly when the token verifies; a new token carries the current row's id, email, role and facility |
| AuthController.RefreshUsesCurrentAccount | backend/src/controllers/authController.ts:143-148 | two tokens of the same user refresh identically, whatever role or facility they claimed |
| AuthController.Logout | backend/src/controllers/authController.ts:159-166 | logout always succeeds and touches nothing |
| AuthController.RegisteredAccountCanLogIn | backend/src/controllers/authController.ts:9-115 | a freshly registered account logs in with its password and gets back the same public user |
| PatientController.CreatePatient | backend/src/controllers/patientController.ts:8-48 | name, age and gender must be truthy, else 400 with no change; success exactly when they are and the store answers; the table grows by the new row only |
| PatientController.CreatedRowColumns | backend/src/controllers/patientController.ts:17-33 | the new row holds the demographics as sent, a falsy date of birth, record number or history as null, allergies serialised, and the caller's facility |
| PatientController.AgeZeroIsRefused | backend/src/controllers/patientController.ts:13-15 | an age of 0 is falsy, so the patient is refused |
| PatientController.WhitelistedMembers | backend/src/controllers/patientController.ts:142-143 | the entries kept are exactly the body's entries with an allowed key |
| PatientController.WhitelistedKeepsDistinct | backend/src/controllers/patientController.ts:142-143 | filtering keeps the body's keys distinct |
| PatientController.Statement | backend/src/controllers/patientController.ts:138-167 | no allowed key is the 400 'No valid fields to update'; otherwise the SET list numbers the allowed keys $1..n, then `updated_at = NOW()`, with the id at $(n+1) |
| PatientController.StatementAt | backend/src/controllers/patientController.ts:142-151 | the k-th allowed key's column takes placeholder $(k+1), and its value sits at that parameter |
| PatientController.CollectFields | backend/src/controllers/patientController.ts:142-153 | the loop produces exactly the SET items and values of the allowed entries, in order |
| PatientController.BuildUpdate | backend/src/controllers/patientController.ts:138-167 | the statement the handler assembles is the one specified |
| PatientController.AllowedKeyRoundTrip | backend/src/controllers/patientController.ts:133-144 | every allowed key is recovered from its column name |
| PatientController.AllowedColumnsDistinct | backend/src/controllers/patientController.ts:133-144 | distinct allowed keys name distinct columns |
| PatientController.AllowedColumnIsNotUpdatedAt | backend/src/controllers/patientController.ts:133-159 | no allowed key's column is `updated_at` |
| PatientController.LastWriteOfKey | backend/src/controllers/patientController.ts:142-165 | with distinct body keys, the only SET item for an allowed key's column writes that key's value |
| PatientController.UpdateWritesBody | backend/src/controllers/patientController.ts:142-168 | after the update every allowed key's column holds the body's value, with allergies serialised |
| PatientController.UpdateStampsTime | backend/src/controllers/patientController.ts:159 | `updated_at` is stamped with the clock |
| PatientController.UpdateLeavesUnlistedColumns | backend/src/controllers/patientController.ts:133-168 | any column that is not an allowed key's and not `updated_at` keeps its value |
| PatientController.FacilityIsNeverUpdated | backend/src/controllers/patientController.ts:133-136 | an update never moves a patient to another facility |
| PatientController.UpdatePatient | backend/src/controllers/patientController.ts:128-181 | no allowed key is a 400 before the store; success exactly when a key is allowed, the store answers and the id exists; a missing id is a 404; every row with the id gets the SET list, the first of them is returned, and every other row is unchanged |
| PatientController.PatientFilter | backend/src/controllers/patientController.ts:84-92 | the facility is $1; a search adds one parameter '%search%' used by both the name and record-number tests at $2 |
| PatientController.PatientsQuery | backend/src/controllers/patientController.ts:94-105 | the filter's parameters, then LIMIT and OFFSET at the next two slots with defaults 1 and 50, newest first, executable |
| PatientController.CountQueryAsWritten | backend/src/controllers/patientController.ts:107-112 | the count query as written: the filter's conditions with `params.slice(0, -2)` bound |
| PatientController.CountQueryAsWrittenNeverExecutes | backend/src/controllers/patientController.ts:107-112 | as written it binds no parameter while its SQL names $1, so it can never run |
| PatientController.CountQuery | backend/src/controllers/patientController.ts:107-112 | the count query binding the filter's own parameters is executable |
| PatientController.ListingQueriesAgree | backend/src/controllers/patientController.ts:94-112 | the corrected count sees the page's conditions and the page's parameters without LIMIT and OFFSET |
| AdminController.Listing | backend/src/controllers/adminController.ts:11-36 | the applied filters are numbered from $1; the WHERE clause is empty exactly when no filter is truthy; LIMIT and OFFSET take the next two slots; the order is the one given; executable |
| AdminController.UsersQuery | backend/src/controllers/adminController.ts:6-45 | role then facility numbered from $1; no WHERE clause exactly when neither is given; limit default 50 and offset (page-1)*limit; newest first; executable |
| AdminController.AuditLogsQuery | backend/src/controllers/adminController.ts:47-97 | action, user, start (>=) and end (<=) numbered from $1; no WHERE clause exactly when none is given; limit default 100; newest first; every placeholder names a parameter and every parameter is named; with the date bounds qualified by the audit table, no condition names a column both joined tables have |
| AdminController.AuditLogsQueryAsWritten | backend/src/controllers/adminController.ts:57-87 | the listing as written, with bare `created_at` date bounds, numbered from $1 with placeholders matching parameters |
| AdminController.AsWrittenDateBoundIsAmbiguous | backend/src/controllers/adminController.ts:67-87 | as written, the statement names a column of both `audit_logs` and `users` exactly when a start or end date is given |
| AdminController.QualifiedDateBoundsAreUnambiguous | backend/src/controllers/adminController.ts:57-87 | with `a.created_at` in the date bounds, no condition of the audit listing is ambiguous under the join |
| AdminController.AuditColumnVerdicts | backend/src/controllers/adminController.ts:30-84 | of the columns the audit filters name, only a bare `created_at` belongs to both joined tables |
| AdminController.FacilityOnlyUsersQuery | backend/src/controllers/adminController.ts:20-35 | with only a facility filter, it is $1 and the page pair is $2 and $3 |
| VitalSignsController.CreateVitalSigns | backend/src/controllers/vitalSignsController.ts:8-43 | a 400 unless both patient id and readings are truthy; the stored row has the readings serialised, the source or 'manual', and the caller as recorder |
| VitalSignsController.EmptyObjectIsAccepted | backend/src/controllers/vitalSignsController.ts:13-25 | an empty readings object is accepted with source 'manual', while 0 is refused |
| VitalSignsController.HistoryQuery | backend/src/controllers/vitalSignsController.ts:45-65 | patient at $1, `LIMIT $2` defaulting to 50, newest first, executable |
| Sql.Push | backend/src/controllers/adminController.ts:15-18 | pushing a condition and its value keeps the builder sound, and the new placeholder names the new value |
| Sql.AddFilters | backend/src/controllers/triageController.ts:147-170 | applying the filters keeps the builder sound and appends exactly the truthy filters' conditions and values, numbered on from the counter |
| Sql.NoneApplied | backend/src/controllers/adminController.ts:25-27 | no filter is applied exactly when none is truthy |
| Sql.PresentMembers | backend/src/controllers/adminController.ts:15-23 | only truthy filters are applied, and none of them is dropped |
| Sql.FilterPlaceholders | backend/src/controllers/triageController.ts:147-170 | the k-th applied filter's placeholder names that filter's value |
| Sql.Paging | backend/src/controllers/adminController.ts:8-9 | the limit is the given one or the default; the offset is (page-1)*limit, 0 without a page |
| Sql.Paged | backend/src/controllers/adminController.ts:29-35 | LIMIT and OFFSET take the two slots after the parameters and name the limit and offset values |
| Sql.PagedIsExecutable | backend/src/controllers/triageController.ts:174-184 | a sound builder whose conditions use every parameter gives an executable page query |
| Sql.UnpagedIsExecutable | backend/src/controllers/triageController.ts:186-191 | the same conditions without a page are executable on their own parameters |
| Sql.Unpaged | backend/src/controllers/triageController.ts:186-191 | the count form keeps the conditions and parameters and has no LIMIT or OFFSET |
| Sql.FiltersCoverParams | backend/src/controllers/triageController.ts:147-170 | each filter added names its own parameter, so a builder whose parameters are all used stays so |
| Sql.PageFollowsFilters | backend/src/controllers/triageController.ts:172-183 | LIMIT and OFFSET take the two slots right after the applied filters |
| Sql.FilteredPageExecutable | backend/src/controllers/triageController.ts:143-184 | filters added to a sound, covered builder and then paged give an executable statement |
| Sql.PagedKeepsNumbering | backend/src/controllers/triageController.ts:147-183 | the filters keep their numbering once the page pair is appended |
| Sql.PlaceholderNamesOneSlot | backend/src/controllers/triageController.ts:148 | two placeholders are the same text exactly when they name the same slot |
| Sql.WhereClause | backend/src/controllers/adminController.ts:25-27 | the clause is empty exactly when there is no condition, and otherwise starts with "WHERE " |
| Records.ParseStatus | backend/src/controllers/triageController.ts:214-217 | a status is accepted exactly when it is one of the four wire names, exactly and case-sensitively |
| Records.StatusNameRoundTrip | backend/src/controllers/triageController.ts:214 | every status's wire name parses back to it |

## Left out

- SQL execution, the connection pool and the JOIN columns (`patient_name`, `age`, `gender`, `assessor_name`, `user_name`) are not modelled. Queries are values: their conditions, parameters, order and page slots. Rows are abstract records. The inner JOIN with `patients` in the dashboard and triage listings is taken to keep every row.
- `getTriageById`, `getPatientById` and `getSystemStats` are left out. They are single fixed queries with no decision logic; `getSystemStats` appears only as an admin-only endpoint in `Routes`.
- The AVG, MIN and MAX wait statistics of `getStatistics` and of the dashboard's `todayStats` are left out, because they are floating-point epoch arithmetic. The statistics model stops at the shared WHERE clause and parameters.
- `parseInt` is taken to succeed on `page` and `limit`; its NaN results are not modelled.
- Lower-casing is ASCII only; Unicode case folding is not modelled.
- HTTP calls to the AI service, their timeouts and `FormData`: the results are injected as `Option` values (`None` is failure).
- `jwt.sign`/`jwt.verify`: a token is a symbolic record and verification an opaque function. `bcrypt.hash`/`compare` are parameters.
- The Socket.IO transport, concurrency and delivery are not modelled: the hub is one sequential state. Socket.IO itself removes a socket from its rooms on disconnect; the application handler only logs.
- JSON serialisation of the overview snapshot and of stored values is the identity. The stored string is never empty, so "truthy cached string" is "live entry".
- The database defaults are taken as given: a new account is active, and a row's id is supplied as a parameter.
- `connectRedis` and the client's event handlers, logging, `ai-service/src/main.py`, `backend/src/index.ts` and the frontend are not part of this model.
- The backend's vitals readings (`BackendTriage.VitalSigns`) are numbers, missing or null. A boolean or string reading in the analyser's JSON is not modelled, because the backend's interface types the readings as numbers. The Python side does model booleans and strings.
- `ai-service/src/services/vital_signs_service.py` is not part of this model. It is image processing that returns placeholder readings; the backend's view of it is the injected analyser answer.
- The Japanese Emergency Triage Scale named in a type comment is not modelled; the thresholds are the repository's own.

## Findings

| source | as written | input that shows it | evidently intended | confidence | as-written member | corrected member |
|---|---|---|---|---|---|---|
| backend/src/controllers/patientController.ts:107-112 | the count query binds `params.slice(0, -2)`, but `params` never holds LIMIT and OFFSET, so it binds `[]` for both the one- and two-element lists while its SQL names `$1` (and `$2` with a search) | any `GET /patients`, e.g. facility "f1" with no search: count query `WHERE p.facility_id = $1` with no parameters | bind `params` itself, as `getTriages` does for its count | high (not executed) | PatientController.CountQueryAsWritten, PatientController.CountQueryAsWrittenNeverExecutes | PatientController.CountQuery, PatientController.ListingQueriesAgree |
| backend/src/controllers/adminController.ts:67-87 | the date bounds push a bare `created_at >= $k` / `created_at <= $k` into a statement over `audit_logs a LEFT JOIN users u`, and `users` also has `created_at` (line 30) | any `GET /admin/audit-logs?startDate=2024-01-01`: the WHERE clause names `created_at`, which PostgreSQL reports as an ambiguous column reference | qualify the bounds as `a.created_at`, as the ORDER BY on line 84 does | medium (not executed; the audit table's columns are known only from the handler) | AdminController.AuditLogsQueryAsWritten, AdminController.AsWrittenDateBoundIsAmbiguous | AdminController.AuditLogsQuery, AdminController.QualifiedDateBoundsAreUnambiguous |
