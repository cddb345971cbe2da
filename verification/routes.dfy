/** The route files' middleware chains (backend/src/routes/triage.ts,
    patients.ts, admin.ts, and the authenticate-only vitalSigns.ts and
    dashboard.ts): every endpoint authenticates first, then checks the role
    table, and the triage creation endpoint then accepts its upload. */
module Routes {
  import opened Wrappers
  import opened Jwt
  import opened Errors
  import opened AuthMiddleware
  import opened Upload

  datatype Router = TriageRouter | PatientRouter | AdminRouter | VitalSignsRouter | DashboardRouter

  datatype Verb = Get | Post | Patch

  datatype Endpoint =
    | CreateTriage | GetTriage | ListTriages | UpdateTriageStatus | TriageStatistics
    | CreatePatient | GetPatient | ListPatients | UpdatePatient
    | ListUsers | ListAuditLogs | SystemStats
    | RecordVitalSigns | VitalSignsHistory
    | DashboardOverview | DashboardRealTime

  /** Where each endpoint is mounted, its verb and its path under the mount. */
  function RouterOf(e: Endpoint): Router {
    match e
    case CreateTriage | GetTriage | ListTriages | UpdateTriageStatus | TriageStatistics => TriageRouter
    case CreatePatient | GetPatient | ListPatients | UpdatePatient => PatientRouter
    case ListUsers | ListAuditLogs | SystemStats => AdminRouter
    case RecordVitalSigns | VitalSignsHistory => VitalSignsRouter
    case DashboardOverview | DashboardRealTime => DashboardRouter
  }

  function VerbOf(e: Endpoint): Verb {
    match e
    case CreateTriage | CreatePatient | RecordVitalSigns => Post
    case UpdateTriageStatus | UpdatePatient => Patch
    case _ => Get
  }

  function PathOf(e: Endpoint): string {
    match e
    case CreateTriage => "/"
    case GetTriage => "/:id"
    case ListTriages => "/"
    case UpdateTriageStatus => "/:id/status"
    case TriageStatistics => "/stats/overview"
    case CreatePatient => "/"
    case GetPatient => "/:id"
    case ListPatients => "/"
    case UpdatePatient => "/:id"
    case ListUsers => "/users"
    case ListAuditLogs => "/audit-logs"
    case SystemStats => "/system-stats"
    case RecordVitalSigns => "/"
    case VitalSignsHistory => "/:patientId"
    case DashboardOverview => "/overview"
    case DashboardRealTime => "/realtime"
  }

  const Doctor := "doctor"
  const Nurse := "nurse"
  const Paramedic := "paramedic"
  const Admin := "admin"

  /** The `requireRole(...)` list of an endpoint; `None` when any
      authenticated role may call it. */
  function AllowedRoles(e: Endpoint): (r: Option<seq<string>>)
    ensures r.Some? ==> |r.value| > 0 && forall i :: 0 <= i < |r.value| ==> r.value[i] in {Doctor, Nurse, Paramedic, Admin}
    ensures r.None? <==>
              || (VerbOf(e) == Get && e != TriageStatistics && RouterOf(e) != AdminRouter)
              || e == RecordVitalSigns
    ensures RouterOf(e) == AdminRouter ==> r == Some([Admin])
  {
    match e
    case CreateTriage => Some([Doctor, Nurse, Paramedic])
    case UpdateTriageStatus => Some([Doctor, Nurse])
    case TriageStatistics => Some([Doctor, Nurse, Admin])
    case CreatePatient | UpdatePatient => Some([Doctor, Nurse, Admin])
    case ListUsers | ListAuditLogs | SystemStats => Some([Admin])
    case _ => None
  }

  predicate Permits(e: Endpoint, role: string) {
    AllowedRoles(e).None? || role in AllowedRoles(e).value
  }

  datatype Request = Request(authorization: Option<string>, file: Option<UploadedFile>)

  /** The middleware before the handler: the user the handler sees, or the
      error passed to `next`. */
  function Admit(e: Endpoint, req: Request, secret: Option<string>, verify: Verifier,
                 users: string -> Lookup<UserRow>): (r: Result<AuthUser, Failure>)
    ensures Authenticate(req.authorization, secret, verify, users).Err? ==>
              r == Authenticate(req.authorization, secret, verify, users)
    ensures r.Ok? <==>
              && Authenticate(req.authorization, secret, verify, users).Ok?
              && Permits(e, Authenticate(req.authorization, secret, verify, users).value.role)
              && (e == CreateTriage ==> AcceptUpload(req.file).None?)
    ensures r.Ok? ==> r.value == Authenticate(req.authorization, secret, verify, users).value
    ensures Authenticate(req.authorization, secret, verify, users).Ok?
            && !Permits(e, Authenticate(req.authorization, secret, verify, users).value.role) ==>
              r == Err(NewAppError(InsufficientPermissions, 403))
  {
    var user :- Authenticate(req.authorization, secret, verify, users);
    var roleCheck := match AllowedRoles(e)
      case None => None
      case Some(roles) => RequireRole(Some(user), roles);
    if roleCheck.Some? then Err(roleCheck.value)
    else if e == CreateTriage && AcceptUpload(req.file).Some? then Err(AcceptUpload(req.file).value)
    else Ok(user)
  }

  /** The admin router: exactly three endpoints, all admin-only. */
  lemma AdminRouterIsAdminOnly(e: Endpoint)
    ensures RouterOf(e) == AdminRouter <==> e in {ListUsers, ListAuditLogs, SystemStats}
    ensures RouterOf(e) == AdminRouter ==> forall role :: Permits(e, role) <==> role == Admin
  {
  }

  /** On an admin endpoint an anonymous request gets 401 before any role
      check, and an authenticated non-admin gets 403. */
  lemma AdminGate(e: Endpoint, req: Request, secret: Option<string>, verify: Verifier, users: string -> Lookup<UserRow>)
    requires RouterOf(e) == AdminRouter
    ensures req.authorization.None? ==> Admit(e, req, secret, verify, users) == Err(NewAppError(AuthenticationRequired, 401))
    ensures var auth := Authenticate(req.authorization, secret, verify, users);
      auth.Ok? && auth.value.role != Admin ==> Admit(e, req, secret, verify, users) == Err(NewAppError(InsufficientPermissions, 403))
  {
  }

  /** A paramedic may read patients but not create or change them, may create
      a triage but not change its status, and may not see statistics. */
  lemma ParamedicPermissions(e: Endpoint)
    ensures RouterOf(e) == PatientRouter ==> (Permits(e, Paramedic) <==> VerbOf(e) == Get)
    ensures Permits(CreateTriage, Paramedic)
    ensures !Permits(UpdateTriageStatus, Paramedic) && !Permits(TriageStatistics, Paramedic)
  {
  }

  /** Endpoints without a role list admit every authenticated user. */
  lemma OpenEndpoints(e: Endpoint, role: string)
    requires e in {GetTriage, ListTriages, GetPatient, ListPatients, RecordVitalSigns, VitalSignsHistory,
                   DashboardOverview, DashboardRealTime}
    ensures Permits(e, role)
  {
  }

  /** On triage creation the role check precedes the upload: a caller without
      the role gets 403 whatever file is attached; a permitted caller with a
      non-video file gets the filter's plain error, which the error handler
      turns into a 500. */
  lemma RoleCheckPrecedesUpload(req: Request, secret: Option<string>, verify: Verifier,
                                users: string -> Lookup<UserRow>, nodeEnv: Option<string>)
    requires Authenticate(req.authorization, secret, verify, users).Ok?
    requires req.file.Some? && req.file.value.mimetype !in AllowedMimes
    ensures var role := Authenticate(req.authorization, secret, verify, users).value.role;
      var r := Admit(CreateTriage, req, secret, verify, users);
      && (!Permits(CreateTriage, role) ==> HandleError(r.error, nodeEnv).status == 403)
      && (Permits(CreateTriage, role) ==> r == Err(Unexpected(InvalidFileType)) && HandleError(r.error, nodeEnv).status == 500)
  {
  }
}
