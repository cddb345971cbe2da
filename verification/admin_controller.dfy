/** backend/src/controllers/adminController.ts: the user and audit-log
    listings, each a WHERE clause of optional filters numbered from $1 and a
    LIMIT/OFFSET page, newest first. */
module AdminController {
  import opened Wrappers
  import opened Js
  import opened Sql

  const UsersDefaultLimit := 50
  const AuditLogsDefaultLimit := 100

  datatype UserFilters = UserFilters(role: Option<string>, facilityId: Option<string>)

  datatype AuditFilters = AuditFilters(action: Option<string>, userId: Option<string>,
                                       startDate: Option<string>, endDate: Option<string>)

  /** The `if (…)` blocks of `getUsers`, in source order. */
  function UserFilterList(f: UserFilters): seq<Filter> {
    [Filter("role", "=", f.role), Filter("facility_id", "=", f.facilityId)]
  }

  /** The `if (…)` blocks of `getAuditLogs` as written (lines 57-75): the date
      bounds name `created_at` without the `a.` that the ORDER BY uses. */
  function AuditFilterListAsWritten(f: AuditFilters): seq<Filter> {
    [Filter("action", "=", f.action), Filter("user_id", "=", f.userId),
     Filter("created_at", ">=", f.startDate), Filter("created_at", "<=", f.endDate)]
  }

  /** The same blocks with the date bounds qualified by the audit table. */
  function AuditFilterList(f: AuditFilters): seq<Filter> {
    [Filter("action", "=", f.action), Filter("user_id", "=", f.userId),
     Filter("a.created_at", ">=", f.startDate), Filter("a.created_at", "<=", f.endDate)]
  }

  /** Columns of the two tables `getAuditLogs` joins, as far as the handlers
      name them: those of `users` from the SELECT of line 30, those of
      `audit_logs` from lines 57-84. */
  const UserColumns: set<string> := {"id", "email", "name", "role", "facility_id", "is_active", "created_at"}
  const AuditLogColumns: set<string> := {"action", "user_id", "created_at"}

  /** Under `FROM audit_logs a LEFT JOIN users u`, PostgreSQL rejects an
      unqualified column that both tables have as an ambiguous reference. */
  predicate AmbiguousInAuditJoin(column: string) {
    column in AuditLogColumns && column in UserColumns
  }

  predicate UnambiguousInAuditJoin(q: Query) {
    forall k :: 0 <= k < |q.conds| ==> forall c :: c in q.conds[k].columns ==> !AmbiguousInAuditJoin(c)
  }

  /** Of the columns the audit filters name, only a bare `created_at` is shared. */
  lemma AuditColumnVerdicts()
    ensures !AmbiguousInAuditJoin("action") && !AmbiguousInAuditJoin("user_id")
    ensures !AmbiguousInAuditJoin("a.created_at") && AmbiguousInAuditJoin("created_at")
  {
    assert "action" != "created_at" && "user_id" != "created_at";
    assert "a.created_at" != "created_at";
  }

  /** Each condition of a listing names the column of an applied filter. */
  lemma ListingColumns(fs: seq<Filter>, page: Option<int>, limit: Option<int>, defaultLimit: int, order: seq<(string, Dir)>)
    ensures var q := Listing(fs, page, limit, defaultLimit, order);
      forall k :: 0 <= k < |q.conds| ==> Present(fs)[k] in fs && q.conds[k].columns == [Present(fs)[k].column]
  {
    PresentMembers(fs);
    var q := Listing(fs, page, limit, defaultLimit, order);
    forall k | 0 <= k < |q.conds|
      ensures Present(fs)[k] in fs && q.conds[k].columns == [Present(fs)[k].column]
    {
      assert Present(fs)[k] in Present(fs);
    }
  }

  /** A listing: the applied filters numbered from `$1`, then the page pair,
      newest first. */
  function Listing(fs: seq<Filter>, page: Option<int>, limit: Option<int>, defaultLimit: int, order: seq<(string, Dir)>)
    : (q: Query)
    ensures Numbered(q, 0, 0, fs)
    ensures WhereClause(q.conds) == "" <==> forall k :: 0 <= k < |fs| ==> !GivenText(fs[k].value)
    ensures |q.params| == |Present(fs)| + 2
    ensures q.limitSlot == Some(|q.params| - 1) && q.params[|q.params| - 2] == PInt(limit.GetOr(defaultLimit))
    ensures q.offsetSlot == Some(|q.params|) && q.params[|q.params| - 1] == PInt((page.GetOr(1) - 1) * limit.GetOr(defaultLimit))
    ensures |q.conds| == |Present(fs)|
    ensures q.order == order
    ensures Executable(q)
  {
    var pg := Paging(page, limit, defaultLimit);
    PagedKeepsNumbering(Empty, fs, pg, order);
    PageFollowsFilters(Empty, fs, pg, order);
    FilteredPageExecutable(Empty, fs, pg, order);
    NoneApplied(fs);
    Paged(AddFilters(Empty, fs), pg, order)
  }

  /** `getUsers` (lines 6-45). */
  function UsersQuery(f: UserFilters, page: Option<int>, limit: Option<int>): (q: Query)
    ensures Numbered(q, 0, 0, UserFilterList(f))
    ensures WhereClause(q.conds) == "" <==> !GivenText(f.role) && !GivenText(f.facilityId)
    ensures |q.params| >= 2 && q.params[|q.params| - 2] == PInt(limit.GetOr(UsersDefaultLimit))
    ensures q.params[|q.params| - 1] == PInt((page.GetOr(1) - 1) * limit.GetOr(UsersDefaultLimit))
    ensures q.order == [("created_at", Desc)]
    ensures Executable(q)
  {
    var fs := UserFilterList(f);
    var q := Listing(fs, page, limit, UsersDefaultLimit, [("created_at", Desc)]);
    assert (forall k :: 0 <= k < |fs| ==> !GivenText(fs[k].value)) <==> !GivenText(f.role) && !GivenText(f.facilityId) by {
      assert fs[0].value == f.role && fs[1].value == f.facilityId;
    }
    q
  }

  /** `getAuditLogs` (lines 47-97). */
  function AuditLogsQuery(f: AuditFilters, page: Option<int>, limit: Option<int>): (q: Query)
    ensures Numbered(q, 0, 0, AuditFilterList(f))
    ensures WhereClause(q.conds) == "" <==>
              !GivenText(f.action) && !GivenText(f.userId) && !GivenText(f.startDate) && !GivenText(f.endDate)
    ensures |q.params| >= 2 && q.params[|q.params| - 2] == PInt(limit.GetOr(AuditLogsDefaultLimit))
    ensures q.params[|q.params| - 1] == PInt((page.GetOr(1) - 1) * limit.GetOr(AuditLogsDefaultLimit))
    ensures q.order == [("a.created_at", Desc)]
    ensures Executable(q)
    ensures UnambiguousInAuditJoin(q)
  {
    var fs := AuditFilterList(f);
    var q := Listing(fs, page, limit, AuditLogsDefaultLimit, [("a.created_at", Desc)]);
    AuditFiltersAbsent(f);
    QualifiedDateBoundsAreUnambiguous(f, page, limit);
    q
  }

  lemma QualifiedDateBoundsAreUnambiguous(f: AuditFilters, page: Option<int>, limit: Option<int>)
    ensures UnambiguousInAuditJoin(Listing(AuditFilterList(f), page, limit, AuditLogsDefaultLimit, [("a.created_at", Desc)]))
  {
    AuditColumnVerdicts();
    AppliedColumnsDecide(AuditFilterList(f), page, limit);
  }

  /** An audit listing is unambiguous when no applied filter names a shared column. */
  lemma AppliedColumnsDecide(fs: seq<Filter>, page: Option<int>, limit: Option<int>)
    requires forall k :: 0 <= k < |fs| && GivenText(fs[k].value) ==> !AmbiguousInAuditJoin(fs[k].column)
    ensures UnambiguousInAuditJoin(Listing(fs, page, limit, AuditLogsDefaultLimit, [("a.created_at", Desc)]))
  {
    var q := Listing(fs, page, limit, AuditLogsDefaultLimit, [("a.created_at", Desc)]);
    ListingColumns(fs, page, limit, AuditLogsDefaultLimit, [("a.created_at", Desc)]);
    PresentMembers(fs);
    forall k | 0 <= k < |q.conds|
      ensures forall c :: c in q.conds[k].columns ==> !AmbiguousInAuditJoin(c)
    {
      var g := Present(fs)[k];
      assert g in Present(fs);
      var j :| 0 <= j < |fs| && fs[j] == g;
    }
  }

  /** No audit filter applies exactly when none of the four is given. */
  lemma AuditFiltersAbsent(f: AuditFilters)
    ensures var fs := AuditFilterList(f);
      (forall k :: 0 <= k < |fs| ==> !GivenText(fs[k].value)) <==>
      !GivenText(f.action) && !GivenText(f.userId) && !GivenText(f.startDate) && !GivenText(f.endDate)
  {
    var fs := AuditFilterList(f);
    assert fs[0].value == f.action && fs[1].value == f.userId;
    assert fs[2].value == f.startDate && fs[3].value == f.endDate;
  }

  /** `getAuditLogs` as written: the same listing over the unqualified date
      bounds. Its placeholders still match its parameters. */
  function AuditLogsQueryAsWritten(f: AuditFilters, page: Option<int>, limit: Option<int>): (q: Query)
    ensures Numbered(q, 0, 0, AuditFilterListAsWritten(f))
    ensures Executable(q)
  {
    Listing(AuditFilterListAsWritten(f), page, limit, AuditLogsDefaultLimit, [("a.created_at", Desc)])
  }

  /** As written, the statement names an ambiguous column exactly when a
      start or end date is given, so every date-bounded request fails. */
  lemma AsWrittenDateBoundIsAmbiguous(f: AuditFilters, page: Option<int>, limit: Option<int>)
    ensures UnambiguousInAuditJoin(AuditLogsQueryAsWritten(f, page, limit)) <==>
              !GivenText(f.startDate) && !GivenText(f.endDate)
  {
    var fs := AuditFilterListAsWritten(f);
    var q := AuditLogsQueryAsWritten(f, page, limit);
    ListingColumns(fs, page, limit, AuditLogsDefaultLimit, [("a.created_at", Desc)]);
    AuditColumnVerdicts();
    if GivenText(f.startDate) || GivenText(f.endDate) {
      var date := if GivenText(f.startDate) then fs[2] else fs[3];
      PresentMembers(fs);
      assert date in Present(fs);
      var k :| 0 <= k < |Present(fs)| && Present(fs)[k] == date;
      assert q.conds[k].columns == ["created_at"];
    } else {
      AppliedColumnsDecide(fs, page, limit);
    }
  }

  /** With only a facility filter, it is `$1` and the page pair is `$2`, `$3`. */
  lemma FacilityOnlyUsersQuery(facilityId: string)
    requires facilityId != ""
    ensures var q := UsersQuery(UserFilters(None, Some(facilityId)), None, None);
      q.conds == [Cond(["facility_id"], "=", 1)] && q.params == [PText(facilityId), PInt(50), PInt(0)]
  {
    var fs := UserFilterList(UserFilters(None, Some(facilityId)));
    assert Present(fs) == [fs[1]];
  }
}
