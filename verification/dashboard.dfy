/** backend/src/controllers/dashboardController.ts: the facility overview,
    served cache-aside through the redis wrappers with a 30-second TTL, and
    the uncached real-time queue. The triage table is a sequence of rows and a
    flag telling whether the database answers; queries are the filters,
    counts and orderings their SQL describes. */
module Dashboard {
  import opened Wrappers
  import opened Records
  import opened Queue
  import opened Cache
  import opened Errors

  const OverviewKeyPrefix := "dashboard:overview:"
  const OverviewTtl: nat := 30
  const WaitingLimit: nat := 20
  const SecondsPerDay: nat := 86400

  /** A template literal renders a null facility as "null". */
  function FacilityText(facilityId: Option<string>): string {
    if facilityId.Some? then facilityId.value else "null"
  }

  /** `dashboard:overview:${facilityId}` (line 12). */
  function OverviewKey(facilityId: Option<string>): string {
    OverviewKeyPrefix + FacilityText(facilityId)
  }

  /** Two facilities share a cache entry exactly when they render alike: only
      a facility literally named "null" collides, with the null facility. */
  lemma OverviewKeysSeparateFacilities(a: Option<string>, b: Option<string>)
    ensures OverviewKey(a) == OverviewKey(b) <==> FacilityText(a) == FacilityText(b)
    ensures OverviewKey(a) == OverviewKey(b) ==> a == b || {a, b} == {None, Some("null")}
  {
    if OverviewKey(a) == OverviewKey(b) {
      assert FacilityText(a) == OverviewKey(a)[|OverviewKeyPrefix|..];
      assert FacilityText(b) == OverviewKey(b)[|OverviewKeyPrefix|..];
    }
  }

  // ---------------------------------------------------------------------------
  // The queries.

  /** `facility_id = $1`: SQL's `NULL = NULL` is not true, so a null facility
      matches no row. */
  predicate InFacility(r: TriageRecord, facilityId: Option<string>) {
    facilityId.Some? && r.facilityId == facilityId
  }

  predicate Waiting(r: TriageRecord, facilityId: Option<string>) {
    InFacility(r, facilityId) && IsActive(r.status)
  }

  /** The rows a WHERE clause keeps, in table order. */
  function Where(rows: seq<TriageRecord>, keep: TriageRecord -> bool): (r: seq<TriageRecord>)
    ensures |r| <= |rows|
    ensures forall i :: 0 <= i < |r| ==> keep(r[i])
    ensures forall x :: multiset(r)[x] == if keep(x) then multiset(rows)[x] else 0
  {
    if rows == [] then []
    else
      assert rows == [rows[0]] + rows[1..];
      var rest := Where(rows[1..], keep);
      if keep(rows[0]) then [rows[0]] + rest else rest
  }

  function WaitingIn(facilityId: Option<string>): TriageRecord -> bool {
    (r: TriageRecord) => Waiting(r, facilityId)
  }

  function ActiveRows(rows: seq<TriageRecord>, facilityId: Option<string>): seq<TriageRecord> {
    Where(rows, WaitingIn(facilityId))
  }

  function AtLevel(l: string): TriageRecord -> bool {
    (r: TriageRecord) => r.level == l
  }

  function WaitingAtLevel(facilityId: Option<string>, l: string): TriageRecord -> bool {
    (r: TriageRecord) => Waiting(r, facilityId) && r.level == l
  }

  function Levels(rows: seq<TriageRecord>): set<string> {
    set i | 0 <= i < |rows| :: rows[i].level
  }

  /** `GROUP BY triage_level`: one count per level that occurs, namely the
      number of positions holding a row of that level. */
  function CountByLevel(rows: seq<TriageRecord>): (m: map<string, nat>)
    ensures m.Keys == Levels(rows)
    ensures forall l :: l in m ==> m[l] == |set i | 0 <= i < |rows| && rows[i].level == l|
    ensures forall l :: l in m ==> 0 < m[l] <= |rows|
  {
    map l | l in Levels(rows) :: LevelCount(rows, l)
  }

  function LevelCount(rows: seq<TriageRecord>, level: string): (n: nat)
    requires level in Levels(rows)
    ensures n == |set i | 0 <= i < |rows| && rows[i].level == level|
    ensures 0 < n <= |rows|
  {
    var matching := Where(rows, AtLevel(level));
    var i :| 0 <= i < |rows| && rows[i].level == level;
    assert rows[i] in multiset(rows);
    assert rows[i] in multiset(matching);
    LevelPositions(rows, level);
    |matching|
  }

  /** The positions of the rows a WHERE clause keeps. */
  ghost function Positions(rows: seq<TriageRecord>, keep: TriageRecord -> bool): set<int> {
    set i | 0 <= i < |rows| && keep(rows[i])
  }

  /** The rows a WHERE clause keeps are as many as their positions. */
  lemma {:induction false} WhereCountsPositions(rows: seq<TriageRecord>, keep: TriageRecord -> bool)
    ensures |Where(rows, keep)| == |Positions(rows, keep)|
  {
    if rows == [] {
      assert Positions(rows, keep) == {};
    } else {
      var n := |rows| - 1;
      var init := rows[..n];
      WhereCountsPositions(init, keep);
      assert rows == init + [rows[n]];
      WhereAppend(init, rows[n], keep);
      PositionsAppend(init, rows[n], keep);
    }
  }

  /** A row added at the end adds its own position or none. */
  lemma PositionsAppend(rows: seq<TriageRecord>, x: TriageRecord, keep: TriageRecord -> bool)
    ensures |Positions(rows + [x], keep)| == |Positions(rows, keep)| + if keep(x) then 1 else 0
  {
    var n := |rows|;
    assert n !in Positions(rows, keep);
    assert Positions(rows + [x], keep) == Positions(rows, keep) + (if keep(x) then {n} else {}) by {
      forall i | 0 <= i < n ensures (rows + [x])[i] == rows[i] { }
    }
  }

  /** A row added at the end is kept or not on its own merits. */
  lemma {:induction false} WhereAppend(rows: seq<TriageRecord>, x: TriageRecord, keep: TriageRecord -> bool)
    ensures |Where(rows + [x], keep)| == |Where(rows, keep)| + if keep(x) then 1 else 0
  {
    if rows != [] {
      assert (rows + [x])[1..] == rows[1..] + [x];
      WhereAppend(rows[1..], x, keep);
    }
  }

  /** Filtering twice keeps as many rows as filtering once by both conditions. */
  lemma {:induction false} WhereTwice(rows: seq<TriageRecord>, first: TriageRecord -> bool,
                                      second: TriageRecord -> bool, both: TriageRecord -> bool)
    requires forall r :: both(r) == (first(r) && second(r))
    ensures |Where(Where(rows, first), second)| == |Where(rows, both)|
  {
    if rows != [] {
      WhereTwice(rows[1..], first, second, both);
    }
  }

  /** `DATE(created_at) = CURRENT_DATE`, with days counted from the clock's origin. */
  function Day(t: nat): nat { t / SecondsPerDay }

  function CreatedToday(facilityId: Option<string>, now: nat): TriageRecord -> bool {
    (r: TriageRecord) => InFacility(r, facilityId) && Day(r.createdAt) == Day(now)
  }

  function TodayRows(rows: seq<TriageRecord>, facilityId: Option<string>, now: nat): seq<TriageRecord> {
    Where(rows, CreatedToday(facilityId, now))
  }

  function IsCompleted(r: TriageRecord): bool { r.status == Completed }

  datatype TodayStats = TodayStats(totalToday: nat, completedToday: nat)

  datatype Snapshot = Snapshot(
    activeTriages: nat,
    triagesByLevel: map<string, nat>,
    todayStats: TodayStats,
    waitingPatients: seq<TriageRecord>,
    timestamp: nat)

  /** The four queries of lines 24-62 and the payload of lines 64-70. Each
      count is stated as the number of table positions its WHERE clause
      selects; `avg_wait_time` is not part of the model. */
  function ComputeSnapshot(rows: seq<TriageRecord>, facilityId: Option<string>, now: nat): (s: Snapshot)
    ensures s.activeTriages == |ActiveRows(rows, facilityId)|
    ensures s.activeTriages == |set i | 0 <= i < |rows| && Waiting(rows[i], facilityId)|
    ensures forall l :: l in s.triagesByLevel ==>
              s.triagesByLevel[l] == |set i | 0 <= i < |rows| && Waiting(rows[i], facilityId) && rows[i].level == l|
    ensures forall l :: l in s.triagesByLevel ==> 0 < s.triagesByLevel[l] <= s.activeTriages
    ensures forall i :: 0 <= i < |rows| && Waiting(rows[i], facilityId) ==> rows[i].level in s.triagesByLevel
    ensures s.todayStats.totalToday ==
              |set i | 0 <= i < |rows| && InFacility(rows[i], facilityId) && Day(rows[i].createdAt) == Day(now)|
    ensures s.todayStats.completedToday ==
              |set i | 0 <= i < |rows| && InFacility(rows[i], facilityId) && Day(rows[i].createdAt) == Day(now)
                                       && rows[i].status == Completed|
    ensures s.todayStats.completedToday <= s.todayStats.totalToday
    ensures |s.waitingPatients| == Min(WaitingLimit, s.activeTriages)
    ensures Ranked(s.waitingPatients)
    ensures forall i :: 0 <= i < |s.waitingPatients| ==> Waiting(s.waitingPatients[i], facilityId)
    ensures multiset(s.waitingPatients) <= multiset(ActiveRows(rows, facilityId)) <= multiset(rows)
    ensures forall x :: x in multiset(ActiveRows(rows, facilityId)) - multiset(s.waitingPatients) && 0 < |s.waitingPatients| ==>
              Ahead(s.waitingPatients[|s.waitingPatients| - 1], x)
    ensures s.timestamp == now
  {
    var active := ActiveRows(rows, facilityId);
    var today := TodayRows(rows, facilityId, now);
    var done := Where(today, IsCompleted);
    var waiting := Take(Rank(active), WaitingLimit);
    ActiveLevelsCounted(rows, facilityId);
    ActiveCount(rows, facilityId);
    ActiveLevelCounts(rows, facilityId);
    TodayCounts(rows, facilityId, now);
    KeptRowsQualify(active, waiting, facilityId);
    Snapshot(|active|, CountByLevel(active), TodayStats(|today|, |done|), waiting, now)
  }

  /** Every waiting row of the facility is in the by-level count. */
  lemma ActiveLevelsCounted(rows: seq<TriageRecord>, facilityId: Option<string>)
    ensures forall i :: 0 <= i < |rows| && Waiting(rows[i], facilityId) ==> rows[i].level in Levels(ActiveRows(rows, facilityId))
  {
    var active := ActiveRows(rows, facilityId);
    forall i | 0 <= i < |rows| && Waiting(rows[i], facilityId)
      ensures rows[i].level in Levels(active)
    {
      assert rows[i] in multiset(rows);
      assert rows[i] in multiset(active);
      var j :| 0 <= j < |active| && active[j] == rows[i];
    }
  }

  /** The active count, as positions of the table. */
  lemma ActiveCount(rows: seq<TriageRecord>, facilityId: Option<string>)
    ensures |ActiveRows(rows, facilityId)| == |set i | 0 <= i < |rows| && Waiting(rows[i], facilityId)|
  {
    WhereCountsPositions(rows, WaitingIn(facilityId));
    assert Positions(rows, WaitingIn(facilityId)) == set i | 0 <= i < |rows| && Waiting(rows[i], facilityId);
  }

  /** Each level's count over the active rows, as positions of the table. */
  lemma ActiveLevelCounts(rows: seq<TriageRecord>, facilityId: Option<string>)
    ensures var m := CountByLevel(ActiveRows(rows, facilityId));
      forall l :: l in m ==> m[l] == |set i | 0 <= i < |rows| && Waiting(rows[i], facilityId) && rows[i].level == l|
  {
    var active := ActiveRows(rows, facilityId);
    forall l | l in CountByLevel(active)
      ensures CountByLevel(active)[l] == |set i | 0 <= i < |rows| && Waiting(rows[i], facilityId) && rows[i].level == l|
    {
      ActiveLevelCount(rows, facilityId, l);
    }
  }

  lemma ActiveLevelCount(rows: seq<TriageRecord>, facilityId: Option<string>, l: string)
    ensures var active := ActiveRows(rows, facilityId);
      |set i | 0 <= i < |active| && active[i].level == l| ==
      |set i | 0 <= i < |rows| && Waiting(rows[i], facilityId) && rows[i].level == l|
  {
    WhereTwice(rows, WaitingIn(facilityId), AtLevel(l), WaitingAtLevel(facilityId, l));
    LevelPositions(ActiveRows(rows, facilityId), l);
    WaitingLevelPositions(rows, facilityId, l);
  }

  lemma LevelPositions(rows: seq<TriageRecord>, l: string)
    ensures |Where(rows, AtLevel(l))| == |set i | 0 <= i < |rows| && rows[i].level == l|
  {
    WhereCountsPositions(rows, AtLevel(l));
    assert Positions(rows, AtLevel(l)) == set i | 0 <= i < |rows| && rows[i].level == l;
  }

  lemma WaitingLevelPositions(rows: seq<TriageRecord>, facilityId: Option<string>, l: string)
    ensures |Where(rows, WaitingAtLevel(facilityId, l))| ==
            |set i | 0 <= i < |rows| && Waiting(rows[i], facilityId) && rows[i].level == l|
  {
    WhereCountsPositions(rows, WaitingAtLevel(facilityId, l));
    assert Positions(rows, WaitingAtLevel(facilityId, l)) ==
           set i | 0 <= i < |rows| && Waiting(rows[i], facilityId) && rows[i].level == l;
  }

  /** The two counts of today's statistics, as positions of the table. */
  lemma TodayCounts(rows: seq<TriageRecord>, facilityId: Option<string>, now: nat)
    ensures |TodayRows(rows, facilityId, now)| ==
            |set i | 0 <= i < |rows| && InFacility(rows[i], facilityId) && Day(rows[i].createdAt) == Day(now)|
    ensures |Where(TodayRows(rows, facilityId, now), IsCompleted)| ==
            |set i | 0 <= i < |rows| && InFacility(rows[i], facilityId) && Day(rows[i].createdAt) == Day(now)
                                     && rows[i].status == Completed|
  {
    TodayPositions(rows, facilityId, now);
    WhereTwice(rows, CreatedToday(facilityId, now), IsCompleted, CompletedToday(facilityId, now));
    CompletedTodayPositions(rows, facilityId, now);
  }

  function CompletedToday(facilityId: Option<string>, now: nat): TriageRecord -> bool {
    (r: TriageRecord) => InFacility(r, facilityId) && Day(r.createdAt) == Day(now) && r.status == Completed
  }

  lemma TodayPositions(rows: seq<TriageRecord>, facilityId: Option<string>, now: nat)
    ensures |TodayRows(rows, facilityId, now)| ==
            |set i | 0 <= i < |rows| && InFacility(rows[i], facilityId) && Day(rows[i].createdAt) == Day(now)|
  {
    WhereCountsPositions(rows, CreatedToday(facilityId, now));
    assert Positions(rows, CreatedToday(facilityId, now)) ==
           set i | 0 <= i < |rows| && InFacility(rows[i], facilityId) && Day(rows[i].createdAt) == Day(now);
  }

  lemma CompletedTodayPositions(rows: seq<TriageRecord>, facilityId: Option<string>, now: nat)
    ensures |Where(rows, CompletedToday(facilityId, now))| ==
            |set i | 0 <= i < |rows| && InFacility(rows[i], facilityId) && Day(rows[i].createdAt) == Day(now)
                                     && rows[i].status == Completed|
  {
    WhereCountsPositions(rows, CompletedToday(facilityId, now));
    assert Positions(rows, CompletedToday(facilityId, now)) ==
           set i | 0 <= i < |rows| && InFacility(rows[i], facilityId) && Day(rows[i].createdAt) == Day(now)
                                   && rows[i].status == Completed;
  }

  /** Rows drawn from the waiting rows are waiting rows. */
  lemma KeptRowsQualify(active: seq<TriageRecord>, kept: seq<TriageRecord>, facilityId: Option<string>)
    requires forall i :: 0 <= i < |active| ==> Waiting(active[i], facilityId)
    requires multiset(kept) <= multiset(active)
    ensures forall i :: 0 <= i < |kept| ==> Waiting(kept[i], facilityId)
  {
    forall i | 0 <= i < |kept|
      ensures Waiting(kept[i], facilityId)
    {
      assert kept[i] in multiset(kept);
      assert kept[i] in multiset(active);
      var j :| 0 <= j < |active| && active[j] == kept[i];
    }
  }

  // ---------------------------------------------------------------------------
  // The handlers.

  datatype Database = Database(triages: seq<TriageRecord>, up: bool)

  /** A failing query is thrown to `next(error)`. */
  const QueryFailed := Unexpected("database query failed")

  datatype Overview = Overview(data: Snapshot, cached: bool)

  /** The cache after the call, the response, and whether the database was queried. */
  datatype OverviewCall = OverviewCall(cache: Store<Snapshot>, response: Result<Overview, Failure>, queriedDb: bool)

  /** `getOverview` (lines 7-83). The cache's clock is the request time. The
      stored string is `JSON.stringify` of the snapshot, never empty, so
      "truthy cached string" is "a live entry"; the round trip through JSON is
      the identity here. */
  function GetOverview(cache: Store<Snapshot>, db: Database, facilityId: Option<string>): (c: OverviewCall)
    ensures GetCache(cache, OverviewKey(facilityId)).Some? ==>
              c == OverviewCall(cache, Ok(Overview(GetCache(cache, OverviewKey(facilityId)).value, true)), false)
    ensures GetCache(cache, OverviewKey(facilityId)).None? ==> c.queriedDb && (c.response.Ok? <==> db.up)
    ensures GetCache(cache, OverviewKey(facilityId)).None? && !db.up ==> c.cache == cache
    ensures GetCache(cache, OverviewKey(facilityId)).None? && db.up ==>
              c.response == Ok(Overview(ComputeSnapshot(db.triages, facilityId, cache.now), false))
    ensures GetCache(cache, OverviewKey(facilityId)).None? && db.up ==>
              c.cache == SetCache(cache, OverviewKey(facilityId), c.response.value.data, Some(OverviewTtl))
  {
    var key := OverviewKey(facilityId);
    match GetCache(cache, key)
    case Some(hit) => OverviewCall(cache, Ok(Overview(hit, true)), false)
    case None =>
      if !db.up then OverviewCall(cache, Err(QueryFailed), true)
      else
        var data := ComputeSnapshot(db.triages, facilityId, cache.now);
        OverviewCall(SetCache(cache, key, data, Some(OverviewTtl)), Ok(Overview(data, false)), true)
  }

  /** A miss followed, within 30 seconds, by another request from the same
      facility: the second is served from the cache with the same payload,
      whatever the database holds or whether it answers by then. */
  lemma RepeatWithinTtlIsCached(cache: Store<Snapshot>, db: Database, db': Database,
                                facilityId: Option<string>, later: nat)
    requires cache.reachable && db.up
    requires GetCache(cache, OverviewKey(facilityId)).None?
    requires later < OverviewTtl
    ensures var first := GetOverview(cache, db, facilityId);
      var second := GetOverview(Tick(first.cache, later), db', facilityId);
      second.response == Ok(Overview(first.response.value.data, true)) && !second.queriedDb
  {
    SetThenGet(cache, OverviewKey(facilityId), ComputeSnapshot(db.triages, facilityId, cache.now), Some(OverviewTtl), later);
  }

  /** After the TTL the entry is gone and the snapshot is recomputed. */
  lemma ExpiredOverviewIsRecomputed(cache: Store<Snapshot>, db: Database, db': Database,
                                    facilityId: Option<string>, later: nat)
    requires cache.reachable && db.up && db'.up
    requires GetCache(cache, OverviewKey(facilityId)).None?
    requires OverviewTtl <= later
    ensures var aged := Tick(GetOverview(cache, db, facilityId).cache, later);
      aged.now == cache.now + later && GetOverview(aged, db', facilityId).response == Ok(Overview(ComputeSnapshot(db'.triages, facilityId, aged.now), false))
  {
    var first := GetOverview(cache, db, facilityId);
    var aged := Tick(first.cache, later);
    OverviewEntryExpires(cache, db, facilityId, later);
  }

  /** The entry a miss stores is gone once the TTL has passed. */
  lemma OverviewEntryExpires(cache: Store<Snapshot>, db: Database, facilityId: Option<string>, later: nat)
    requires cache.reachable && db.up
    requires GetCache(cache, OverviewKey(facilityId)).None?
    requires OverviewTtl <= later
    ensures var aged := Tick(GetOverview(cache, db, facilityId).cache, later);
      GetCache(aged, OverviewKey(facilityId)).None? && aged.now == cache.now + later
  {
    var key := OverviewKey(facilityId);
    SetThenGet(cache, key, ComputeSnapshot(db.triages, facilityId, cache.now), Some(OverviewTtl), later);
  }

  /** A cache the client cannot reach costs only the caching: the response is
      the one computed from the database. */
  lemma CacheFailureNeverSurfaces(cache: Store<Snapshot>, db: Database, facilityId: Option<string>)
    requires !cache.reachable
    ensures var c := GetOverview(cache, db, facilityId);
      c.cache == cache
      && (db.up ==> c.response == Ok(Overview(ComputeSnapshot(db.triages, facilityId, cache.now), false)))
      && (!db.up ==> c.response.Err?)
  {
  }

  /** `getRealTimeData` (lines 85-107): the same filter and order with no
      limit; it never consults the cache. */
  function GetRealTimeData(db: Database, facilityId: Option<string>): (r: Result<seq<TriageRecord>, Failure>)
    ensures r.Ok? <==> db.up
    ensures r.Ok? ==> Ranked(r.value) && multiset(r.value) == multiset(ActiveRows(db.triages, facilityId))
  {
    if db.up then Ok(Rank(ActiveRows(db.triages, facilityId))) else Err(QueryFailed)
  }

  /** The overview's waiting list is the head of the model's one ranking of
      the active rows. The two handlers run separate statements, and the
      database may break ties of priority and creation time differently in
      each; the tie-free promise is `ComputeSnapshot`'s: no active row left
      out of the list ranks ahead of its last entry. */
  lemma WaitingListHeadsRealTimeQueue(db: Database, facilityId: Option<string>, now: nat)
    requires db.up
    ensures var queue := GetRealTimeData(db, facilityId).value;
      var waiting := ComputeSnapshot(db.triages, facilityId, now).waitingPatients;
      |waiting| == Min(WaitingLimit, |queue|) && waiting == queue[..|waiting|]
  {
  }
}
