/** backend/src/controllers/patientController.ts: registering a patient, the
    whitelisted partial update, and the paged, searchable listing. A patient
    row is its id and its named column values. */
module PatientController {
  import opened Wrappers
  import opened Text
  import opened Js
  import opened Errors
  import opened Sql
  import opened AuthMiddleware

  const DefaultLimit := 50
  const MissingDemographics := NewAppError("Name, age, and gender are required", 400)
  const NoValidFields := NewAppError("No valid fields to update", 400)
  const PatientNotFound := NewAppError("Patient not found", 404)
  const QueryFailed := Unexpected("database query failed")

  // ---------------------------------------------------------------------------
  // Rows.

  datatype PatientRow = PatientRow(id: string, columns: seq<(string, Param)>)

  datatype PatientTable = PatientTable(rows: seq<PatientRow>, up: bool)

  /** The value stored under a column name, if the row has that column. */
  function Column(cols: seq<(string, Param)>, name: string): Option<Param> {
    if cols == [] then None
    else if cols[0].0 == name then Some(cols[0].1)
    else Column(cols[1..], name)
  }

  /** `SET name = v`: overwrite the column in place, or add it. */
  function SetColumn(cols: seq<(string, Param)>, name: string, v: Param): (r: seq<(string, Param)>)
  {
    if cols == [] then [(name, v)]
    else if cols[0].0 == name then [(name, v)] + cols[1..]
    else [cols[0]] + SetColumn(cols[1..], name, v)
  }

  /** Writing a column is seen by that column and by no other. */
  lemma {:induction false} SetColumnReads(cols: seq<(string, Param)>, name: string, v: Param, other: string)
    ensures Column(SetColumn(cols, name, v), other) == if other == name then Some(v) else Column(cols, other)
  {
    if cols != [] && cols[0].0 != name {
      SetColumnReads(cols[1..], name, v, other);
    }
  }

  // ---------------------------------------------------------------------------
  // createPatient (lines 8-48).

  datatype NewPatient = NewPatient(name: Option<Json>, age: Option<Json>, gender: Option<Json>,
                                   dateOfBirth: Option<Json>, medicalRecordNumber: Option<Json>,
                                   allergies: Option<Json>, medicalHistory: Option<Json>)

  /** `v || null`. */
  function OrNull(v: Option<Json>): Param {
    if Given(v) then ParamOf(v.value) else PNull
  }

  /** The INSERT's column list with its eight parameters and `created_at = NOW()`. */
  function InsertColumns(body: NewPatient, facilityId: Option<string>, now: nat): seq<(string, Param)> {
    [("name", OrNull(body.name)), ("age", OrNull(body.age)), ("gender", OrNull(body.gender)),
     ("date_of_birth", OrNull(body.dateOfBirth)),
     ("medical_record_number", OrNull(body.medicalRecordNumber)),
     ("allergies", if Given(body.allergies) then PSerialized(body.allergies.value) else PNull),
     ("medical_history", OrNull(body.medicalHistory)),
     ("facility_id", TextParam(facilityId)),
     ("created_at", PInt(now))]
  }

  predicate HasDemographics(body: NewPatient) {
    Given(body.name) && Given(body.age) && Given(body.gender)
  }

  function CreatePatient(table: PatientTable, user: AuthUser, body: NewPatient, newId: string, now: nat)
    : (r: (PatientTable, Result<PatientRow, Failure>))
    ensures !HasDemographics(body) ==> r == (table, Err(MissingDemographics))
    ensures r.1.Ok? <==> HasDemographics(body) && table.up
    ensures r.1.Err? ==> r.0 == table
    ensures r.1.Ok? ==> r.0.rows == table.rows + [r.1.value] && r.1.value.id == newId
  {
    if !HasDemographics(body) then (table, Err(MissingDemographics))
    else if !table.up then (table, Err(QueryFailed))
    else
      var row := PatientRow(newId, InsertColumns(body, user.facilityId, now));
      (table.(rows := table.rows + [row]), Ok(row))
  }

  /** A column the list names once reads its own value. */
  lemma {:induction false} ColumnAt(cols: seq<(string, Param)>, i: nat)
    requires i < |cols|
    requires forall j :: 0 <= j < i ==> cols[j].0 != cols[i].0
    ensures Column(cols, cols[i].0) == Some(cols[i].1)
  {
    if i > 0 {
      ColumnAt(cols[1..], i - 1);
    }
  }

  /** What the new row holds: the three demographics as sent, falsy optional
      fields as null, allergies as their JSON text, and the caller's facility. */
  lemma CreatedRowColumns(table: PatientTable, user: AuthUser, body: NewPatient, newId: string, now: nat)
    requires CreatePatient(table, user, body, newId, now).1.Ok?
    ensures var cols := CreatePatient(table, user, body, newId, now).1.value.columns;
      && Column(cols, "name") == Some(ParamOf(body.name.value))
      && Column(cols, "age") == Some(ParamOf(body.age.value))
      && Column(cols, "gender") == Some(ParamOf(body.gender.value))
      && Column(cols, "date_of_birth") == Some(if Given(body.dateOfBirth) then ParamOf(body.dateOfBirth.value) else PNull)
      && Column(cols, "medical_record_number") ==
           Some(if Given(body.medicalRecordNumber) then ParamOf(body.medicalRecordNumber.value) else PNull)
      && Column(cols, "medical_history") ==
           Some(if Given(body.medicalHistory) then ParamOf(body.medicalHistory.value) else PNull)
      && Column(cols, "allergies") == Some(if Given(body.allergies) then PSerialized(body.allergies.value) else PNull)
      && Column(cols, "facility_id") == Some(TextParam(user.facilityId))
      && Column(cols, "created_at") == Some(PInt(now))
  {
    var cols := InsertColumns(body, user.facilityId, now);
    forall i | 0 <= i < |cols|
      ensures Column(cols, cols[i].0) == Some(cols[i].1)
    {
      ColumnAt(cols, i);
    }
    assert cols[2].0 == "gender" && cols[3].0 == "date_of_birth" && cols[4].0 == "medical_record_number";
    assert cols[5].0 == "allergies" && cols[6].0 == "medical_history";
    assert cols[7].0 == "facility_id" && cols[8].0 == "created_at";
  }

  /** An age of 0 is falsy, so a newborn entered as age 0 is refused. */
  lemma AgeZeroIsRefused(table: PatientTable, user: AuthUser, body: NewPatient, newId: string, now: nat)
    requires body.age == Some(JNum(0.0))
    ensures CreatePatient(table, user, body, newId, now) == (table, Err(MissingDemographics))
  {
  }

  // ---------------------------------------------------------------------------
  // updatePatient (lines 128-181).

  const AllowedFields: seq<string> :=
    ["name", "age", "gender", "dateOfBirth", "medicalRecordNumber", "allergies", "medicalHistory"]

  predicate Allowed(key: string) { key in AllowedFields }

  /** The body's entries in order, keeping those on the allow list. */
  function Whitelisted(entries: seq<(string, Json)>): seq<(string, Json)>
    decreases |entries|
  {
    if entries == [] then []
    else
      var last := entries[|entries| - 1];
      Whitelisted(entries[..|entries| - 1]) + (if Allowed(last.0) then [last] else [])
  }

  lemma {:induction false} WhitelistedMembers(entries: seq<(string, Json)>)
    ensures forall e :: e in Whitelisted(entries) <==> e in entries && e.0 in AllowedFields
    decreases |entries|
  {
    if entries != [] {
      var init := entries[..|entries| - 1];
      WhitelistedMembers(init);
      assert entries == init + [entries[|entries| - 1]];
    }
  }

  /** Object keys are distinct. */
  predicate DistinctKeys(entries: seq<(string, Json)>) {
    forall i, j :: 0 <= i < j < |entries| ==> entries[i].0 != entries[j].0
  }

  lemma {:induction false} WhitelistedKeepsDistinct(entries: seq<(string, Json)>)
    requires DistinctKeys(entries)
    ensures DistinctKeys(Whitelisted(entries))
    decreases |entries|
  {
    if entries != [] {
      var init := entries[..|entries| - 1];
      var last := entries[|entries| - 1];
      WhitelistedKeepsDistinct(init);
      WhitelistedMembers(init);
      var w := Whitelisted(init);
      if Allowed(last.0) {
        forall i | 0 <= i < |w|
          ensures w[i].0 != last.0
        {
          assert w[i] in init;
          var j :| 0 <= j < |init| && init[j] == w[i];
          assert entries[j] == init[j];
        }
      }
    }
  }

  /** The stored value: a truthy `allergies` is serialised, anything else is bound as is. */
  function UpdateValue(key: string, v: Json): Param {
    if key == "allergies" && Truthy(v) then PSerialized(v) else ParamOf(v)
  }

  /** An item of the SET list: `column = $slot` or `column = NOW()`. */
  datatype SetItem = Assign(column: string, slot: nat) | Now(column: string)

  datatype UpdateStatement = UpdateStatement(sets: seq<SetItem>, params: seq<Param>, idSlot: nat)

  /** The SET items of the whitelisted entries, numbered from `$1`. */
  function AssignmentsFor(w: seq<(string, Json)>): (r: seq<SetItem>)
    ensures |r| == |w|
    decreases |w|
  {
    if w == [] then [] else AssignmentsFor(w[..|w| - 1]) + [Assign(SnakeCase(w[|w| - 1].0), |w|)]
  }

  /** Their values, in the same order. */
  function ValuesOf(w: seq<(string, Json)>): (r: seq<Param>)
    ensures |r| == |w|
    decreases |w|
  {
    if w == [] then [] else ValuesOf(w[..|w| - 1]) + [UpdateValue(w[|w| - 1].0, w[|w| - 1].1)]
  }

  lemma {:induction false} AssignmentAt(w: seq<(string, Json)>, k: nat)
    requires k < |w|
    ensures AssignmentsFor(w)[k] == Assign(SnakeCase(w[k].0), k + 1)
    ensures ValuesOf(w)[k] == UpdateValue(w[k].0, w[k].1)
    decreases |w|
  {
    if k < |w| - 1 {
      AssignmentAt(w[..|w| - 1], k);
    }
  }

  lemma WhitelistedStep(entries: seq<(string, Json)>, i: nat)
    requires i < |entries|
    ensures Whitelisted(entries[..i + 1]) ==
              Whitelisted(entries[..i]) + (if Allowed(entries[i].0) then [entries[i]] else [])
  {
    assert entries[..i + 1][..i] == entries[..i];
  }

  lemma ExtendStatement(w: seq<(string, Json)>, e: (string, Json))
    ensures AssignmentsFor(w + [e]) == AssignmentsFor(w) + [Assign(SnakeCase(e.0), |w| + 1)]
    ensures ValuesOf(w + [e]) == ValuesOf(w) + [UpdateValue(e.0, e.1)]
  {
    assert (w + [e])[..|w|] == w;
  }

  /** The statement the loop assembles, stated over the whitelisted entries. */
  function Statement(entries: seq<(string, Json)>, id: string): (r: Result<UpdateStatement, Failure>)
    ensures r.Err? <==> Whitelisted(entries) == []
    ensures r.Err? ==> r.error == NoValidFields
    ensures r.Ok? ==> var w := Whitelisted(entries);
      && |r.value.sets| == |w| + 1 && |r.value.params| == |w| + 1
      && r.value.sets[|w|] == Now("updated_at")
      && r.value.idSlot == |w| + 1 && r.value.params[|w|] == PText(id)
  {
    var w := Whitelisted(entries);
    if w == [] then Err(NoValidFields)
    else Ok(UpdateStatement(AssignmentsFor(w) + [Now("updated_at")], ValuesOf(w) + [PText(id)], |w| + 1))
  }

  lemma StatementUnfolds(entries: seq<(string, Json)>, id: string)
    ensures var w := Whitelisted(entries);
      Statement(entries, id) ==
        if w == [] then Err(NoValidFields)
        else Ok(UpdateStatement(AssignmentsFor(w) + [Now("updated_at")], ValuesOf(w) + [PText(id)], |w| + 1))
  {
  }

  /** The k-th whitelisted key takes placeholder `$k+1` and its value sits there. */
  lemma StatementAt(entries: seq<(string, Json)>, id: string, k: nat)
    requires Statement(entries, id).Ok? && k < |Whitelisted(entries)|
    ensures var w := Whitelisted(entries); var st := Statement(entries, id).value;
      st.sets[k] == Assign(SnakeCase(w[k].0), k + 1) && st.params[k] == UpdateValue(w[k].0, w[k].1)
  {
    StatementUnfolds(entries, id);
    AssignmentAt(Whitelisted(entries), k);
  }

  /** The handler's loop over `Object.entries(updates)`: each allowed key
      takes the next placeholder and pushes its value. */
  method CollectFields(entries: seq<(string, Json)>) returns (fields: seq<SetItem>, values: seq<Param>)
    ensures fields == AssignmentsFor(Whitelisted(entries))
    ensures values == ValuesOf(Whitelisted(entries))
  {
    fields := [];
    values := [];
    var paramCount := 1;
    ghost var w: seq<(string, Json)> := [];
    var i := 0;
    while i < |entries|
      invariant 0 <= i <= |entries|
      invariant w == Whitelisted(entries[..i])
      invariant fields == AssignmentsFor(w) && values == ValuesOf(w)
      invariant paramCount == |w| + 1
    {
      var key := entries[i].0;
      var value := entries[i].1;
      WhitelistedStep(entries, i);
      if Allowed(key) {
        ExtendStatement(w, entries[i]);
        fields := fields + [Assign(SnakeCase(key), paramCount)];
        paramCount := paramCount + 1;
        values := values + [UpdateValue(key, value)];
        w := w + [entries[i]];
      }
      i := i + 1;
    }
    assert entries[..i] == entries;
  }

  /** The whole statement: the 400 when nothing is allowed, else the SET list
      closed by `updated_at = NOW()` and the id bound after the values. */
  method BuildUpdate(entries: seq<(string, Json)>, id: string) returns (r: Result<UpdateStatement, Failure>)
    ensures r == Statement(entries, id)
  {
    var fields, values := CollectFields(entries);
    StatementUnfolds(entries, id);
    if fields == [] {
      return Err(NoValidFields);
    }
    r := Ok(UpdateStatement(fields + [Now("updated_at")], values + [PText(id)], |fields| + 1));
  }

  /** The value an item writes. */
  function Written(item: SetItem, params: seq<Param>, now: nat): Param {
    match item
    case Assign(_, slot) => if 1 <= slot <= |params| then params[slot - 1] else PNull
    case Now(_) => PInt(now)
  }

  /** PostgreSQL's effect of the SET list on one row. */
  function Execute(cols: seq<(string, Param)>, sets: seq<SetItem>, params: seq<Param>, now: nat): seq<(string, Param)>
    decreases |sets|
  {
    if sets == [] then cols
    else Execute(SetColumn(cols, sets[0].column, Written(sets[0], params, now)), sets[1..], params, now)
  }

  /** The last value the SET list writes to a column, if any. */
  function LastWrite(sets: seq<SetItem>, params: seq<Param>, now: nat, c: string): Option<Param>
    decreases |sets|
  {
    if sets == [] then None
    else
      var later := LastWrite(sets[1..], params, now, c);
      if later.Some? then later
      else if sets[0].column == c then Some(Written(sets[0], params, now))
      else None
  }

  lemma {:induction false} ExecuteReads(cols: seq<(string, Param)>, sets: seq<SetItem>, params: seq<Param>, now: nat, c: string)
    ensures Column(Execute(cols, sets, params, now), c) ==
              var lw := LastWrite(sets, params, now, c); if lw.Some? then lw else Column(cols, c)
    decreases |sets|
  {
    if sets != [] {
      var v := Written(sets[0], params, now);
      ExecuteReads(SetColumn(cols, sets[0].column, v), sets[1..], params, now, c);
      SetColumnReads(cols, sets[0].column, v, c);
    }
  }

  lemma {:induction false} SoleWriter(sets: seq<SetItem>, params: seq<Param>, now: nat, j: nat, c: string)
    requires j < |sets| && sets[j].column == c
    requires forall i :: 0 <= i < |sets| && i != j ==> sets[i].column != c
    ensures LastWrite(sets, params, now, c) == Some(Written(sets[j], params, now))
    decreases |sets|
  {
    if j == 0 {
      NoWriter(sets[1..], params, now, c);
    } else {
      SoleWriter(sets[1..], params, now, j - 1, c);
    }
  }

  lemma {:induction false} NoWriter(sets: seq<SetItem>, params: seq<Param>, now: nat, c: string)
    requires forall i :: 0 <= i < |sets| ==> sets[i].column != c
    ensures LastWrite(sets, params, now, c) == None
    decreases |sets|
  {
    if sets != [] {
      NoWriter(sets[1..], params, now, c);
    }
  }

  lemma AllowedFieldsHaveNoUnderscore()
    ensures forall f :: f in AllowedFields ==> NoUnderscore(f)
  {
  }

  /** The key rewrite is undone on every allowed key. */
  lemma AllowedKeyRoundTrip(key: string)
    requires key in AllowedFields
    ensures CamelCase(SnakeCase(key)) == key
  {
    AllowedFieldsHaveNoUnderscore();
    SnakeCaseRoundTrip(key);
  }

  /** A key starting with a lower-case letter keeps that letter in front. */
  lemma SnakeCaseHead(key: string)
    requires key != [] && !IsUpper(key[0])
    ensures SnakeCase(key) != [] && SnakeCase(key)[0] == key[0]
  {
    assert MarkCapitals(key) == [key[0]] + MarkCapitals(key[1..]);
  }

  lemma AllowedFieldsStartLower()
    ensures forall f :: f in AllowedFields ==> f != [] && 'a' <= f[0] <= 'n' && f[0] != 'f'
  {
  }

  /** An allowed key's column starts with the key's own initial. */
  lemma AllowedColumnInitial(a: string)
    requires a in AllowedFields
    ensures SnakeCase(a) != [] && 'a' <= SnakeCase(a)[0] <= 'n' && SnakeCase(a)[0] != 'f'
  {
    AllowedFieldsStartLower();
    SnakeCaseHead(a);
  }

  /** Distinct allowed keys name distinct columns. */
  lemma AllowedColumnsDistinct(a: string, b: string)
    requires a in AllowedFields && b in AllowedFields && a != b
    ensures SnakeCase(a) != SnakeCase(b)
  {
    AllowedKeyRoundTrip(a);
    AllowedKeyRoundTrip(b);
  }

  /** No allowed key names the `updated_at` column. */
  lemma AllowedColumnIsNotUpdatedAt(a: string)
    requires a in AllowedFields
    ensures SnakeCase(a) != "updated_at"
  {
    AllowedColumnInitial(a);
  }

  lemma WhitelistedAllowed(entries: seq<(string, Json)>, i: nat)
    requires i < |Whitelisted(entries)|
    ensures Whitelisted(entries)[i].0 in AllowedFields
  {
    WhitelistedMembers(entries);
    assert Whitelisted(entries)[i] in Whitelisted(entries);
  }

  /** The row the UPDATE produces. */
  function Updated(row: PatientRow, st: UpdateStatement, now: nat): PatientRow {
    row.(columns := Execute(row.columns, st.sets, st.params, now))
  }

  /** With distinct body keys, no other SET item targets a whitelisted key's column. */
  lemma OneItemPerColumn(entries: seq<(string, Json)>, id: string, k: nat, i: nat)
    requires DistinctKeys(Whitelisted(entries)) && Statement(entries, id).Ok?
    requires k < |Whitelisted(entries)| && i < |Statement(entries, id).value.sets| && i != k
    ensures Statement(entries, id).value.sets[i].column != SnakeCase(Whitelisted(entries)[k].0)
  {
    var w := Whitelisted(entries);
    WhitelistedAllowed(entries, k);
    if i < |w| {
      StatementAt(entries, id, i);
      WhitelistedAllowed(entries, i);
      AllowedColumnsDistinct(w[i].0, w[k].0);
    } else {
      AllowedColumnIsNotUpdatedAt(w[k].0);
    }
  }

  /** The last SET item naming a whitelisted key's column writes that key's value. */
  lemma LastWriteOfKey(entries: seq<(string, Json)>, id: string, now: nat, k: nat)
    requires DistinctKeys(entries) && Statement(entries, id).Ok?
    requires k < |Whitelisted(entries)|
    ensures var w := Whitelisted(entries); var st := Statement(entries, id).value;
      LastWrite(st.sets, st.params, now, SnakeCase(w[k].0)) == Some(UpdateValue(w[k].0, w[k].1))
  {
    var w := Whitelisted(entries);
    var st := Statement(entries, id).value;
    WhitelistedKeepsDistinct(entries);
    StatementAt(entries, id, k);
    forall i | 0 <= i < |st.sets| && i != k
      ensures st.sets[i].column != SnakeCase(w[k].0)
    {
      OneItemPerColumn(entries, id, k, i);
    }
    SoleWriter(st.sets, st.params, now, k, SnakeCase(w[k].0));
  }

  /** Every whitelisted key's column holds the body's value (allergies serialised). */
  lemma UpdateWritesBody(row: PatientRow, entries: seq<(string, Json)>, id: string, now: nat, k: nat)
    requires DistinctKeys(entries) && Statement(entries, id).Ok?
    requires k < |Whitelisted(entries)|
    ensures var w := Whitelisted(entries);
      Column(Updated(row, Statement(entries, id).value, now).columns, SnakeCase(w[k].0)) == Some(UpdateValue(w[k].0, w[k].1))
  {
    var w := Whitelisted(entries);
    var st := Statement(entries, id).value;
    LastWriteOfKey(entries, id, now, k);
    ExecuteReads(row.columns, st.sets, st.params, now, SnakeCase(w[k].0));
  }

  /** `updated_at` is stamped with the clock. */
  lemma UpdateStampsTime(row: PatientRow, entries: seq<(string, Json)>, id: string, now: nat)
    requires Statement(entries, id).Ok?
    ensures Column(Updated(row, Statement(entries, id).value, now).columns, "updated_at") == Some(PInt(now))
  {
    var w := Whitelisted(entries);
    var st := Statement(entries, id).value;
    forall i | 0 <= i < |st.sets| && i != |w|
      ensures st.sets[i].column != "updated_at"
    {
      StatementAt(entries, id, i);
      WhitelistedAllowed(entries, i);
      AllowedColumnIsNotUpdatedAt(w[i].0);
    }
    SoleWriter(st.sets, st.params, now, |w|, "updated_at");
    ExecuteReads(row.columns, st.sets, st.params, now, "updated_at");
  }

  /** Only the allowed keys' columns and `updated_at` change: any other column
      (`facility_id`, `created_at`, `id`, …) keeps its value, whatever the body. */
  lemma UpdateLeavesUnlistedColumns(row: PatientRow, entries: seq<(string, Json)>, id: string, now: nat, c: string)
    requires Statement(entries, id).Ok?
    requires c != "updated_at" && forall f :: f in AllowedFields ==> SnakeCase(f) != c
    ensures Column(Updated(row, Statement(entries, id).value, now).columns, c) == Column(row.columns, c)
  {
    var w := Whitelisted(entries);
    var st := Statement(entries, id).value;
    forall i | 0 <= i < |st.sets|
      ensures st.sets[i].column != c
    {
      if i < |w| {
        StatementAt(entries, id, i);
        WhitelistedAllowed(entries, i);
      }
    }
    NoWriter(st.sets, st.params, now, c);
    ExecuteReads(row.columns, st.sets, st.params, now, c);
  }

  /** An update never moves a patient to another facility. */
  lemma FacilityIsNeverUpdated(row: PatientRow, entries: seq<(string, Json)>, id: string, now: nat)
    requires Statement(entries, id).Ok?
    ensures Column(Updated(row, Statement(entries, id).value, now).columns, "facility_id") == Column(row.columns, "facility_id")
  {
    forall f | f in AllowedFields
      ensures SnakeCase(f) != "facility_id"
    {
      AllowedColumnInitial(f);
    }
    UpdateLeavesUnlistedColumns(row, entries, id, now, "facility_id");
  }

  /** The first row with the id, which `RETURNING *` reports. */
  function FindRow(rows: seq<PatientRow>, id: string): (r: Option<nat>)
    ensures r.Some? ==> r.value < |rows| && rows[r.value].id == id
    ensures r.Some? ==> forall i :: 0 <= i < r.value ==> rows[i].id != id
    ensures r.None? ==> forall i :: 0 <= i < |rows| ==> rows[i].id != id
  {
    if rows == [] then None
    else if rows[0].id == id then Some(0)
    else match FindRow(rows[1..], id)
      case None => None
      case Some(i) => Some(i + 1)
  }

  /** The whole handler: statement, then the UPDATE … WHERE id = $n, then the 404. */
  function UpdatePatient(table: PatientTable, id: string, entries: seq<(string, Json)>, now: nat)
    : (r: (PatientTable, Result<PatientRow, Failure>))
    ensures Whitelisted(entries) == [] ==> r == (table, Err(NoValidFields))
    ensures r.1.Err? ==> r.0 == table
    ensures r.1.Ok? <==> Whitelisted(entries) != [] && table.up && FindRow(table.rows, id).Some?
    ensures Whitelisted(entries) != [] && table.up && FindRow(table.rows, id).None? ==> r.1 == Err(PatientNotFound)
    ensures r.1.Ok? ==>
              && |r.0.rows| == |table.rows|
              && r.1.value == r.0.rows[FindRow(table.rows, id).value]
              && (forall i :: 0 <= i < |table.rows| && table.rows[i].id != id ==> r.0.rows[i] == table.rows[i])
              && (forall i :: 0 <= i < |table.rows| && table.rows[i].id == id ==>
                    r.0.rows[i] == Updated(table.rows[i], Statement(entries, id).value, now))
  {
    match Statement(entries, id)
    case Err(e) => (table, Err(e))
    case Ok(st) =>
      if !table.up then (table, Err(QueryFailed))
      else match FindRow(table.rows, id)
        case None => (table, Err(PatientNotFound))
        case Some(i) =>
          var rows := seq(|table.rows|, j requires 0 <= j < |table.rows| =>
                            if table.rows[j].id == id then Updated(table.rows[j], st, now) else table.rows[j]);
          (table.(rows := rows), Ok(rows[i]))
  }

  // ---------------------------------------------------------------------------
  // getPatients (lines 78-126).

  function SearchPattern(search: string): string {
    "%" + search + "%"
  }

  /** The WHERE conditions and the `params` array before LIMIT and OFFSET:
      the caller's facility at `$1` and, when searching, one pattern at `$2`
      shared by the name and the record number. */
  function PatientFilter(facilityId: Option<string>, search: Option<string>): (b: Builder)
    ensures Sound(b) && CoversParams(b)
    ensures |b.params| == (if GivenText(search) then 2 else 1) && |b.conds| == |b.params|
    ensures b.conds[0] == Cond(["p.facility_id"], "=", 1) && b.params[0] == TextParam(facilityId)
    ensures GivenText(search) ==>
              b.conds[1] == Cond(["p.name", "p.medical_record_number"], "ILIKE", 2)
              && b.params[1] == PText(SearchPattern(search.value))
  {
    var b := Builder([Cond(["p.facility_id"], "=", 1)], [TextParam(facilityId)], 2);
    assert Uses(b.conds, 1) by { assert b.conds[0].slot == 1; }
    if GivenText(search) then
      var r := Push(b, ["p.name", "p.medical_record_number"], "ILIKE", PText(SearchPattern(search.value)));
      assert Uses(r.conds, 1) by { assert r.conds[0].slot == 1; }
      assert Uses(r.conds, 2) by { assert r.conds[1].slot == 2; }
      r
    else b
  }

  /** The page query: newest first, LIMIT and OFFSET after the filter. */
  function PatientsQuery(facilityId: Option<string>, search: Option<string>, page: Option<int>, limit: Option<int>)
    : (q: Query)
    ensures q.conds == PatientFilter(facilityId, search).conds
    ensures |q.params| == |PatientFilter(facilityId, search).params| + 2
    ensures q.params[..|q.params| - 2] == PatientFilter(facilityId, search).params
    ensures q.limitSlot == Some(|q.params| - 1) && q.offsetSlot == Some(|q.params|)
    ensures q.params[|q.params| - 2] == PInt(limit.GetOr(DefaultLimit))
    ensures q.params[|q.params| - 1] == PInt((page.GetOr(1) - 1) * limit.GetOr(DefaultLimit))
    ensures q.order == [("p.created_at", Desc)]
    ensures Executable(q)
  {
    var b := PatientFilter(facilityId, search);
    PagedIsExecutable(b, Paging(page, limit, DefaultLimit), [("p.created_at", Desc)]);
    var q := Paged(b, Paging(page, limit, DefaultLimit), [("p.created_at", Desc)]);
    assert q.params[..|q.params| - 2] == b.params;
    q
  }

  /** `s.slice(0, -2)`: everything but the last two elements. */
  function DropLastTwo<T>(s: seq<T>): seq<T> {
    s[..if |s| >= 2 then |s| - 2 else 0]
  }

  /** The total-count query as the handler issues it: the filter's SQL with
      `params.slice(0, -2)`. The slice was meant for the page query's array,
      but `params` never holds LIMIT and OFFSET, so at most two values lose
      both. */
  function CountQueryAsWritten(facilityId: Option<string>, search: Option<string>): (q: Query)
    ensures q.conds == PatientFilter(facilityId, search).conds
  {
    var b := PatientFilter(facilityId, search);
    Unpaged(b.(params := DropLastTwo(b.params)), [])
  }

  /** The count query as written binds no parameters while its SQL names `$1`:
      PostgreSQL refuses it on every call, so every listing answers 500. */
  lemma CountQueryAsWrittenNeverExecutes(facilityId: Option<string>, search: Option<string>)
    ensures CountQueryAsWritten(facilityId, search).params == []
    ensures !Executable(CountQueryAsWritten(facilityId, search))
  {
    var q := CountQueryAsWritten(facilityId, search);
    assert q.conds[0].slot == 1;
    assert 1 in Slots(q);
  }

  /** The count query binding the filter's own parameters. */
  function CountQuery(facilityId: Option<string>, search: Option<string>): (q: Query)
    ensures q.conds == PatientFilter(facilityId, search).conds
    ensures q.params == PatientFilter(facilityId, search).params
    ensures Executable(q)
  {
    var b := PatientFilter(facilityId, search);
    UnpagedIsExecutable(b, []);
    Unpaged(b, [])
  }

  /** Both queries of a listing see the same filter values, so the total
      counts exactly the rows the pages are cut from. */
  lemma ListingQueriesAgree(facilityId: Option<string>, search: Option<string>, page: Option<int>, limit: Option<int>)
    ensures var list := PatientsQuery(facilityId, search, page, limit);
      var count := CountQuery(facilityId, search);
      list.conds == count.conds && list.params[..|count.params|] == count.params
  {
  }
}
