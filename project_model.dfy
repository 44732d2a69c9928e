/** The Project schema (backend/model/Project.js): six required paths, a status
    enum and two Number paths; and what the two ways of changing a stored
    project do to it: an update, which casts but does not validate, and the
    staff assignment, which sets `employees` and saves the whole document. */
module ProjectModel {
  import opened Common
  import opened Schema

  const STATUSES: seq<string> := ["Ongoing", "Completed"]

  /** The six paths of the schema; nothing else is stored. */
  const PATHS: set<string> :=
    {"title", "description", "status", "employees", "location", "estimation"}

  datatype Project = Project(
    title: string,
    description: string,
    status: string,
    employees: int,
    location: string,
    estimation: int)

  /** What the schema's validators promise of a saved project. */
  predicate Valid(p: Project) {
    && p.title != ""
    && p.description != ""
    && p.status in STATUSES
    && p.location != ""
  }

  predicate StatusFails(c: Cast<string>) {
    RequiredStringFails(c) || c.value !in STATUSES
  }

  /** The paths whose validation fails. */
  function Errors(body: Json): (e: set<string>)
    ensures e <= PATHS
  {
    (if RequiredStringFails(CastString(Get(body, "title"))) then {"title"} else {})
    + (if RequiredStringFails(CastString(Get(body, "description"))) then {"description"} else {})
    + (if StatusFails(CastString(Get(body, "status"))) then {"status"} else {})
    + (if RequiredNumberFails(CastNumber(Get(body, "employees"))) then {"employees"} else {})
    + (if RequiredStringFails(CastString(Get(body, "location"))) then {"location"} else {})
    + (if RequiredNumberFails(CastNumber(Get(body, "estimation"))) then {"estimation"} else {})
  }

  /** `new Project(fields)` followed by validation. */
  function Validate(body: Json): (r: Result<Project, set<string>>)
    ensures r.Ok? ==> Valid(r.value)
    ensures r.Err? ==> r.error != {} && r.error <= PATHS
  {
    var errors := Errors(body);
    if errors != {} then Err(errors)
    else
      Ok(Project(
        CastString(Get(body, "title")).value,
        CastString(Get(body, "description")).value,
        CastString(Get(body, "status")).value,
        CastNumber(Get(body, "employees")).value,
        CastString(Get(body, "location")).value,
        CastNumber(Get(body, "estimation")).value))
  }

  /** The document of a stored project, as the server returns it. */
  function ToJson(p: Project): Json {
    Obj(map[
      "title" := Str(p.title),
      "description" := Str(p.description),
      "status" := Str(p.status),
      "employees" := Num(p.employees),
      "location" := Str(p.location),
      "estimation" := Num(p.estimation)])
  }

  lemma ValidateToJson(p: Project)
    requires Valid(p)
    ensures Validate(ToJson(p)) == Ok(p)
  {
    assert Errors(ToJson(p)) == {};
  }

  /** Keys outside the schema, such as `assignedEmployeeIds` or `startDate`,
      change nothing about what is validated or stored. */
  lemma ValidateIgnoresOtherKeys(fields: map<string, Json>, key: string, v: Json)
    requires key !in PATHS
    ensures Validate(Obj(fields[key := v])) == Validate(Obj(fields))
  {
    var a, b := Obj(fields[key := v]), Obj(fields);
    forall path | path in PATHS ensures Get(a, path) == Get(b, path) { }
    assert Errors(a) == Errors(b);
  }

  /** Only "Ongoing" and "Completed" are accepted as a status. */
  lemma StatusEnum(p: Project, status: string)
    requires Valid(p)
    ensures Validate(ToJson(p.(status := status))).Ok? <==> status in STATUSES
  {
    if status in STATUSES {
      ValidateToJson(p.(status := status));
    } else {
      assert "status" in Errors(ToJson(p.(status := status)));
    }
  }

  /** Each of the six paths is required. */
  lemma RequiredPaths(p: Project, path: string)
    requires path in PATHS
    ensures Validate(Obj(ToJson(p).fields - {path})).Err?
    ensures path in Validate(Obj(ToJson(p).fields - {path})).error
  {
    var body := Obj(ToJson(p).fields - {path});
    assert Get(body, path) == Undefined;
  }

  /** `estimation` is a number: a numeral string is stored as its value. */
  lemma NumeralEstimation(p: Project, text: string)
    requires Valid(p) && IsNumeral(text)
    ensures Validate(Obj(ToJson(p).fields["estimation" := Str(text)])) == Ok(p.(estimation := NumeralValue(text)))
  {
    var body := Obj(ToJson(p).fields["estimation" := Str(text)]);
    assert Get(body, "title") == Str(p.title) && Get(body, "description") == Str(p.description);
    assert Get(body, "status") == Str(p.status) && Get(body, "location") == Str(p.location);
    assert Get(body, "employees") == Num(p.employees) && Get(body, "estimation") == Str(text);
    assert Errors(body) == {};
  }

  /** `employees` is a number: text that is not a number is refused on that
      path alone. */
  lemma TextEmployeesRefused(p: Project, text: string)
    requires Valid(p) && NotANumber(text)
    ensures Validate(Obj(ToJson(p).fields["employees" := Str(text)])) == Err({"employees"})
  {
    var body := Obj(ToJson(p).fields["employees" := Str(text)]);
    NotANumberRefused(text);
    assert Get(body, "title") == Str(p.title) && Get(body, "description") == Str(p.description);
    assert Get(body, "status") == Str(p.status) && Get(body, "location") == Str(p.location);
    assert Get(body, "employees") == Str(text) && Get(body, "estimation") == Num(p.estimation);
    assert Errors(body) == {"employees"};
  }

  // ---------------------------------------------------------------------
  // Update: the supplied fields are cast and written, no validator runs

  predicate StringCasts(v: Json) { !CastString(v).CastFailed? }
  predicate NumberCasts(v: Json) { !CastNumber(v).CastFailed? }

  /** No supplied field of the update fails to cast (otherwise the update throws). */
  predicate UpdateCasts(body: Json) {
    && StringCasts(Get(body, "title"))
    && StringCasts(Get(body, "description"))
    && StringCasts(Get(body, "status"))
    && NumberCasts(Get(body, "employees"))
    && StringCasts(Get(body, "location"))
    && NumberCasts(Get(body, "estimation"))
  }

  function NewString(current: string, v: Json): string
    requires StringCasts(v)
  {
    match CastString(v)
    case Cast(s) => s
    case Missing => current
  }

  function NewNumber(current: int, v: Json): int
    requires NumberCasts(v)
  {
    match CastNumber(v)
    case Cast(n) => n
    case Missing => current
  }

  /** The project after `findByIdAndUpdate` with the six fields of the body:
      each field the body supplies takes the cast value, each field it leaves
      out keeps the stored value. */
  function ApplyUpdate(p: Project, body: Json): (q: Project)
    requires UpdateCasts(body)
    ensures q.title == CastString(Get(body, "title")).GetOr(p.title)
    ensures q.description == CastString(Get(body, "description")).GetOr(p.description)
    ensures q.status == CastString(Get(body, "status")).GetOr(p.status)
    ensures q.employees == CastNumber(Get(body, "employees")).GetOr(p.employees)
    ensures q.location == CastString(Get(body, "location")).GetOr(p.location)
    ensures q.estimation == CastNumber(Get(body, "estimation")).GetOr(p.estimation)
  {
    Project(
      NewString(p.title, Get(body, "title")),
      NewString(p.description, Get(body, "description")),
      NewString(p.status, Get(body, "status")),
      NewNumber(p.employees, Get(body, "employees")),
      NewString(p.location, Get(body, "location")),
      NewNumber(p.estimation, Get(body, "estimation")))
  }

  /** An update that supplies nothing leaves the project as it was. */
  lemma UpdateNothing(p: Project)
    ensures UpdateCasts(Obj(map[])) && ApplyUpdate(p, Obj(map[])) == p
  {
  }

  /** Sending the same update twice is the same as sending it once. */
  lemma UpdateIdempotent(p: Project, body: Json)
    requires UpdateCasts(body)
    ensures ApplyUpdate(ApplyUpdate(p, body), body) == ApplyUpdate(p, body)
  {
  }

  /** A full body of a valid project replaces the stored one outright. */
  lemma UpdateWithFullBody(p: Project, q: Project)
    requires Valid(q)
    ensures UpdateCasts(ToJson(q)) && ApplyUpdate(p, ToJson(q)) == q
  {
  }

  /** Without validators an update can store a status outside the enum. */
  lemma UpdateSkipsValidation(p: Project)
    requires Valid(p)
    ensures UpdateCasts(Obj(map["status" := Str("Paused")]))
    ensures !Valid(ApplyUpdate(p, Obj(map["status" := Str("Paused")])))
  {
    var body := Obj(map["status" := Str("Paused")]);
    assert Get(body, "status") == Str("Paused");
    assert ApplyUpdate(p, body).status == "Paused";
  }

  // ---------------------------------------------------------------------
  // Assignment: `project.employees = employees; project.save()`

  /** The stored project with `employees` replaced by the body's value,
      validated as a whole before it is saved. */
  function Assign(p: Project, body: Json): (r: Result<Project, set<string>>)
    ensures r.Ok? <==> Valid(p) && CastNumber(Get(body, "employees")).Cast?
    ensures r.Ok? ==> r.value.(employees := p.employees) == p
    ensures r.Ok? ==> r.value.employees == CastNumber(Get(body, "employees")).value
  {
    var doc := Obj(ToJson(p).fields["employees" := Get(body, "employees")]);
    assert Get(doc, "title") == Str(p.title);
    assert Get(doc, "description") == Str(p.description);
    assert Get(doc, "status") == Str(p.status);
    assert Get(doc, "location") == Str(p.location);
    assert Get(doc, "estimation") == Num(p.estimation);
    Validate(doc)
  }

  /** Assigning the count a project already has changes nothing. */
  lemma AssignSameCount(p: Project)
    requires Valid(p)
    ensures Assign(p, Obj(map["employees" := Num(p.employees)])) == Ok(p)
  {
  }
}
