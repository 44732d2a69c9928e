/** The Employee schema (backend/model/Employee.js): which request bodies the
    document layer accepts, what record it stores, and the uniqueness of
    `emp_id` and `email` across the collection. */
module EmployeeModel {
  import opened Common
  import opened Schema

  const POSITIONS: seq<string> :=
    ["Project Manager", "Site Manager", "Site Supervisor", "Site Engineer", "Worker"]

  /** The schema's paths, as validation errors name them. */
  const PATHS: set<string> := {"emp_id", "emp_name", "qualification", "age", "email",
    "contact_details.primary", "contact_details.emergency", "position"}

  /** A stored employee; `emergency` is the one optional path. */
  datatype Employee = Employee(
    empId: string,
    empName: string,
    qualification: string,
    age: int,
    email: string,
    primary: string,
    emergency: Option<string>,
    position: string)

  // ---------------------------------------------------------------------
  // The e-mail pattern /.+\@.+\..+/, which is not anchored

  /** One match of the pattern: '@' at `at` with a character before it, '.' at
      `dot` with at least one character between the two, and a character after
      the '.'; `.` never matches a line terminator. */
  predicate EmailMatchAt(s: string, at: int, dot: int) {
    && 1 <= at && at + 1 < dot && dot + 1 < |s|
    && s[at] == '@' && s[dot] == '.'
    && !IsLineTerminator(s[at - 1])
    && (forall k :: at < k < dot ==> !IsLineTerminator(s[k]))
    && !IsLineTerminator(s[dot + 1])
  }

  predicate EmailPattern(s: string) {
    exists at, dot | 0 <= at < |s| && 0 <= dot < |s| :: EmailMatchAt(s, at, dot)
  }

  lemma SampleEmails()
    ensures EmailPattern("a@b.c")
    ensures !EmailPattern("a@b")
    ensures !EmailPattern("@b.c")
    ensures !EmailPattern("a@.c")
    ensures !EmailPattern("a@b.")
  {
    assert EmailMatchAt("a@b.c", 1, 3);
  }

  /** The pattern is unanchored: text around a match does not spoil it. */
  lemma EmailPatternUnanchored(s: string, before: string, after: string)
    requires EmailPattern(s)
    ensures EmailPattern(before + s + after)
  {
    var at, dot :| EmailMatchAt(s, at, dot);
    assert EmailMatchAt(s, at, dot);
    var t := before + s + after;
    var n := |before|;
    assert forall k :: 0 <= k < |s| ==> t[n + k] == s[k];
    assert t[n + at] == '@' && t[n + dot] == '.';
    assert !IsLineTerminator(t[n + at - 1]) && !IsLineTerminator(t[n + dot + 1]);
    forall k | n + at < k < n + dot
      ensures !IsLineTerminator(t[k])
    {
      assert t[k] == s[k - n];
    }
    assert EmailMatchAt(t, n + at, n + dot);
  }

  /** Lower-casing touches neither '@', '.' nor line terminators, so it never
      changes whether an address matches. */
  lemma EmailPatternLower(s: string)
    ensures EmailPattern(Lower(s)) <==> EmailPattern(s)
  {
    var l := Lower(s);
    forall k | 0 <= k < |s|
      ensures l[k] == '@' <==> s[k] == '@'
      ensures l[k] == '.' <==> s[k] == '.'
      ensures IsLineTerminator(l[k]) <==> IsLineTerminator(s[k])
    {
      assert l[k] == LowerChar(s[k]);
    }
    if EmailPattern(s) {
      var at, dot :| 0 <= at < |s| && 0 <= dot < |s| && EmailMatchAt(s, at, dot);
      assert EmailMatchAt(l, at, dot);
    }
    if EmailPattern(l) {
      var at, dot :| 0 <= at < |l| && 0 <= dot < |l| && EmailMatchAt(l, at, dot);
      assert EmailMatchAt(s, at, dot);
    }
  }

  // ---------------------------------------------------------------------
  // Validation of one document

  /** What the schema promises of every stored employee. */
  predicate Valid(e: Employee) {
    && e.empId != ""
    && e.empName != ""
    && e.qualification != ""
    && e.age >= 18
    && e.email != "" && e.email == Lower(e.email) && EmailPattern(e.email)
    && e.primary != ""
    && e.position in POSITIONS
  }

  function Contact(body: Json, key: string): Json {
    Get(Get(body, "contact_details"), key)
  }

  /** The `email` path after the lowercase setter. */
  function EmailCast(body: Json): (r: Cast<string>)
    ensures r.Cast? ==> r.value == Lower(r.value)
  {
    match CastString(Get(body, "email"))
    case Cast(s) => LowerIdempotent(s); Cast(Lower(s))
    case Missing => Missing
    case CastFailed => CastFailed
  }

  predicate AgeFails(c: Cast<int>) {
    !c.Cast? || c.value < 18
  }

  /** The `match` validator lets the empty string through; `required` catches it. */
  predicate EmailFails(c: Cast<string>) {
    RequiredStringFails(c) || !EmailPattern(c.value)
  }

  predicate PositionFails(c: Cast<string>) {
    RequiredStringFails(c) || c.value !in POSITIONS
  }

  /** The paths whose validation fails; the document is saved only when none does. */
  function Errors(body: Json): (e: set<string>)
    ensures e <= PATHS
  {
    (if RequiredStringFails(CastString(Get(body, "emp_id"))) then {"emp_id"} else {})
    + (if RequiredStringFails(CastString(Get(body, "emp_name"))) then {"emp_name"} else {})
    + (if RequiredStringFails(CastString(Get(body, "qualification"))) then {"qualification"} else {})
    + (if AgeFails(CastNumber(Get(body, "age"))) then {"age"} else {})
    + (if EmailFails(EmailCast(body)) then {"email"} else {})
    + (if RequiredStringFails(CastString(Contact(body, "primary"))) then {"contact_details.primary"} else {})
    + (if CastString(Contact(body, "emergency")).CastFailed? then {"contact_details.emergency"} else {})
    + (if PositionFails(CastString(Get(body, "position"))) then {"position"} else {})
  }

  /** `new Employee(body)` followed by validation. */
  function Validate(body: Json): (r: Result<Employee, set<string>>)
    ensures r.Ok? ==> Valid(r.value)
    ensures r.Err? ==> r.error != {} && r.error <= PATHS
  {
    var errors := Errors(body);
    if errors != {} then Err(errors)
    else
      var emergency := CastString(Contact(body, "emergency"));
      Ok(Employee(
        CastString(Get(body, "emp_id")).value,
        CastString(Get(body, "emp_name")).value,
        CastString(Get(body, "qualification")).value,
        CastNumber(Get(body, "age")).value,
        EmailCast(body).value,
        CastString(Contact(body, "primary")).value,
        if emergency.Cast? then Some(emergency.value) else None,
        CastString(Get(body, "position")).value))
  }

  /** The request body that carries a record. */
  function ToJson(e: Employee): Json {
    var contact := map["primary" := Str(e.primary)];
    Obj(map[
      "emp_id" := Str(e.empId),
      "emp_name" := Str(e.empName),
      "qualification" := Str(e.qualification),
      "age" := Num(e.age),
      "email" := Str(e.email),
      "contact_details" := Obj(if e.emergency.Some? then contact["emergency" := Str(e.emergency.value)] else contact),
      "position" := Str(e.position)])
  }

  /** Every valid record is accepted unchanged: with the ensures of Validate,
      the documents the schema admits are exactly the valid records. */
  lemma ValidateToJson(e: Employee)
    requires Valid(e)
    ensures Validate(ToJson(e)) == Ok(e)
  {
    var body := ToJson(e);
    assert Get(body, "emp_id") == Str(e.empId) && Get(body, "emp_name") == Str(e.empName);
    assert Get(body, "qualification") == Str(e.qualification) && Get(body, "age") == Num(e.age);
    assert Get(body, "email") == Str(e.email) && Get(body, "position") == Str(e.position);
    assert Contact(body, "primary") == Str(e.primary);
    assert Contact(body, "emergency") == if e.emergency.Some? then Str(e.emergency.value) else Undefined;
    assert Errors(body) == {};
  }

  /** The age boundary: 17 is refused on the `age` path alone, 18 is stored. */
  lemma AgeBoundary(e: Employee)
    requires Valid(e)
    ensures Validate(ToJson(e.(age := 17))) == Err({"age"})
    ensures Validate(ToJson(e.(age := 18))) == Ok(e.(age := 18))
  {
    var young := ToJson(e.(age := 17));
    assert Get(young, "emp_id") == Str(e.empId) && Get(young, "emp_name") == Str(e.empName);
    assert Get(young, "qualification") == Str(e.qualification) && Get(young, "age") == Num(17);
    assert Get(young, "email") == Str(e.email) && Get(young, "position") == Str(e.position);
    assert Contact(young, "primary") == Str(e.primary);
    assert !CastString(Contact(young, "emergency")).CastFailed?;
    assert Errors(young) == {"age"};
    ValidateToJson(e.(age := 18));
  }

  /** Each required top-level path, when left out of the body, is reported. */
  lemma RequiredPaths(e: Employee, path: string)
    requires path in {"emp_id", "emp_name", "qualification", "age", "email", "position"}
    ensures Validate(Obj(ToJson(e).fields - {path})).Err?
    ensures path in Validate(Obj(ToJson(e).fields - {path})).error
  {
    var body := Obj(ToJson(e).fields - {path});
    assert Get(body, path) == Undefined;
  }

  /** `contact_details.primary` is required and `contact_details.emergency` is not. */
  lemma ContactPaths(e: Employee)
    requires Valid(e)
    ensures Validate(ToJson(e.(primary := ""))).Err?
    ensures "contact_details.primary" in Validate(ToJson(e.(primary := ""))).error
    ensures Validate(ToJson(e.(emergency := None))) == Ok(e.(emergency := None))
  {
    var body := ToJson(e.(primary := ""));
    assert Contact(body, "primary") == Str("");
    ValidateToJson(e.(emergency := None));
  }

  /** Only the five listed positions are accepted. */
  lemma PositionEnum(e: Employee, p: string)
    requires Valid(e)
    ensures Validate(ToJson(e.(position := p))).Ok? <==> p in POSITIONS
  {
    var body := ToJson(e.(position := p));
    assert Get(body, "position") == Str(p);
    if p in POSITIONS {
      ValidateToJson(e.(position := p));
    } else {
      assert "position" in Errors(body);
    }
  }

  // ---------------------------------------------------------------------
  // The collection: unique indexes on emp_id and email

  predicate UniqueKeys(m: map<Id, Employee>) {
    forall a, b :: a in m && b in m && a != b ==>
      m[a].empId != m[b].empId && m[a].email != m[b].email
  }

  /** Inserting `e` would violate a unique index. */
  predicate Conflicts(m: map<Id, Employee>, e: Employee) {
    exists k :: k in m && (m[k].empId == e.empId || m[k].email == e.email)
  }

  lemma InsertKeepsUnique(m: map<Id, Employee>, id: Id, e: Employee)
    requires UniqueKeys(m) && id !in m && !Conflicts(m, e)
    ensures UniqueKeys(m[id := e])
  {
  }

  /** Addresses are lower-cased before the index compares them, so an address
      that differs from a stored one only in letter case collides with it. */
  lemma EmailIndexIgnoresCase(m: map<Id, Employee>, k: Id, body: Json)
    requires Validate(body).Ok?
    requires k in m && CastString(Get(body, "email")).Cast?
    requires m[k].email == Lower(CastString(Get(body, "email")).value)
    ensures Conflicts(m, Validate(body).value)
  {
  }
}
