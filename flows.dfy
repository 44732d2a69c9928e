/** Facts that span the client and the server: what the server makes of the
    bodies and headers the pages send. */
module Flows {
  import opened Common
  import opened Schema
  import EmployeeModel
  import ProjectModel
  import Server
  import App
  import Login
  import ProjectPage
  import EmployeeForm

  // ---------------------------------------------------------------------
  // The Authorization header

  /** The header the interceptor attaches carries the stored token to the
      verifier unchanged, as long as the token has no space in it. */
  lemma BearerRoundTrip(s: App.Storage, verify: string -> Option<Server.Claims>)
    requires App.HasToken(s) && ' ' !in s.token.value
    ensures Server.VerifyToken(Login.Authorization(s), verify) ==
      if verify(s.token.value).Some? then Server.Pass(verify(s.token.value).value)
      else Server.Deny(Server.BAD_REQUEST, "Invalid Token")
  {
    Server.BearerExtraction(s.token.value, verify);
  }

  /** With no token stored, no header is sent and protected routes answer 401. */
  lemma NoTokenNoAccess(s: App.Storage, verify: string -> Option<Server.Claims>)
    requires !App.HasToken(s)
    ensures Server.VerifyToken(Login.Authorization(s), verify) == Server.Deny(Server.UNAUTHORIZED, "Access Denied")
  {
  }

  /** After a successful login with a non-empty token and a role, the guard
      lets the page through, and every path a route matches shows that
      route's page. */
  lemma LoginOpensGuardedPages(token: string, user: Login.LoggedInUser, path: string)
    requires token != "" && user.role != ""
    ensures App.PrivateRoute(App.Storage(Some(token), Some(App.Parsed(Login.UserJson(user))))) == App.RenderChildren
    ensures App.Lookup(App.ROUTES, path).Some? ==>
      App.Visit(App.Storage(Some(token), Some(App.Parsed(Login.UserJson(user)))), path)
        == Some(App.Lookup(App.ROUTES, path).value.page)
  {
    App.PrivateRoutePasses(App.Storage(Some(token), Some(App.Parsed(Login.UserJson(user)))));
  }

  // ---------------------------------------------------------------------
  // Staff assignment: only the count reaches the database

  /** The server stores the length of the merged list as `employees`, and
      nothing of the ids themselves. */
  lemma AssignKeepsOnlyCount(p: ProjectModel.Project, merged: seq<Id>)
    requires ProjectModel.Valid(p)
    ensures ProjectModel.Assign(p, ProjectPage.AssignBody(merged)) == Ok(p.(employees := |merged|))
  {
    var body := ProjectPage.AssignBody(merged);
    assert Get(body, "employees") == Num(|merged|);
    var r := ProjectModel.Assign(p, body);
    assert r.value.(employees := p.employees) == p;
  }

  /** Two assignments with different ids but the same number of them leave the
      same stored project. */
  lemma AssignForgetsIds(p: ProjectModel.Project, a: seq<Id>, b: seq<Id>)
    requires |a| == |b|
    ensures ProjectModel.Assign(p, ProjectPage.AssignBody(a)) == ProjectModel.Assign(p, ProjectPage.AssignBody(b))
  {
    var ba, bb := ProjectPage.AssignBody(a), ProjectPage.AssignBody(b);
    assert Get(ba, "employees") == Get(bb, "employees");
  }

  /** A fetched project never carries the ids back: re-fetching after an
      assignment gives the page no list to merge into. */
  lemma RefetchLosesIds(id: Id, p: ProjectModel.Project, date: string, selected: seq<Id>)
    ensures ProjectPage.Merge(ProjectPage.FromServer(id, p, date).assignedEmployeeIds, selected)
      == ProjectPage.Dedup(selected)
  {
    assert [] + selected == selected;
  }

  // ---------------------------------------------------------------------
  // Creating a project from the page's form

  /** A filled form is stored with no employees and its estimation read as a
      number; `assignedEmployeeIds` and `startDate` are not stored. */
  lemma NewProjectStored(form: ProjectPage.ProjectForm, date: string)
    requires form.title != "" && form.description != "" && form.location != ""
    requires form.status in ProjectModel.STATUSES && IsNumeral(form.estimation)
    ensures ProjectModel.Validate(ProjectPage.NewProjectPayload(form, date)) ==
      Ok(ProjectModel.Project(form.title, form.description, form.status, 0, form.location, NumeralValue(form.estimation)))
  {
    var body := ProjectPage.NewProjectPayload(form, date);
    assert Get(body, "description") == Str(form.description);
    assert Get(body, "status") == Str(form.status);
    assert Get(body, "location") == Str(form.location);
    assert ProjectModel.Errors(body) == {};
  }

  /** The initial form has no title, so creating it is refused. */
  lemma EmptyProjectFormRefused(date: string)
    ensures ProjectModel.Validate(ProjectPage.NewProjectPayload(ProjectPage.INITIAL_FORM, date)).Err?
    ensures "title" in ProjectModel.Validate(ProjectPage.NewProjectPayload(ProjectPage.INITIAL_FORM, date)).error
  {
    var body := ProjectPage.NewProjectPayload(ProjectPage.INITIAL_FORM, date);
    assert Get(body, "title") == Str("");
  }

  // ---------------------------------------------------------------------
  // Adding an employee from the form

  /** A form whose fields satisfy the schema is stored with the age read as a
      number, the address lower-cased and the emergency number present (an
      empty input sends ""). */
  lemma EmployeeFormAccepted(form: map<string, string>)
    requires form.Keys == EmployeeForm.FORM_KEYS
    requires form["emp_id"] != "" && form["emp_name"] != "" && form["qualification"] != ""
    requires IsNumeral(form["age"]) && NumeralValue(form["age"]) >= 18
    requires form["email"] != "" && EmployeeModel.EmailPattern(form["email"])
    requires form["contact_primary"] != ""
    requires form["position"] in EmployeeModel.POSITIONS
    ensures EmployeeModel.Validate(EmployeeForm.Payload(form)) == Ok(EmployeeModel.Employee(
      form["emp_id"], form["emp_name"], form["qualification"], NumeralValue(form["age"]),
      Lower(form["email"]), form["contact_primary"], Some(form["contact_emergency"]), form["position"]))
  {
    var body := EmployeeForm.Payload(form);
    EmployeeModel.EmailPatternLower(form["email"]);
    assert Get(body, "email") == Str(form["email"]);
    assert Get(body, "age") == Str(form["age"]);
    assert Get(body, "position") == Str(form["position"]);
    assert EmployeeModel.Errors(body) == {};
  }

  /** The age input is sent as text; text that is not a number is refused on
      the `age` path. */
  lemma EmployeeFormBadAge(form: map<string, string>)
    requires form.Keys == EmployeeForm.FORM_KEYS
    requires NotANumber(form["age"])
    ensures EmployeeModel.Validate(EmployeeForm.Payload(form)).Err?
    ensures "age" in EmployeeModel.Validate(EmployeeForm.Payload(form)).error
  {
    var body := EmployeeForm.Payload(form);
    assert Get(body, "age") == Str(form["age"]);
    NotANumberRefused(form["age"]);
  }

  /** Every option of the position select is accepted by the schema, and the
      schema accepts no other. */
  lemma PositionOptionsAccepted()
    ensures forall o :: o in EmployeeForm.POSITION_OPTIONS <==> o in EmployeeModel.POSITIONS
  {
  }

  /** The initial form is refused: its required fields are empty. */
  lemma InitialEmployeeFormRefused()
    ensures EmployeeModel.Validate(EmployeeForm.Payload(EmployeeForm.INITIAL_FORM)).Err?
  {
    var body := EmployeeForm.Payload(EmployeeForm.INITIAL_FORM);
    assert Get(body, "emp_id") == Str("");
  }
}
