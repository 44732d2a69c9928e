/** The route handlers of backend/server.js over an in-memory store: sign-up
    and log-in against the users, the token check in front of protected
    routes, create/update/delete/assign on projects and the creation of
    employees. Status codes and messages are those of the handlers. */
module Server {
  import opened Common
  import opened Schema
  import EmployeeModel
  import ProjectModel

  const OK: nat := 200
  const CREATED: nat := 201
  const BAD_REQUEST: nat := 400
  const UNAUTHORIZED: nat := 401
  const NOT_FOUND: nat := 404
  const SERVER_ERROR: nat := 500

  /** An HTTP answer: its status, the `message` of its JSON body when it has
      one, and the value it carries besides. */
  datatype Reply<+T> = Reply(status: nat, message: Option<string>, value: Option<T>)

  // ---------------------------------------------------------------------
  // Passwords: a salted one-way hash; the salt is kept inside the digest

  datatype Digest = Digest(salt: nat, key: string)

  function Hash(kdf: (string, nat) -> string, password: string, salt: nat): (d: Digest)
    ensures d.salt == salt
  {
    Digest(salt, kdf(password, salt))
  }

  /** Recomputes the key with the digest's own salt. */
  predicate Compare(kdf: (string, nat) -> string, password: string, d: Digest) {
    kdf(password, d.salt) == d.key
  }

  lemma CompareHash(kdf: (string, nat) -> string, password: string, salt: nat)
    ensures Compare(kdf, password, Hash(kdf, password, salt))
  {
  }

  // ---------------------------------------------------------------------
  // Users and the token

  /** A stored user: the password is kept only as a digest. */
  datatype User = User(name: string, email: string, password: Digest, role: string)

  /** What log-in returns about the user: no password in any form. */
  datatype PublicUser = PublicUser(id: Id, name: string, email: string, role: string)

  /** The claims signed into a token. */
  datatype Claims = Claims(id: Id, role: string)

  /** The body of a successful log-in. */
  datatype Session = Session(token: string, user: PublicUser)

  predicate UniqueEmails(users: map<Id, User>) {
    forall a, b :: a in users && b in users && a != b ==> users[a].email != users[b].email
  }

  function InvalidCredentials(): Reply<Session> {
    Reply(BAD_REQUEST, Some("Invalid email or password"), None)
  }

  /** The outcome of the token check: refuse with a status, or go on with the claims. */
  datatype Gate = Deny(status: nat, message: string) | Pass(claims: Claims)

  /** `verifyToken`: a missing or empty header is refused with 401; otherwise
      the second space-separated piece of the header is verified, and anything
      that does not verify (including no second piece) is refused with 400. */
  function VerifyToken(header: Option<string>, verify: string -> Option<Claims>): (g: Gate)
    ensures (header.None? || header == Some("")) <==> g == Deny(UNAUTHORIZED, "Access Denied")
    ensures g.Deny? ==> g.status in {UNAUTHORIZED, BAD_REQUEST}
    ensures g.Pass? ==>
      header.Some? && |Split(header.value, ' ')| >= 2 && Split(header.value, ' ')[1] != ""
      && verify(Split(header.value, ' ')[1]) == Some(g.claims)
    ensures header.Some? && header.value != "" && |Split(header.value, ' ')| >= 2
      && Split(header.value, ' ')[1] != "" && verify(Split(header.value, ' ')[1]).Some?
      ==> g == Pass(verify(Split(header.value, ' ')[1]).value)
  {
    if header.None? || header.value == "" then Deny(UNAUTHORIZED, "Access Denied")
    else
      var pieces := Split(header.value, ' ');
      if |pieces| < 2 || pieces[1] == "" then Deny(BAD_REQUEST, "Invalid Token")
      else
        match verify(pieces[1])
        case Some(c) => Pass(c)
        case None => Deny(BAD_REQUEST, "Invalid Token")
  }

  /** The header `Bearer t` hands exactly `t` to the verifier when `t` is a
      non-empty token without spaces. */
  lemma BearerExtraction(token: string, verify: string -> Option<Claims>)
    requires token != "" && ' ' !in token
    ensures VerifyToken(Some("Bearer " + token), verify)
      == if verify(token).Some? then Pass(verify(token).value) else Deny(BAD_REQUEST, "Invalid Token")
  {
    assert "Bearer " + token == "Bearer" + [' '] + token;
    SplitAfterFirst("Bearer", ' ', token);
    SplitNoSeparator(token, ' ');
    assert Split("Bearer " + token, ' ') == ["Bearer", token];
  }

  /** `GET /protected`: welcomes the holder of a valid token by user id. */
  function Protected(header: Option<string>, verify: string -> Option<Claims>): (r: Reply<()>)
    ensures r.status == OK <==> VerifyToken(header, verify).Pass?
    ensures r.status == OK ==>
      r.message == Some("Welcome, user with ID: " + NatToString(VerifyToken(header, verify).claims.id))
  {
    match VerifyToken(header, verify)
    case Deny(status, message) => Reply(status, Some(message), None)
    case Pass(c) => Reply(OK, Some("Welcome, user with ID: " + NatToString(c.id)), None)
  }

  // ---------------------------------------------------------------------
  // The store and its handlers

  class Api {
    /** The key-derivation function behind the password hash. */
    const kdf: (string, nat) -> string
    /** Token signing with the server's secret (one-hour expiry not modelled). */
    const sign: Claims -> string

    var users: map<Id, User>
    var projects: map<Id, ProjectModel.Project>
    var employees: map<Id, EmployeeModel.Employee>
    /** The next fresh document id. */
    var nextId: Id

    ghost predicate Valid()
      reads this
    {
      && (forall id :: id in users ==> id < nextId)
      && (forall id :: id in projects ==> id < nextId)
      && (forall id :: id in employees ==> id < nextId)
      && UniqueEmails(users)
      && EmployeeModel.UniqueKeys(employees)
      && (forall id :: id in employees ==> EmployeeModel.Valid(employees[id]))
    }

    constructor (kdf: (string, nat) -> string, sign: Claims -> string)
      ensures Valid()
      ensures this.kdf == kdf && this.sign == sign
      ensures users == map[] && projects == map[] && employees == map[]
    {
      this.kdf := kdf;
      this.sign := sign;
      users, projects, employees := map[], map[], map[];
      nextId := 0;
    }

    /** `POST /signup`. */
    method Signup(name: string, email: string, password: string, role: string, salt: nat)
      returns (reply: Reply<()>)
      requires Valid()
      modifies this
      ensures Valid()
      ensures projects == old(projects) && employees == old(employees)
      ensures (exists id :: id in old(users) && old(users)[id].email == email) ==>
        reply == Reply(BAD_REQUEST, Some("User already exists"), None) && users == old(users)
      ensures (forall id :: id in old(users) ==> old(users)[id].email != email) ==>
        && reply == Reply(CREATED, Some("User Registered successfully"), None)
        && old(nextId) !in old(users)
        && users == old(users)[old(nextId) := User(name, email, Hash(kdf, password, salt), role)]
    {
      if exists id :: id in users && users[id].email == email {
        reply := Reply(BAD_REQUEST, Some("User already exists"), None);
      } else {
        users := users[nextId := User(name, email, Hash(kdf, password, salt), role)];
        nextId := nextId + 1;
        reply := Reply(CREATED, Some("User Registered successfully"), None);
      }
    }

    /** `POST /login`: an unknown address and a wrong password get the same
      answer; success signs the user's id and role and returns the public view. */
    method Login(email: string, password: string) returns (reply: Reply<Session>)
      requires Valid()
      ensures (forall id :: id in users ==> users[id].email != email) ==> reply == InvalidCredentials()
      ensures forall id :: id in users && users[id].email == email && !Compare(kdf, password, users[id].password) ==>
        reply == InvalidCredentials()
      ensures forall id :: id in users && users[id].email == email && Compare(kdf, password, users[id].password) ==>
        reply == Reply(OK, None, Some(Session(
          sign(Claims(id, users[id].role)),
          PublicUser(id, users[id].name, users[id].email, users[id].role))))
    {
      if id :| id in users && users[id].email == email {
        var u := users[id];
        if !Compare(kdf, password, u.password) {
          reply := InvalidCredentials();
        } else {
          reply := Reply(OK, None, Some(Session(sign(Claims(id, u.role)), PublicUser(id, u.name, u.email, u.role))));
        }
      } else {
        reply := InvalidCredentials();
      }
    }

    /** `POST /api/projects`: any validation failure is answered with 500. */
    method CreateProject(body: Json) returns (reply: Reply<(Id, ProjectModel.Project)>)
      requires Valid()
      modifies this
      ensures Valid()
      ensures users == old(users) && employees == old(employees)
      ensures ProjectModel.Validate(body).Err? ==>
        reply == Reply(SERVER_ERROR, Some("Server error"), None) && projects == old(projects)
      ensures ProjectModel.Validate(body).Ok? ==>
        && old(nextId) !in old(projects)
        && projects == old(projects)[old(nextId) := ProjectModel.Validate(body).value]
        && reply == Reply(CREATED, Some("Project added successfully"),
                          Some((old(nextId), ProjectModel.Validate(body).value)))
    {
      match ProjectModel.Validate(body)
      case Err(_) =>
        reply := Reply(SERVER_ERROR, Some("Server error"), None);
      case Ok(p) =>
        projects := projects[nextId := p];
        reply := Reply(CREATED, Some("Project added successfully"), Some((nextId, p)));
        nextId := nextId + 1;
    }

    /** `PUT /api/projects/:id`: a field that cannot be cast fails the whole
      update with 500, a missing id gives 404, otherwise the supplied fields
      are written without running the validators. */
    method UpdateProject(id: Id, body: Json) returns (reply: Reply<ProjectModel.Project>)
      requires Valid()
      modifies this`projects
      ensures Valid()
      ensures !ProjectModel.UpdateCasts(body) ==>
        reply == Reply(SERVER_ERROR, Some("Server error"), None) && projects == old(projects)
      ensures ProjectModel.UpdateCasts(body) && id !in old(projects) ==>
        reply == Reply(NOT_FOUND, Some("Project not found"), None) && projects == old(projects)
      ensures ProjectModel.UpdateCasts(body) && id in old(projects) ==>
        && projects == old(projects)[id := ProjectModel.ApplyUpdate(old(projects)[id], body)]
        && reply == Reply(OK, Some("Project updated successfully"), Some(projects[id]))
    {
      if !ProjectModel.UpdateCasts(body) {
        reply := Reply(SERVER_ERROR, Some("Server error"), None);
      } else if id !in projects {
        reply := Reply(NOT_FOUND, Some("Project not found"), None);
      } else {
        var q := ProjectModel.ApplyUpdate(projects[id], body);
        projects := projects[id := q];
        reply := Reply(OK, Some("Project updated successfully"), Some(q));
      }
    }

    /** `DELETE /api/projects/:id`. */
    method DeleteProject(id: Id) returns (reply: Reply<()>)
      requires Valid()
      modifies this`projects
      ensures Valid()
      ensures id !in old(projects) ==>
        reply == Reply(NOT_FOUND, Some("Project not found"), None) && projects == old(projects)
      ensures id in old(projects) ==>
        reply == Reply(OK, Some("Project deleted successfully"), None) && projects == old(projects) - {id}
    {
      if id !in projects {
        reply := Reply(NOT_FOUND, Some("Project not found"), None);
      } else {
        projects := projects - {id};
        reply := Reply(OK, Some("Project deleted successfully"), None);
      }
    }

    /** `PUT /api/projects/:id/assign`: reads only `employees` from the body,
      sets it on the stored project and saves the whole document. */
    method AssignEmployees(id: Id, body: Json) returns (reply: Reply<ProjectModel.Project>)
      requires Valid()
      modifies this`projects
      ensures Valid()
      ensures id !in old(projects) ==>
        reply == Reply(NOT_FOUND, Some("Project not found"), None) && projects == old(projects)
      ensures id in old(projects) && ProjectModel.Assign(old(projects)[id], body).Err? ==>
        reply == Reply(SERVER_ERROR, Some("Failed to assign employees"), None) && projects == old(projects)
      ensures id in old(projects) && ProjectModel.Assign(old(projects)[id], body).Ok? ==>
        && projects == old(projects)[id := ProjectModel.Assign(old(projects)[id], body).value]
        && reply == Reply(OK, Some("Employees assigned successfully"), Some(projects[id]))
    {
      if id !in projects {
        reply := Reply(NOT_FOUND, Some("Project not found"), None);
      } else {
        match ProjectModel.Assign(projects[id], body)
        case Err(_) =>
          reply := Reply(SERVER_ERROR, Some("Failed to assign employees"), None);
        case Ok(q) =>
          projects := projects[id := q];
          reply := Reply(OK, Some("Employees assigned successfully"), Some(q));
      }
    }

    /** `POST /api/employees`: a validation failure and a duplicate `emp_id` or
      `email` are both answered with 500. */
    method CreateEmployee(body: Json) returns (reply: Reply<(Id, EmployeeModel.Employee)>)
      requires Valid()
      modifies this
      ensures Valid()
      ensures users == old(users) && projects == old(projects)
      ensures EmployeeModel.Validate(body).Err? ==>
        reply == Reply(SERVER_ERROR, Some("Server error"), None) && employees == old(employees)
      ensures EmployeeModel.Validate(body).Ok? && EmployeeModel.Conflicts(old(employees), EmployeeModel.Validate(body).value) ==>
        reply == Reply(SERVER_ERROR, Some("Server error"), None) && employees == old(employees)
      ensures EmployeeModel.Validate(body).Ok? && !EmployeeModel.Conflicts(old(employees), EmployeeModel.Validate(body).value) ==>
        && old(nextId) !in old(employees)
        && employees == old(employees)[old(nextId) := EmployeeModel.Validate(body).value]
        && reply == Reply(CREATED, Some("Employee added successfully"),
                          Some((old(nextId), EmployeeModel.Validate(body).value)))
    {
      match EmployeeModel.Validate(body)
      case Err(_) =>
        reply := Reply(SERVER_ERROR, Some("Server error"), None);
      case Ok(e) =>
        if EmployeeModel.Conflicts(employees, e) {
          reply := Reply(SERVER_ERROR, Some("Server error"), None);
        } else {
          EmployeeModel.InsertKeepsUnique(employees, nextId, e);
          employees := employees[nextId := e];
          reply := Reply(CREATED, Some("Employee added successfully"), Some((nextId, e)));
          nextId := nextId + 1;
        }
    }
  }
}
