# Consultancy dashboard: a verified model of its rules

The consultancy dashboard is a React front end over an Express and MongoDB
back end. Managers use it to keep projects, employees, leave and job postings.
This project models the rules of that system in Dafny and proves what they
guarantee:

- **Schemas.** The Employee and Project document schemas are modelled as
  validation functions over request bodies (`EmployeeModel`, `ProjectModel`).
  They include how the document layer casts JSON values onto String and
  Number paths (`Schema`), and the unique indexes on `emp_id` and `email`.
- **Server.** The server's handlers for sign-up, login, and project and
  employee changes are methods of a class that holds the collections as maps
  (`Server.Api`). Token checking and the protected route are functions of the
  `Server` module (`Server.VerifyToken`, `Server.Protected`).
- **Client pages.** Each page's rules have their own module:
  - staff assignment, employee lookup and the new-project body on the project
    page (`ProjectPage`);
  - the name search and leave blocks of the leave calendar (`Leave`);
  - splitting a job's requirements into lines (`JobManagement`);
  - the users table (`UserTable`);
  - the employee form (`EmployeeForm`);
  - the route guard and role map (`App`);
  - login storage, navigation and the `Authorization` interceptor (`Login`).
- **Cross-file facts.** `Flows` proves what the server makes of what the pages
  send. For example, only the employee count survives an assignment, and the
  `Bearer` header round-trips through the server's token extraction.

`Common` holds the JSON value type, ASCII string helpers (`toLowerCase`,
`trim`, `includes`, `split` on one character) and decimal numerals.

Things outside the model are parameters:

- The password hash is a key-derivation function `kdf` fixed when the store
  is built. `Compare` recomputes it with the stored salt, and the salt of a
  new hash is a parameter of `Signup`.
- Token signing is a function fixed when the store is built. Token
  verification is a parameter of `VerifyToken`.
- Document ids are naturals handed out by a counter.
- Clock readings and the outcome of HTTP requests are parameters.

Where the code and its documentation disagree, the model follows the code:

- A project body that fails validation is answered with 500 "Server error",
  not with a 4xx status (backend/server.js:107-109).
- An update writes the supplied fields without running the validators
  (backend/server.js:126-130), so a stored status can leave the enum
  (`ProjectModel.UpdateSkipsValidation`).
- The client sends `assignedEmployeeIds`, but the server keeps only the count
  (`Flows.AssignKeepsOnlyCount`).

## Model

| member | source | states |
|---|---|---|
| Schema.CastString | backend/model/Project.js:4-5 | a String path keeps a string, treats undefined and null as absent and refuses arrays and objects |
| Schema.CastNumber | backend/model/Project.js:11 | a Number path keeps a number, reads a numeral string as its value, casts true and false to 1 and 0, and treats "", undefined and null as absent; it refuses exactly arrays, objects and other non-empty text |
| Schema.NotANumberRefused | backend/model/Project.js:11 | text holding a character that no JavaScript number can contain is refused on a Number path |
| Schema.CastNumberOfPrinted | backend/model/Project.js:11 | a printed integer read back on a Number path is the integer |
| Common.TrimEmptyIffBlank | frontend/src/pages/JobManagement.jsx:30 | `trim()` yields "" exactly for strings made only of whitespace |
| Common.Split | frontend/src/pages/JobManagement.jsx:30 | splitting on a character gives at least one piece and no piece holds the separator |
| Common.JoinSplit | frontend/src/pages/JobManagement.jsx:30 | joining the pieces with the separator gives back the text |
| Common.SplitAfterFirst | backend/server.js:32 | the text before the first separator is the first piece and the rest splits on its own |
| Common.IntToStringRoundTrip | backend/model/Project.js:11 | a printed integer is a numeral whose value is the integer |
| EmployeeModel.SampleEmails | backend/model/Employee.js:27 | "a@b.c" matches the address pattern; addresses missing the user, host, dot or suffix do not |
| EmployeeModel.EmailPatternUnanchored | backend/model/Employee.js:27 | text before or after a matching address does not stop it matching |
| EmployeeModel.EmailPatternLower | backend/model/Employee.js:26-27 | lower-casing never changes whether an address matches |
| EmployeeModel.EmailCast | backend/model/Employee.js:22-26 | the stored address is lower-case |
| EmployeeModel.Errors | backend/model/Employee.js:3-50 | every reported path is one of the eight schema paths, the two contact numbers named by their nested path |
| EmployeeModel.Valid | backend/model/Employee.js:3-50 | what a saved employee satisfies; carried by Validate and ValidateToJson |
| EmployeeModel.Validate | backend/model/Employee.js:3-50 | an accepted body yields a valid employee; a refused body names at least one failing path, all among the schema's paths |
| EmployeeModel.ValidateToJson | backend/model/Employee.js:3-50 | every valid employee is accepted unchanged |
| EmployeeModel.AgeBoundary | backend/model/Employee.js:17-21 | age 17 is refused on the `age` path alone and age 18 is accepted |
| EmployeeModel.RequiredPaths | backend/model/Employee.js:4-28 | leaving out emp_id, emp_name, qualification, age, email or position is reported on that path |
| EmployeeModel.ContactPaths | backend/model/Employee.js:29-38 | contact_details.primary is required and contact_details.emergency may be absent |
| EmployeeModel.PositionEnum | backend/model/Employee.js:39-48 | a position is accepted exactly when it is one of the five listed |
| EmployeeModel.InsertKeepsUnique | backend/model/Employee.js:7 | inserting a non-conflicting employee keeps emp_id and email unique |
| EmployeeModel.EmailIndexIgnoresCase | backend/model/Employee.js:25-26 | an address that differs from a stored one only in letter case conflicts with it |
| ProjectModel.Errors | backend/model/Project.js:3-14 | every reported path is one of the six schema paths: title, description, status, location required and non-empty, status in the enum, employees and estimation cast to numbers |
| ProjectModel.Valid | backend/model/Project.js:3-14 | what a saved project satisfies; carried by Validate and ValidateToJson |
| ProjectModel.Validate | backend/model/Project.js:3-14 | an accepted body yields a valid project; a refused body names failing paths, all among the six schema paths |
| ProjectModel.ValidateToJson | backend/model/Project.js:3-14 | every valid project is accepted unchanged |
| ProjectModel.ValidateIgnoresOtherKeys | backend/model/Project.js:3-14 | keys outside the six paths, such as assignedEmployeeIds or startDate, change nothing about the stored project |
| ProjectModel.StatusEnum | backend/model/Project.js:6-10 | a status is accepted exactly when it is "Ongoing" or "Completed" |
| ProjectModel.RequiredPaths | backend/model/Project.js:4-13 | leaving out any of the six paths is reported on that path |
| ProjectModel.NumeralEstimation | backend/model/Project.js:13 | a numeral string on estimation is stored as its value |
| ProjectModel.TextEmployeesRefused | backend/model/Project.js:11 | text that JavaScript's `Number` cannot read on employees is refused on that path alone |
| ProjectModel.ApplyUpdate | backend/server.js:126-130 | supplied fields are overwritten and absent fields keep their values |
| ProjectModel.UpdateNothing | backend/server.js:126-130 | an update that supplies nothing leaves the project as it was |
| ProjectModel.UpdateIdempotent | backend/server.js:126-130 | the same update twice equals the update once |
| ProjectModel.UpdateWithFullBody | backend/server.js:126-130 | the full body of a valid project replaces the stored one |
| ProjectModel.UpdateSkipsValidation | backend/server.js:126-130 | an update can store a status outside the enum |
| ProjectModel.Assign | backend/server.js:161-162 | the save succeeds exactly when the project is valid and the count casts; then only `employees` changes and it takes the sent count |
| ProjectModel.AssignSameCount | backend/server.js:161-162 | assigning the count a project already has changes nothing |
| Server.Hash | backend/server.js:59 | the digest records the salt it was made with; Server.CompareHash carries the round trip |
| Server.Compare | backend/server.js:76 | a password is recomputed with the digest's salt and compared; Server.CompareHash carries the round trip |
| Server.CompareHash | backend/server.js:59 | a password compares equal to its own hash |
| Server.VerifyToken | backend/server.js:28-38 | a missing or empty header gets 401 "Access Denied"; otherwise the header passes with the verifier's claims exactly when its second space-separated piece is non-empty and verifies, and every failure gets 400 |
| Server.BearerExtraction | backend/server.js:32 | the header "Bearer t" hands exactly t to the verifier when t is non-empty and has no spaces |
| Server.Protected | backend/server.js:94-96 | the welcome message names the verified user's id, and only a passing token gets 200 |
| Server.Api.Signup | backend/server.js:52-67 | a known address gets 400 "User already exists" and no user is added; otherwise exactly one user is added, with the hash of the password, and the reply is 201 |
| Server.Api.Login | backend/server.js:69-92 | an unknown address and a wrong password get the same 400 reply; success signs the user's id and role and returns only id, name, email and role |
| Server.Api.CreateProject | backend/server.js:100-110 | a refused body gets 500 and stores nothing; an accepted one is stored under a fresh id and returned with 201 |
| Server.Api.UpdateProject | backend/server.js:121-137 | an uncastable field gets 500 and a missing id 404, both leaving the collection unchanged; otherwise only that project changes |
| Server.Api.DeleteProject | backend/server.js:139-150 | a missing id gets 404 and changes nothing; otherwise exactly that project is removed |
| Server.Api.AssignEmployees | backend/server.js:153-168 | a missing id gets 404 and a failed save 500, both changing nothing; otherwise only that project's count changes |
| Server.Api.CreateEmployee | backend/server.js:172-199 | a refused body or a duplicate emp_id or email gets 500 and stores nothing; otherwise the employee is stored under a fresh id with 201 |
| ProjectPage.AddNew | frontend/src/pages/Project.jsx:121-123 | appending the new elements keeps the list free of duplicates, keeps what was there as a prefix, and holds exactly the elements of both |
| ProjectPage.AddNewSplit | frontend/src/pages/Project.jsx:121-123 | what is appended after a duplicate-free prefix is what the selection adds outside it |
| ProjectPage.DedupDistinct | frontend/src/pages/Project.jsx:121-123 | a list without duplicates is its own set |
| ProjectPage.Merge | frontend/src/pages/Project.jsx:121-123 | the merged list holds every assigned and every selected id and nothing else, with no duplicates; a missing list counts as empty |
| ProjectPage.MergeOrder | frontend/src/pages/Project.jsx:121-123 | the existing ids come first in their order, followed by the new selections in selection order |
| ProjectPage.MergeIdempotent | frontend/src/pages/Project.jsx:121-123 | merging the same selection twice leaves the list as after once |
| ProjectPage.MergeExample | frontend/src/pages/Project.jsx:121-123 | assigning [1, 2] and then [2, 3] leaves [1, 2, 3] |
| ProjectPage.AssignBody | frontend/src/pages/Project.jsx:131-134 | the assignment body carries the merged list's length as employees and the merged ids in order; Flows.AssignKeepsOnlyCount says what the server keeps of it |
| ProjectPage.FromServer | frontend/src/pages/Project.jsx:41-44 | a fetched project carries no assigned ids and keeps the server's count |
| ProjectPage.ProjectPage.AssignEmployees | frontend/src/pages/Project.jsx:119-143 | the request goes to the selected project with the merged list and its length; only on success does the page keep the merged list, set the count to its length and close the dropdown |
| ProjectPage.NameById | frontend/src/pages/Project.jsx:145-148 | "Unknown" when no employee has the id, otherwise the first match's "name (position)" |
| ProjectPage.LabelIsNotUnknown | frontend/src/pages/Project.jsx:147 | a found employee's label is never "Unknown" |
| ProjectPage.NewProjectPayload | frontend/src/pages/Project.jsx:76-81 | a new project is sent with employees 0, an empty assignedEmployeeIds and the form's fields |
| Leave.Filter | frontend/src/components/Leave.jsx:39-41 | the result is no longer than the roster and holds only matching roster entries |
| Leave.FilterExact | frontend/src/components/Leave.jsx:39-41 | an entry is kept exactly when its lower-cased name contains the lower-cased term |
| Leave.FilterEmptyTerm | frontend/src/components/Leave.jsx:39-41 | an empty term keeps every entry |
| Leave.FilterAppend | frontend/src/components/Leave.jsx:39-41 | searching a concatenation is searching each part and concatenating, so repeated entries are all kept |
| Leave.FilterSubsequence | frontend/src/components/Leave.jsx:39-41 | the result is the roster with entries dropped and the rest in order |
| Leave.Days | frontend/src/components/Leave.jsx:100-102 | there are 11 columns, for days 18 through 28 |
| Leave.LeaveOn | frontend/src/components/Leave.jsx:104-106 | no leave is shown on a day no leave covers; otherwise the first covering leave is shown |
| Leave.BlockOf | frontend/src/components/Leave.jsx:111-114 | the block's offset is (start-18)*9, its width (end-start+1)*9, and its colour that of the leave's kind |
| Leave.WidthPositive | frontend/src/components/Leave.jsx:114 | a leave that starts no later than it ends has a positive width |
| Leave.Cell | frontend/src/components/Leave.jsx:103-117 | a column shows nothing exactly when no leave of the entry covers its day, and otherwise the block of the first covering leave |
| Leave.BlockWithinCalendar | frontend/src/components/Leave.jsx:113-114 | a leave within the eleven days gives a block within [0, 99] percent |
| Leave.RosterLeavesShown | frontend/src/components/Leave.jsx:6-28 | every rostered leave lies within the days shown and has a colour |
| Leave.JananiOnLeave | frontend/src/components/Leave.jsx:11 | the first paid leave shows on the 18th and 19th only, as a block at 0 of width 18 |
| JobManagement.Requirements | frontend/src/pages/JobManagement.jsx:30 | no requirement contains a newline and none is blank |
| JobManagement.KeepFilledExact | frontend/src/pages/JobManagement.jsx:30 | a line is kept exactly when it is a line of the text and not blank |
| JobManagement.KeepFilledAppend | frontend/src/pages/JobManagement.jsx:30 | filtering a concatenation of lines is filtering each part and concatenating, so repeated lines are all kept |
| JobManagement.KeepFilledInOrder | frontend/src/pages/JobManagement.jsx:30 | kept lines appear as written and in their original order |
| JobManagement.RequirementsRoundTrip | frontend/src/pages/JobManagement.jsx:30 | text without blank lines is split into its lines, which rejoin to the text |
| JobManagement.RequirementsExample | frontend/src/pages/JobManagement.jsx:30 | a whitespace-only line between two requirements is dropped |
| JobManagement.MakeJobData | frontend/src/pages/JobManagement.jsx:30-34 | the posted record keeps the form's other fields, and its requirements are the non-blank lines of the form's text, as Requirements gives them |
| UserTable.NewUser | frontend/src/components/UserTable.jsx:16-26 | the new user has id length + 1, the selected role, status "Active", promoted false, rating 4 and the matching avatar |
| UserTable.IdsDistinct | frontend/src/components/UserTable.jsx:17 | ids that follow positions are distinct |
| UserTable.InitialIdsArePositions | frontend/src/components/UserTable.jsx:4-8 | the three initial users have ids 1, 2 and 3 |
| UserTable.UsersTable.constructor | frontend/src/components/UserTable.jsx:4-11 | the table starts with the three users, an empty name and the role "Viewer" |
| UserTable.UsersTable.SetName | frontend/src/components/UserTable.jsx:42 | typing sets the name field |
| UserTable.UsersTable.SetRole | frontend/src/components/UserTable.jsx:47 | choosing sets the role field |
| UserTable.UsersTable.AddUser | frontend/src/components/UserTable.jsx:13-31 | a blank name changes nothing; otherwise one user is appended, earlier users are unchanged, ids stay positions, and the form resets to "" and "Viewer" |
| UserTable.RoleColor | frontend/src/components/UserTable.jsx:169-172 | blue exactly for Administrator, purple exactly for Moderator, black for every other role |
| UserTable.Stars | frontend/src/components/UserTable.jsx:85 | the rating is drawn as exactly `rating` star characters |
| EmployeeForm.OnlyEmergencyOptional | frontend/src/pages/EmployeeForm.jsx:210-236 | the last input, contact_emergency, is the only one not marked required |
| EmployeeForm.InputsCoverForm | frontend/src/pages/EmployeeForm.jsx:210-254 | the inputs and the position select edit exactly the keys of the form |
| EmployeeForm.Payload | frontend/src/pages/EmployeeForm.jsx:30-41 | the top-level fields are copied unchanged and the two contact numbers are nested under contact_details |
| EmployeeForm.EmployeeForm.constructor | frontend/src/pages/EmployeeForm.jsx:5-14 | the form starts in its initial state |
| EmployeeForm.EmployeeForm.HandleChange | frontend/src/pages/EmployeeForm.jsx:19-25 | only the named field changes |
| EmployeeForm.EmployeeForm.Submit | frontend/src/pages/EmployeeForm.jsx:27-59 | the body is built from the form, and only a successful request resets the form |
| EmployeeForm.InitialFormShape | frontend/src/pages/EmployeeForm.jsx:46-55 | the reset form holds every key, with position "Project Manager" |
| App.GetUserFromStorage | frontend/src/App.jsx:18-25 | the result is never falsy; it is `{}` when nothing is stored or the text does not parse, and the stored value whenever that parses to a truthy value |
| App.PrivateRoute | frontend/src/App.jsx:28-37 | the page is shown only with a stored token and a stored user with a role; otherwise a replacing redirect to "/" |
| App.PrivateRoutePasses | frontend/src/App.jsx:28-37 | a token and a user with a role always pass |
| App.PrivateRouteWithoutToken | frontend/src/App.jsx:32-33 | without a token the guard redirects to "/" |
| App.RedirectPath | frontend/src/App.jsx:47-53 | Admin, Manager and Employee map to their dashboards and no other role maps anywhere |
| App.RoleBasedRedirect | frontend/src/App.jsx:40-59 | the redirect effect leaves the location unchanged |
| App.Lookup | frontend/src/App.jsx:66-79 | a route is found only when its pattern matches the path (ignoring letter case, allowing trailing slashes), and none is found when no pattern matches |
| App.Visit | frontend/src/App.jsx:66-79 | the first route matching the path shows its page exactly when it is unguarded or the guard passes; no page is shown for a path no route matches, and when the guard refuses only an unguarded route shows |
| App.OpenRoutes | frontend/src/App.jsx:67-78 | the unguarded routes match exactly the paths the "/" and "/signup" patterns match |
| App.VisitWithoutToken | frontend/src/App.jsx:67-78 | without a token only paths matched by "/" or "/signup" show a page |
| App.SignupPathVariant | frontend/src/App.jsx:67-68 | without a token "/SignUp/" still shows the sign-up page |
| App.RoutePathsDistinct | frontend/src/App.jsx:67-78 | no path appears twice |
| Login.NavigationTarget | frontend/src/components/Login.jsx:23-30 | the three known roles go to their dashboards and any other role to "/" |
| Login.RoleMapsAgree | frontend/src/components/Login.jsx:23-27 | the login page's role map agrees with the router shell's |
| Login.UserJson | frontend/src/components/Login.jsx:21 | the stored user text carries the user's name and role |
| Login.Browser.HandleLogin | frontend/src/components/Login.jsx:18-30 | the token and user are stored and the browser moves to the role's page |
| Login.Authorization | frontend/src/components/Login.jsx:39-42 | a header is attached exactly when a token is stored, and it reads "Bearer " + token |
| Login.Intercept | frontend/src/components/Login.jsx:37-46 | with a token the config's Authorization header is set in place; without one the config is unchanged; the same config is returned |
| Login.LoginForm.HandleChange | frontend/src/components/Login.jsx:10-12 | only the named field changes |
| Flows.BearerRoundTrip | frontend/src/components/Login.jsx:39-42 | the header the client attaches carries the stored token to the server's verifier unchanged |
| Flows.NoTokenNoAccess | backend/server.js:29 | with no token stored, protected routes answer 401 |
| Flows.LoginOpensGuardedPages | frontend/src/App.jsx:32-78 | after a login with a token and a role the guard passes, and every path a route matches shows that route's page |
| Flows.AssignKeepsOnlyCount | backend/server.js:155-162 | the server stores the merged list's length as the count and keeps nothing of the ids |
| Flows.AssignForgetsIds | backend/server.js:155 | two assignments of the same number of ids leave the same project |
| Flows.RefetchLosesIds | frontend/src/pages/Project.jsx:122 | after a re-fetch the merge starts from an empty list |
| Flows.NewProjectStored | frontend/src/pages/Project.jsx:76-82 | a filled new-project form is stored with employees 0 and its estimation as a number |
| Flows.EmptyProjectFormRefused | frontend/src/pages/Project.jsx:16-22 | creating from the initial form is refused on the title |
| Flows.EmployeeFormAccepted | frontend/src/pages/EmployeeForm.jsx:30-44 | a form that meets the schema is stored with the age as a number, the address lower-cased and the emergency number present |
| Flows.EmployeeFormBadAge | frontend/src/pages/EmployeeForm.jsx:34 | an age that JavaScript's `Number` cannot read is refused on the age path |
| Flows.PositionOptionsAccepted | frontend/src/pages/EmployeeForm.jsx:265-269 | the position select offers exactly the positions the schema accepts |
| Flows.InitialEmployeeFormRefused | frontend/src/pages/EmployeeForm.jsx:5-14 | submitting the initial form is refused |

## Left out

- Database connection, Express wiring, CORS and body parsing: the handlers act on in-memory maps, and a reply is a status, a message and a value.
- bcrypt and jsonwebtoken: the hash is a key-derivation function compared by recomputation, and tokens are made by a signing function. Secrets and the one-hour expiry are not modelled.
- Server.Api.Signup: a failure to save the user (the User model is not part of this model) would give 500; the model always saves.
- Server.Api.UpdateProject, Server.Api.DeleteProject, Server.Api.AssignEmployees: a malformed id, which the document layer refuses with a cast error and 500, is not modelled. Ids are naturals, so every id is well formed.
- ProjectModel.ApplyUpdate: an explicit null on any path, and "" on the two Number paths, keep the stored value; `findByIdAndUpdate` would store null there. A "" on a String path is stored as "", as the program does.
- Schema.CastNumber: numbers are integers, and only optionally signed decimal digit strings are read as numbers. The model refuses text that the program reads through JavaScript's `Number`: fractions ("18.5"), exponents ("1e2"), a leading "+", hexadecimal, binary and octal prefixes ("0x1A", "0b1", "0o7"), "Infinity", surrounding whitespace (" 7"), and whitespace-only text, which reads as 0. Such text can come from the `type="number"` age input. Schema.NotANumberRefused names the text on which the model and the program agree.
- ProjectModel.TextEmployeesRefused: stated only for text holding a character that no JavaScript number contains, since other non-numeral text is refused by the model but may be read as a number by the program.
- Flows.EmployeeFormBadAge: stated only for an age holding a character that no JavaScript number contains, for the same reason.
- App.Lookup: the router ranks matching routes by specificity; the model takes the first matching route in table order. Percent-decoding of the path and Unicode case folding are not modelled.
- Common.Lower, Common.Trim: ASCII only. Unicode case mapping and Unicode whitespace are not modelled.
- Mail delivery and the approve/deny endpoints (backend/server.js:42-48, 275-334): they are foreign transport calls with random dates.
- The duplicate update and delete handlers (backend/server.js:210-246): the earlier handlers at lines 121 and 139 always answer first.
- Listing projects and employees, `populate("employees")`, and the career and mail-request collections (backend/server.js:112-119, 201-208, 247-271, 339-378): they are plain reads and creates.
- Random start dates (frontend/src/pages/Project.jsx:31-36) and the `lastLogin` clock reading (frontend/src/components/UserTable.jsx:25): the date is a parameter.
- Login.NavigationTarget, App.RedirectPath: role names inherited from the object prototype (such as "toString") would look up a function rather than nothing. Only own keys are modelled.
- Login.Browser.HandleLogin: the user is stored as JSON text that is assumed to parse back to the same value.
- The project page's edit form and delete button, and the other handlers of the pages: their effects are the server calls modelled in `Server.Api`. After the edit form is filled from a fetched project, its estimation is a number rather than text.
- Concurrent assignments (last write wins) and all alerts, styles and fetch calls.
- Presentation-only pages (dashboards, employee list, settings, sign-up, careers, mail requests, sliding images).
