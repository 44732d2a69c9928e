/** The project page (frontend/src/pages/Project.jsx): merging newly selected
    staff into a project's assigned ids, showing an employee by id, and the
    body sent when a new project is created. */
module ProjectPage {
  import opened Common
  import ProjectModel

  predicate NoDuplicates(s: seq<Id>) {
    forall i, j :: 0 <= i < j < |s| ==> s[i] != s[j]
  }

  /** Appends, in order, each element of `s` not yet present:
      `Array.from(new Set([...acc, ...s]))` once `acc` holds no duplicates. */
  function AddNew(acc: seq<Id>, s: seq<Id>): (r: seq<Id>)
    ensures NoDuplicates(acc) ==> NoDuplicates(r)
    ensures forall x :: x in r <==> x in acc || x in s
    ensures |acc| <= |r| && r[..|acc|] == acc
    decreases |s|
  {
    if s == [] then acc
    else AddNew(if s[0] in acc then acc else acc + [s[0]], s[1..])
  }

  /** `Array.from(new Set(s))`: first occurrences, in order. */
  function Dedup(s: seq<Id>): seq<Id> {
    AddNew([], s)
  }

  /** The elements of `s` that are not in `xs`, in order. */
  function Without(s: seq<Id>, xs: seq<Id>): (r: seq<Id>)
    ensures forall x :: x in r <==> x in s && x !in xs
  {
    if s == [] then []
    else if s[0] in xs then Without(s[1..], xs)
    else [s[0]] + Without(s[1..], xs)
  }

  lemma {:induction false} AddNewAppend(acc: seq<Id>, a: seq<Id>, b: seq<Id>)
    ensures AddNew(acc, a + b) == AddNew(AddNew(acc, a), b)
    decreases |a|
  {
    if a != [] {
      assert (a + b)[0] == a[0] && (a + b)[1..] == a[1..] + b;
      AddNewAppend(if a[0] in acc then acc else acc + [a[0]], a[1..], b);
    } else {
      assert a + b == b;
    }
  }

  /** Elements already present add nothing. */
  lemma {:induction false} AddNewPresent(acc: seq<Id>, s: seq<Id>)
    requires forall x :: x in s ==> x in acc
    ensures AddNew(acc, s) == acc
    decreases |s|
  {
    if s != [] {
      AddNewPresent(acc, s[1..]);
    }
  }

  /** What is appended to `acc + d` is what `d` would gain from the elements
      of `s` outside `acc`. */
  lemma {:induction false} AddNewSplit(acc: seq<Id>, d: seq<Id>, s: seq<Id>)
    requires forall x :: x in d ==> x !in acc
    ensures AddNew(acc + d, s) == acc + AddNew(d, Without(s, acc))
    decreases |s|
  {
    if s != [] {
      var x := s[0];
      if x in acc {
        AddNewSplit(acc, d, s[1..]);
      } else if x in d {
        AddNewSplit(acc, d, s[1..]);
        assert Without(s, acc) == [x] + Without(s[1..], acc);
      } else {
        AddNewSplit(acc, d + [x], s[1..]);
        assert acc + d + [x] == acc + (d + [x]);
        assert Without(s, acc) == [x] + Without(s[1..], acc);
      }
    } else {
      assert acc + d == acc + AddNew(d, []);
    }
  }

  /** A duplicate-free sequence is its own set. */
  lemma DedupDistinct(s: seq<Id>)
    requires NoDuplicates(s)
    ensures Dedup(s) == s
  {
    AddNewSplit(s, [], []);
    assert s + [] == s;
    AddNewSplit([], [], s);
    assert Without(s, []) == s by { WithoutNothing(s); }
    AddNewPresentOfDistinct(s);
  }

  lemma {:induction false} WithoutNothing(s: seq<Id>)
    ensures Without(s, []) == s
  {
    if s != [] { WithoutNothing(s[1..]); }
  }

  lemma {:induction false} AddNewPresentOfDistinct(s: seq<Id>)
    requires NoDuplicates(s)
    ensures AddNew([], s) == s
    decreases |s|
  {
    if s != [] {
      var last := s[|s| - 1];
      var init := s[..|s| - 1];
      assert s == init + [last];
      AddNewPresentOfDistinct(init);
      AddNewAppend([], init, [last]);
      assert last !in init;
    }
  }

  // ---------------------------------------------------------------------
  // assignEmployees

  /** The merged id list: the project's ids (none counts as empty) followed by
      the selection, with duplicates collapsed. */
  function Merge(existing: Option<seq<Id>>, selected: seq<Id>): (m: seq<Id>)
    ensures NoDuplicates(m)
    ensures forall x :: x in m <==> x in existing.GetOr([]) || x in selected
  {
    Dedup(existing.GetOr([]) + selected)
  }

  /** The existing ids come first in their order, then the new selections in
      the order they were selected. */
  lemma MergeOrder(existing: seq<Id>, selected: seq<Id>)
    requires NoDuplicates(existing)
    ensures Merge(Some(existing), selected) == existing + Dedup(Without(selected, existing))
  {
    AddNewAppend([], existing, selected);
    DedupDistinct(existing);
    AddNewSplit(existing, [], selected);
    assert existing + [] == existing;
  }

  /** Merging the same selection again changes nothing. */
  lemma MergeIdempotent(existing: Option<seq<Id>>, selected: seq<Id>)
    ensures Merge(Some(Merge(existing, selected)), selected) == Merge(existing, selected)
  {
    var m := Merge(existing, selected);
    AddNewAppend([], m, selected);
    DedupDistinct(m);
    AddNewPresent(m, selected);
  }

  /** Assigning [1, 2] and then [2, 3] leaves [1, 2, 3]: three employees. */
  lemma MergeExample()
    ensures Merge(Some(Merge(None, [1, 2])), [2, 3]) == [1, 2, 3]
  {
    MergeFromNothing([1, 2]);
    MergeSecondExample();
  }

  lemma MergeSecondExample()
    ensures Merge(Some([1, 2]), [2, 3]) == [1, 2, 3]
  {
    var first: seq<Id> := [1, 2];
    WithoutExample();
    DedupDistinct([3]);
    MergeOrder(first, [2, 3]);
    assert first + [3] == [1, 2, 3];
  }

  lemma MergeFromNothing(s: seq<Id>)
    requires NoDuplicates(s)
    ensures Merge(None, s) == s
  {
    assert [] + s == s;
    DedupDistinct(s);
  }

  lemma WithoutExample()
    ensures Without([2, 3], [1, 2]) == [3]
  {
    var xs: seq<Id> := [1, 2];
    var s: seq<Id> := [2, 3];
    assert s[0] in xs && s[1..] == [3];
    assert Without([3], xs) == [3] + Without([], xs);
  }

  /** A project as the page holds it: the server's fields plus the ids and
      start date the page adds. */
  datatype ClientProject = ClientProject(
    id: Id,
    title: string,
    description: string,
    status: string,
    employees: int,
    location: string,
    estimation: int,
    assignedEmployeeIds: Option<seq<Id>>,
    startDate: string)

  /** A project as fetched: the server stores no `assignedEmployeeIds`, so the
      fetched object has none. */
  function FromServer(id: Id, p: ProjectModel.Project, startDate: string): (c: ClientProject)
    ensures c.assignedEmployeeIds.None?
    ensures c.employees == p.employees
  {
    ClientProject(id, p.title, p.description, p.status, p.employees, p.location, p.estimation, None, startDate)
  }

  function IdsJson(ids: seq<Id>): (r: seq<Json>)
    ensures |r| == |ids| && forall i :: 0 <= i < |ids| ==> r[i] == Num(ids[i])
  {
    seq(|ids|, i requires 0 <= i < |ids| => Num(ids[i]))
  }

  /** The body of `PUT /api/projects/:id/assign`. */
  function AssignBody(merged: seq<Id>): (body: Json)
    ensures Get(body, "employees") == Num(|merged|)
    ensures Get(body, "assignedEmployeeIds").Arr? && |Get(body, "assignedEmployeeIds").items| == |merged|
    ensures forall i :: 0 <= i < |merged| ==> Get(body, "assignedEmployeeIds").items[i] == Num(merged[i])
  {
    Obj(map["employees" := Num(|merged|), "assignedEmployeeIds" := Arr(IdsJson(merged))])
  }

  /** The state of the page that assignment reads and writes. */
  class ProjectPage {
    var selectedProject: Option<ClientProject>
    var selectedEmployees: seq<Id>
    var showEmployeeDropdown: bool

    constructor ()
      ensures selectedProject.None? && selectedEmployees == [] && !showEmployeeDropdown
    {
      selectedProject := None;
      selectedEmployees := [];
      showEmployeeDropdown := false;
    }

    /** `assignEmployees`: sends the merged list and its length; only when the
      request succeeds does the page keep the merged list, set the count to its
      length and close the dropdown. */
    method AssignEmployees(requestSucceeded: bool) returns (target: Id, body: Json)
      requires selectedProject.Some?
      modifies this
      ensures var p := old(selectedProject).value;
        var merged := Merge(p.assignedEmployeeIds, old(selectedEmployees));
        && target == p.id
        && body == AssignBody(merged)
        && selectedEmployees == old(selectedEmployees)
        && (requestSucceeded ==>
              && selectedProject == Some(p.(assignedEmployeeIds := Some(merged), employees := |merged|))
              && !showEmployeeDropdown)
        && (!requestSucceeded ==>
              selectedProject == old(selectedProject) && showEmployeeDropdown == old(showEmployeeDropdown))
    {
      var p := selectedProject.value;
      var merged := Merge(p.assignedEmployeeIds, selectedEmployees);
      target := p.id;
      body := AssignBody(merged);
      if requestSucceeded {
        selectedProject := Some(p.(assignedEmployeeIds := Some(merged), employees := |merged|));
        showEmployeeDropdown := false;
      }
    }
  }

  // ---------------------------------------------------------------------
  // getEmployeeNameById

  datatype EmployeeSummary = EmployeeSummary(id: Id, empName: string, position: string)

  function Label(e: EmployeeSummary): string {
    e.empName + " (" + e.position + ")"
  }

  /** The label of the first employee with the id, or "Unknown". */
  function NameById(list: seq<EmployeeSummary>, id: Id): (r: string)
    ensures (forall i :: 0 <= i < |list| ==> list[i].id != id) ==> r == "Unknown"
    ensures forall i :: 0 <= i < |list| && list[i].id == id && (forall j :: 0 <= j < i ==> list[j].id != id) ==>
      r == Label(list[i])
    decreases |list|
  {
    if list == [] then "Unknown"
    else if list[0].id == id then Label(list[0])
    else NameById(list[1..], id)
  }

  /** A label always ends in ')', so a found employee never reads "Unknown". */
  lemma LabelIsNotUnknown(e: EmployeeSummary)
    ensures Label(e) != "Unknown"
  {
    var l := Label(e);
    assert l[|l| - 1] == ')';
  }

  // ---------------------------------------------------------------------
  // handleSubmit for a new project

  /** The add/edit form; every input's value is text. */
  datatype ProjectForm = ProjectForm(
    title: string,
    description: string,
    status: string,
    location: string,
    estimation: string)

  const INITIAL_FORM: ProjectForm := ProjectForm("", "", "Ongoing", "", "")

  /** `{...project, employees: 0, assignedEmployeeIds: [], startDate}`. */
  function NewProjectPayload(form: ProjectForm, startDate: string): (body: Json)
    ensures Get(body, "employees") == Num(0)
    ensures Get(body, "assignedEmployeeIds") == Arr([])
    ensures Get(body, "title") == Str(form.title) && Get(body, "description") == Str(form.description)
    ensures Get(body, "status") == Str(form.status) && Get(body, "location") == Str(form.location)
    ensures Get(body, "estimation") == Str(form.estimation)
  {
    Obj(map[
      "title" := Str(form.title),
      "description" := Str(form.description),
      "status" := Str(form.status),
      "location" := Str(form.location),
      "estimation" := Str(form.estimation),
      "employees" := Num(0),
      "assignedEmployeeIds" := Arr([]),
      "startDate" := Str(startDate)])
  }
}
