/** The "Add New Employee" form (frontend/src/pages/EmployeeForm.jsx): its
    state, the change handler, the request body built from it, the reset after
    a successful submit, and the inputs it offers. */
module EmployeeForm {
  import opened Common

  /** The keys of `formData`; every value is the text of an input. */
  const FORM_KEYS: set<string> :=
    {"emp_id", "emp_name", "qualification", "age", "email", "contact_primary", "contact_emergency", "position"}

  const INITIAL_FORM: map<string, string> := map[
    "emp_id" := "",
    "emp_name" := "",
    "qualification" := "",
    "age" := "",
    "email" := "",
    "contact_primary" := "",
    "contact_emergency" := "",
    "position" := "Project Manager"]

  /** One text input of the form. */
  datatype Input = Input(caption: string, name: string, kind: string)

  const INPUTS: seq<Input> := [
    Input("Employee ID", "emp_id", "text"),
    Input("Employee Name", "emp_name", "text"),
    Input("Qualification", "qualification", "text"),
    Input("Age", "age", "number"),
    Input("Email", "email", "email"),
    Input("Primary Contact", "contact_primary", "text"),
    Input("Emergency Contact", "contact_emergency", "text")
  ]

  /** `required={field.name !== "contact_emergency"}`. */
  predicate Required(i: Input) {
    i.name != "contact_emergency"
  }

  /** Every input but the last, the emergency contact, is required. */
  lemma OnlyEmergencyOptional()
    ensures INPUTS[|INPUTS| - 1].name == "contact_emergency"
    ensures forall i :: 0 <= i < |INPUTS| ==> (Required(INPUTS[i]) <==> i != |INPUTS| - 1)
  {
  }

  /** Every key of the form is edited by one input or by the position select. */
  lemma InputsCoverForm()
    ensures (set i | i in INPUTS :: i.name) + {"position"} == FORM_KEYS
  {
    assert forall i :: 0 <= i < |INPUTS| ==> INPUTS[i].name in FORM_KEYS;
    assert INPUTS[0] in INPUTS && INPUTS[1] in INPUTS && INPUTS[2] in INPUTS;
    assert INPUTS[3] in INPUTS && INPUTS[4] in INPUTS && INPUTS[5] in INPUTS && INPUTS[6] in INPUTS;
  }

  /** The options of the position select, in the order shown. */
  const POSITION_OPTIONS: seq<string> :=
    ["Project Manager", "Site Manager", "Site Supervisor", "Site Engineer", "Worker"]

  /** The value sent for a key: the text, or nothing when the form lacks it. */
  function Field(form: map<string, string>, key: string): (v: Json)
    ensures key in form <==> v.Str?
    ensures key in form ==> v == Str(form[key])
  {
    if key in form then Str(form[key]) else Undefined
  }

  /** The body posted to `/api/employees`: the top-level fields copied as they
      are (the age too, as text) and the two contact numbers nested under
      `contact_details`. */
  function Payload(form: map<string, string>): (body: Json)
    ensures Get(body, "emp_id") == Field(form, "emp_id")
    ensures Get(body, "emp_name") == Field(form, "emp_name")
    ensures Get(body, "qualification") == Field(form, "qualification")
    ensures Get(body, "age") == Field(form, "age")
    ensures Get(body, "email") == Field(form, "email")
    ensures Get(body, "position") == Field(form, "position")
    ensures Get(Get(body, "contact_details"), "primary") == Field(form, "contact_primary")
    ensures Get(Get(body, "contact_details"), "emergency") == Field(form, "contact_emergency")
    ensures Get(body, "contact_primary") == Undefined && Get(body, "contact_emergency") == Undefined
  {
    Obj(map[
      "emp_id" := Field(form, "emp_id"),
      "emp_name" := Field(form, "emp_name"),
      "qualification" := Field(form, "qualification"),
      "age" := Field(form, "age"),
      "email" := Field(form, "email"),
      "contact_details" := Obj(map[
        "primary" := Field(form, "contact_primary"),
        "emergency" := Field(form, "contact_emergency")]),
      "position" := Field(form, "position")])
  }

  class EmployeeForm {
    var formData: map<string, string>

    constructor ()
      ensures formData == INITIAL_FORM
    {
      formData := INITIAL_FORM;
    }

    /** `handleChange`: the named field takes the value, nothing else moves. */
    method HandleChange(name: string, value: string)
      modifies this
      ensures formData == old(formData)[name := value]
      ensures forall k | k in old(formData) && k != name :: k in formData && formData[k] == old(formData)[k]
    {
      formData := formData[name := value];
    }

    /** `handleSubmit`: the body is built from the current form; only when the
        request succeeds is the form set back to its initial state. */
    method Submit(requestSucceeded: bool) returns (body: Json)
      modifies this
      ensures body == Payload(old(formData))
      ensures requestSucceeded ==> formData == INITIAL_FORM
      ensures !requestSucceeded ==> formData == old(formData)
    {
      body := Payload(formData);
      if requestSucceeded {
        formData := INITIAL_FORM;
      }
    }
  }

  /** After a reset the form holds every key again, with the first position. */
  lemma InitialFormShape()
    ensures INITIAL_FORM.Keys == FORM_KEYS
    ensures INITIAL_FORM["position"] == POSITION_OPTIONS[0]
  {
  }
}
