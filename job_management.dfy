/** Posting a job (frontend/src/pages/JobManagement.jsx): the requirements
    textarea is split into lines and the blank ones are dropped; the record
    sent is the form with that list in place of the text. */
module JobManagement {
  import opened Common

  /** `r.trim() !== ''`, which holds exactly when the line is not blank
      (TrimEmptyIffBlank). */
  predicate Filled(line: string) {
    !IsBlank(line)
  }

  /** The lines that are not blank, in their order and as they were written. */
  function KeepFilled(lines: seq<string>): (r: seq<string>)
    ensures |r| <= |lines|
    ensures forall k :: 0 <= k < |r| ==> r[k] in lines && Filled(r[k])
  {
    if lines == [] then []
    else if Filled(lines[0]) then [lines[0]] + KeepFilled(lines[1..])
    else KeepFilled(lines[1..])
  }

  /** `requirements.split('\n').filter(r => r.trim() !== '')`. */
  function Requirements(text: string): (r: seq<string>)
    ensures forall k :: 0 <= k < |r| ==> '\n' !in r[k]
    ensures forall k :: 0 <= k < |r| ==> !IsBlank(r[k])
  {
    var lines := Split(text, '\n');
    var r := KeepFilled(lines);
    forall k | 0 <= k < |r|
      ensures '\n' !in r[k]
    {
      var j :| 0 <= j < |lines| && lines[j] == r[k];
    }
    r
  }

  /** A line is kept exactly when it is one of the text's lines and not blank. */
  lemma {:induction false} KeepFilledExact(lines: seq<string>, line: string)
    ensures line in KeepFilled(lines) <==> line in lines && !IsBlank(line)
  {
    if lines != [] {
      KeepFilledExact(lines[1..], line);
      assert lines == [lines[0]] + lines[1..];
    }
  }

  /** Filtering distributes over concatenation, so every copy of a repeated
      line is kept. */
  lemma {:induction false} KeepFilledAppend(a: seq<string>, b: seq<string>)
    ensures KeepFilled(a + b) == KeepFilled(a) + KeepFilled(b)
  {
    if a != [] {
      assert (a + b)[0] == a[0] && (a + b)[1..] == a[1..] + b;
      KeepFilledAppend(a[1..], b);
    } else {
      assert a + b == b;
    }
  }

  /** The kept lines appear in the order they were written, untrimmed. */
  lemma {:induction false} KeepFilledInOrder(lines: seq<string>)
    ensures Subsequence(KeepFilled(lines), lines)
  {
    if lines != [] {
      KeepFilledInOrder(lines[1..]);
      var rest := KeepFilled(lines[1..]);
      if Filled(lines[0]) {
        assert ([lines[0]] + rest)[1..] == rest;
      } else {
        SubsequenceWeaken(rest, lines);
      }
    }
  }

  /** With no blank line to drop, the requirements rejoined with newlines
      give back the text. */
  lemma {:induction false} KeepFilledAll(lines: seq<string>)
    requires forall k :: 0 <= k < |lines| ==> !IsBlank(lines[k])
    ensures KeepFilled(lines) == lines
  {
    if lines != [] {
      KeepFilledAll(lines[1..]);
    }
  }

  lemma RequirementsRoundTrip(text: string)
    requires forall k :: 0 <= k < |Split(text, '\n')| ==> !IsBlank(Split(text, '\n')[k])
    ensures Requirements(text) == Split(text, '\n')
    ensures Join(Requirements(text), '\n') == text
  {
    KeepFilledAll(Split(text, '\n'));
    JoinSplit(text, '\n');
  }

  /** A blank line between two requirements vanishes. */
  lemma RequirementsExample()
    ensures Requirements("a\n \nb") == ["a", "b"]
  {
    SplitNoSeparator("b", '\n');
    SplitAfterFirst(" ", '\n', "b");
    assert " " + ['\n'] + "b" == " \nb";
    SplitAfterFirst("a", '\n', " \nb");
    assert "a" + ['\n'] + " \nb" == "a\n \nb";
    var lines := ["a", " ", "b"];
    assert Split("a\n \nb", '\n') == lines;
    assert !IsBlank("a") && IsBlank(" ") && !IsBlank("b");
    assert KeepFilled(lines[2..]) == ["b"];
  }

  /** The job form; every input's value is text. */
  datatype JobForm = JobForm(
    title: string,
    location: string,
    description: string,
    requirements: string,
    status: string)

  const INITIAL_JOB_FORM: JobForm := JobForm("", "", "", "", "active")

  /** The record posted to the jobs endpoint. */
  datatype JobData = JobData(
    title: string,
    location: string,
    description: string,
    requirements: seq<string>,
    status: string)

  /** `{...formData, requirements: requirementsArray}`: every other field is
      the form's own. */
  function MakeJobData(form: JobForm): (d: JobData)
    ensures d.title == form.title && d.location == form.location
    ensures d.description == form.description && d.status == form.status
    ensures d.requirements == Requirements(form.requirements)
    ensures forall k :: 0 <= k < |d.requirements| ==> !IsBlank(d.requirements[k])
  {
    JobData(form.title, form.location, form.description, Requirements(form.requirements), form.status)
  }
}
