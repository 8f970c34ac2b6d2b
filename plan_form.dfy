/** The four-step form wizard (components/study-plan-form.tsx): student
    details, subjects, study preferences, review. Its state is the current
    step and the form data; handlers replace the form data with an edited
    copy and move the step within 0..3. Each step's inputs are rendered only
    while that step is shown, so each edit handler runs only at its own step;
    this keeps every gate of the steps already passed satisfied, and the data
    handed over on submit is complete. */
module PlanForm {
  import opened Options
  import opened Types
  import SubjectList
  import Preferences

  /** The review step; the step indicator lists four steps, 0..3. */
  const LastStep: int := 3

  /** The student-details fields the inputs of step 0 write. */
  datatype StudentField = Name | College | Branch | GraduationYear | Email

  /** `{ ...prev.studentDetails, [field]: value }`. */
  function SetStudentField(d: StudentDetails, f: StudentField, v: string): (r: StudentDetails)
    ensures r.name == (if f == Name then v else d.name)
    ensures r.college == (if f == College then v else d.college)
    ensures r.branch == (if f == Branch then v else d.branch)
    ensures r.graduationYear == (if f == GraduationYear then v else d.graduationYear)
    ensures r.email == (if f == Email then v else d.email)
  {
    match f
    case Name => d.(name := v)
    case College => d.(college := v)
    case Branch => d.(branch := v)
    case GraduationYear => d.(graduationYear := v)
    case Email => d.(email := v)
  }

  /** The form the wizard opens with: empty details, one blank subject,
      3 weekday hours and 6 weekend hours (in half hours), night-time, no
      target date. */
  function InitialFormData(firstId: string): (fd: FormData)
    ensures fd.subjects == [SubjectList.NewSubject(firstId)] && SubjectList.UniqueIds(fd.subjects)
    ensures fd.studyPreferences.weekdayHours == 6 && fd.studyPreferences.weekendHours == 12
    ensures fd.studyPreferences.preferredTime == Night
    ensures !CanGoNext(0, fd) && !CanGoNext(1, fd) && !CanGoNext(2, fd)
  {
    var subjects := [SubjectList.NewSubject(firstId)];
    assert subjects[0].name == "";
    FormData(StudentDetails("", "", "", "", ""),
             subjects,
             StudyPreferences(6, 12, Night, ""))
  }

  // ----- gating ----------------------------------------------------------------

  predicate DetailsComplete(d: StudentDetails)
  {
    d.name != "" && d.college != "" && d.branch != "" && d.graduationYear != "" && d.email != ""
  }

  predicate SubjectsComplete(subjects: seq<Subject>)
  {
    forall i :: 0 <= i < |subjects| ==> subjects[i].name != "" && subjects[i].credits > 0
  }

  predicate PreferencesComplete(p: StudyPreferences)
  {
    p.targetDate != ""
  }

  /** All three data steps are filled in. */
  predicate FormComplete(fd: FormData)
  {
    DetailsComplete(fd.studentDetails) && SubjectsComplete(fd.subjects) && PreferencesComplete(fd.studyPreferences)
  }

  /** `canGoNext`: each data step demands its own fields; review demands
      nothing. */
  function CanGoNext(step: int, fd: FormData): (ok: bool)
    ensures step == 0 ==> (ok <==> DetailsComplete(fd.studentDetails))
    ensures step == 1 ==> (ok <==> SubjectsComplete(fd.subjects))
    ensures step == 2 ==> (ok <==> PreferencesComplete(fd.studyPreferences))
    ensures step != 0 && step != 1 && step != 2 ==> ok
  {
    if step == 0 then DetailsComplete(fd.studentDetails)
    else if step == 1 then SubjectsComplete(fd.subjects)
    else if step == 2 then PreferencesComplete(fd.studyPreferences)
    else true
  }

  /** Passing the gates of steps 0, 1 and 2 is exactly a complete form. */
  lemma GatesMeanComplete(fd: FormData)
    ensures (CanGoNext(0, fd) && CanGoNext(1, fd) && CanGoNext(2, fd)) <==> FormComplete(fd)
  {
  }

  /** A blank subject's empty name keeps the subjects step closed. */
  lemma BlankSubjectBlocksSubjectsStep(subjects: seq<Subject>, freshId: string)
    ensures !CanGoNext(1, FormData(StudentDetails("", "", "", "", ""), SubjectList.AddSubject(subjects, freshId), StudyPreferences(6, 12, Night, "")))
  {
    var r := SubjectList.AddSubject(subjects, freshId);
    assert r[|subjects|].name == "";
  }

  // ----- step arithmetic ---------------------------------------------------------

  /** Next's updater `Math.min(3, p + 1)`: one step on, never past review. */
  function NextStep(step: int): (r: int)
    ensures r <= LastStep
    ensures step < LastStep ==> r == step + 1
    ensures step >= LastStep ==> r == LastStep
  {
    if step + 1 < LastStep then step + 1 else LastStep
  }

  /** Back's updater `Math.max(0, p - 1)`: one step back, never before the
      first. */
  function PrevStep(step: int): (r: int)
    ensures r >= 0
    ensures step > 0 ==> r == step - 1
    ensures step <= 0 ==> r == 0
  {
    if step - 1 > 0 then step - 1 else 0
  }

  /** A gate reads only its own step's fields, so an edit of step `step`'s
      fields keeps the gates below it. */
  lemma GatesBelowKept(before: FormData, after: FormData, step: int)
    requires forall k :: 0 <= k < step ==> CanGoNext(k, before)
    requires step > 0 ==> after.studentDetails == before.studentDetails
    requires step > 1 ==> after.subjects == before.subjects
    requires step > 2 ==> after.studyPreferences == before.studyPreferences
    ensures forall k :: 0 <= k < step ==> CanGoNext(k, after)
  {
    forall k | 0 <= k < step ensures CanGoNext(k, after) {
      assert CanGoNext(k, before);
    }
  }

  /** The submit button replaces Next at the review step and is disabled
      while a request is in flight. */
  predicate SubmitAvailable(step: int, isLoading: bool)
  {
    !(step < LastStep) && !isLoading
  }

  class StudyPlanForm {
    var step: int
    var formData: FormData

    /** The step is one of the four, there is at least one subject, the ids
        are distinct, and every step before the current one lets Next
        through. */
    ghost predicate Valid()
      reads this
    {
      && 0 <= step <= LastStep
      && |formData.subjects| >= 1
      && SubjectList.UniqueIds(formData.subjects)
      && (forall k :: 0 <= k < step ==> CanGoNext(k, formData))
    }

    constructor (firstId: string)
      ensures Valid()
      ensures step == 0 && formData == InitialFormData(firstId)
    {
      step := 0;
      formData := InitialFormData(firstId);
    }

    /** `updateStudentDetails`, reachable from the inputs of step 0. */
    method UpdateStudentDetails(field: StudentField, value: string)
      requires Valid() && step == 0
      modifies this
      ensures Valid() && step == old(step)
      ensures formData == old(formData).(studentDetails := SetStudentField(old(formData.studentDetails), field, value))
    {
      var before := formData;
      formData := formData.(studentDetails := SetStudentField(formData.studentDetails, field, value));
      GatesBelowKept(before, formData, step);
    }

    /** `addSubject`, reachable from step 1; `freshId` is the new UUID. */
    method AddSubject(freshId: string)
      requires Valid() && step == 1
      requires freshId !in SubjectList.Ids(formData.subjects)
      modifies this
      ensures Valid() && step == old(step)
      ensures formData == old(formData).(subjects := SubjectList.AddSubject(old(formData.subjects), freshId))
    {
      SubjectList.AddSubjectKeepsIdsUnique(formData.subjects, freshId);
      var before := formData;
      formData := formData.(subjects := SubjectList.AddSubject(formData.subjects, freshId));
      GatesBelowKept(before, formData, step);
    }

    /** `removeSubject`, reachable from step 1: a no-op on the last subject. */
    method RemoveSubject(id: string)
      requires Valid() && step == 1
      modifies this
      ensures Valid() && step == old(step)
      ensures formData == old(formData).(subjects := SubjectList.RemoveSubject(old(formData.subjects), id))
    {
      SubjectList.RemoveSubjectKeepsOne(formData.subjects, id);
      if |formData.subjects| > 1 {
        SubjectList.FilterOutIdKeepsIdsUnique(formData.subjects, id);
      }
      var before := formData;
      formData := formData.(subjects := SubjectList.RemoveSubject(formData.subjects, id));
      GatesBelowKept(before, formData, step);
    }

    /** `updateSubject`, reachable from step 1. */
    method UpdateSubject(id: string, e: SubjectList.SubjectEdit)
      requires Valid() && step == 1
      modifies this
      ensures Valid() && step == old(step)
      ensures formData == old(formData).(subjects := SubjectList.UpdateSubject(old(formData.subjects), id, e))
    {
      SubjectList.UpdateSubjectKeepsIds(formData.subjects, id, e);
      var before := formData;
      formData := formData.(subjects := SubjectList.UpdateSubject(formData.subjects, id, e));
      GatesBelowKept(before, formData, step);
    }

    /** `updatePreferences`, reachable from step 2. */
    method UpdatePreferences(e: Preferences.PreferenceEdit)
      requires Valid() && step == 2
      modifies this
      ensures Valid() && step == old(step)
      ensures formData == old(formData).(studyPreferences := Preferences.Update(old(formData.studyPreferences), e))
    {
      var before := formData;
      formData := formData.(studyPreferences := Preferences.Update(formData.studyPreferences, e));
      GatesBelowKept(before, formData, step);
    }

    /** The Next button: shown before the review step, enabled when the
        current step's gate holds. */
    method Next()
      requires Valid()
      modifies this
      ensures Valid() && formData == old(formData)
      ensures step == if old(step) < LastStep && CanGoNext(old(step), formData) then old(step) + 1 else old(step)
    {
      if step < LastStep && CanGoNext(step, formData) {
        step := NextStep(step);
      }
    }

    /** The Back button: disabled on the first step. */
    method Back()
      requires Valid()
      modifies this
      ensures Valid() && formData == old(formData)
      ensures step == if old(step) == 0 then 0 else old(step) - 1
    {
      if step != 0 {
        step := PrevStep(step);
      }
    }

    /** The button of step `i` in the indicator: it moves only backwards. */
    method SelectStep(i: int)
      requires Valid() && 0 <= i <= LastStep
      modifies this
      ensures Valid() && formData == old(formData)
      ensures step == if i < old(step) then i else old(step)
      ensures step <= old(step)
    {
      if i < step {
        step := i;
      }
    }

    /** The submit button: when it is available it hands over the form data,
        which is then complete. */
    method Submit(isLoading: bool) returns (submitted: Option<FormData>)
      requires Valid()
      ensures submitted.Some? <==> step == LastStep && !isLoading
      ensures submitted.Some? <==> SubmitAvailable(step, isLoading)
      ensures submitted.Some? ==> submitted.value == formData && FormComplete(formData)
    {
      if SubmitAvailable(step, isLoading) {
        assert CanGoNext(0, formData) && CanGoNext(1, formData) && CanGoNext(2, formData);
        submitted := Some(formData);
      } else {
        submitted := None;
      }
    }
  }
}
