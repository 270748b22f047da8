/** The task creation form of `src/app/components/CreateTaskForm.js`: its form
    record, validation, the payload it submits, and the reset that follows a
    successful submit or a close. */
module TaskForm {
  import opened Js
  import opened Domain

  datatype TaskFormData = TaskFormData(title: string, description: string, priority: string, dueDate: string)

  /** The form as first shown and as reset. */
  const InitialForm: TaskFormData := TaskFormData("", "", Medium, "")

  const TitleRequired: string := "Название задачи обязательно"
  const DueDateInPast: string := "Дата не может быть в прошлом"

  /** The fields the component passes to `handleInputChange`. */
  datatype TaskField = Title | Description | Priority | DueDate

  /** The property name of each field, which is also its key in `errors`. */
  function FieldKey(f: TaskField): string {
    match f
    case Title => "title"
    case Description => "description"
    case Priority => "priority"
    case DueDate => "due_date"
  }

  function FieldOf(d: TaskFormData, f: TaskField): string {
    match f
    case Title => d.title
    case Description => d.description
    case Priority => d.priority
    case DueDate => d.dueDate
  }

  /** `{ ...prev, [field]: value }`: only the named field changes. */
  function WithField(d: TaskFormData, f: TaskField, value: string): (r: TaskFormData)
    ensures FieldOf(r, f) == value
    ensures forall g :: g != f ==> FieldOf(r, g) == FieldOf(d, g)
  {
    match f
    case Title => d.(title := value)
    case Description => d.(description := value)
    case Priority => d.(priority := value)
    case DueDate => d.(dueDate := value)
  }

  /** The error part of `handleInputChange`: a truthy error under the key
      becomes `null`, anything else is left alone. */
  function ClearError(errors: map<string, Option<string>>, key: string): (r: map<string, Option<string>>)
    ensures r.Keys == errors.Keys
    ensures key in errors && Truthy(errors[key]) ==> r[key] == None
    ensures forall k :: k in errors && (k != key || !Truthy(errors[k])) ==> r[k] == errors[k]
  {
    if key in errors && Truthy(errors[key]) then errors[key := None] else errors
  }

  // ---------------------------------------------------------------------------
  // Validation

  /** `validateForm`'s error object. `dueInPast` is the comparison of the due
      date with the clock, which is an input here. */
  function TaskErrors(d: TaskFormData, dueInPast: bool): (r: map<string, Option<string>>)
    ensures "title" in r <==> Trim(d.title) == ""
    ensures "due_date" in r <==> d.dueDate != "" && dueInPast
    ensures r.Keys <= {"title", "due_date"}
    ensures "title" in r ==> r["title"] == Some(TitleRequired)
    ensures "due_date" in r ==> r["due_date"] == Some(DueDateInPast)
  {
    var titleErrors: map<string, Option<string>> := if Trim(d.title) == "" then map["title" := Some(TitleRequired)] else map[];
    if d.dueDate != "" && dueInPast then titleErrors["due_date" := Some(DueDateInPast)] else titleErrors
  }

  predicate IsValid(d: TaskFormData, dueInPast: bool) {
    TaskErrors(d, dueInPast) == map[]
  }

  /** The form is valid exactly when the title is not blank and no set due date lies in the past. */
  lemma IsValidIff(d: TaskFormData, dueInPast: bool)
    ensures IsValid(d, dueInPast) <==> Trim(d.title) != "" && (d.dueDate == "" || !dueInPast)
  {
    if !IsValid(d, dueInPast) {
      var k :| k in TaskErrors(d, dueInPast);
    }
  }

  // ---------------------------------------------------------------------------
  // Payload

  /** The `taskData` object `handleSubmit` sends. */
  datatype TaskPayload = TaskPayload(title: string, description: Option<string>, priority: string, dueDate: Option<string>)

  /** `taskData`: the title trimmed, the description trimmed or `null` when
      blank, the due date or `null` when empty, the priority as chosen. */
  function Payload(d: TaskFormData): (p: TaskPayload)
    ensures IsTrimmed(p.title) && p.title == Trim(d.title)
    ensures p.description.None? <==> Trim(d.description) == ""
    ensures p.description.Some? ==> p.description.value == Trim(d.description) && p.description.value != ""
    ensures p.dueDate.None? <==> d.dueDate == ""
    ensures p.dueDate.Some? ==> p.dueDate.value == d.dueDate
    ensures p.priority == d.priority
  {
    TaskPayload(Trim(d.title), if Trim(d.description) == "" then None else Some(Trim(d.description)),
                d.priority, if d.dueDate == "" then None else Some(d.dueDate))
  }

  /** A valid form sends a non-empty title. */
  lemma ValidPayloadHasTitle(d: TaskFormData, dueInPast: bool)
    requires IsValid(d, dueInPast)
    ensures Payload(d).title != ""
  {
    IsValidIff(d, dueInPast);
  }

  /** The form a payload would fill back in. */
  function FormOf(p: TaskPayload): TaskFormData {
    TaskFormData(p.title, if p.description.Some? then p.description.value else "",
                 p.priority, if p.dueDate.Some? then p.dueDate.value else "")
  }

  /** Normalisation is idempotent: filling the form with a payload and
      submitting again yields the same payload. */
  lemma PayloadIdempotent(d: TaskFormData)
    ensures Payload(FormOf(Payload(d))) == Payload(d)
  {
    var p := Payload(d);
    var f := FormOf(p);
    TrimIdempotent(d.title);
    assert Trim(f.title) == p.title;
    if p.description.Some? {
      TrimIdempotent(d.description);
      assert Trim(f.description) == p.description.value;
    } else {
      assert f.description == "";
    }
  }

  // ---------------------------------------------------------------------------
  // Component state

  /** The `onSubmit(projectId, taskData)` call. */
  datatype Submission = Submission(projectId: Option<Id>, payload: TaskPayload)

  class CreateTaskForm {
    var formData: TaskFormData
    var errors: map<string, Option<string>>

    constructor()
      ensures formData == InitialForm && errors == map[]
    {
      formData := InitialForm;
      errors := map[];
    }

    /** `handleInputChange(field, value)`. */
    method InputChange(field: TaskField, value: string)
      modifies this
      ensures formData == WithField(old(formData), field, value)
      ensures errors == ClearError(old(errors), FieldKey(field))
    {
      formData := WithField(formData, field, value);
      if FieldKey(field) in errors && Truthy(errors[FieldKey(field)]) {
        errors := errors[FieldKey(field) := None];
      }
    }

    /** `validateForm`: replaces the errors with the fresh error object and
        reports whether it is empty. */
    method ValidateForm(dueInPast: bool) returns (ok: bool)
      modifies this
      ensures errors == TaskErrors(formData, dueInPast)
      ensures ok <==> IsValid(formData, dueInPast)
      ensures formData == old(formData)
    {
      errors := TaskErrors(formData, dueInPast);
      ok := errors == map[];
    }

    /** `handleSubmit`: an invalid form sends nothing; a valid one sends the
        payload, and only when `onSubmit` succeeds (an input here) resets the
        form, clears the errors and closes. */
    method Submit(projectId: Option<Id>, dueInPast: bool, submitSucceeds: bool)
      returns (sent: Option<Submission>, closed: bool)
      modifies this
      ensures !IsValid(old(formData), dueInPast) ==>
        sent.None? && !closed && formData == old(formData) && errors == TaskErrors(formData, dueInPast)
      ensures IsValid(old(formData), dueInPast) ==> sent == Some(Submission(projectId, Payload(old(formData))))
      ensures IsValid(old(formData), dueInPast) && submitSucceeds ==>
        closed && formData == InitialForm && errors == map[]
      ensures IsValid(old(formData), dueInPast) && !submitSucceeds ==>
        !closed && formData == old(formData) && errors == map[]
    {
      var ok := ValidateForm(dueInPast);
      if !ok {
        return None, false;
      }
      sent := Some(Submission(projectId, Payload(formData)));
      closed := false;
      if submitSucceeds {
        formData := InitialForm;
        errors := map[];
        closed := true;
      }
    }

    /** `handleClose`: resets the form and the errors and always closes. */
    method Close() returns (closed: bool)
      modifies this
      ensures closed && formData == InitialForm && errors == map[]
    {
      formData := InitialForm;
      errors := map[];
      closed := true;
    }
  }
}
