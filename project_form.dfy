/** The project creation form of `src/app/projects/create/page.js`: its form
    record, the tag list it maintains, its validation rule, and the page state
    (`formData`, `newTag`, `errors`) its handlers update. */
module ProjectForm {
  import opened Js
  import opened Seqs

  datatype ProjectFormData = ProjectFormData(
    name: string,
    description: string,
    category: string,
    priority: string,
    color: string,
    startDate: string,
    endDate: string,
    teamSize: int,
    tags: seq<string>)

  /** The form as the page first shows it. */
  const InitialForm: ProjectFormData :=
    ProjectFormData("", "", "", "medium", "#7370fd", "", "", 1, [])

  const NameRequired: string := "Название проекта обязательно"
  const EndBeforeStart: string := "Дата окончания не может быть раньше даты начала"
  const CreateFailed: string := "Ошибка при создании проекта"

  // ---------------------------------------------------------------------------
  // Fields

  /** The fields the page passes to `handleInputChange`. */
  datatype ProjectField = Name | Description | Category | Priority | Color | StartDate | EndDate | TeamSize

  /** The property name of each field, which is also its key in `errors`. */
  function FieldKey(f: ProjectField): (k: string)
    ensures k != "tags" && k != "submit"
  {
    match f
    case Name => "name"
    case Description => "description"
    case Category => "category"
    case Priority => "priority"
    case Color => "color"
    case StartDate => "startDate"
    case EndDate => "endDate"
    case TeamSize => "teamSize"
  }

  /** A value typed into a field: text, or the team size as a number. */
  datatype FieldValue = Text(text: string) | Number(number: int)

  /** Team size is the only numeric field. */
  predicate Fits(f: ProjectField, v: FieldValue) {
    if f == TeamSize then v.Number? else v.Text?
  }

  function FieldOf(d: ProjectFormData, f: ProjectField): (v: FieldValue)
    ensures Fits(f, v)
  {
    match f
    case Name => Text(d.name)
    case Description => Text(d.description)
    case Category => Text(d.category)
    case Priority => Text(d.priority)
    case Color => Text(d.color)
    case StartDate => Text(d.startDate)
    case EndDate => Text(d.endDate)
    case TeamSize => Number(d.teamSize)
  }

  /** `{ ...prev, [field]: value }`: the named field takes the value, every other
      field and the tags keep theirs. */
  function WithField(d: ProjectFormData, f: ProjectField, v: FieldValue): (r: ProjectFormData)
    requires Fits(f, v)
    ensures FieldOf(r, f) == v
    ensures forall g :: g != f ==> FieldOf(r, g) == FieldOf(d, g)
    ensures r.tags == d.tags
  {
    match f
    case Name => d.(name := v.text)
    case Description => d.(description := v.text)
    case Category => d.(category := v.text)
    case Priority => d.(priority := v.text)
    case Color => d.(color := v.text)
    case StartDate => d.(startDate := v.text)
    case EndDate => d.(endDate := v.text)
    case TeamSize => d.(teamSize := v.number)
  }

  /** The team size input passes `parseInt(value) || 1`: `None` stands for
      `NaN`, and `NaN` and `0` both become 1. */
  function TeamSizeInput(parsed: Option<int>): (n: int)
    ensures n != 0
    ensures parsed.Some? && parsed.value != 0 ==> n == parsed.value
    ensures parsed.None? || parsed.value == 0 ==> n == 1
  {
    if parsed.Some? && parsed.value != 0 then parsed.value else 1
  }

  /** The error part of `handleInputChange`: a truthy error under the key is
      blanked, anything else is left alone. */
  function ClearError(errors: map<string, string>, key: string): (r: map<string, string>)
    ensures r.Keys == errors.Keys
    ensures key in r ==> r[key] == ""
    ensures forall k :: k in errors && k != key ==> r[k] == errors[k]
  {
    if key in errors && errors[key] != "" then errors[key := ""] else errors
  }

  // ---------------------------------------------------------------------------
  // Tags

  /** Whether `handleAddTag` accepts the input: its trim is non-empty and new. */
  predicate Accepts(tags: seq<string>, newTag: string) {
    Trim(newTag) != "" && Trim(newTag) !in tags
  }

  /** `handleAddTag` on the tag list: the trimmed tag is appended when accepted. */
  function WithTag(tags: seq<string>, newTag: string): (r: seq<string>)
    ensures Accepts(tags, newTag) ==> r == tags + [Trim(newTag)]
    ensures !Accepts(tags, newTag) ==> r == tags
  {
    if Accepts(tags, newTag) then tags + [Trim(newTag)] else tags
  }

  /** The `filter` callback of `handleRemoveTag`. */
  function KeepOtherTag(tag: string): string -> bool {
    (t: string) => t != tag
  }

  /** `handleRemoveTag` on the tag list. */
  function WithoutTag(tags: seq<string>, tag: string): (r: seq<string>)
    ensures forall t :: t in r <==> t in tags && t != tag
    ensures IsSubsequence(r, tags)
  {
    FilterIsSubsequence(tags, KeepOtherTag(tag));
    Filter(tags, KeepOtherTag(tag))
  }

  /** The tag list invariant: no duplicates, and every tag non-empty and trimmed. */
  ghost predicate WellFormedTags(tags: seq<string>) {
    Distinct(tags) && forall i :: 0 <= i < |tags| ==> tags[i] != "" && Trim(tags[i]) == tags[i]
  }

  /** Adding a tag keeps the tag list well formed, and afterwards the trimmed
      tag is present whenever it is non-empty. */
  lemma WithTagWellFormed(tags: seq<string>, newTag: string)
    requires WellFormedTags(tags)
    ensures WellFormedTags(WithTag(tags, newTag))
    ensures Trim(newTag) != "" ==> Trim(newTag) in WithTag(tags, newTag)
  {
    var tag := Trim(newTag);
    if tag != "" && tag !in tags {
      TrimIdempotent(newTag);
      AppendFresh(tags, tag);
      var r := tags + [tag];
      forall i | 0 <= i < |r| ensures r[i] != "" && Trim(r[i]) == r[i] {
        if i < |tags| {
          assert r[i] == tags[i];
        }
      }
    }
  }

  /** Removing a tag keeps the tag list well formed, and a present tag
      shortens it by exactly one. */
  lemma WithoutTagWellFormed(tags: seq<string>, tag: string)
    requires WellFormedTags(tags)
    ensures WellFormedTags(WithoutTag(tags, tag))
    ensures tag in tags ==> |WithoutTag(tags, tag)| == |tags| - 1
    ensures tag !in tags ==> WithoutTag(tags, tag) == tags
  {
    var r := WithoutTag(tags, tag);
    FilterDistinct(tags, KeepOtherTag(tag));
    forall i | 0 <= i < |r| ensures r[i] != "" && Trim(r[i]) == r[i] {
      assert r[i] in r;
      var k :| 0 <= k < |tags| && tags[k] == r[i];
    }
    if tag in tags {
      FilterOutOne(tags, tag, KeepOtherTag(tag));
    } else {
      FilterKeepsAll(tags, KeepOtherTag(tag));
    }
  }

  /** Removing a tag just added restores the tag list. */
  lemma RemoveUndoesAdd(tags: seq<string>, newTag: string)
    requires Accepts(tags, newTag)
    ensures WithoutTag(WithTag(tags, newTag), Trim(newTag)) == tags
  {
    var keep := KeepOtherTag(Trim(newTag));
    FilterAppend(tags, [Trim(newTag)], keep);
    FilterKeepsAll(tags, keep);
    assert Filter([Trim(newTag)], keep) == [];
  }

  // ---------------------------------------------------------------------------
  // Validation

  /** `validateForm`'s error object: a name error iff the trimmed name is empty,
      an end date error iff both dates are set and the start date sorts after
      the end date. */
  function ProjectErrors(d: ProjectFormData): (r: map<string, string>)
    ensures "name" in r <==> Trim(d.name) == ""
    ensures "endDate" in r <==> d.startDate != "" && d.endDate != "" && StrLess(d.endDate, d.startDate)
    ensures r.Keys <= {"name", "endDate"}
    ensures "name" in r ==> r["name"] == NameRequired
    ensures "endDate" in r ==> r["endDate"] == EndBeforeStart
  {
    var nameErrors: map<string, string> := if Trim(d.name) == "" then map["name" := NameRequired] else map[];
    if d.startDate != "" && d.endDate != "" && StrLess(d.endDate, d.startDate)
    then nameErrors["endDate" := EndBeforeStart]
    else nameErrors
  }

  /** `validateForm`'s result: the error object has no keys. */
  predicate IsValid(d: ProjectFormData) {
    ProjectErrors(d) == map[]
  }

  lemma IsValidIff(d: ProjectFormData)
    ensures IsValid(d) <==> Trim(d.name) != "" && (d.startDate == "" || d.endDate == "" || !StrLess(d.endDate, d.startDate))
  {
    if !IsValid(d) {
      var k :| k in ProjectErrors(d);
    }
  }

  /** A project that starts and ends on the same day passes the date rule. */
  lemma SameDayIsValid(d: ProjectFormData)
    requires Trim(d.name) != "" && d.startDate == d.endDate
    ensures IsValid(d)
  {
    StrLessIrreflexive(d.endDate);
    IsValidIff(d);
  }

  /** The initial form is not submittable: its name is empty. */
  lemma InitialFormInvalid()
    ensures !IsValid(InitialForm)
    ensures WellFormedTags(InitialForm.tags)
  {
    assert "name" in ProjectErrors(InitialForm);
  }

  // ---------------------------------------------------------------------------
  // Page state

  /** What `handleSubmit` ends with: validation failed and nothing was sent,
      the project was created and the page navigates, or creation failed. */
  datatype SubmitOutcome = NotSent | Created(sent: ProjectFormData, route: string) | Failed(sent: ProjectFormData)

  class CreateProjectPage {
    var formData: ProjectFormData
    var newTag: string
    var errors: map<string, string>

    ghost predicate Valid()
      reads this
    {
      WellFormedTags(formData.tags)
    }

    constructor()
      ensures Valid()
      ensures formData == InitialForm && newTag == "" && errors == map[]
    {
      formData := InitialForm;
      newTag := "";
      errors := map[];
    }

    /** `handleInputChange(field, value)`. */
    method InputChange(field: ProjectField, value: FieldValue)
      requires Valid() && Fits(field, value)
      modifies this
      ensures Valid()
      ensures formData == WithField(old(formData), field, value)
      ensures errors == ClearError(old(errors), FieldKey(field))
      ensures newTag == old(newTag)
    {
      formData := WithField(formData, field, value);
      if FieldKey(field) in errors && errors[FieldKey(field)] != "" {
        errors := errors[FieldKey(field) := ""];
      }
    }

    /** The tag input's `onChange`. */
    method SetNewTag(text: string)
      modifies this
      ensures newTag == text && formData == old(formData) && errors == old(errors)
    {
      newTag := text;
    }

    /** `handleAddTag`: appends the trimmed tag when it is new and non-empty,
        and only then clears the input. */
    method AddTag()
      requires Valid()
      modifies this
      ensures Valid()
      ensures formData == old(formData).(tags := WithTag(old(formData.tags), old(newTag)))
      ensures Accepts(old(formData.tags), old(newTag)) ==> newTag == ""
      ensures !Accepts(old(formData.tags), old(newTag)) ==> newTag == old(newTag)
      ensures errors == old(errors)
    {
      WithTagWellFormed(formData.tags, newTag);
      var added := Accepts(formData.tags, newTag);
      formData := formData.(tags := WithTag(formData.tags, newTag));
      if added {
        newTag := "";
      }
    }

    /** `handleRemoveTag(tag)`. */
    method RemoveTag(tag: string)
      requires Valid()
      modifies this
      ensures Valid()
      ensures formData == old(formData).(tags := WithoutTag(old(formData.tags), tag))
      ensures newTag == old(newTag) && errors == old(errors)
    {
      WithoutTagWellFormed(formData.tags, tag);
      formData := formData.(tags := WithoutTag(formData.tags, tag));
    }

    /** `validateForm`: replaces the errors with the fresh error object and
        reports whether it is empty. */
    method ValidateForm() returns (ok: bool)
      modifies this
      ensures errors == ProjectErrors(formData)
      ensures ok <==> IsValid(formData)
      ensures formData == old(formData) && newTag == old(newTag)
    {
      errors := ProjectErrors(formData);
      ok := errors == map[];
    }

    /** `handleSubmit`: an invalid form is never sent; otherwise `createProject`
        is called with the form, and its success (an input here) decides
        between navigating to the project list and a submit error. */
    method Submit(createSucceeds: bool) returns (outcome: SubmitOutcome)
      modifies this
      ensures formData == old(formData) && newTag == old(newTag)
      ensures !IsValid(formData) ==> outcome == NotSent && errors == ProjectErrors(formData)
      ensures IsValid(formData) && createSucceeds ==> outcome == Created(formData, "/projects") && errors == map[]
      ensures IsValid(formData) && !createSucceeds ==>
        outcome == Failed(formData) && errors == map["submit" := CreateFailed]
    {
      var ok := ValidateForm();
      if !ok {
        return NotSent;
      }
      if createSucceeds {
        outcome := Created(formData, "/projects");
      } else {
        errors := map["submit" := CreateFailed];
        outcome := Failed(formData);
      }
    }
  }
}
