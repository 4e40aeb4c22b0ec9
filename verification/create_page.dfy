/** The creation form: its initial state, the editing of the objective list,
    and the submit handler's validation, filtering, generation and storing. */
module CreatePage {
  import opened Strings
  import opened Model
  import opened AiService
  import CourseStore

  /** The form keeps the generator's request shape. */
  type Form = CourseRequest

  /** Empty title and audience, and one empty objective. */
  const InitialForm: Form := CourseRequest("", "", [""])

  /** The two free-text fields of the form. */
  datatype Field = Title | TargetAudience

  /** `handleInputChange(field, value)`: one field replaced, the rest kept. */
  function SetField(form: Form, field: Field, value: string): (r: Form)
    ensures field == Title ==> r.title == value && r.targetAudience == form.targetAudience
    ensures field == TargetAudience ==> r.targetAudience == value && r.title == form.title
    ensures r.learningObjectives == form.learningObjectives
  {
    match field
    case Title => form.(title := value)
    case TargetAudience => form.(targetAudience := value)
  }

  /** `handleObjectiveChange(i, v)`: position `i` gets `v`, every other entry
      and the length stay. */
  function ChangeObjective(objectives: seq<string>, i: nat, value: string): (r: seq<string>)
    requires i < |objectives|
    ensures |r| == |objectives| && r[i] == value
    ensures forall j :: 0 <= j < |r| && j != i ==> r[j] == objectives[j]
  {
    objectives[i := value]
  }

  /** `addObjective`: one empty entry at the end, the others untouched. */
  function AddObjective(objectives: seq<string>): (r: seq<string>)
    ensures |r| == |objectives| + 1 && r[|objectives|] == ""
    ensures r[..|objectives|] == objectives
  {
    objectives + [""]
  }

  /** `filter((_, j) => j !== i)`: drops the entry at index `i`; an index
      outside the list drops nothing. */
  function DropIndex(objectives: seq<string>, i: int): (r: seq<string>)
    ensures 0 <= i < |objectives| ==> r == objectives[..i] + objectives[i + 1..]
    ensures !(0 <= i < |objectives|) ==> r == objectives
  {
    if |objectives| == 0 then []
    else (if i == 0 then [] else [objectives[0]]) + DropIndex(objectives[1..], i - 1)
  }

  /** `removeObjective(i)`: refuses to drop the only entry; otherwise drops
      entry `i`. */
  function RemoveObjective(objectives: seq<string>, i: int): (r: seq<string>)
    ensures |objectives| <= 1 ==> r == objectives
    ensures |objectives| > 1 && 0 <= i < |objectives| ==>
      r == objectives[..i] + objectives[i + 1..]
    ensures |objectives| > 1 && !(0 <= i < |objectives|) ==> r == objectives
    ensures |objectives| > 0 ==> |r| > 0
  {
    if |objectives| > 1 then DropIndex(objectives, i) else objectives
  }

  /** An edit the form offers on its objective list. */
  datatype ObjectiveEdit = Append | Remove(index: int) | Change(at: nat, value: string)

  /** Applies one edit; a change aimed past the end is not offered by the form
      and leaves the list alone. */
  function ApplyEdit(objectives: seq<string>, e: ObjectiveEdit): seq<string> {
    match e
    case Append => AddObjective(objectives)
    case Remove(i) => RemoveObjective(objectives, i)
    case Change(i, v) => if i < |objectives| then ChangeObjective(objectives, i, v) else objectives
  }

  function ApplyEdits(objectives: seq<string>, edits: seq<ObjectiveEdit>): seq<string>
    decreases |edits|
  {
    if |edits| == 0 then objectives else ApplyEdits(ApplyEdit(objectives, edits[0]), edits[1..])
  }

  /** Starting from the initial form, no run of edits empties the objective
      list. */
  lemma {:induction false} EditsKeepAnObjective(objectives: seq<string>, edits: seq<ObjectiveEdit>)
    requires |objectives| > 0
    ensures |ApplyEdits(objectives, edits)| > 0
    decreases |edits|
  {
    if |edits| > 0 {
      EditsKeepAnObjective(ApplyEdit(objectives, edits[0]), edits[1..]);
    }
  }

  lemma InitialFormKeepsAnObjective(edits: seq<ObjectiveEdit>)
    ensures |InitialForm.learningObjectives| == 1
    ensures |ApplyEdits(InitialForm.learningObjectives, edits)| > 0
  {
    EditsKeepAnObjective(InitialForm.learningObjectives, edits);
  }

  /** `learningObjectives.filter(obj => obj.trim())`: the entries that are not
      blank, in order and as typed, untrimmed. */
  function NonBlank(objectives: seq<string>): (r: seq<string>)
    ensures |r| <= |objectives|
    ensures forall x :: x in r <==> x in objectives && !IsBlank(x)
  {
    if |objectives| == 0 then []
    else (if IsBlank(objectives[0]) then [] else [objectives[0]]) + NonBlank(objectives[1..])
  }

  /** The filter works on each part of a list separately, so the kept entries
      stay in their original order. */
  lemma {:induction false} NonBlankAppend(a: seq<string>, b: seq<string>)
    ensures NonBlank(a + b) == NonBlank(a) + NonBlank(b)
    decreases |a|
  {
    if |a| == 0 {
      assert a + b == b;
    } else {
      assert (a + b)[1..] == a[1..] + b;
      NonBlankAppend(a[1..], b);
    }
  }

  /** Nothing survives the filter exactly when every entry is whitespace
      only. */
  lemma NonBlankEmptyIff(objectives: seq<string>)
    ensures NonBlank(objectives) == [] <==>
      forall i, k :: 0 <= i < |objectives| && 0 <= k < |objectives[i]| ==>
        IsWhitespace(objectives[i][k])
  {
    if NonBlank(objectives) == [] {
      forall i | 0 <= i < |objectives| ensures IsBlank(objectives[i]) {
        assert objectives[i] in objectives;
        assert objectives[i] !in NonBlank(objectives);
      }
    }
    forall i | 0 <= i < |objectives| {
      BlankIff(objectives[i]);
    }
    if NonBlank(objectives) != [] {
      var x := NonBlank(objectives)[0];
      assert x in NonBlank(objectives);
      var i :| 0 <= i < |objectives| && objectives[i] == x;
    }
  }

  /** What the submit handler reports when a check fails. */
  datatype ValidationError = MissingTitle | MissingAudience | MissingObjectives

  datatype Validation = Invalid(error: ValidationError) | Valid(request: CourseRequest)

  /** The checks of `handleSubmit`, in their order: title, audience, then at
      least one objective that is not blank. A passing form becomes the
      request `{ ...formData, learningObjectives: validObjectives }`. */
  function Validate(form: Form): (r: Validation)
    ensures r == Invalid(MissingTitle) <==> IsBlank(form.title)
    ensures r == Invalid(MissingAudience) <==> !IsBlank(form.title) && IsBlank(form.targetAudience)
    ensures r == Invalid(MissingObjectives) <==>
      !IsBlank(form.title) && !IsBlank(form.targetAudience) && NonBlank(form.learningObjectives) == []
    ensures r.Valid? ==> r.request == form.(learningObjectives := NonBlank(form.learningObjectives))
  {
    if IsBlank(form.title) then Invalid(MissingTitle)
    else if IsBlank(form.targetAudience) then Invalid(MissingAudience)
    else
      var valid := NonBlank(form.learningObjectives);
      if |valid| == 0 then Invalid(MissingObjectives)
      else Valid(form.(learningObjectives := valid))
  }

  /** The initial form fails on its empty title. */
  lemma InitialFormRejected()
    ensures Validate(InitialForm) == Invalid(MissingTitle)
  {
    assert TrimStart("") == "";
  }

  /** How a submission ends: an error notice, or navigation to the new
      course. */
  datatype Outcome = Rejected(error: ValidationError) | Created(courseId: string)

  /** `handleSubmit` without its delay and notices: a form that fails a check
      leaves the course list as it was and never reaches the generator; a
      form that passes is generated from, stored in front under the fresh id,
      and the page moves on to that id. */
  function Submit(form: Form, courses: seq<Course>, freshId: string, now: string): (r: (seq<Course>, Outcome))
    ensures Validate(form).Invalid? ==> r == (courses, Rejected(Validate(form).error))
    ensures Validate(form).Valid? ==>
      r == (CourseStore.Add(courses, GenerateCourseOutline(Validate(form).request), freshId, now).0,
            Created(freshId))
  {
    match Validate(form)
    case Invalid(e) => (courses, Rejected(e))
    case Valid(request) =>
      var added := CourseStore.Add(courses, GenerateCourseOutline(request), freshId, now);
      (added.0, Created(added.1))
  }

  /** The course a successful submission stores carries the form's title and
      audience as typed, only the non-blank objectives, the capstone last,
      and one time stamp for creation and update. */
  lemma SubmittedCourse(form: Form, courses: seq<Course>, freshId: string, now: string)
    requires Validate(form).Valid?
    ensures var r := Submit(form, courses, freshId, now);
      && r.1 == Created(freshId)
      && CourseStore.Get(r.0, freshId).Some?
      && var c := CourseStore.Get(r.0, freshId).value;
      && c.id == freshId
      && c.title == form.title && c.targetAudience == form.targetAudience
      && c.learningObjectives == Some(NonBlank(form.learningObjectives))
      && c.modules.Some? && |c.modules.value| > 0
      && c.modules.value[|c.modules.value| - 1].title == CapstoneTitle
      && c.createdAt == now && c.updatedAt == now
      && r.0[1..] == courses
  {
    var request := Validate(form).request;
    CourseStore.GetAfterAdd(courses, GenerateCourseOutline(request), freshId, now);
  }
}
