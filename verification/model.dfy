/** The records the app passes around: lessons inside modules inside courses.
    Fields the source reads with optional chaining (`?.`) may be missing and are
    `Option`s; a missing description and an empty one are both falsy in the
    source and are both written `""` here. */
module Model {

  datatype Option<+T> = None | Some(value: T) {
    function GetOr(default: T): T {
      match this
      case Some(v) => v
      case None => default
    }
  }

  datatype Lesson = Lesson(
    title: string,
    description: string,
    keyConcepts: seq<string>,
    activities: seq<string>)

  datatype Module = Module(
    title: string,
    description: string,
    lessons: Option<seq<Lesson>>)

  datatype Course = Course(
    id: string,
    title: string,
    targetAudience: string,
    learningObjectives: Option<seq<string>>,
    modules: Option<seq<Module>>,
    createdAt: string,
    updatedAt: string)

  /** A plain object whose keys are spread over a course: the data handed to
      `addCourse` and the `updates` handed to `updateCourse`. A `None` field is
      a key the object does not have. */
  datatype CourseFields = CourseFields(
    id: Option<string>,
    title: Option<string>,
    targetAudience: Option<string>,
    learningObjectives: Option<seq<string>>,
    modules: Option<seq<Module>>,
    createdAt: Option<string>,
    updatedAt: Option<string>)

  /** An object with no keys. */
  const NoFields := CourseFields(None, None, None, None, None, None, None)

  /** `{ ...c, ...p }`: every key present in `p` replaces the course's value,
      every other field of the course is kept. */
  function Spread(c: Course, p: CourseFields): (r: Course)
    ensures p.id.Some? ==> r.id == p.id.value
    ensures p.id.None? ==> r.id == c.id
    ensures p.title.Some? ==> r.title == p.title.value
    ensures p.title.None? ==> r.title == c.title
    ensures p.targetAudience.Some? ==> r.targetAudience == p.targetAudience.value
    ensures p.targetAudience.None? ==> r.targetAudience == c.targetAudience
    ensures p.learningObjectives.Some? ==> r.learningObjectives == p.learningObjectives
    ensures p.learningObjectives.None? ==> r.learningObjectives == c.learningObjectives
    ensures p.modules.Some? ==> r.modules == p.modules
    ensures p.modules.None? ==> r.modules == c.modules
    ensures p.createdAt.Some? ==> r.createdAt == p.createdAt.value
    ensures p.createdAt.None? ==> r.createdAt == c.createdAt
    ensures p.updatedAt.Some? ==> r.updatedAt == p.updatedAt.value
    ensures p.updatedAt.None? ==> r.updatedAt == c.updatedAt
  {
    Course(
      p.id.GetOr(c.id),
      p.title.GetOr(c.title),
      p.targetAudience.GetOr(c.targetAudience),
      if p.learningObjectives.Some? then p.learningObjectives else c.learningObjectives,
      if p.modules.Some? then p.modules else c.modules,
      p.createdAt.GetOr(c.createdAt),
      p.updatedAt.GetOr(c.updatedAt))
  }

  /** `value?.length || 0`: the length of a list, a missing list counting as 0. */
  function LengthOrZero<T>(o: Option<seq<T>>): (n: nat)
    ensures o.None? ==> n == 0
    ensures o.Some? ==> n == |o.value|
  {
    match o
    case None => 0
    case Some(s) => |s|
  }
}
