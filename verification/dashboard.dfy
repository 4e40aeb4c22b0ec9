/** The dashboard: the three totals, the empty state, each card's objective
    preview, and the confirmation-gated delete. */
module Dashboard {
  import opened Model
  import Strings
  import CourseStore
  import OutlinePage

  /** The empty state replaces the course grid when there is no course. */
  predicate ShowsEmptyState(courses: seq<Course>): (r: bool)
    ensures r ==> TotalModules(courses) == 0 && TotalLessons(courses) == 0
  {
    |courses| == 0
  }

  /** The "Total Modules" card: `course.modules?.length || 0` added up. */
  function TotalModules(courses: seq<Course>): (n: nat)
    ensures forall i :: 0 <= i < |courses| ==> LengthOrZero(courses[i].modules) <= n
    ensures n == 0 <==> forall i :: 0 <= i < |courses| ==> LengthOrZero(courses[i].modules) == 0
  {
    if |courses| == 0 then 0
    else LengthOrZero(courses[0].modules) + TotalModules(courses[1..])
  }

  /** The "Total Lessons" card: each course's own lesson count, the value its
      card shows, added up. */
  function TotalLessons(courses: seq<Course>): (n: nat)
    ensures forall i :: 0 <= i < |courses| ==> OutlinePage.LessonCount(courses[i].modules) <= n
    ensures n == 0 <==> forall i :: 0 <= i < |courses| ==> OutlinePage.LessonCount(courses[i].modules) == 0
  {
    if |courses| == 0 then 0
    else OutlinePage.LessonCount(courses[0].modules) + TotalLessons(courses[1..])
  }

  /** The three totals after a course is added: one more course, and its
      modules and lessons on top. */
  lemma TotalsAfterAdd(courses: seq<Course>, data: CourseFields, id: string, now: string)
    ensures var r := CourseStore.Add(courses, data, id, now).0;
      && |r| == |courses| + 1 && !ShowsEmptyState(r)
      && TotalModules(r) == TotalModules(courses) + LengthOrZero(data.modules)
      && TotalLessons(r) == TotalLessons(courses) + OutlinePage.LessonCount(data.modules)
  {
    var r := CourseStore.Add(courses, data, id, now).0;
    assert r[1..] == courses;
  }

  /** Deleting the course at position `i` of a list with unique ids takes
      exactly its modules and lessons off the totals, and one course off the
      count. */
  lemma {:induction false} TotalsAfterDelete(courses: seq<Course>, i: nat)
    requires i < |courses| && CourseStore.UniqueIds(courses)
    ensures var r := CourseStore.Delete(courses, courses[i].id);
      && |r| == |courses| - 1
      && TotalModules(r) == TotalModules(courses) - LengthOrZero(courses[i].modules)
      && TotalLessons(r) == TotalLessons(courses) - OutlinePage.LessonCount(courses[i].modules)
    decreases |courses|
  {
    var id := courses[i].id;
    var rest := courses[1..];
    if i == 0 {
      assert forall j :: 0 <= j < |rest| ==> rest[j].id == courses[j + 1].id;
      CourseStore.DeleteAbsent(rest, id);
    } else {
      assert rest[i - 1] == courses[i];
      assert CourseStore.UniqueIds(rest);
      TotalsAfterDelete(rest, i - 1);
      assert courses[0].id != id;
    }
  }

  /** What a card shows of a course's objectives: the first two, and a
      `+k more` line when there are more. */
  datatype Preview = Preview(shown: seq<string>, more: Option<nat>)

  /** The objective preview of a card; no preview at all when the list is
      missing or empty. */
  function ObjectivePreview(objectives: Option<seq<string>>): (r: Option<Preview>)
    ensures r.None? <==> objectives.None? || |objectives.value| == 0
    ensures r.Some? ==> var n := |objectives.value|;
      && r.value.shown == objectives.value[..if n < 2 then n else 2]
      && (r.value.more.Some? <==> n > 2)
      && (r.value.more.Some? ==> r.value.more.value == n - 2)
      && |r.value.shown| + r.value.more.GetOr(0) == n
  {
    match objectives
    case None => None
    case Some(os) =>
      if |os| == 0 then None
      else Some(Preview(Strings.Take(os, 2), if |os| > 2 then Some(|os| - 2) else None))
  }

  /** `handleDelete`: the course list changes only when the user confirms. */
  function HandleDelete(courses: seq<Course>, id: string, confirmed: bool): (r: seq<Course>)
    ensures !confirmed ==> r == courses
    ensures confirmed ==> forall i :: 0 <= i < |r| ==> r[i].id != id
    ensures confirmed ==> forall c :: c in courses && c.id != id ==> c in r
    ensures confirmed ==> r == CourseStore.Delete(courses, id)
  {
    if confirmed then
      assert forall i :: 0 <= i < |CourseStore.Delete(courses, id)| ==>
        CourseStore.Delete(courses, id)[i] in CourseStore.Delete(courses, id);
      CourseStore.Delete(courses, id)
    else courses
  }
}
