/** The course provider: an ordered list of courses, most recently created
    first, mirrored to one storage key after every change. The random id and
    the clock reading that the provider obtains itself are parameters here, and
    so are the text encoding and decoding of the list. */
module CourseStore {
  import opened Model

  /** The values a course spread from an object with no keys would show;
      absent strings read as empty and absent lists as missing. */
  const Blank := Course("", "", "", None, None, "", "")

  /** `{ ...courseData, id, createdAt: now, updatedAt: now }`: the three
      assigned keys come last, so they win over any the data brings along. */
  function NewCourse(data: CourseFields, id: string, now: string): (c: Course)
    ensures c.id == id
    ensures c.createdAt == now && c.updatedAt == now
    ensures c.title == data.title.GetOr("")
    ensures c.targetAudience == data.targetAudience.GetOr("")
    ensures c.learningObjectives == data.learningObjectives
    ensures c.modules == data.modules
  {
    Spread(Blank, data).(id := id, createdAt := now, updatedAt := now)
  }

  /** `addCourse`: the new course goes in front of the existing ones, and its
      id is handed back. */
  function Add(courses: seq<Course>, data: CourseFields, id: string, now: string): (r: (seq<Course>, string))
    ensures r.1 == id
    ensures |r.0| == |courses| + 1
    ensures r.0[0] == NewCourse(data, id, now) && r.0[0].id == r.1
    ensures r.0[1..] == courses
  {
    var c := NewCourse(data, id, now);
    ([c] + courses, c.id)
  }

  /** `updateCourse`: every course with the id gets the update keys spread
      over it and then a fresh `updatedAt`; every other course is left alone,
      and the list keeps its length and order. */
  function Update(courses: seq<Course>, id: string, updates: CourseFields, now: string): (r: seq<Course>)
    ensures |r| == |courses|
    ensures forall i :: 0 <= i < |r| && courses[i].id != id ==> r[i] == courses[i]
    ensures forall i :: 0 <= i < |r| && courses[i].id == id ==>
      r[i] == Spread(courses[i], updates).(updatedAt := now)
  {
    seq(|courses|, i requires 0 <= i < |courses| =>
      if courses[i].id == id then Spread(courses[i], updates).(updatedAt := now) else courses[i])
  }

  /** `deleteCourse`: keeps exactly the courses with another id. */
  function Delete(courses: seq<Course>, id: string): (r: seq<Course>)
    ensures |r| <= |courses|
    ensures forall c :: c in r <==> c in courses && c.id != id
  {
    if |courses| == 0 then []
    else if courses[0].id == id then Delete(courses[1..], id)
    else [courses[0]] + Delete(courses[1..], id)
  }

  /** `courses[i]` is the first course with the id. */
  ghost predicate FirstMatchAt(courses: seq<Course>, id: string, i: int) {
    0 <= i < |courses| && courses[i].id == id && forall j :: 0 <= j < i ==> courses[j].id != id
  }

  /** A first match in the tail is a first match of the whole list when the
      head does not match. */
  lemma FirstMatchShift(courses: seq<Course>, id: string, c: Course)
    requires |courses| > 0 && courses[0].id != id
    requires exists i :: FirstMatchAt(courses[1..], id, i) && courses[1..][i] == c
    ensures exists i :: FirstMatchAt(courses, id, i) && courses[i] == c
  {
    var i :| FirstMatchAt(courses[1..], id, i) && courses[1..][i] == c;
    assert FirstMatchAt(courses, id, i + 1);
  }

  /** `getCourse` (and the outline page's own `courses.find`): the first course
      with the id, or nothing when no course has it. */
  function Get(courses: seq<Course>, id: string): (r: Option<Course>)
    ensures r.None? <==> forall i :: 0 <= i < |courses| ==> courses[i].id != id
    ensures r.Some? ==> exists i :: FirstMatchAt(courses, id, i) && courses[i] == r.value
  {
    if |courses| == 0 then None
    else if courses[0].id == id then
      assert FirstMatchAt(courses, id, 0);
      Some(courses[0])
    else
      var r := Get(courses[1..], id);
      if r.Some? then
        FirstMatchShift(courses, id, r.value);
        r
      else r
  }

  /** The ids in use. */
  function Ids(courses: seq<Course>): set<string> {
    set c | c in courses :: c.id
  }

  /** No two courses of the list share an id. */
  ghost predicate UniqueIds(courses: seq<Course>) {
    forall i, j :: 0 <= i < j < |courses| ==> courses[i].id != courses[j].id
  }

  /** Reading back the id just added finds the course just added. */
  lemma GetAfterAdd(courses: seq<Course>, data: CourseFields, id: string, now: string)
    ensures Get(Add(courses, data, id, now).0, id) == Some(NewCourse(data, id, now))
  {
  }

  /** After a delete no course with that id can be found. */
  lemma GetAfterDelete(courses: seq<Course>, id: string)
    ensures Get(Delete(courses, id), id).None?
  {
    var r := Delete(courses, id);
    forall i | 0 <= i < |r| ensures r[i].id != id {
      assert r[i] in r;
    }
  }

  /** Deleting filters each part of a list separately, so the surviving
      courses keep their relative order. */
  lemma {:induction false} DeleteConcat(a: seq<Course>, b: seq<Course>, id: string)
    ensures Delete(a + b, id) == Delete(a, id) + Delete(b, id)
    decreases |a|
  {
    if |a| == 0 {
      assert a + b == b;
    } else {
      assert (a + b)[1..] == a[1..] + b;
      DeleteConcat(a[1..], b, id);
    }
  }

  /** Deleting an id nobody has leaves the list as it was. */
  lemma {:induction false} DeleteAbsent(courses: seq<Course>, id: string)
    requires forall i :: 0 <= i < |courses| ==> courses[i].id != id
    ensures Delete(courses, id) == courses
    decreases |courses|
  {
    if |courses| > 0 {
      DeleteAbsent(courses[1..], id);
      assert [courses[0]] + courses[1..] == courses;
    }
  }

  /** Updating an id nobody has leaves the list as it was. */
  lemma UpdateAbsent(courses: seq<Course>, id: string, updates: CourseFields, now: string)
    requires forall i :: 0 <= i < |courses| ==> courses[i].id != id
    ensures Update(courses, id, updates, now) == courses
  {
  }

  /** An update's own `updatedAt` key never survives: the clock reading wins. */
  lemma UpdateStampsClock(courses: seq<Course>, id: string, updates: CourseFields, now: string, i: nat)
    requires i < |courses| && courses[i].id == id
    ensures Update(courses, id, updates, now)[i].updatedAt == now
  {
  }

  /** An update carrying only a title changes that course's title and
      `updatedAt` and nothing else. */
  lemma UpdateTitleOnly(courses: seq<Course>, id: string, title: string, now: string, i: nat)
    requires i < |courses| && courses[i].id == id
    ensures Update(courses, id, NoFields.(title := Some(title)), now)[i]
      == courses[i].(title := title, updatedAt := now)
  {
  }

  /** Adding under a fresh id keeps the ids unique. */
  lemma AddKeepsUnique(courses: seq<Course>, data: CourseFields, id: string, now: string)
    requires UniqueIds(courses) && id !in Ids(courses)
    ensures UniqueIds(Add(courses, data, id, now).0)
  {
    var r := Add(courses, data, id, now).0;
    forall i, j | 0 <= i < j < |r| ensures r[i].id != r[j].id {
      if i == 0 {
        assert r[j] == courses[j - 1];
        assert r[j] in courses;
      }
    }
  }

  /** Deleting keeps the ids unique. */
  lemma {:induction false} DeleteKeepsUnique(courses: seq<Course>, id: string)
    requires UniqueIds(courses)
    ensures UniqueIds(Delete(courses, id))
    decreases |courses|
  {
    if |courses| > 0 {
      var rest := courses[1..];
      DeleteKeepsUnique(rest, id);
      if courses[0].id != id {
        var r := Delete(courses, id);
        var tail := Delete(rest, id);
        assert r == [courses[0]] + tail;
        forall j | 0 < j < |r| ensures r[0].id != r[j].id {
          assert r[j] == tail[j - 1];
          assert r[j] in rest;
          var k :| 0 <= k < |rest| && rest[k] == r[j];
          assert courses[k + 1] == r[j];
        }
      }
    }
  }

  /** Updating keeps the ids unique as long as the update does not bring an id
      another course already has. */
  lemma UpdateKeepsUnique(courses: seq<Course>, id: string, updates: CourseFields, now: string)
    requires UniqueIds(courses)
    requires updates.id.None? || updates.id.value == id || updates.id.value !in Ids(courses)
    ensures UniqueIds(Update(courses, id, updates, now))
  {
    var r := Update(courses, id, updates, now);
    forall i, j | 0 <= i < j < |r| ensures r[i].id != r[j].id {
      assert courses[i] in courses && courses[j] in courses;
    }
  }

  /** The mount effect: storage with no value, an empty value, or a value that
      does not decode leaves the list empty; only a successful decode replaces
      it. */
  function Load(saved: Option<string>, decode: string -> Option<seq<Course>>): (r: seq<Course>)
    ensures saved.None? || saved.value == "" ==> r == []
    ensures saved.Some? && saved.value != "" && decode(saved.value).None? ==> r == []
    ensures saved.Some? && saved.value != "" && decode(saved.value).Some? ==>
      r == decode(saved.value).value
  {
    match saved
    case None => []
    case Some(text) =>
      if text == "" then []
      else match decode(text)
        case None => []
        case Some(cs) => cs
  }

  /** The provider: the in-memory list and the text held under the storage
      key. */
  datatype Provider = Provider(courses: seq<Course>, stored: Option<string>)

  /** The save effect after a change of the list: the whole list is encoded
      and written over the stored value. */
  function Commit(courses: seq<Course>, encode: seq<Course> -> string): (p: Provider)
    ensures p.courses == courses && p.stored == Some(encode(courses))
  {
    Provider(courses, Some(encode(courses)))
  }

  /** Mounting: load from storage, then the save effect writes the loaded list
      back, so a value that failed to decode is replaced by the empty list. */
  function Mount(saved: Option<string>, decode: string -> Option<seq<Course>>,
                 encode: seq<Course> -> string): (p: Provider)
    ensures p.courses == Load(saved, decode)
    ensures p.stored == Some(encode(p.courses))
  {
    Commit(Load(saved, decode), encode)
  }

  /** With an encoding that decodes back to the list it encodes and never
      writes empty text, reloading what was last committed restores the list,
      ids, fields and order alike. */
  lemma ReloadAfterCommit(courses: seq<Course>, encode: seq<Course> -> string,
                          decode: string -> Option<seq<Course>>)
    requires decode(encode(courses)) == Some(courses) && encode(courses) != ""
    ensures Mount(Commit(courses, encode).stored, decode, encode) == Commit(courses, encode)
  {
  }
}
