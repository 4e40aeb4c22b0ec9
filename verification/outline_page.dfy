/** The outline page: the plain-text export used for copy and download, the
    download file name, the lesson counter, the expanded-module map, and the
    choice of the not-found view. */
module OutlinePage {
  import opened Strings
  import opened Model
  import CourseStore
  import AiService

  // ---------------------------------------------------------------------------
  // Plain-text export, stated declaratively
  // ---------------------------------------------------------------------------

  /** The title, underlined with one `=` per character, the audience line and
      the objectives heading. */
  function HeaderText(c: Course): string {
    c.title + "\n" + Repeat('=', |c.title|) + "\n\n"
      + "Target Audience: " + c.targetAudience + "\n\n"
      + "Learning Objectives:\n"
  }

  /** Objective `i` (counted from 0) is printed with its 1-based number. */
  function ObjectiveLine(i: nat, objective: string): string {
    NatToString(i + 1) + ". " + objective + "\n"
  }

  function ObjectiveLines(objectives: seq<string>): (r: seq<string>)
    ensures |r| == |objectives|
    ensures forall i :: 0 <= i < |r| ==> r[i] == ObjectiveLine(i, objectives[i])
  {
    seq(|objectives|, i requires 0 <= i < |objectives| => ObjectiveLine(i, objectives[i]))
  }

  /** The blank line after the objectives and the structure heading. */
  const StructureHeading := "\n" + "Course Structure:\n" + "================\n\n"

  /** One bullet of a concept or activity list. */
  function BulletLine(item: string): string {
    "      \U{2022} " + item + "\n"
  }

  function BulletLines(items: seq<string>): (r: seq<string>)
    ensures |r| == |items|
    ensures forall i :: 0 <= i < |r| ==> r[i] == BulletLine(items[i])
  {
    seq(|items|, i requires 0 <= i < |items| => BulletLine(items[i]))
  }

  /** A headed bullet list, left out entirely when the list is empty. */
  function Block(heading: string, items: seq<string>): string {
    if |items| > 0 then heading + Concat(BulletLines(items)) else ""
  }

  /** The header line of lesson `li` of module `mi`, numbered `m.l` from 1. */
  function LessonHeading(mi: nat, li: nat, title: string): string {
    "  Lesson " + NatToString(mi + 1) + "." + NatToString(li + 1) + ": " + title + "\n"
  }

  /** What follows a lesson's header line: its indented description when it
      has one, its concepts and activities blocks, and a blank line. */
  function LessonBody(l: Lesson): string {
    (if l.description != "" then "    " + l.description + "\n" else "")
      + Block("    Key Concepts:\n", l.keyConcepts)
      + Block("    Activities:\n", l.activities)
      + "\n"
  }

  function LessonText(mi: nat, li: nat, l: Lesson): string {
    LessonHeading(mi, li, l.title) + LessonBody(l)
  }

  function LessonTexts(mi: nat, lessons: seq<Lesson>): (r: seq<string>)
    ensures |r| == |lessons|
    ensures forall li :: 0 <= li < |r| ==> r[li] == LessonText(mi, li, lessons[li])
  {
    seq(|lessons|, li requires 0 <= li < |lessons| => LessonText(mi, li, lessons[li]))
  }

  /** The header line of module `mi`, numbered from 1, and its dashed rule,
      ten characters longer than the title. */
  function ModuleHeading(mi: nat, title: string): string {
    "Module " + NatToString(mi + 1) + ": " + title + "\n" + Repeat('-', |title| + 10) + "\n"
  }

  /** What follows a module's rule: its description and a blank line when it
      has one, its lessons, and a blank line. */
  function ModuleBody(mi: nat, m: Module): string {
    (if m.description != "" then m.description + "\n\n" else "")
      + Concat(LessonTexts(mi, m.lessons.GetOr([])))
      + "\n"
  }

  function ModuleText(mi: nat, m: Module): string {
    ModuleHeading(mi, m.title) + ModuleBody(mi, m)
  }

  function ModuleTexts(modules: seq<Module>): (r: seq<string>)
    ensures |r| == |modules|
    ensures forall mi :: 0 <= mi < |r| ==> r[mi] == ModuleText(mi, modules[mi])
  {
    seq(|modules|, mi requires 0 <= mi < |modules| => ModuleText(mi, modules[mi]))
  }

  /** The whole export of a course; a missing objective or module list prints
      as an empty one. */
  function OutlineText(c: Course): (r: string)
    ensures StartsWith(r, HeaderText(c))
    ensures LengthOrZero(c.modules) == 0 ==> r[|r| - |StructureHeading|..] == StructureHeading
  {
    HeaderText(c)
      + Concat(ObjectiveLines(c.learningObjectives.GetOr([])))
      + StructureHeading
      + Concat(ModuleTexts(c.modules.GetOr([])))
  }

  // ---------------------------------------------------------------------------
  // Plain-text export, built the way `generateOutlineText` builds it
  // ---------------------------------------------------------------------------

  /** `(text + a) + b == text + (a + b)`, spelled out for the solver. */
  lemma AppendAssoc(text: string, a: string, b: string)
    ensures (text + a) + b == text + (a + b)
  {
  }

  /** Appends one bullet per item, in order. */
  method AppendBullets(text: string, items: seq<string>) returns (t: string)
    ensures t == text + Concat(BulletLines(items))
  {
    t := text;
    var k := 0;
    while k < |items|
      invariant 0 <= k <= |items|
      invariant t == text + Concat(BulletLines(items)[..k])
    {
      ConcatSnoc(BulletLines(items), k);
      AppendAssoc(text, Concat(BulletLines(items)[..k]), BulletLine(items[k]));
      t := t + BulletLine(items[k]);
      k := k + 1;
    }
    assert BulletLines(items)[..k] == BulletLines(items);
  }

  /** A headed bullet list appended to `text` when the list is not empty. */
  method AppendBlock(text: string, heading: string, items: seq<string>) returns (t: string)
    ensures t == text + Block(heading, items)
  {
    t := text;
    if |items| > 0 {
      t := t + heading;
      t := AppendBullets(t, items);
      AppendAssoc(text, heading, Concat(BulletLines(items)));
    } else {
      assert t == text + "";
    }
  }

  /** The text of one lesson appended to `text`. */
  method AppendLesson(text: string, mi: nat, li: nat, l: Lesson) returns (t: string)
    ensures t == text + LessonText(mi, li, l)
  {
    var heading := LessonHeading(mi, li, l.title);
    var description := if l.description != "" then "    " + l.description + "\n" else "";
    var concepts := Block("    Key Concepts:\n", l.keyConcepts);
    var activities := Block("    Activities:\n", l.activities);
    t := text + heading;
    if l.description != "" {
      t := t + "    " + l.description + "\n";
    }
    assert t == text + heading + description;
    t := AppendBlock(t, "    Key Concepts:\n", l.keyConcepts);
    t := AppendBlock(t, "    Activities:\n", l.activities);
    t := t + "\n";
    AppendAssoc(text + heading, description, concepts);
    AppendAssoc(text + heading, description + concepts, activities);
    AppendAssoc(text + heading, description + concepts + activities, "\n");
    AppendAssoc(text, heading, LessonBody(l));
  }

  /** The text of one module, its lessons included, appended to `text`. */
  method AppendModule(text: string, mi: nat, m: Module) returns (t: string)
    ensures t == text + ModuleText(mi, m)
  {
    var heading := ModuleHeading(mi, m.title);
    var description := if m.description != "" then m.description + "\n\n" else "";
    t := text + heading;
    if m.description != "" {
      t := t + m.description + "\n\n";
    }
    assert t == text + heading + description;
    var lessons := m.lessons.GetOr([]);
    var li := 0;
    while li < |lessons|
      invariant 0 <= li <= |lessons|
      invariant t == text + heading + description + Concat(LessonTexts(mi, lessons)[..li])
    {
      ConcatSnoc(LessonTexts(mi, lessons), li);
      AppendAssoc(text + heading + description, Concat(LessonTexts(mi, lessons)[..li]),
        LessonText(mi, li, lessons[li]));
      t := AppendLesson(t, mi, li, lessons[li]);
      li := li + 1;
    }
    assert LessonTexts(mi, lessons)[..li] == LessonTexts(mi, lessons);
    t := t + "\n";
    var body := Concat(LessonTexts(mi, lessons));
    AppendAssoc(text + heading, description, body);
    AppendAssoc(text + heading, description + body, "\n");
    AppendAssoc(text, heading, ModuleBody(mi, m));
  }

  /** `generateOutlineText`: the export accumulated piece by piece, which is
      exactly the declarative `OutlineText`. */
  method GenerateOutlineText(c: Course) returns (text: string)
    ensures text == OutlineText(c)
  {
    text := HeaderText(c);
    var objectives := c.learningObjectives.GetOr([]);
    var i := 0;
    while i < |objectives|
      invariant 0 <= i <= |objectives|
      invariant text == HeaderText(c) + Concat(ObjectiveLines(objectives)[..i])
    {
      ConcatSnoc(ObjectiveLines(objectives), i);
      AppendAssoc(HeaderText(c), Concat(ObjectiveLines(objectives)[..i]), ObjectiveLine(i, objectives[i]));
      text := text + ObjectiveLine(i, objectives[i]);
      i := i + 1;
    }
    assert ObjectiveLines(objectives)[..i] == ObjectiveLines(objectives);
    text := text + StructureHeading;
    var modules := c.modules.GetOr([]);
    ghost var before := text;
    var mi := 0;
    while mi < |modules|
      invariant 0 <= mi <= |modules|
      invariant text == before + Concat(ModuleTexts(modules)[..mi])
    {
      ConcatSnoc(ModuleTexts(modules), mi);
      AppendAssoc(before, Concat(ModuleTexts(modules)[..mi]), ModuleText(mi, modules[mi]));
      text := AppendModule(text, mi, modules[mi]);
      mi := mi + 1;
    }
    assert ModuleTexts(modules)[..mi] == ModuleTexts(modules);
  }

  // ---------------------------------------------------------------------------
  // Layout of the export
  // ---------------------------------------------------------------------------

  /** The export opens with the title and an underline of `=` exactly as long
      as the title, then a blank line. */
  lemma ExportOpensWithTitle(c: Course)
    ensures StartsWith(OutlineText(c), c.title + "\n" + Repeat('=', |c.title|) + "\n\n")
  {
    var p := c.title + "\n" + Repeat('=', |c.title|) + "\n\n";
    var rest := "Target Audience: " + c.targetAudience + "\n\n" + "Learning Objectives:\n";
    assert HeaderText(c) == p + rest;
    assert OutlineText(c)[..|p|] == p;
  }

  /** Objective `i` appears as the line `"{i+1}. {objective}"` right after the
      lines of the objectives before it. */
  lemma ObjectiveInPlace(c: Course, i: nat)
    requires c.learningObjectives.Some? && i < |c.learningObjectives.value|
    ensures var objectives := c.learningObjectives.value;
      StartsWith(OutlineText(c), HeaderText(c) + Concat(ObjectiveLines(objectives)[..i])
        + (NatToString(i + 1) + ". " + objectives[i] + "\n"))
  {
    var lines := ObjectiveLines(c.learningObjectives.value);
    ConcatPieceInPlace(lines, i);
    StartsWithFrame(HeaderText(c), Concat(lines),
      StructureHeading + Concat(ModuleTexts(c.modules.GetOr([]))), Concat(lines[..i]) + lines[i]);
    AppendAssoc(HeaderText(c), Concat(lines[..i]), lines[i]);
    assert HeaderText(c) + Concat(lines) + (StructureHeading + Concat(ModuleTexts(c.modules.GetOr([]))))
      == OutlineText(c);
  }

  /** Module `mi` starts with `"Module {mi+1}: {title}"` and a rule of `-`
      ten longer than the title, right after the modules before it. */
  lemma ModuleInPlace(c: Course, mi: nat)
    requires c.modules.Some? && mi < |c.modules.value|
    ensures var m := c.modules.value[mi];
      var before := HeaderText(c) + Concat(ObjectiveLines(c.learningObjectives.GetOr([])))
        + StructureHeading;
      StartsWith(OutlineText(c), before + Concat(ModuleTexts(c.modules.value)[..mi])
        + ("Module " + NatToString(mi + 1) + ": " + m.title + "\n"
           + Repeat('-', |m.title| + 10) + "\n"))
  {
    var texts := ModuleTexts(c.modules.value);
    var m := c.modules.value[mi];
    var before := HeaderText(c) + Concat(ObjectiveLines(c.learningObjectives.GetOr([])))
      + StructureHeading;
    ConcatPieceInPlace(texts, mi);
    var heading := ModuleHeading(mi, m.title);
    StartsWithFront(heading, ModuleBody(mi, m));
    StartsWithFrame(Concat(texts[..mi]), texts[mi], "", heading);
    assert Concat(texts[..mi]) + texts[mi] + "" == Concat(texts[..mi]) + texts[mi];
    StartsWithTrans(Concat(texts), Concat(texts[..mi]) + texts[mi], Concat(texts[..mi]) + heading);
    StartsWithFrame(before, Concat(texts), "", Concat(texts[..mi]) + heading);
    assert before + Concat(texts) + "" == OutlineText(c);
    AppendAssoc(before, Concat(texts[..mi]), heading);
  }

  /** Right after its rule a module prints its description and a blank line
      when it has one, and goes straight on to its lessons otherwise. */
  lemma ModuleDescriptionLine(mi: nat, m: Module)
    ensures var heading := ModuleHeading(mi, m.title);
      var lessons := Concat(LessonTexts(mi, m.lessons.GetOr([])));
      && (m.description != "" ==>
            StartsWith(ModuleText(mi, m), heading + (m.description + "\n\n")))
      && (m.description == "" ==> ModuleText(mi, m) == heading + (lessons + "\n"))
  {
    var heading := ModuleHeading(mi, m.title);
    var lessons := Concat(LessonTexts(mi, m.lessons.GetOr([])));
    if m.description != "" {
      var d := m.description + "\n\n";
      assert ModuleBody(mi, m) == d + (lessons + "\n");
      assert ModuleText(mi, m)[..|heading + d|] == heading + d;
    } else {
      assert ModuleBody(mi, m) == lessons + "\n";
    }
  }

  /** A text starts with the piece put in front of it. */
  lemma StartsWithFront(h: string, x: string)
    ensures StartsWith(h + x, h)
  {
    assert (h + x)[..|h|] == h;
  }

  /** Lesson `li` of module `mi` starts with `"  Lesson {mi+1}.{li+1}: {title}"`
      right after the lessons before it. */
  lemma LessonInPlace(mi: nat, lessons: seq<Lesson>, li: nat)
    requires li < |lessons|
    ensures StartsWith(Concat(LessonTexts(mi, lessons)),
      Concat(LessonTexts(mi, lessons)[..li])
        + ("  Lesson " + NatToString(mi + 1) + "." + NatToString(li + 1) + ": "
           + lessons[li].title + "\n"))
  {
    var texts := LessonTexts(mi, lessons);
    var heading := LessonHeading(mi, li, lessons[li].title);
    var before := Concat(texts[..li]);
    ConcatPieceInPlace(texts, li);
    StartsWithFront(heading, LessonBody(lessons[li]));
    StartsWithFrame(before, texts[li], "", heading);
    assert before + texts[li] + "" == before + texts[li];
    StartsWithTrans(Concat(texts), before + texts[li], before + heading);
  }

  /** A concept or activity block is empty for an empty list; otherwise it is
      its heading followed by one `"      \U{2022} {item}"` line per item, in
      order. */
  lemma BlockItemInPlace(heading: string, items: seq<string>, i: nat)
    ensures |items| == 0 ==> Block(heading, items) == ""
    ensures i < |items| ==> StartsWith(Block(heading, items),
      heading + Concat(BulletLines(items)[..i]) + ("      \U{2022} " + items[i] + "\n"))
  {
    if i < |items| {
      var lines := BulletLines(items);
      ConcatPieceInPlace(lines, i);
      StartsWithFrame(heading, Concat(lines), "", Concat(lines[..i]) + lines[i]);
      assert heading + Concat(lines) + "" == Block(heading, items);
      AppendAssoc(heading, Concat(lines[..i]), lines[i]);
    }
  }

  // ---------------------------------------------------------------------------
  // Download file name
  // ---------------------------------------------------------------------------

  /** `title.replace(/[^a-z0-9]/gi, '_')`. */
  function ReplaceNonAlnum(s: string): (r: string)
    ensures |r| == |s|
    ensures forall i :: 0 <= i < |s| ==> r[i] == if IsAsciiAlnum(s[i]) then s[i] else '_'
  {
    seq(|s|, i requires 0 <= i < |s| => if IsAsciiAlnum(s[i]) then s[i] else '_')
  }

  const OutlineSuffix := "_outline.txt"

  /** The download name: every character of the title that is not an ASCII
      letter or digit becomes `_`, letters are lower-cased, and `_outline.txt`
      follows; so the name is twelve characters longer than the title and its
      stem holds only lower-case letters, digits and `_`. */
  function DownloadName(title: string): (r: string)
    ensures |r| == |title| + 12
    ensures forall i :: 0 <= i < |title| ==>
      r[i] == if IsAsciiAlnum(title[i]) then LowerChar(title[i]) else '_'
    ensures forall i :: 0 <= i < |title| ==> IsLower(r[i]) || IsDigit(r[i]) || r[i] == '_'
    ensures r[|title|..] == OutlineSuffix
  {
    Lower(ReplaceNonAlnum(title)) + OutlineSuffix
  }

  // ---------------------------------------------------------------------------
  // Lesson counter
  // ---------------------------------------------------------------------------

  /** The `reduce` over modules adding `module.lessons?.length || 0`. */
  function SumLessons(modules: seq<Module>): (n: nat)
    ensures forall i :: 0 <= i < |modules| ==> LengthOrZero(modules[i].lessons) <= n
    ensures n == 0 <==> forall i :: 0 <= i < |modules| ==> LengthOrZero(modules[i].lessons) == 0
  {
    if |modules| == 0 then 0
    else SumLessons(modules[..|modules| - 1]) + LengthOrZero(modules[|modules| - 1].lessons)
  }

  /** `course.modules?.reduce(...) || 0`: a missing module list counts 0. */
  function LessonCount(modules: Option<seq<Module>>): (n: nat)
    ensures n == 0 <==>
      (modules.None? || forall i :: 0 <= i < |modules.value| ==> LengthOrZero(modules.value[i].lessons) == 0)
  {
    match modules
    case None => 0
    case Some(ms) => SumLessons(ms)
  }

  /** The count of a list of modules is the counts of its parts added up. */
  lemma {:induction false} SumLessonsAppend(a: seq<Module>, b: seq<Module>)
    ensures SumLessons(a + b) == SumLessons(a) + SumLessons(b)
    decreases |b|
  {
    if |b| == 0 {
      assert a + b == a;
    } else {
      assert (a + b)[..|a + b| - 1] == a + b[..|b| - 1];
      SumLessonsAppend(a, b[..|b| - 1]);
    }
  }

  /** When every module lists exactly `k` lessons the count is `k` per module. */
  lemma {:induction false} SumLessonsUniform(modules: seq<Module>, k: nat)
    requires forall i :: 0 <= i < |modules| ==> LengthOrZero(modules[i].lessons) == k
    ensures SumLessons(modules) == k * |modules|
    decreases |modules|
  {
    if |modules| > 0 {
      SumLessonsUniform(modules[..|modules| - 1], k);
    }
  }

  /** A generated outline counts two lessons per module, the capstone's
      included. */
  lemma GeneratedLessonCount(title: string, audience: string, objectives: seq<string>)
    ensures var ms := AiService.GenerateModules(title, audience, objectives);
      LessonCount(Some(ms)) == 2 * |ms|
  {
    var ms := AiService.GenerateModules(title, audience, objectives);
    var base := AiService.BaseModules(AiService.Classify(title));
    AiService.BaseModulesShape(AiService.Classify(title));
    forall i | 0 <= i < |ms| ensures LengthOrZero(ms[i].lessons) == 2 {
      if i == |base| {
        assert ms[i] == AiService.Capstone;
      }
    }
    SumLessonsUniform(ms, 2);
  }

  // ---------------------------------------------------------------------------
  // Expanded modules
  // ---------------------------------------------------------------------------

  /** `expandedModules[i]` read as a condition: an absent key is collapsed. */
  predicate IsExpanded(expanded: map<int, bool>, i: int) {
    i in expanded && expanded[i]
  }

  /** `toggleModule(i)`: key `i` is set to the opposite of what it showed;
      every other key keeps its entry. */
  function ToggleModule(expanded: map<int, bool>, i: int): (r: map<int, bool>)
    ensures IsExpanded(r, i) == !IsExpanded(expanded, i)
    ensures r.Keys == expanded.Keys + {i}
    ensures forall j :: j in expanded && j != i ==> r[j] == expanded[j]
  {
    expanded[i := !IsExpanded(expanded, i)]
  }

  /** Toggling the same module twice shows every module as before. */
  lemma ToggleTwice(expanded: map<int, bool>, i: int, j: int)
    ensures IsExpanded(ToggleModule(ToggleModule(expanded, i), i), j) == IsExpanded(expanded, j)
  {
  }

  /** The object `expandAll` fills: `allExpanded[index] = true` for every
      index below `n`, in order. */
  function ExpandFirst(n: nat): (r: map<int, bool>)
    ensures forall i :: i in r <==> 0 <= i < n
    ensures forall i :: i in r ==> r[i]
  {
    if n == 0 then map[] else ExpandFirst(n - 1)[n - 1 := true]
  }

  /** `expandAll`: exactly the module indices `0..n-1`, each mapped to true;
      nothing when the module list is missing. */
  function ExpandAll(modules: Option<seq<Module>>): (r: map<int, bool>)
    ensures forall i :: IsExpanded(r, i) <==> 0 <= i < LengthOrZero(modules)
    ensures forall i :: i in r <==> 0 <= i < LengthOrZero(modules)
  {
    match modules
    case None => map[]
    case Some(ms) => ExpandFirst(|ms|)
  }

  /** `collapseAll`: the empty map, so no module shows expanded. */
  function CollapseAll(): (r: map<int, bool>)
    ensures |r| == 0
    ensures forall i :: !IsExpanded(r, i)
  {
    map[]
  }

  // ---------------------------------------------------------------------------
  // Not-found view
  // ---------------------------------------------------------------------------

  /** The page renders its not-found view when the lookup of the route id
      comes back empty. */
  predicate ShowsNotFound(courses: seq<Course>, routeId: string) {
    CourseStore.Get(courses, routeId).None?
  }

  /** The not-found view is shown exactly when no course has the route id,
      and never right after a course was added under that id. */
  lemma NotFoundIff(courses: seq<Course>, routeId: string, data: CourseFields, now: string)
    ensures ShowsNotFound(courses, routeId) <==> forall i :: 0 <= i < |courses| ==> courses[i].id != routeId
    ensures !ShowsNotFound(CourseStore.Add(courses, data, routeId, now).0, routeId)
  {
    CourseStore.GetAfterAdd(courses, data, routeId, now);
  }
}
