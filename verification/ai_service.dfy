/** The mock outline generator: classifies a course title by keyword, copies a
    fixed table of base modules for that category, tailors every base lesson to
    the learning objectives and the audience, and appends a capstone module. */
module AiService {
  import opened Strings
  import opened Model

  /** The `{ title, targetAudience, learningObjectives }` object handed to the
      generator; the creation form keeps its state in the same shape. */
  datatype CourseRequest = CourseRequest(
    title: string,
    targetAudience: string,
    learningObjectives: seq<string>)

  const WebDevelopment := "web development"
  const Marketing := "marketing"
  const DataScience := "data science"
  const General := "general"

  const WebKeywords: seq<string> := ["web", "html", "css", "javascript"]
  const MarketingKeywords: seq<string> := ["marketing", "seo", "social media"]
  const DataKeywords: seq<string> := ["data", "python", "analytics"]

  /** Some keyword of `keywords` is a substring of `t`. */
  predicate MentionsAny(t: string, keywords: seq<string>) {
    exists k :: k in keywords && Contains(t, k)
  }

  /** Some keyword of `keywords` occurs at some position of `t`. */
  ghost predicate OccursAny(t: string, keywords: seq<string>) {
    exists k, i :: k in keywords && OccursAt(t, k, i)
  }

  lemma MentionsAnyIff(t: string, keywords: seq<string>)
    ensures MentionsAny(t, keywords) <==> OccursAny(t, keywords)
  {
    forall k | k in keywords {
      ContainsIff(t, k);
    }
  }

  /** The category of a title: the keyword groups are tried on the lower-cased
      title in the fixed order web, marketing, data, and the first group with a
      match wins. */
  function Classify(title: string): (r: string)
    ensures r == WebDevelopment || r == Marketing || r == DataScience || r == General
  {
    var t := Lower(title);
    if MentionsAny(t, WebKeywords) then WebDevelopment
    else if MentionsAny(t, MarketingKeywords) then Marketing
    else if MentionsAny(t, DataKeywords) then DataScience
    else General
  }

  /** Classification stated against where the keywords occur in the
      lower-cased title: each category is chosen exactly when one of its
      keywords occurs and none of an earlier group does. */
  lemma ClassifyByOccurrence(title: string)
    ensures var t := Lower(title);
      && (Classify(title) == WebDevelopment <==> OccursAny(t, WebKeywords))
      && (Classify(title) == Marketing <==>
            !OccursAny(t, WebKeywords) && OccursAny(t, MarketingKeywords))
      && (Classify(title) == DataScience <==>
            !OccursAny(t, WebKeywords) && !OccursAny(t, MarketingKeywords)
            && OccursAny(t, DataKeywords))
      && (Classify(title) == General <==>
            !OccursAny(t, WebKeywords) && !OccursAny(t, MarketingKeywords)
            && !OccursAny(t, DataKeywords))
  {
    var t := Lower(title);
    MentionsAnyIff(t, WebKeywords);
    MentionsAnyIff(t, MarketingKeywords);
    MentionsAnyIff(t, DataKeywords);
  }

  const WebModules: seq<Module> := [
    Module(
      "HTML & CSS Fundamentals",
      "Master the building blocks of web development with semantic HTML and modern CSS techniques.",
      Some([
        Lesson(
          "HTML Structure and Semantics",
          "Learn proper HTML document structure and semantic elements for accessibility and SEO.",
          ["HTML5 semantic elements", "Document structure", "Accessibility best practices", "SEO fundamentals"],
          ["Build a personal portfolio page", "HTML validation exercise", "Accessibility audit checklist"]),
        Lesson(
          "CSS Styling and Layout",
          "Master CSS fundamentals including selectors, properties, and layout techniques.",
          ["CSS selectors and specificity", "Box model", "Flexbox and Grid", "Responsive design"],
          ["Style the portfolio page", "Create responsive layouts", "CSS Grid challenge"])])),
    Module(
      "JavaScript Programming",
      "Develop interactive web applications with modern JavaScript programming concepts.",
      Some([
        Lesson(
          "JavaScript Fundamentals",
          "Learn core JavaScript concepts including variables, functions, and control structures.",
          ["Variables and data types", "Functions and scope", "Control structures", "DOM manipulation"],
          ["Interactive calculator project", "DOM manipulation exercises", "Event handling practice"]),
        Lesson(
          "Asynchronous JavaScript",
          "Master promises, async/await, and API integration for modern web development.",
          ["Promises and async/await", "Fetch API", "Error handling", "JSON data manipulation"],
          ["Weather app with API integration", "Async programming challenges", "Error handling scenarios"])]))]

  const MarketingModules: seq<Module> := [
    Module(
      "Digital Marketing Strategy",
      "Develop comprehensive digital marketing strategies that drive results and ROI.",
      Some([
        Lesson(
          "Market Research and Analysis",
          "Learn to identify target audiences and analyze market opportunities.",
          ["Customer personas", "Market segmentation", "Competitive analysis", "SWOT analysis"],
          ["Create detailed customer personas", "Competitive analysis worksheet", "Market opportunity assessment"]),
        Lesson(
          "Content Marketing Fundamentals",
          "Master the art of creating engaging content that converts prospects into customers.",
          ["Content strategy", "Storytelling techniques", "Content calendar planning", "Performance metrics"],
          ["Develop content strategy document", "Create 30-day content calendar", "Write compelling blog posts"])]))]

  const DataModules: seq<Module> := [
    Module(
      "Python for Data Analysis",
      "Master Python programming fundamentals specifically for data science applications.",
      Some([
        Lesson(
          "Python Basics and Data Structures",
          "Learn Python syntax and data structures essential for data manipulation.",
          ["Python syntax", "Lists and dictionaries", "Control flow", "Functions and modules"],
          ["Python coding exercises", "Data structure manipulation tasks", "Function writing practice"]),
        Lesson(
          "Data Manipulation with Pandas",
          "Use Pandas library for efficient data cleaning and transformation.",
          ["DataFrames and Series", "Data cleaning techniques", "Grouping and aggregation", "Merging datasets"],
          ["Clean messy dataset", "Exploratory data analysis project", "Data transformation challenges"])]))]

  /** The `sampleModules` table: three of the four categories have an entry. */
  const SampleModules: map<string, seq<Module>> :=
    map[WebDevelopment := WebModules, Marketing := MarketingModules, DataScience := DataModules]

  const CapstoneTitle := "Capstone Project & Portfolio"

  const Capstone := Module(
    CapstoneTitle,
    "Apply all learned concepts in a comprehensive project that demonstrates mastery.",
    Some([
      Lesson(
        "Project Planning and Design",
        "Plan and design a comprehensive project that showcases your new skills.",
        ["Project planning", "Requirements gathering", "Design thinking", "Success metrics"],
        ["Create project proposal", "Design project architecture", "Set project milestones"]),
      Lesson(
        "Implementation and Presentation",
        "Build your project and prepare a professional presentation of your work.",
        ["Implementation best practices", "Testing and debugging", "Documentation", "Presentation skills"],
        ["Complete capstone project", "Create project documentation", "Present to peers/instructors"])]))

  /** `sampleModules[category] || sampleModules['web development']`. */
  function BaseModules(category: string): (ms: seq<Module>)
    ensures category !in SampleModules ==> ms == WebModules
    ensures category in SampleModules ==> ms == SampleModules[category]
  {
    if category in SampleModules then SampleModules[category] else SampleModules[WebDevelopment]
  }

  /** Every module of the table carries a lesson list, as `module.lessons.map`
      needs. */
  ghost predicate HasLessons(ms: seq<Module>) {
    forall i :: 0 <= i < |ms| ==> ms[i].lessons.Some?
  }

  /** The base table entries: one module for marketing and data science, two
      otherwise; every module has two lessons, each with four key concepts and
      three activities. */
  lemma BaseModulesShape(category: string)
    ensures HasLessons(BaseModules(category))
    ensures |BaseModules(category)| == if category == Marketing || category == DataScience then 1 else 2
    ensures var ms := BaseModules(category);
      forall i :: 0 <= i < |ms| ==> |ms[i].lessons.value| == 2
    ensures var ms := BaseModules(category);
      forall i, j :: 0 <= i < |ms| && 0 <= j < |ms[i].lessons.value| ==>
        |ms[i].lessons.value[j].keyConcepts| == 4 && |ms[i].lessons.value[j].activities| == 3
  {
  }

  const AppliedPrefix := "Applied: "
  const Ellipsis := "..."
  const ActivitySuffix := " project: Apply concepts in real scenario"

  /** `Applied: ${obj.substring(0, 50)}...`. */
  function AppliedConcept(objective: string): (r: string)
    ensures |r| == |AppliedPrefix| + (if |objective| <= 50 then |objective| else 50) + |Ellipsis|
    ensures StartsWith(r, AppliedPrefix)
    ensures r[|AppliedPrefix|..|r| - |Ellipsis|] == objective[..|r| - |AppliedPrefix| - |Ellipsis|]
    ensures r[|r| - |Ellipsis|..] == Ellipsis
  {
    AppliedPrefix + Take(objective, 50) + Ellipsis
  }

  /** `learningObjectives.slice(0, 2).map(...)`: one applied concept for each of
      the first two objectives, in order. */
  function AppliedConcepts(objectives: seq<string>): (r: seq<string>)
    ensures |r| == if |objectives| < 2 then |objectives| else 2
    ensures forall j :: 0 <= j < |r| ==> r[j] == AppliedConcept(objectives[j])
  {
    var firsts := Take(objectives, 2);
    seq(|firsts|, j requires 0 <= j < |firsts| => AppliedConcept(firsts[j]))
  }

  /** `${targetAudience.split(' ')[0]} project: Apply concepts in real scenario`. */
  function AudienceActivity(audience: string): (r: string)
    ensures FirstToken(r) == FirstToken(audience)
    ensures |r| == |FirstToken(audience)| + |ActivitySuffix|
    ensures r[|r| - |ActivitySuffix|..] == ActivitySuffix
  {
    FirstTokenOfJoin(FirstToken(audience), ActivitySuffix);
    FirstToken(audience) + ActivitySuffix
  }

  function Min(a: int, b: int): int { if a <= b then a else b }

  /** `[...lesson.keyConcepts, ...applied].slice(0, 6)`: the base concepts,
      then the applied concepts in objective order, cut to six. */
  function TailorConcepts(base: seq<string>, objectives: seq<string>): (r: seq<string>)
    ensures |r| == Min(6, |base| + Min(2, |objectives|))
    ensures forall j :: 0 <= j < |r| && j < |base| ==> r[j] == base[j]
    ensures forall j :: |base| <= j < |r| ==> r[j] == AppliedConcept(objectives[j - |base|])
  {
    var all := base + AppliedConcepts(objectives);
    assert forall j :: |base| <= j < |all| ==> all[j] == AppliedConcepts(objectives)[j - |base|];
    Take(all, 6)
  }

  /** `[...lesson.activities, audienceActivity].slice(0, 4)`: the base
      activities, then the audience activity, cut to four. */
  function TailorActivities(base: seq<string>, audience: string): (r: seq<string>)
    ensures |r| == Min(4, |base| + 1)
    ensures forall j :: 0 <= j < |r| && j < |base| ==> r[j] == base[j]
    ensures |base| < 4 ==> r[|base|] == AudienceActivity(audience)
  {
    Take(base + [AudienceActivity(audience)], 4)
  }

  /** One lesson tailored to the request; title and description are kept. */
  function AugmentLesson(l: Lesson, audience: string, objectives: seq<string>): (r: Lesson)
    ensures r.title == l.title && r.description == l.description
    ensures r.keyConcepts == TailorConcepts(l.keyConcepts, objectives)
    ensures r.activities == TailorActivities(l.activities, audience)
    ensures |r.keyConcepts| <= 6 && |r.activities| <= 4
    ensures r.keyConcepts[..Min(6, |l.keyConcepts|)] == l.keyConcepts[..Min(6, |l.keyConcepts|)]
    ensures r.activities[..Min(4, |l.activities|)] == l.activities[..Min(4, |l.activities|)]
  {
    Lesson(l.title, l.description,
      TailorConcepts(l.keyConcepts, objectives), TailorActivities(l.activities, audience))
  }

  /** `{ ...module, lessons: module.lessons.map(...) }`. */
  function AugmentModule(m: Module, audience: string, objectives: seq<string>): (r: Module)
    requires m.lessons.Some?
    ensures r.title == m.title && r.description == m.description
    ensures r.lessons.Some? && |r.lessons.value| == |m.lessons.value|
    ensures forall j :: 0 <= j < |m.lessons.value| ==>
      r.lessons.value[j] == AugmentLesson(m.lessons.value[j], audience, objectives)
  {
    var ls := m.lessons.value;
    Module(m.title, m.description,
      Some(seq(|ls|, j requires 0 <= j < |ls| => AugmentLesson(ls[j], audience, objectives))))
  }

  /** `generateRelevantModules`: the tailored base modules of the title's
      category, in table order, then the capstone module unchanged. */
  function GenerateModules(title: string, audience: string, objectives: seq<string>): (ms: seq<Module>)
    ensures var base := BaseModules(Classify(title));
      && |ms| == |base| + 1
      && ms[|base|] == Capstone
      && forall i :: 0 <= i < |base| ==> ms[i] == AugmentModule(base[i], audience, objectives)
  {
    var base := BaseModules(Classify(title));
    BaseModulesShape(Classify(title));
    seq(|base|, i requires 0 <= i < |base| => AugmentModule(base[i], audience, objectives)) + [Capstone]
  }

  /** `generateCourseOutline` without its simulated delay: the request's own
      fields passed through unchanged, plus the generated modules. The result
      is the object later handed to `addCourse`, so it has no id or time
      stamps. */
  function GenerateCourseOutline(req: CourseRequest): (r: CourseFields)
    ensures r.id.None? && r.createdAt.None? && r.updatedAt.None?
    ensures r.title == Some(req.title)
    ensures r.targetAudience == Some(req.targetAudience)
    ensures r.learningObjectives == Some(req.learningObjectives)
    ensures r.modules == Some(GenerateModules(req.title, req.targetAudience, req.learningObjectives))
    ensures |r.modules.value| == |BaseModules(Classify(req.title))| + 1
    ensures r.modules.value[|r.modules.value| - 1].title == CapstoneTitle
  {
    var ms := GenerateModules(req.title, req.targetAudience, req.learningObjectives);
    CourseFields(None, Some(req.title), Some(req.targetAudience), Some(req.learningObjectives),
      Some(ms), None, None)
  }

  /** Every lesson of a module list respects the caps of the generator. */
  ghost predicate WithinCaps(ms: seq<Module>) {
    forall i, j :: 0 <= i < |ms| && ms[i].lessons.Some? && 0 <= j < |ms[i].lessons.value| ==>
      |ms[i].lessons.value[j].keyConcepts| <= 6 && |ms[i].lessons.value[j].activities| <= 4
  }

  /** After generation, every lesson, the capstone's included, has at most six
      key concepts and at most four activities. */
  lemma GeneratedWithinCaps(title: string, audience: string, objectives: seq<string>)
    ensures WithinCaps(GenerateModules(title, audience, objectives))
  {
    var ms := GenerateModules(title, audience, objectives);
    var base := BaseModules(Classify(title));
    forall i, j | 0 <= i < |ms| && ms[i].lessons.Some? && 0 <= j < |ms[i].lessons.value|
      ensures |ms[i].lessons.value[j].keyConcepts| <= 6
      ensures |ms[i].lessons.value[j].activities| <= 4
    {
      if i == |base| {
        assert ms[i] == Capstone;
      }
    }
  }

  /** Titles and descriptions of the base modules and of their lessons reach
      the outline unchanged and in table order, and the base concepts and
      activities lead each tailored list. */
  lemma GeneratedKeepsTable(title: string, audience: string, objectives: seq<string>, i: nat, j: nat)
    requires i < |BaseModules(Classify(title))|
    requires j < |BaseModules(Classify(title))[i].lessons.value|
    ensures var base := BaseModules(Classify(title))[i];
      var m := GenerateModules(title, audience, objectives)[i];
      var l := m.lessons.value[j];
      && m.title == base.title && m.description == base.description
      && |m.lessons.value| == |base.lessons.value|
      && l.title == base.lessons.value[j].title
      && l.description == base.lessons.value[j].description
      && l.keyConcepts[..4] == base.lessons.value[j].keyConcepts
      && l.activities[..3] == base.lessons.value[j].activities
      && l.activities[3] == AudienceActivity(audience)
  {
    var category := Classify(title);
    BaseModulesShape(category);
    var base := BaseModules(category)[i];
    assert |base.lessons.value[j].keyConcepts| == 4 && |base.lessons.value[j].activities| == 3;
  }

  /** A Python data-science title falls in the data category. */
  lemma PythonDataScienceExample()
    ensures Classify(ExampleTitle) == DataScience
  {
    ExampleLowered();
    ExampleLetters();
    ExamplePairs();
    NoEarlierKeyword(ExampleLower);
    DataOnlyTitle(ExampleTitle, 20);
  }

  const ExampleTitle := "Intro to Python for Data Science"
  const ExampleLower := "intro to python for data science"

  lemma ExampleLowered()
    ensures Lower(ExampleTitle) == ExampleLower
    ensures ExampleLower[20..24] == "data"
  {
  }

  lemma ExampleLetters()
    ensures 'w' !in ExampleLower && 'm' !in ExampleLower && 'j' !in ExampleLower
  {
  }

  lemma ExamplePairs()
    ensures NoPair(ExampleLower, 'c', 's') && NoPair(ExampleLower, 's', 'e')
  {
  }

  /** A title in whose lower-cased form "data" occurs and no web or marketing
      keyword occurs is a data title. */
  lemma DataOnlyTitle(title: string, at: nat)
    requires var t := Lower(title);
      !OccursAny(t, WebKeywords) && !OccursAny(t, MarketingKeywords) && OccursAt(t, "data", at)
    ensures Classify(title) == DataScience
  {
    var t := Lower(title);
    MentionsAnyIff(t, WebKeywords);
    MentionsAnyIff(t, MarketingKeywords);
    OccursAtContains(t, "data", at);
    assert "data" in DataKeywords;
  }

  /** Lacking the letters `w`, `m`, `j` and the pairs "cs" and "se" rules out
      every web and marketing keyword. */
  lemma NoEarlierKeyword(t: string)
    requires 'w' !in t && 'm' !in t && 'j' !in t && NoPair(t, 'c', 's') && NoPair(t, 's', 'e')
    ensures !OccursAny(t, WebKeywords) && !OccursAny(t, MarketingKeywords)
  {
    NoWebKeyword(t);
    NoMarketingKeyword(t);
    MentionsAnyIff(t, WebKeywords);
    MentionsAnyIff(t, MarketingKeywords);
  }

  lemma NoWebKeyword(t: string)
    requires 'w' !in t && 'm' !in t && 'j' !in t && NoPair(t, 'c', 's')
    ensures !MentionsAny(t, WebKeywords)
  {
    MissingCharNotContained(t, "web", 0);
    MissingCharNotContained(t, "html", 2);
    MissingPairNotContained(t, "css");
    MissingCharNotContained(t, "javascript", 0);
  }

  lemma NoMarketingKeyword(t: string)
    requires 'm' !in t && NoPair(t, 's', 'e')
    ensures !MentionsAny(t, MarketingKeywords)
  {
    MissingCharNotContained(t, "marketing", 0);
    MissingPairNotContained(t, "seo");
    MissingCharNotContained(t, "social media", 7);
  }

  /** The data category yields its one base module followed by the capstone. */
  lemma DataScienceOutline(req: CourseRequest)
    requires Classify(req.title) == DataScience
    ensures var ms := GenerateCourseOutline(req).modules.value;
      && |ms| == 2
      && ms[0].title == "Python for Data Analysis"
      && ms[1].title == CapstoneTitle
  {
    var ms := GenerateModules(req.title, req.targetAudience, req.learningObjectives);
    assert ms[0] == AugmentModule(DataModules[0], req.targetAudience, req.learningObjectives);
  }
}
