# Course-Creator AI — a Dafny model of its core

Course-Creator AI is a single-page React app in which an instructor types a
course title, a target audience and a list of learning objectives, and a mock
"AI" service turns them into a course outline: a list of modules, each with
lessons, key concepts and activities. Courses live in a provider that keeps
them newest first and mirrors them to browser storage; a dashboard shows
totals and lets the user delete courses; an outline page shows one course,
folds its modules open and shut, and exports it as plain text.

This project models that core as pure Dafny functions over immutable
records and proves what each piece promises:

- `strings.dfy` (module `Strings`): the JavaScript string operations the
  core relies on — `includes`, ASCII `toLowerCase`, `split(' ')[0]`, `trim`
  with the ECMAScript whitespace set, `substring`/`slice`, and the decimal
  rendering of numbers in template literals.
- `model.dfy` (module `Model`): lessons, modules and courses; keys that the
  source reads with `?.` are `Option`s; `Spread` is the object spread
  `{ ...course, ...updates }`.
- `ai_service.dfy` (module `AiService`): title classification by keyword,
  the fixed module table, the tailoring of each lesson with the objectives
  and the audience, the capstone module, and the generated outline.
- `course_store.dfy` (module `CourseStore`): add, update, delete and get on
  the course list, loading from and saving to storage.
- `outline_page.dfy` (module `OutlinePage`): the plain-text export (a
  declarative definition and a loop-based builder proved equal to it), the
  download file name, lesson counts, module folding, and the not-found view.
- `create_page.dfy` (module `CreatePage`): the form, its objective-list
  edits, validation and submission.
- `dashboard.dfy` (module `Dashboard`): the totals, the empty state, each
  card's objective preview and the confirmed delete.

The random id, the clock reading, the storage text encoding (JSON) and the
user's answer to the delete confirmation are parameters of the functions
that need them.

Behaviours of the code worth knowing, all of which the model keeps:

- the audience token in the added activity is what `split(' ')[0]` yields
  (text before the first space character), not the first
  whitespace-delimited word; an audience with a leading space yields an
  empty token, and one separated by a tab or a line break yields the whole
  first line and more;
- the `Applied: ` concept always ends in `...`, whether or not the
  objective was cut at 50 characters;
- the objectives kept on submission are the non-blank ones exactly as
  typed, not trimmed;
- an update spreads all of its keys, so it can replace `id` or `createdAt`
  too; only `updatedAt` is always overwritten by the clock;
- mounting writes the loaded list straight back to storage, so a stored
  value that fails to decode is replaced by an empty list.

## Model

| member | source | states |
|---|---|---|
| Strings.ContainsIff | src/services/aiService.js:90-94 | the keyword test `includes` holds exactly when the keyword occurs at some position of the lowered title |
| Strings.Lower | src/services/aiService.js:86 | the lowered title has the title's length, each character lowered in place and no upper-case ASCII letter left |
| Strings.FirstToken | src/services/aiService.js:114 | `split(' ')[0]` is the longest prefix without a space: it contains no space and is followed by a space or by the end of the text |
| Strings.BlankIff | src/pages/CreateCoursePage.jsx:60-70 | a field fails the `trim()` test exactly when every character is ECMAScript whitespace or a line terminator |
| Strings.ParseNatToString | src/pages/CourseOutlinePage.jsx:86 | the number written in front of an objective or module reads back as that number |
| Strings.NatToStringInjective | src/pages/CourseOutlinePage.jsx:94 | distinct modules get distinct printed numbers |
| Model.Spread | src/context/CourseContext.jsx:49 | every key present in the update replaces the course's value; every absent key keeps it |
| AiService.MentionsAnyIff | src/services/aiService.js:90-94 | a chain of `includes` tests joined by `\|\|` holds exactly when one keyword occurs in the text |
| AiService.Classify | src/services/aiService.js:86-96 | the category is always one of web development, marketing, data science and general; which one is stated by `ClassifyByOccurrence` |
| AiService.ClassifyByOccurrence | src/services/aiService.js:86-96 | web development when a web keyword occurs in the lowered title; otherwise marketing when a marketing keyword occurs; otherwise data science when a data keyword occurs; otherwise general |
| AiService.BaseModules | src/services/aiService.js:99 | a category with a table entry gets its entry; any other category falls back to the web-development modules |
| AiService.BaseModulesShape | src/services/aiService.js:4-83 | the table: two web modules, one marketing and one data module, each with two lessons of four concepts and three activities |
| AiService.AppliedConcept | src/services/aiService.js:109 | `Applied: ` followed by the first 50 characters of the objective (all of it when shorter) and `...` |
| AiService.AppliedConcepts | src/services/aiService.js:109 | one applied concept for each of the first two objectives, in order |
| AiService.AudienceActivity | src/services/aiService.js:114 | the added activity splits on its first space back into the audience's own first token, and ends with ` project: Apply concepts in real scenario` |
| AiService.TailorConcepts | src/services/aiService.js:107-110 | the lesson's concepts come first and applied concepts follow, the whole capped at six |
| AiService.TailorActivities | src/services/aiService.js:112-115 | the lesson's activities are kept and the audience project is added after them, the whole capped at four |
| AiService.AugmentLesson | src/services/aiService.js:104-116 | a lesson keeps its title and description, gets the tailored concepts and activities, stays within six concepts and four activities, and keeps its own leading concepts and activities |
| AiService.AugmentModule | src/services/aiService.js:102-117 | a module keeps its title, description and lesson count; each lesson keeps its title and description and gets the tailored concepts and activities |
| AiService.GenerateModules | src/services/aiService.js:85-142 | one tailored module per base module of the title's category, in table order, then the capstone |
| AiService.GenerateCourseOutline | src/services/aiService.js:144-159 | the outline carries the request's title, audience and objectives unchanged, no id or time stamps, and exactly the modules generated from the request's title, audience and objectives, ending with the capstone |
| AiService.GeneratedWithinCaps | src/services/aiService.js:102-139 | every generated lesson has at most six concepts and at most four activities |
| AiService.GeneratedKeepsTable | src/services/aiService.js:102-117 | the tailoring never drops or reorders a concept or activity of the table |
| AiService.PythonDataScienceExample | src/services/aiService.js:86-96 | "Intro to Python for Data Science" is classified as data science |
| AiService.DataOnlyTitle | src/services/aiService.js:86-96 | a title in whose lower-cased form `data` occurs and no web or marketing keyword occurs is classified as data science |
| AiService.DataScienceOutline | src/services/aiService.js:99-141 | a data-science title yields two modules: "Python for Data Analysis" and the capstone |
| CourseStore.NewCourse | src/context/CourseContext.jsx:35-40 | the new course has the fresh id and the clock reading as both time stamps, whatever the data carried; its title, audience, objectives and modules come from the data, an absent title or audience reading as empty |
| CourseStore.Add | src/context/CourseContext.jsx:34-44 | the new course goes in front, the old list follows unchanged, and the returned id is the new course's |
| CourseStore.Update | src/context/CourseContext.jsx:46-52 | the length and order stay; courses with another id are unchanged; a matching course is the spread of the update with the clock as `updatedAt` |
| CourseStore.Delete | src/context/CourseContext.jsx:54-56 | a course survives exactly when it was in the list and has another id |
| CourseStore.Get | src/context/CourseContext.jsx:58-60 | nothing exactly when no course has the id; otherwise the first course that has it |
| CourseStore.GetAfterAdd | src/context/CourseContext.jsx:34-60 | getting the id just added returns the course just added |
| CourseStore.GetAfterDelete | src/context/CourseContext.jsx:54-60 | after deleting an id, getting it finds nothing |
| CourseStore.DeleteConcat | src/context/CourseContext.jsx:55 | the surviving courses keep their relative order |
| CourseStore.DeleteAbsent | src/context/CourseContext.jsx:55 | deleting an id no course has leaves the list as it was |
| CourseStore.UpdateAbsent | src/context/CourseContext.jsx:47-51 | updating an id no course has leaves the list as it was |
| CourseStore.UpdateStampsClock | src/context/CourseContext.jsx:49 | an `updatedAt` key in the update never survives: the clock reading wins |
| CourseStore.UpdateTitleOnly | src/context/CourseContext.jsx:47-51 | an update with only a title changes the title and `updatedAt` and nothing else |
| CourseStore.AddKeepsUnique | src/context/CourseContext.jsx:34-43 | adding under a fresh id keeps the ids unique |
| CourseStore.DeleteKeepsUnique | src/context/CourseContext.jsx:55 | deleting keeps the ids unique |
| CourseStore.UpdateKeepsUnique | src/context/CourseContext.jsx:47-51 | updating keeps the ids unique unless the update brings another course's id |
| CourseStore.Load | src/context/CourseContext.jsx:18-27 | no stored value, an empty one or one that fails to decode gives the empty list; otherwise the decoded list |
| CourseStore.Commit | src/context/CourseContext.jsx:30-32 | after a change the in-memory list is the new list and storage holds its encoding; `ReloadAfterCommit` states that this encoding restores the list |
| CourseStore.Mount | src/context/CourseContext.jsx:17-32 | after mounting, the list is what was loaded and storage holds its encoding |
| CourseStore.ReloadAfterCommit | src/context/CourseContext.jsx:18-32 | with an encoding that decodes back to what it encoded, mounting from what the last save wrote restores the same list |
| OutlinePage.ObjectiveLines | src/pages/CourseOutlinePage.jsx:85-87 | one numbered line per objective, in order |
| OutlinePage.OutlineText | src/pages/CourseOutlinePage.jsx:78-123 | the declarative export opens with the title, rule, audience and objectives heading, and a course without modules ends with the structure heading |
| OutlinePage.GenerateOutlineText | src/pages/CourseOutlinePage.jsx:78-123 | the text built line by line equals the declarative outline |
| OutlinePage.ExportOpensWithTitle | src/pages/CourseOutlinePage.jsx:79-80 | the export opens with the title and an `=` rule exactly as long as the title |
| OutlinePage.ObjectiveInPlace | src/pages/CourseOutlinePage.jsx:84-87 | objective `i` appears as line `i+1. objective` after the lines of the objectives before it |
| OutlinePage.ModuleInPlace | src/pages/CourseOutlinePage.jsx:93-95 | module `i` appears under the heading `Module i+1: title` and a `-` rule ten longer than its title, after the modules before it |
| OutlinePage.ModuleDescriptionLine | src/pages/CourseOutlinePage.jsx:96-98 | a non-empty module description follows the rule on a line of its own and a blank line; an empty one is left out |
| OutlinePage.LessonInPlace | src/pages/CourseOutlinePage.jsx:100-101 | within its module's lessons, lesson `j` of module `i` appears as `Lesson i+1.j+1: title` after the lessons before it |
| OutlinePage.BlockItemInPlace | src/pages/CourseOutlinePage.jsx:105-116 | an empty concept or activity list prints nothing; otherwise each item appears as a bullet line under the heading, in order |
| OutlinePage.ReplaceNonAlnum | src/pages/CourseOutlinePage.jsx:70 | each character other than an ASCII letter or digit becomes `_`; the length stays |
| OutlinePage.DownloadName | src/pages/CourseOutlinePage.jsx:70 | the file name is one character per title character (lowered letter, digit or `_`) followed by `_outline.txt` |
| OutlinePage.SumLessons | src/pages/CourseOutlinePage.jsx:225 | the lesson total of a module list is at least each module's own count, and zero exactly when no module has a lesson |
| OutlinePage.LessonCount | src/pages/CourseOutlinePage.jsx:225 | a course's lesson count is zero exactly when it has no module list or none of its modules has a lesson |
| OutlinePage.SumLessonsAppend | src/pages/CourseOutlinePage.jsx:225 | the lesson count of two module lists put together is the sum of their counts |
| OutlinePage.SumLessonsUniform | src/pages/CourseOutlinePage.jsx:225 | modules of `k` lessons each count `k` times their number |
| OutlinePage.GeneratedLessonCount | src/pages/CourseOutlinePage.jsx:225 | a generated course shows two lessons per module |
| OutlinePage.ToggleModule | src/pages/CourseOutlinePage.jsx:36-41 | the toggled module flips between open and shut, every other module keeps its state |
| OutlinePage.ToggleTwice | src/pages/CourseOutlinePage.jsx:36-41 | toggling the same module twice restores every module's state |
| OutlinePage.ExpandFirst | src/pages/CourseOutlinePage.jsx:44-47 | the first `n` indices are open and no other index has an entry |
| OutlinePage.ExpandAll | src/pages/CourseOutlinePage.jsx:43-49 | exactly the indices of the course's modules are open; a course without modules opens nothing |
| OutlinePage.CollapseAll | src/pages/CourseOutlinePage.jsx:51-53 | no module is open |
| OutlinePage.NotFoundIff | src/pages/CourseOutlinePage.jsx:16-18 | the not-found view shows exactly when no course has the route's id, and never for an id just added |
| CreatePage.SetField | src/pages/CreateCoursePage.jsx:23-28 | the edited field gets the value; the other field and the objectives stay |
| CreatePage.ChangeObjective | src/pages/CreateCoursePage.jsx:30-37 | the edited entry gets the value; the length and every other entry stay |
| CreatePage.AddObjective | src/pages/CreateCoursePage.jsx:39-44 | one empty entry is appended after the unchanged list |
| CreatePage.DropIndex | src/pages/CreateCoursePage.jsx:48 | the entry at the index is removed and the rest keep their order; an index outside the list removes nothing |
| CreatePage.RemoveObjective | src/pages/CreateCoursePage.jsx:46-54 | a single entry is never removed; otherwise the entry at the index goes; a non-empty list stays non-empty |
| CreatePage.EditsKeepAnObjective | src/pages/CreateCoursePage.jsx:39-54 | no sequence of add, change and remove edits empties a non-empty objective list |
| CreatePage.InitialFormKeepsAnObjective | src/pages/CreateCoursePage.jsx:17-21 | the form starts with one objective and always has at least one |
| CreatePage.NonBlank | src/pages/CreateCoursePage.jsx:70 | an entry is kept exactly when it is not blank |
| CreatePage.NonBlankAppend | src/pages/CreateCoursePage.jsx:70 | the kept entries stay in their original order |
| CreatePage.NonBlankEmptyIff | src/pages/CreateCoursePage.jsx:70-74 | no objective is kept exactly when every entry consists of whitespace only |
| CreatePage.Validate | src/pages/CreateCoursePage.jsx:59-82 | a blank title is reported first, then a blank audience, then the lack of a non-blank objective; a passing form becomes the request with only the non-blank objectives |
| CreatePage.InitialFormRejected | src/pages/CreateCoursePage.jsx:17-21 | submitting the untouched form reports the missing title |
| CreatePage.Submit | src/pages/CreateCoursePage.jsx:56-95 | a failing form leaves the courses alone and reports its error; a passing form's outline is added in front under the fresh id and the page goes to that id |
| CreatePage.SubmittedCourse | src/pages/CreateCoursePage.jsx:78-88 | the stored course can be found under the new id and carries the typed title and audience, only the non-blank objectives, the capstone last, and one time stamp for both dates |
| Dashboard.ShowsEmptyState | src/pages/DashboardPage.jsx:96 | the empty state shows only when every total is zero |
| Dashboard.TotalModules | src/pages/DashboardPage.jsx:68-70 | the "Total Modules" figure is at least each course's module count, and zero exactly when no course has a module |
| Dashboard.TotalLessons | src/pages/DashboardPage.jsx:82-87 | the "Total Lessons" figure is at least each course's lesson count, and zero exactly when no course has a lesson |
| Dashboard.TotalsAfterAdd | src/pages/DashboardPage.jsx:56-87 | after an add there is one more course, no empty state, and the new course's modules and lessons on top of the totals |
| Dashboard.TotalsAfterDelete | src/pages/DashboardPage.jsx:56-87 | with unique ids, deleting a course takes exactly one course and its modules and lessons off the totals |
| Dashboard.ObjectivePreview | src/pages/DashboardPage.jsx:148-161 | no preview for a missing or empty list; otherwise the first two objectives and a `+k more` line exactly when there are more than two, shown and hidden adding up to all of them |
| Dashboard.HandleDelete | src/pages/DashboardPage.jsx:13-17 | without confirmation nothing changes; with it the list is the delete of that id: no course with the id remains and every other course does |

## Left out

- The simulated two-to-five-second delay of the generator (src/services/aiService.js:146) is not modelled: it is a timer with a random length and changes no value.
- Browser storage and `JSON.stringify`/`JSON.parse` are not modelled; encoding and decoding are function parameters, and decoding that yields something other than a list of courses is not distinguished from a decoding failure.
- The failed-load log message and every toast notification are left out: they only display text.
- The random id (`uuidv4`) and the clock (`new Date().toISOString()`) are parameters; nothing about the shape of ids or time stamps is modelled.
- CourseStore.NewCourse: the source reads the clock twice, for `createdAt` and for `updatedAt`; the model uses one reading for both, so the rare case where the two differ by a millisecond is not modelled.
- CourseStore.NewCourse: data without a `title` or `targetAudience` key gives `""` here, where the source leaves the key undefined (and the export would then fail on `course.title.length`); the only caller hands over generated outlines, which always carry both keys.
- CourseStore.Update: time stamps are opaque strings, so the model does not state that `updatedAt` moves forward; it states only that it is the clock reading.
- CreatePage.ChangeObjective: requires the index to be inside the list; the page only offers existing indices, and an assignment past the end (which would leave holes in a JavaScript array) is not modelled.
- AiService.AugmentModule: requires the module to have a lesson list; every module in the fixed table has one, and the source would throw on a module without.
- AiService.Classify: `toLowerCase` is modelled for ASCII letters only; lowering of other Unicode letters (for example the Kelvin sign, which lowers to `k`) is not modelled.
- A Dafny `char` is a Unicode scalar value, while JavaScript strings are UTF-16 code units; the model agrees with the source only for text inside the Basic Multilingual Plane. For a character outside it, such as an emoji, the source's `=` and `-` rules (`ExportOpensWithTitle`, `ModuleInPlace`) are one character longer per such character than the model's, its download name (`DownloadName`) gets two `_` where the model writes one, and its `substring(0, 50)` (`AppliedConcept`) can split a surrogate pair, which the model cannot represent.
- A lesson's missing concept or activity list is not distinguished from an empty one: both print no block in the export.
- A missing module or lesson description is written as the empty string; both are falsy and both print no description line.
- The `isGenerating` flag and the spinner it shows are left out; the generator never fails in the source, so the error branch of the submit handler is not modelled.
- Navigation, routing, the `useCourse` guard against use outside the provider, and the home page, header and app shell are not modelled: they wire pages together and compute nothing.
- Copying to the clipboard and the Blob/anchor mechanics of the download are left out; the text and the file name they use are modelled.
- JSX rendering, animations and icons are not modelled; what the pages show is modelled as values (`ShowsEmptyState`, `ShowsNotFound`, `ObjectivePreview`, the totals).
- The folding state's keys are integers here; the source stores them as object keys, which JavaScript turns into strings, with the same lookups.
