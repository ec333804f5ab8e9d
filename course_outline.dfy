/** `CourseOutlineTool`: renders the catalog (or the one course a filter
    resolves to) as an outline, remembering lesson- or course-level
    citations in `lastSources`. */
module CourseOutline {
  import opened Records
  import opened Text
  import opened Seqs

  /** The tool definition's name and parameters; nothing is required. */
  const OutlineDefinition := ToolDefinition(Some("get_course_outline"), ["course_name"], [])

  const NoCoursesMessage := "No courses found in the system."

  function NoMatchMessage(courseName: string): string {
    "No course found matching '" + courseName + "'."
  }

  function CourseTitleOf(c: Course): string {
    if c.title.Some? then c.title.value else "Unknown Course"
  }

  function InstructorOf(c: Course): string {
    if c.instructor.Some? then c.instructor.value else "Unknown"
  }

  /** What an f-string writes for `lesson_number`; a missing one prints as `None`. */
  function LessonNumberText(l: Lesson): string {
    if l.number.Some? then IntToString(l.number.value) else "None"
  }

  function LessonTitleOf(l: Lesson): string {
    if l.title.Some? then l.title.value else "Untitled"
  }

  /** A course's title, instructor, optional link and lesson count lines. */
  function CourseHead(c: Course): string {
    var head := "**" + CourseTitleOf(c) + "**\n" + ("Instructor: " + InstructorOf(c) + "\n");
    var linked := if Truthy(c.link) then head + ("Course Link: " + c.link.value + "\n") else head;
    linked + ("\nLessons (" + IntToString(|c.lessons|) + " total):\n")
  }

  /** The listing line of one lesson, number and title as stored. */
  function LessonLine(l: Lesson): string {
    "  " + LessonNumberText(l) + ". " + LessonTitleOf(l) + "\n"
  }

  /** The listing lines of the lessons, in catalog order. */
  function LessonLines(ls: seq<Lesson>): string {
    Concat(LessonLine, ls)
  }

  /** The outline block of one course. */
  function CourseOutline(c: Course): string {
    CourseHead(c) + LessonLines(c.lessons)
  }

  /** The outline blocks of the courses, one per course, in order. */
  function Outlines(cs: seq<Course>): seq<string> {
    Concat(OutlineBlock, cs)
  }

  function OutlineBlock(c: Course): seq<string> {
    [CourseOutline(c)]
  }

  /** The reply when courses are shown: their blocks separated by blank lines. */
  function OutlineText(cs: seq<Course>): string {
    Join("\n\n", Outlines(cs))
  }

  /** Python's `any(lesson.get('lesson_link') for lesson in lessons)`. */
  predicate AnyLinked(ls: seq<Lesson>) {
    exists i :: 0 <= i < |ls| && Truthy(ls[i].link)
  }

  /** The citation a lesson contributes: one when it has a link, none otherwise. */
  function LessonCitationOf(title: string, l: Lesson): seq<Source> {
    if Truthy(l.link) then [Source(title + " - Lesson " + LessonNumberText(l), l.link)] else []
  }

  /** The lesson citations of a course, in catalog order. */
  function LessonCitations(title: string, ls: seq<Lesson>): seq<Source> {
    Concat(LessonCitationsFor(title), ls)
  }

  /** `LessonCitationOf` for one course title, as a function of the lesson. */
  function LessonCitationsFor(title: string): Lesson -> seq<Source> {
    (l: Lesson) => LessonCitationOf(title, l)
  }

  /** The course-level citation, given only when no lesson has a link. */
  function Fallback(c: Course): seq<Source> {
    if !AnyLinked(c.lessons) && Truthy(c.link) then [Source(CourseTitleOf(c), c.link)] else []
  }

  /** All citations of one course. */
  function CourseSources(c: Course): seq<Source> {
    LessonCitations(CourseTitleOf(c), c.lessons) + Fallback(c)
  }

  /** All citations of the shown courses, course after course. */
  function OutlineSources(cs: seq<Course>): seq<Source> {
    Concat(CourseSources, cs)
  }

  /** The catalog entries whose title equals the resolved title, in catalog order. */
  function MatchingCourses(catalog: seq<Course>, resolved: string): (r: seq<Course>)
    ensures |r| <= |catalog|
    ensures forall c :: c in r <==> c in catalog && c.title == Some(resolved)
  {
    if catalog == [] then []
    else if catalog[0].title == Some(resolved) then [catalog[0]] + MatchingCourses(catalog[1..], resolved)
    else MatchingCourses(catalog[1..], resolved)
  }

  /** Filtering a concatenation filters each part: the catalog order of the
      kept courses, and their repetitions, are those of the catalog. */
  lemma {:induction false} MatchingCoursesAppend(a: seq<Course>, b: seq<Course>, resolved: string)
    ensures MatchingCourses(a + b, resolved) == MatchingCourses(a, resolved) + MatchingCourses(b, resolved)
    decreases |a|
  {
    if a == [] {
      assert a + b == b;
    } else {
      assert (a + b)[0] == a[0];
      assert (a + b)[1..] == a[1..] + b;
      MatchingCoursesAppend(a[1..], b, resolved);
    }
  }

  /** A single catalog entry is kept exactly when its title is the resolved one. */
  lemma MatchingCoursesSingle(c: Course, resolved: string)
    ensures MatchingCourses([c], resolved) == if c.title == Some(resolved) then [c] else []
  {
    assert [c][1..] == [];
  }

  /** What `execute` decides to do with the catalog and the filter. */
  datatype Selection = NoCourses | NoMatch(courseName: string) | Show(courses: seq<Course>)

  /** The selection step of `execute`: an empty catalog, then an unresolved
      or unmatched truthy filter, are reported; otherwise the matching courses
      (or the whole catalog, without a filter) are shown. */
  function Select(catalog: seq<Course>, courseName: Option<string>, resolve: string -> Option<string>): (r: Selection)
    ensures r.NoCourses? <==> catalog == []
    ensures catalog != [] && !Truthy(courseName) ==> r == Show(catalog)
    ensures r.NoMatch? ==> Truthy(courseName) && r.courseName == courseName.value
    ensures catalog != [] && Truthy(courseName) ==>
              (r.NoMatch? <==> !Truthy(resolve(courseName.value)) ||
                               forall c :: c in catalog ==> c.title != resolve(courseName.value))
    ensures r.Show? ==> r.courses != []
    ensures r.Show? && Truthy(courseName) ==>
              forall c :: c in r.courses ==> c in catalog && c.title == resolve(courseName.value)
    ensures r.Show? && Truthy(courseName) ==>
              Truthy(resolve(courseName.value)) &&
              r.courses == MatchingCourses(catalog, resolve(courseName.value).value)
  {
    if catalog == [] then NoCourses
    else if Truthy(courseName) then
      var resolved := resolve(courseName.value);
      if !Truthy(resolved) then NoMatch(courseName.value)
      else
        var shown := MatchingCourses(catalog, resolved.value);
        if shown == [] then NoMatch(courseName.value)
        else assert shown[0] in shown; Show(shown)
    else Show(catalog)
  }

  /** The text `execute` returns for a selection. */
  function OutlineReply(s: Selection): string {
    match s
    case NoCourses => NoCoursesMessage
    case NoMatch(name) => NoMatchMessage(name)
    case Show(cs) => OutlineText(cs)
  }

  /** `last_sources` after `execute`: replaced when courses are shown, kept otherwise. */
  function OutlineSourcesAfter(previous: seq<Source>, s: Selection): seq<Source> {
    if s.Show? then OutlineSources(s.courses) else previous
  }

  /** A course's lesson citations are empty exactly when none of its lessons
      has a link: the per-lesson appends and the `any(...)` test agree. */
  lemma LessonCitationsEmptyIff(title: string, ls: seq<Lesson>)
    ensures LessonCitations(title, ls) == [] <==> !AnyLinked(ls)
  {
    ConcatEmpty(LessonCitationsFor(title), ls);
  }

  /** Every lesson citation comes from a lesson with a link, carries that link,
      and is titled by the course title followed by the lesson, never by the
      bare course title. */
  lemma LessonCitationsLinked(title: string, ls: seq<Lesson>)
    ensures forall k :: 0 <= k < |LessonCitations(title, ls)| ==>
              Truthy(LessonCitations(title, ls)[k].url) && LessonCitations(title, ls)[k].title != title
  {
    var f := LessonCitationsFor(title);
    forall k | 0 <= k < |LessonCitations(title, ls)|
      ensures Truthy(LessonCitations(title, ls)[k].url) && LessonCitations(title, ls)[k].title != title
    {
      ConcatMember(f, ls, k);
      var i, j :| 0 <= i < |ls| && 0 <= j < |f(ls[i])| && Concat(f, ls)[k] == f(ls[i])[j];
      var c := Concat(f, ls)[k];
      assert c == Source(title + " - Lesson " + LessonNumberText(ls[i]), ls[i].link);
      assert |c.title| > |title|;
    }
  }

  /** How many citations carry exactly the given title. */
  function CountTitled(sources: seq<Source>, title: string): nat {
    if sources == [] then 0
    else CountTitled(sources[..|sources| - 1], title) + (if sources[|sources| - 1].title == title then 1 else 0)
  }

  lemma {:induction false} CountTitledAppend(a: seq<Source>, b: seq<Source>, title: string)
    ensures CountTitled(a + b, title) == CountTitled(a, title) + CountTitled(b, title)
    decreases |b|
  {
    if b == [] {
      assert a + b == a;
    } else {
      assert (a + b)[..|a + b| - 1] == a + b[..|b| - 1];
      CountTitledAppend(a, b[..|b| - 1], title);
    }
  }

  lemma {:induction false} CountTitledNone(sources: seq<Source>, title: string)
    requires forall k :: 0 <= k < |sources| ==> sources[k].title != title
    ensures CountTitled(sources, title) == 0
    decreases |sources|
  {
    if sources != [] {
      CountTitledNone(sources[..|sources| - 1], title);
    }
  }

  /** A course gets exactly one course-level citation (one titled with the
      bare course title) when none of its lessons has a link and the course
      has one, and none otherwise; every other citation is a lesson's. */
  lemma CourseLevelCitation(c: Course)
    ensures CountTitled(CourseSources(c), CourseTitleOf(c)) ==
              (if !AnyLinked(c.lessons) && Truthy(c.link) then 1 else 0)
    ensures |CourseSources(c)| ==
              |LessonCitations(CourseTitleOf(c), c.lessons)| + (if !AnyLinked(c.lessons) && Truthy(c.link) then 1 else 0)
  {
    var title := CourseTitleOf(c);
    var lessonSources := LessonCitations(title, c.lessons);
    LessonCitationsLinked(title, c.lessons);
    CountTitledNone(lessonSources, title);
    CountTitledAppend(lessonSources, Fallback(c), title);
    assert CountTitled([Source(title, c.link)], title) == 1 by {
      assert [Source(title, c.link)][..0] == [];
    }
  }

  /** The listing of a concatenation is the concatenation of the listings:
      lessons are listed in catalog order, never sorted. */
  lemma LessonLinesAppend(a: seq<Lesson>, b: seq<Lesson>)
    ensures LessonLines(a + b) == LessonLines(a) + LessonLines(b)
  {
    ConcatAppend(LessonLine, a, b);
  }

  /** Lesson k's line sits between the lines of the lessons before it and
      those after it. */
  lemma LessonLineAt(ls: seq<Lesson>, k: nat)
    requires k < |ls|
    ensures LessonLines(ls) == LessonLines(ls[..k]) + LessonLine(ls[k]) + LessonLines(ls[k + 1..])
  {
    assert ls == ls[..k + 1] + ls[k + 1..];
    LessonLinesAppend(ls[..k + 1], ls[k + 1..]);
    ConcatStep(LessonLine, ls, k);
  }

  /** The citations of a concatenation of course lists are the citations of
      the first list followed by those of the second: course order is kept. */
  lemma OutlineSourcesAppend(a: seq<Course>, b: seq<Course>)
    ensures OutlineSources(a + b) == OutlineSources(a) + OutlineSources(b)
  {
    ConcatAppend(CourseSources, a, b);
  }

  /** One lesson step of `_format_outline`'s inner loop on the outline text. */
  lemma LessonLinesStep(head: string, ls: seq<Lesson>, j: nat, outline: string)
    requires j < |ls|
    requires outline == head + LessonLines(ls[..j])
    ensures outline + LessonLine(ls[j]) == head + LessonLines(ls[..j + 1])
  {
    ConcatStep(LessonLine, ls, j);
    AppendAssoc(head, LessonLines(ls[..j]), LessonLine(ls[j]));
  }

  /** One lesson step of `_format_outline`'s inner loop on the citations. */
  lemma LessonCitationsStep(before: seq<Source>, title: string, ls: seq<Lesson>, j: nat, sources: seq<Source>)
    requires j < |ls|
    requires sources == before + LessonCitations(title, ls[..j])
    ensures sources + LessonCitationOf(title, ls[j]) == before + LessonCitations(title, ls[..j + 1])
  {
    ConcatStep(LessonCitationsFor(title), ls, j);
    AppendAssoc(before, LessonCitations(title, ls[..j]), LessonCitationOf(title, ls[j]));
  }

  /** One course step of `_format_outline`'s outer loop. */
  lemma CourseStep(cs: seq<Course>, i: nat, formatted: seq<string>, outline: string, courseSources: seq<Source>)
    requires i < |cs|
    requires formatted == Outlines(cs[..i]) && outline == CourseOutline(cs[i])
    requires courseSources == OutlineSources(cs[..i]) + CourseSources(cs[i])
    ensures formatted + [outline] == Outlines(cs[..i + 1])
    ensures courseSources == OutlineSources(cs[..i + 1])
  {
    ConcatStep(OutlineBlock, cs, i);
    ConcatStep(CourseSources, cs, i);
  }

  /** The error replies of `execute` and the sources they leave in place. */
  lemma ErrorReplies(catalog: seq<Course>, courseName: Option<string>, resolve: string -> Option<string>, previous: seq<Source>)
    ensures catalog == [] ==> OutlineReply(Select(catalog, courseName, resolve)) == NoCoursesMessage
    ensures catalog != [] && Truthy(courseName) && !Truthy(resolve(courseName.value)) ==>
              OutlineReply(Select(catalog, courseName, resolve)) == NoMatchMessage(courseName.value)
    ensures catalog != [] && Truthy(courseName) &&
            (forall c :: c in catalog ==> c.title != resolve(courseName.value)) ==>
              OutlineReply(Select(catalog, courseName, resolve)) == NoMatchMessage(courseName.value)
    ensures !Select(catalog, courseName, resolve).Show? ==>
              OutlineSourcesAfter(previous, Select(catalog, courseName, resolve)) == previous
  {
  }

  /** The header lines `_format_outline` writes for one course, before its lessons. */
  method FormatHeader(course: Course) returns (outline: string)
    ensures outline == CourseHead(course)
  {
    var title := if course.title.Some? then course.title.value else "Unknown Course";
    var instructor := if course.instructor.Some? then course.instructor.value else "Unknown";
    var courseLink := course.link;
    var lessons := course.lessons;

    outline := "**" + title + "**\n";
    outline := outline + ("Instructor: " + instructor + "\n");
    if Truthy(courseLink) {
      outline := outline + ("Course Link: " + courseLink.value + "\n");
    }
    outline := outline + ("\nLessons (" + IntToString(|lessons|) + " total):\n");
  }

  /** The inner loop of `_format_outline` over one course's lessons: a
      listing line per lesson, and a citation per lesson with a link. */
  method FormatLessons(title: string, lessons: seq<Lesson>, outline0: string, sources0: seq<Source>)
    returns (outline: string, sources: seq<Source>)
    ensures outline == outline0 + LessonLines(lessons)
    ensures sources == sources0 + LessonCitations(title, lessons)
  {
    outline, sources := outline0, sources0;
    assert lessons[..0] == [];
    var j := 0;
    while j < |lessons|
      invariant 0 <= j <= |lessons|
      invariant outline == outline0 + LessonLines(lessons[..j])
      invariant sources == sources0 + LessonCitations(title, lessons[..j])
    {
      var lesson := lessons[j];
      var lessonNum := LessonNumberText(lesson);
      var lessonLink := lesson.link;

      LessonLinesStep(outline0, lessons, j, outline);
      outline := outline + LessonLine(lesson);
      LessonCitationsStep(sources0, title, lessons, j, sources);
      if Truthy(lessonLink) {
        var citation := Source(title + " - Lesson " + lessonNum, lessonLink);
        assert [citation] == LessonCitationOf(title, lesson);
        sources := sources + [citation];
      } else {
        assert sources + LessonCitationOf(title, lesson) == sources;
      }
      j := j + 1;
    }
    assert lessons[..j] == lessons;
  }

  /** One iteration of `_format_outline`'s loop over the courses: the course's
      outline block, and `sources` with the course's citations appended
      (one per linked lesson, else the course link). */
  method FormatCourse(course: Course, sources0: seq<Source>) returns (outline: string, sources: seq<Source>)
    ensures outline == CourseOutline(course)
    ensures sources == sources0 + CourseSources(course)
  {
    var title := if course.title.Some? then course.title.value else "Unknown Course";
    var courseLink := course.link;
    var lessons := course.lessons;

    outline := FormatHeader(course);
    outline, sources := FormatLessons(title, lessons, outline, sources0);

    ghost var lessonsDone := sources;
    if !AnyLinked(lessons) && Truthy(courseLink) {
      sources := sources + [Source(title, courseLink)];
    }
    assert sources == lessonsDone + Fallback(course);
    AppendAssoc(sources0, LessonCitations(title, lessons), Fallback(course));
  }

  class CourseOutlineTool {
    const store: Store
    /** The citations of the most recent outline that was rendered. */
    var lastSources: seq<Source>

    constructor (store: Store)
      ensures this.store == store && lastSources == []
    {
      this.store := store;
      lastSources := [];
    }

    /** `execute(course_name)`. */
    method Execute(courseName: Option<string>) returns (text: string)
      modifies this
      ensures text == OutlineReply(Select(store.catalog, courseName, store.resolveCourseName))
      ensures lastSources == OutlineSourcesAfter(old(lastSources), Select(store.catalog, courseName, store.resolveCourseName))
    {
      var allCourses := store.catalog;
      if allCourses == [] {
        return NoCoursesMessage;
      }
      var coursesToShow;
      if Truthy(courseName) {
        var resolvedTitle := store.resolveCourseName(courseName.value);
        if !Truthy(resolvedTitle) {
          return NoMatchMessage(courseName.value);
        }
        coursesToShow := MatchingCourses(allCourses, resolvedTitle.value);
        if coursesToShow == [] {
          return NoMatchMessage(courseName.value);
        }
      } else {
        coursesToShow := allCourses;
      }
      text := FormatOutline(coursesToShow);
    }

    /** `_format_outline`: one block per course with one line per lesson;
        the collected citations replace `lastSources`. */
    method FormatOutline(courses: seq<Course>) returns (text: string)
      modifies this
      ensures text == OutlineText(courses)
      ensures lastSources == OutlineSources(courses)
    {
      var formatted: seq<string> := [];
      var sources: seq<Source> := [];
      var i := 0;
      assert courses[..0] == [];
      while i < |courses|
        invariant 0 <= i <= |courses|
        invariant formatted == Outlines(courses[..i])
        invariant sources == OutlineSources(courses[..i])
      {
        var course := courses[i];
        var outline;
        outline, sources := FormatCourse(course, sources);
        CourseStep(courses, i, formatted, outline, sources);
        formatted := formatted + [outline];
        i := i + 1;
      }
      assert courses[..i] == courses;
      lastSources := sources;
      text := Join("\n\n", formatted);
    }
  }
}
