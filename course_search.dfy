/** `CourseSearchTool`: runs one search against the store and turns the
    result into text for the language model, remembering one citation per
    hit in `lastSources`. */
module CourseSearch {
  import opened Records
  import opened Text
  import opened Seqs

  /** The tool definition's name and parameters; only `query` is required. */
  const SearchDefinition := ToolDefinition(
    Some("search_course_content"),
    ["query", "course_name", "lesson_number"],
    ["query"])

  /** A hit without a `course_title` is attributed to this title. */
  const UnknownTitle := "unknown"

  function CourseTitle(meta: SearchMeta): string {
    if meta.courseTitle.Some? then meta.courseTitle.value else UnknownTitle
  }

  /** `" - Lesson n"` when the hit names a lesson (lesson 0 included). */
  function LessonSuffix(lessonNumber: Option<int>): string {
    if lessonNumber.Some? then " - Lesson " + IntToString(lessonNumber.value) else ""
  }

  /** The course title and lesson suffix of one hit, as its header and its
      citation both show them. */
  function HitTitle(meta: SearchMeta): string {
    CourseTitle(meta) + LessonSuffix(meta.lessonNumber)
  }

  /** The bracketed context header of one hit. */
  function Header(meta: SearchMeta): string {
    "[" + HitTitle(meta) + "]"
  }

  /** The text block of one hit: its header, a newline, the document. */
  function Block(doc: string, meta: SearchMeta): string {
    Header(meta) + "\n" + doc
  }

  /** The citation of one hit. Its title is the header without the brackets;
      it links to the lesson only when both a lesson and a real course title
      are known. */
  function Citation(meta: SearchMeta, lessonLink: (string, int) -> Option<string>): (c: Source)
    ensures "[" + c.title + "]" == Header(meta)
    ensures meta.lessonNumber.None? || CourseTitle(meta) == UnknownTitle ==> c.url == None
    ensures meta.lessonNumber.Some? && CourseTitle(meta) != UnknownTitle ==>
              c.url == lessonLink(CourseTitle(meta), meta.lessonNumber.value)
  {
    var title := CourseTitle(meta);
    Source(
      HitTitle(meta),
      if meta.lessonNumber.Some? && title != UnknownTitle then lessonLink(title, meta.lessonNumber.value) else None)
  }

  /** Number of pairs `zip(documents, metadata)` yields. */
  function ZipLength(docs: seq<string>, metas: seq<SearchMeta>): nat {
    if |docs| <= |metas| then |docs| else |metas|
  }

  /** The blocks of `zip(documents, metadata)`, one per pair, in order. */
  function Blocks(docs: seq<string>, metas: seq<SearchMeta>): (r: seq<string>)
    ensures |r| == ZipLength(docs, metas)
    ensures forall i :: 0 <= i < |r| ==> r[i] == Block(docs[i], metas[i])
  {
    seq(ZipLength(docs, metas), i requires 0 <= i < ZipLength(docs, metas) => Block(docs[i], metas[i]))
  }

  /** The citations of `zip(documents, metadata)`, one per pair, in order. */
  function Citations(docs: seq<string>, metas: seq<SearchMeta>, lessonLink: (string, int) -> Option<string>): (r: seq<Source>)
    ensures |r| == ZipLength(docs, metas)
    ensures forall i :: 0 <= i < |r| ==> r[i] == Citation(metas[i], lessonLink)
  {
    seq(ZipLength(docs, metas), i requires 0 <= i < ZipLength(docs, metas) => Citation(metas[i], lessonLink))
  }

  /** The reply when nothing was found: the active filters are named, course
      first; a filter only counts when it is truthy, so lesson 0 is not named. */
  function EmptyMessage(courseName: Option<string>, lessonNumber: Option<int>): string {
    "No relevant content found" + (CourseInfo(courseName) + LessonInfo(lessonNumber)) + "."
  }

  function CourseInfo(courseName: Option<string>): string {
    if Truthy(courseName) then " in course '" + courseName.value + "'" else ""
  }

  function LessonInfo(lessonNumber: Option<int>): string {
    if TruthyInt(lessonNumber) then " in lesson " + IntToString(lessonNumber.value) else ""
  }

  /** Whether `execute` formats hits (no error and at least one document). */
  predicate Formatted(results: SearchResults) {
    !Truthy(results.error) && !IsEmpty(results)
  }

  /** The text `execute` returns for the store's answer: an error beats an
      empty result, which beats the formatted blocks. */
  function SearchText(results: SearchResults, courseName: Option<string>, lessonNumber: Option<int>): string {
    if Truthy(results.error) then results.error.value
    else if IsEmpty(results) then EmptyMessage(courseName, lessonNumber)
    else Join("\n\n", Blocks(results.documents, results.metadata))
  }

  /** `last_sources` after `execute`: replaced wholesale when hits were
      formatted, untouched otherwise. */
  function SearchSources(previous: seq<Source>, results: SearchResults, lessonLink: (string, int) -> Option<string>): seq<Source> {
    if Formatted(results) then Citations(results.documents, results.metadata, lessonLink) else previous
  }

  /** A store error is passed through verbatim whatever documents, metadata
      and filters come with it, and the citations are kept. */
  lemma ErrorPassthrough(
    r1: SearchResults, r2: SearchResults,
    c1: Option<string>, c2: Option<string>, l1: Option<int>, l2: Option<int>,
    previous: seq<Source>, lessonLink: (string, int) -> Option<string>)
    requires Truthy(r1.error) && r2.error == r1.error
    ensures SearchText(r1, c1, l1) == SearchText(r2, c2, l2) == r1.error.value
    ensures SearchSources(previous, r1, lessonLink) == previous
  {
  }

  /** Without an error, an empty result gives the filter message whatever
      metadata came back, and the citations are kept. */
  lemma EmptyResultMessage(
    results: SearchResults, courseName: Option<string>, lessonNumber: Option<int>,
    previous: seq<Source>, lessonLink: (string, int) -> Option<string>)
    requires !Truthy(results.error) && results.documents == []
    ensures SearchText(results, courseName, lessonNumber) == EmptyMessage(courseName, lessonNumber)
    ensures SearchSources(previous, results, lessonLink) == previous
  {
  }

  /** The filter message for the example of both filters, and for lesson 0,
      which counts as no lesson filter. */
  lemma EmptyMessageExamples()
    ensures EmptyMessage(Some("X"), Some(3)) == "No relevant content found in course 'X' in lesson 3."
    ensures EmptyMessage(None, Some(0)) == "No relevant content found."
    ensures EmptyMessage(Some(""), None) == "No relevant content found."
  {
    assert IntToString(3) == "3";
  }

  /** Lesson 0 is falsy, so it never shows in the filter message. */
  lemma LessonZeroNotNamed(courseName: Option<string>)
    ensures EmptyMessage(courseName, Some(0)) == EmptyMessage(courseName, None)
  {
  }

  /** One formatted block per citation, in the same order: block i is the
      bracketed title of citation i, a newline and document i. The new
      citations do not depend on the old ones. */
  lemma CitationsMatchBlocks(
    results: SearchResults, courseName: Option<string>, lessonNumber: Option<int>,
    previous: seq<Source>, lessonLink: (string, int) -> Option<string>)
    requires Formatted(results)
    ensures var blocks := Blocks(results.documents, results.metadata);
            var sources := SearchSources(previous, results, lessonLink);
            SearchText(results, courseName, lessonNumber) == Join("\n\n", blocks) &&
            |sources| == |blocks| == ZipLength(results.documents, results.metadata) &&
            forall i :: 0 <= i < |blocks| ==>
              blocks[i] == "[" + sources[i].title + "]" + "\n" + results.documents[i]
    ensures SearchSources(previous, results, lessonLink) == Citations(results.documents, results.metadata, lessonLink)
  {
    var blocks := Blocks(results.documents, results.metadata);
    var sources := SearchSources(previous, results, lessonLink);
    forall i | 0 <= i < |blocks|
      ensures blocks[i] == "[" + sources[i].title + "]" + "\n" + results.documents[i]
    {
      var c := Citation(results.metadata[i], lessonLink);
      assert Header(results.metadata[i]) == "[" + c.title + "]";
    }
  }

  /** The metadata of a single hit in lesson 1 of a known course. */
  const IntroLessonOne := SearchMeta(Some("Intro to Python"), Some(1))

  /** The header of that hit names the course and the lesson. */
  lemma SingleResultHeader()
    ensures Header(IntroLessonOne) == "[Intro to Python - Lesson 1]"
  {
    assert IntToString(1) == "1";
    assert LessonSuffix(IntroLessonOne.lessonNumber) == " - Lesson 1";
  }

  /** Its search reply is the header, a newline and the document. */
  lemma SingleResultText()
    ensures SearchText(SearchResults(["doc text"], [IntroLessonOne], None), None, None)
            == "[Intro to Python - Lesson 1]\ndoc text"
  {
    SingleResultHeader();
    assert Blocks(["doc text"], [IntroLessonOne]) == [Block("doc text", IntroLessonOne)];
  }

  /** Its one citation carries the header text and the lesson's link. */
  lemma SingleResultCitation(lessonLink: (string, int) -> Option<string>)
    ensures SearchSources([], SearchResults(["doc text"], [IntroLessonOne], None), lessonLink)
            == [Source("Intro to Python - Lesson 1", lessonLink("Intro to Python", 1))]
  {
    SingleResultHeader();
    assert "Intro to Python"[0] != UnknownTitle[0];
    var c := Citation(IntroLessonOne, lessonLink);
    assert "[" + c.title + "]" == "[" + "Intro to Python - Lesson 1" + "]";
    assert c.title == "Intro to Python - Lesson 1";
  }

  /** The empty-result branch of `execute`: the filters that are truthy are
      named in the reply, course first. */
  method NoResultsMessage(courseName: Option<string>, lessonNumber: Option<int>) returns (text: string)
    ensures text == EmptyMessage(courseName, lessonNumber)
  {
    var filterInfo := "";
    if Truthy(courseName) {
      filterInfo := filterInfo + (" in course '" + courseName.value + "'");
    }
    assert filterInfo == CourseInfo(courseName);
    if TruthyInt(lessonNumber) {
      filterInfo := filterInfo + (" in lesson " + IntToString(lessonNumber.value));
    }
    return "No relevant content found" + filterInfo + ".";
  }

  /** One iteration of `_format_results`' loop: the block and the citation
      of one (document, metadata) pair. */
  method FormatHit(doc: string, meta: SearchMeta, lessonLinkOf: (string, int) -> Option<string>)
    returns (block: string, source: Source)
    ensures block == Block(doc, meta)
    ensures source == Citation(meta, lessonLinkOf)
  {
    var courseTitle := if meta.courseTitle.Some? then meta.courseTitle.value else UnknownTitle;
    assert courseTitle == CourseTitle(meta);

    var header := "[" + courseTitle;
    if meta.lessonNumber.Some? {
      var suffix := " - Lesson " + IntToString(meta.lessonNumber.value);
      AppendAssoc("[", courseTitle, suffix);
      header := header + suffix;
    }
    assert header == "[" + HitTitle(meta);
    header := header + "]";

    var sourceTitle := courseTitle;
    if meta.lessonNumber.Some? {
      sourceTitle := sourceTitle + (" - Lesson " + IntToString(meta.lessonNumber.value));
    }

    var lessonLink := None;
    if meta.lessonNumber.Some? && courseTitle != UnknownTitle {
      lessonLink := lessonLinkOf(courseTitle, meta.lessonNumber.value);
    }

    source := Source(sourceTitle, lessonLink);
    block := header + "\n" + doc;
  }

  class CourseSearchTool {
    const store: Store
    /** The citations of the most recent formatted search. */
    var lastSources: seq<Source>

    constructor (store: Store)
      ensures this.store == store && lastSources == []
    {
      this.store := store;
      lastSources := [];
    }

    /** `execute(query, course_name, lesson_number)`. */
    method Execute(query: string, courseName: Option<string>, lessonNumber: Option<int>) returns (text: string)
      modifies this
      ensures text == SearchText(store.search(query, courseName, lessonNumber), courseName, lessonNumber)
      ensures lastSources == SearchSources(old(lastSources), store.search(query, courseName, lessonNumber), store.lessonLink)
    {
      var results := store.search(query, courseName, lessonNumber);
      if Truthy(results.error) {
        return results.error.value;
      }
      if IsEmpty(results) {
        text := NoResultsMessage(courseName, lessonNumber);
        return;
      }
      text := FormatResults(results);
    }

    /** `_format_results`: one block and one citation per (document, metadata)
        pair; the citations replace `lastSources`. */
    method FormatResults(results: SearchResults) returns (text: string)
      modifies this
      ensures text == Join("\n\n", Blocks(results.documents, results.metadata))
      ensures lastSources == Citations(results.documents, results.metadata, store.lessonLink)
    {
      var formatted: seq<string> := [];
      var sources: seq<Source> := [];
      var n := ZipLength(results.documents, results.metadata);
      var i := 0;
      while i < n
        invariant 0 <= i <= n
        invariant |formatted| == i && |sources| == i
        invariant forall k :: 0 <= k < i ==> formatted[k] == Block(results.documents[k], results.metadata[k])
        invariant forall k :: 0 <= k < i ==> sources[k] == Citation(results.metadata[k], store.lessonLink)
      {
        var block, source := FormatHit(results.documents[i], results.metadata[i], store.lessonLink);
        sources := sources + [source];
        formatted := formatted + [block];
        i := i + 1;
      }
      assert formatted == Blocks(results.documents, results.metadata);
      assert sources == Citations(results.documents, results.metadata, store.lessonLink);
      lastSources := sources;
      text := Join("\n\n", formatted);
    }
  }
}
