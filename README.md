# Course chatbot tools — a Dafny model

This project models the tool side of a retrieval-augmented course chatbot
(`backend/search_tools.py`). The language model answers questions about
course material by calling two tools through a registry:

- **`CourseSearchTool`** runs one search against the vector store. It turns
  the hits into text blocks headed `[Course - Lesson n]`, joined by blank
  lines, and remembers one citation per hit in `last_sources`.
- **`CourseOutlineTool`** renders the course catalog, or the one course an
  optional filter resolves to, as an outline with one line per lesson. Its
  citations are one per linked lesson, or the course link once when no
  lesson of the course is linked.
- **`ToolManager`** keeps the tools by the name in their definition, in
  registration order. It lists their definitions, dispatches calls by name
  (an unknown name is answered in text), collects the first non-empty
  citation list and resets the citations of every tool.

Modules, one per component:

- `Records` (`records.dfy`): the data exchanged with the vector store.
  Python dictionaries read with `.get` become records with `Option` fields.
- `Text` (`text.dfy`): `str()` of an integer, with its inverse, and
  `sep.join`.
- `Seqs` (`seqs.dfy`): the "append `f(x)` for each `x`" accumulation the
  loops perform, with its algebra.
- `CourseSearch` (`course_search.dfy`): the search tool, as a class
  `CourseSearchTool` whose methods update `lastSources`. Specification
  functions such as `SearchText` and `SearchSources` sit beside it, with
  lemmas about them.
- `CourseOutline` (`course_outline.dfy`): the outline tool, laid out the
  same way: class `CourseOutlineTool`, the selection function `Select`, and
  the rendering functions `CourseOutline` and `OutlineSources`.
- `ToolRegistry` (`tool_registry.dfy`): the class `ToolManager`. The dict is
  its `names` (the key order) and `tools` (the map). `ToolRef` says which
  tool a name holds.

The vector store is outside the model. It is the `Store` record: its search,
`get_lesson_link` and `_resolve_course_name` are uninterpreted functions,
and `get_all_courses_metadata()` is a fixed catalog. The methods are
proved against the specification functions. The properties the source
promises are proved about those functions as lemmas.

## Model

| member | source | states |
|---|---|---|
| `CourseSearch.Citation` | backend/search_tools.py:103-117 | the citation title in brackets is exactly the block header; the url is `get_lesson_link(title, n)` when a lesson number is present and the title is not `"unknown"`, and `None` otherwise |
| `CourseSearch.Blocks` | backend/search_tools.py:93-101 | one block per `zip(documents, metadata)` pair, truncated to the shorter list, each block being its header, a newline and its document, in order |
| `CourseSearch.Citations` | backend/search_tools.py:93-117 | one citation per `zip` pair, in the same order as the blocks |
| `CourseSearch.ErrorPassthrough` | backend/search_tools.py:72-74 | a truthy store error is returned verbatim whatever the documents, metadata and filters, and `last_sources` is kept |
| `CourseSearch.EmptyResultMessage` | backend/search_tools.py:76-83 | without an error, an empty result gives the filter message whatever metadata came back, and `last_sources` is kept |
| `CourseSearch.EmptyMessageExamples` | backend/search_tools.py:77-83 | the exact message with both filters (`... in course 'X' in lesson 3.`), and the bare message for lesson 0 and for an empty course name |
| `CourseSearch.LessonZeroNotNamed` | backend/search_tools.py:81-82 | a lesson filter of 0 gives the same message as no lesson filter |
| `CourseSearch.CitationsMatchBlocks` | backend/search_tools.py:93-124 | after formatting, the reply is the blank-line join of the blocks; there are as many citations as blocks (the zip length); block i is `"[" + title of citation i + "]\n" + document i`; the new citations are exactly `Citations` of the hits, so the old citations play no part |
| `CourseSearch.SingleResultHeader` | backend/search_tools.py:97-101 | a hit in lesson 1 of "Intro to Python" is headed `[Intro to Python - Lesson 1]` |
| `CourseSearch.SingleResultText` | backend/search_tools.py:88-124 | a single such hit is answered with its header, a newline and its document |
| `CourseSearch.SingleResultCitation` | backend/search_tools.py:103-122 | that hit leaves exactly one citation, titled `Intro to Python - Lesson 1` and linked to the lesson |
| `CourseSearch.NoResultsMessage` | backend/search_tools.py:77-83 | the `filter_info` accumulation yields the filter message of `EmptyMessage` |
| `CourseSearch.FormatHit` | backend/search_tools.py:94-119 | one loop iteration yields exactly the block and the citation of its pair |
| `CourseSearch.CourseSearchTool.constructor` | backend/search_tools.py:23-25 | a new tool keeps the store and has no citations |
| `CourseSearch.CourseSearchTool.Execute` | backend/search_tools.py:52-86 | the reply is the error, else the empty message, else the formatted blocks; `last_sources` is replaced by the citations only on the formatted path |
| `CourseSearch.CourseSearchTool.FormatResults` | backend/search_tools.py:88-124 | the reply is the join of `Blocks`, and `last_sources` is replaced wholesale by `Citations` |
| `CourseOutline.MatchingCourses` | backend/search_tools.py:176 | a course is kept exactly when it is in the catalog and its title equals the resolved title |
| `CourseOutline.MatchingCoursesAppend` | backend/search_tools.py:176 | filtering a concatenation is the concatenation of the filtered parts, so the kept courses keep their catalog order and repetitions |
| `CourseOutline.MatchingCoursesSingle` | backend/search_tools.py:176 | one catalog entry is kept exactly when its title equals the resolved title |
| `CourseOutline.Select` | backend/search_tools.py:162-184 | an empty catalog is reported; a truthy filter that does not resolve, or resolves to a title no course has, is reported as no match under the name given; a falsy filter shows the whole catalog; whatever is shown is non-empty; with a filter it is exactly `MatchingCourses` of the catalog for the resolved title, so every matching course is shown, in catalog order |
| `CourseOutline.ErrorReplies` | backend/search_tools.py:165-179 | the exact texts `No courses found in the system.` and `No course found matching '<name>'.` (for a filter that does not resolve and for one that resolves to a title no course has), and no error path touches `last_sources` |
| `CourseOutline.LessonCitationsEmptyIff` | backend/search_tools.py:205-220 | the per-lesson citations of a course are empty exactly when `any(lesson_link)` is false |
| `CourseOutline.LessonCitationsLinked` | backend/search_tools.py:212-217 | every lesson citation carries a truthy link and a title other than the bare course title |
| `CourseOutline.CourseLevelCitation` | backend/search_tools.py:212-224 | a course gets exactly one course-level citation when none of its lessons is linked and its course link is truthy, and none otherwise; its other citations are its linked lessons |
| `CourseOutline.LessonLinesAppend` | backend/search_tools.py:205-210 | the listing of a concatenation of lessons is the concatenation of their listings (catalog order, no sorting) |
| `CourseOutline.LessonLineAt` | backend/search_tools.py:205-210 | lesson k's line sits between the lines of the lessons before and after it |
| `CourseOutline.OutlineSourcesAppend` | backend/search_tools.py:191-229 | the citations of a concatenation of course lists are the citations of the first list followed by those of the second |
| `CourseOutline.FormatHeader` | backend/search_tools.py:197-204 | the header lines written for a course are `CourseHead`: title, instructor, the course link when truthy, and the `Lessons (<n> total):` line |
| `CourseOutline.FormatLessons` | backend/search_tools.py:205-217 | the lesson loop appends each lesson's line to the outline and a citation for each linked lesson to the sources |
| `CourseOutline.FormatCourse` | backend/search_tools.py:191-226 | one course iteration yields its outline block and appends its lesson citations and then its fallback citation |
| `CourseOutline.CourseOutlineTool.constructor` | backend/search_tools.py:130-132 | a new tool keeps the store and has no citations |
| `CourseOutline.CourseOutlineTool.Execute` | backend/search_tools.py:151-184 | the reply is the reply for `Select`'s decision, and `last_sources` changes only when courses are shown |
| `CourseOutline.CourseOutlineTool.FormatOutline` | backend/search_tools.py:186-231 | the reply is the blank-line join of the course blocks, and `last_sources` is replaced by all citations, course after course |
| `Text.Join` | backend/search_tools.py:124 | `"\n\n".join(parts)`: empty for no parts, one separator between each pair of neighbours and every character of the parts, starting with the first part and then a separator |
| `Text.IntToStringRoundTrip` | backend/search_tools.py:98-106 | the decimal text written for a lesson number reads back as that number, so different lessons get different headers |
| `ToolRegistry.Definition` | backend/search_tools.py:9-12 | `get_tool_definition()`: the core tools always have a truthy name and require only parameters they declare; a custom tool's definition is its own |
| `ToolRegistry.SearchDefinitionShape` | backend/search_tools.py:27-50 | the search definition is named `search_course_content`, declares `query`, `course_name`, `lesson_number`, and requires only `query` |
| `ToolRegistry.OutlineDefinitionShape` | backend/search_tools.py:134-149 | the outline definition is named `get_course_outline`, declares `course_name` and requires nothing; its name differs from the search tool's |
| `ToolRegistry.TracksSources` | backend/search_tools.py:264 | `hasattr(tool, 'last_sources')` holds exactly for the tools that own state |
| `ToolRegistry.SourcesOf` | backend/search_tools.py:264-265 | the `last_sources` read is the tool's own field; a tool without the attribute gives no citations |
| `ToolRegistry.InsertKey` | backend/search_tools.py:246 | dict key order after `tools[name] = tool`: a new name goes last, a present one keeps its place, and no name appears twice |
| `ToolRegistry.DefinitionsOf` | backend/search_tools.py:251 | one definition per key, in key order |
| `ToolRegistry.RegisterNewAppends` | backend/search_tools.py:240-251 | registering under a new name appends that tool's definition to the list |
| `ToolRegistry.ReregisterKeepsPosition` | backend/search_tools.py:240-251 | registering under a present name replaces that definition in place; every other definition and the order are kept |
| `ToolRegistry.ToolManager.constructor` | backend/search_tools.py:237-238 | a new manager has no tools |
| `ToolRegistry.ToolManager.RegisterTool` | backend/search_tools.py:240-246 | a falsy or missing name raises `ValueError` with the source's message and changes nothing; otherwise the tool is stored under its name with the dict's ordering rule |
| `ToolRegistry.ToolManager.ToolDefinitions` | backend/search_tools.py:249-251 | one definition per registered tool, in registration order, each naming the name it is registered under, no name twice |
| `ToolRegistry.ToolManager.ExecuteTool` | backend/search_tools.py:253-258 | an unknown name gives `Tool '<name>' not found` and may modify nothing; otherwise the result is that tool's `execute` on the keywords, `TypeError` when the keywords do not bind to its signature (search: `query` missing or an unknown keyword; outline: `query`, `lesson_number` or an unknown keyword given); only the called tool's state may change |
| `ToolRegistry.ToolManager.GetLastSources` | backend/search_tools.py:260-266 | the result is empty exactly when every tool's citations are; otherwise it is the citations of the first tool, in registration order, that has any; nothing is modified |
| `ToolRegistry.ToolManager.ResetSources` | backend/search_tools.py:268-272 | afterwards every registered tool's citations are empty |

## Left out

- The vector store (`search`, `_resolve_course_name`, `get_lesson_link`,
  `get_all_courses_metadata`) is not part of this model. Its calls are
  uninterpreted functions and a fixed catalog in `Store`. Exceptions those
  calls could raise are not modelled. `SearchResults.is_empty()` is taken
  to mean that no documents came back. The search distances are dropped;
  formatting never reads them.
- Of the tool definitions' JSON schema, only the name, the parameter names
  and the required list are kept. Descriptions and types are constant text.
- `Tool`, the abstract base class, is the `ToolRef` datatype. It holds one
  of the two tools of the core or a `CustomTool` known only by its
  definition and its `execute`. A custom tool is assumed to have no
  `last_sources`. Custom tools make the falsy-name error reachable, since
  both core tools have constant names.
- `ToolRegistry.ToolManager.ExecuteTool`: the `TypeError` for keywords that
  do not fit is modelled as an outcome without a message. Keywords beyond
  the three known ones are kept by name only, not by value. A present but
  `None` keyword cannot be told apart from an absent one.
- Dictionary values are assumed to have the types the code expects:
  strings for titles and links, integers for lesson numbers. A metadata key
  that is present but holds `None` is treated like a missing key.
- `get_last_sources` returns the tool's own list object. The model returns
  a value, so aliasing between the returned list and the tool's field is
  not modelled.
- `str()` is modelled for integers only: lesson numbers and the lesson
  count.
- The rest of the repository is not part of this model: the language-model
  loop in `ai_generator.py`, the orchestration in `rag_system.py`, session
  history, the HTTP API and the live-system diagnostics.
