/** The data that flows between the vector store, the tools and the tool
    manager. Python dictionaries read with `.get(key, default)` become
    records whose optional fields are `Option`s (`None` is a missing key). */
module Records {

  datatype Option<T> = None | Some(value: T)

  /** Python truthiness of an optional string: present and non-empty. */
  predicate Truthy(s: Option<string>) {
    s.Some? && s.value != ""
  }

  /** Python truthiness of an optional int: present and non-zero. */
  predicate TruthyInt(n: Option<int>) {
    n.Some? && n.value != 0
  }

  /** A citation shown to the user: `{"title": ..., "url": ...}`. */
  datatype Source = Source(title: string, url: Option<string>)

  /** The metadata the store attaches to one search hit. */
  datatype SearchMeta = SearchMeta(courseTitle: Option<string>, lessonNumber: Option<int>)

  /** `SearchResults`: hits (documents with parallel metadata) or an error. */
  datatype SearchResults = SearchResults(
    documents: seq<string>,
    metadata: seq<SearchMeta>,
    error: Option<string>)

  /** `SearchResults.is_empty()`: no documents came back. */
  predicate IsEmpty(r: SearchResults) {
    |r.documents| == 0
  }

  /** One lesson entry of a course's catalog metadata. */
  datatype Lesson = Lesson(number: Option<int>, title: Option<string>, link: Option<string>)

  /** One course entry of the catalog (`get_all_courses_metadata()`). */
  datatype Course = Course(
    title: Option<string>,
    instructor: Option<string>,
    link: Option<string>,
    lessons: seq<Lesson>)

  /** The vector store as the tools see it: four lookups whose internals
      (embeddings, fuzzy matching, the catalog collection) are not modelled. */
  datatype Store = Store(
    search: (string, Option<string>, Option<int>) -> SearchResults,
    lessonLink: (string, int) -> Option<string>,
    resolveCourseName: string -> Option<string>,
    catalog: seq<Course>)

  /** The parts of a tool definition the manager relies on: the `name` key
      (possibly missing) and the parameter names of `input_schema`. */
  datatype ToolDefinition = ToolDefinition(
    name: Option<string>,
    properties: seq<string>,
    required: seq<string>)

  /** The keyword arguments of a tool call; `None` is an absent keyword, and
      `others` holds the names of any keywords besides `query`, `course_name`
      and `lesson_number`. */
  datatype Args = Args(
    query: Option<string>,
    courseName: Option<string>,
    lessonNumber: Option<int>,
    others: set<string>)

  /** The exceptions the tool side raises. */
  datatype Failure =
    | ValueError(message: string)
    | TypeError   // keyword arguments that do not fit the tool's `execute` signature

  /** A Python call that either returns a value or raises. */
  datatype Outcome<T> = Returned(value: T) | Raised(failure: Failure)
}
