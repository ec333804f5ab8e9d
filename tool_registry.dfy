/** `ToolManager`: the registry the AI generator calls tools through. It
    keeps the tools by the name in their definition, in registration order
    (a Python dict), dispatches calls by name and collects the citations the
    tools remember. */
module ToolRegistry {
  import opened Records
  import opened CourseSearch
  import opened CourseOutline

  /** A registered tool. The two tools of the core are objects with state;
      any other `Tool` subclass is seen only through its definition and its
      `execute`, and keeps no `last_sources`. */
  datatype ToolRef =
    | SearchTool(search: CourseSearchTool)
    | OutlineTool(outline: CourseOutlineTool)
    | CustomTool(definition: ToolDefinition, run: Args -> Outcome<string>)

  /** `tool.get_tool_definition()`. Both core tools always have a name to be
      registered under, and require only parameters they declare. */
  function Definition(t: ToolRef): (r: ToolDefinition)
    ensures !t.CustomTool? ==> Truthy(r.name)
    ensures !t.CustomTool? ==> forall p :: p in r.required ==> p in r.properties
    ensures t.CustomTool? ==> r == t.definition
  {
    match t
    case SearchTool(_) => SearchDefinition
    case OutlineTool(_) => OutlineDefinition
    case CustomTool(d, _) => d
  }

  /** The objects whose state a tool call may change. */
  function ObjectsOf(t: ToolRef): set<object> {
    match t
    case SearchTool(s) => {s}
    case OutlineTool(o) => {o}
    case CustomTool(_, _) => {}
  }

  /** Whether the keywords bind to `execute(query, course_name=None,
      lesson_number=None)`: `query` is given and nothing else is. */
  predicate SearchAccepts(args: Args) {
    args.query.Some? && args.others == {}
  }

  /** Whether the keywords bind to `execute(course_name=None)`: nothing but
      `course_name` is given. */
  predicate OutlineAccepts(args: Args) {
    args.query.None? && args.lessonNumber.None? && args.others == {}
  }

  /** `hasattr(tool, 'last_sources')`: exactly the tools that own state. */
  function TracksSources(t: ToolRef): (r: bool)
    ensures r <==> ObjectsOf(t) != {}
  {
    !t.CustomTool?
  }

  /** The tool's `last_sources`, read from the tool's own object; a tool
      without the attribute contributes none. */
  function SourcesOf(t: ToolRef): (r: seq<Source>)
    reads ObjectsOf(t)
    ensures !TracksSources(t) ==> r == []
    ensures t.SearchTool? ==> r == t.search.lastSources
    ensures t.OutlineTool? ==> r == t.outline.lastSources
  {
    match t
    case SearchTool(s) => s.lastSources
    case OutlineTool(o) => o.lastSources
    case CustomTool(_, _) => []
  }

  predicate Distinct<T(==)>(s: seq<T>) {
    forall i, j :: 0 <= i < j < |s| ==> s[i] != s[j]
  }

  /** The search tool's definition: named `search_course_content`, with the
      parameters `query`, `course_name` and `lesson_number`, of which only
      `query` is required. */
  lemma SearchDefinitionShape(s: CourseSearchTool)
    ensures Definition(SearchTool(s)).name == Some("search_course_content")
    ensures Definition(SearchTool(s)).properties == ["query", "course_name", "lesson_number"]
    ensures Definition(SearchTool(s)).required == ["query"]
  {
  }

  /** The outline tool's definition: named `get_course_outline`, with the one
      optional parameter `course_name`. Its name differs from the search
      tool's, so the two can be registered side by side. */
  lemma OutlineDefinitionShape(o: CourseOutlineTool, s: CourseSearchTool)
    ensures Definition(OutlineTool(o)).name == Some("get_course_outline")
    ensures Definition(OutlineTool(o)).properties == ["course_name"]
    ensures Definition(OutlineTool(o)).required == []
    ensures Definition(OutlineTool(o)).name != Definition(SearchTool(s)).name
  {
    assert "get_course_outline"[0] != "search_course_content"[0];
  }

  /** The key order of a dict after `d[k] = v`: a new key goes last, a key
      already present keeps its place. */
  function InsertKey(keys: seq<string>, k: string): (r: seq<string>)
    ensures |r| == if k in keys then |keys| else |keys| + 1
    ensures forall x :: x in r <==> x in keys || x == k
    ensures r[..|keys|] == keys
    ensures Distinct(keys) ==> Distinct(r)
  {
    if k in keys then keys else keys + [k]
  }

  /** The definitions of the tools under `keys`, in that order. */
  function DefinitionsOf(keys: seq<string>, tools: map<string, ToolRef>): (r: seq<ToolDefinition>)
    requires forall k :: k in keys ==> k in tools
    ensures |r| == |keys|
    ensures forall i :: 0 <= i < |keys| ==> r[i] == Definition(tools[keys[i]])
  {
    if keys == [] then [] else [Definition(tools[keys[0]])] + DefinitionsOf(keys[1..], tools)
  }

  /** Registering a tool under a new name appends its definition to the list. */
  lemma RegisterNewAppends(keys: seq<string>, tools: map<string, ToolRef>, name: string, tool: ToolRef)
    requires forall k :: k in keys ==> k in tools
    requires name !in keys
    ensures DefinitionsOf(InsertKey(keys, name), tools[name := tool]) ==
            DefinitionsOf(keys, tools) + [Definition(tool)]
  {
    var before := DefinitionsOf(keys, tools);
    var after := DefinitionsOf(InsertKey(keys, name), tools[name := tool]);
    forall i | 0 <= i < |keys|
      ensures after[i] == before[i]
    {
      assert InsertKey(keys, name)[i] == keys[i];
    }
  }

  /** Re-registering a name replaces its definition in place: the other
      definitions and the order stay as they were. */
  lemma ReregisterKeepsPosition(keys: seq<string>, tools: map<string, ToolRef>, name: string, tool: ToolRef, i: nat)
    requires forall k :: k in keys ==> k in tools
    requires Distinct(keys) && i < |keys| && keys[i] == name
    ensures DefinitionsOf(InsertKey(keys, name), tools[name := tool]) ==
            DefinitionsOf(keys, tools)[i := Definition(tool)]
  {
    var before := DefinitionsOf(keys, tools);
    var after := DefinitionsOf(InsertKey(keys, name), tools[name := tool]);
    assert InsertKey(keys, name) == keys;
    forall j | 0 <= j < |keys|
      ensures after[j] == before[i := Definition(tool)][j]
    {
      if j != i {
        assert keys[j] != name;
      }
    }
  }

  const MissingNameMessage := "Tool must have a 'name' in its definition"

  class ToolManager {
    /** The registered names in insertion order (the dict's key order). */
    var names: seq<string>
    /** The registered tools by name. */
    var tools: map<string, ToolRef>

    /** Each tool sits under the name its definition gives, each name once. */
    ghost predicate Valid()
      reads this
    {
      Distinct(names) &&
      (forall n :: n in tools <==> n in names) &&
      (forall n :: n in tools ==> n != "" && Definition(tools[n]).name == Some(n))
    }

    /** Every object a registered tool owns. */
    ghost function Objects(): set<object>
      reads this
    {
      set n, o | n in tools && o in ObjectsOf(tools[n]) :: o
    }

    constructor ()
      ensures Valid() && names == [] && tools == map[]
    {
      names := [];
      tools := map[];
    }

    /** `register_tool(tool)`: a definition without a truthy name raises
        `ValueError`; otherwise the tool is stored under that name, replacing
        any tool registered under it before. */
    method RegisterTool(tool: ToolRef) returns (out: Outcome<()>)
      requires Valid()
      modifies this
      ensures Valid()
      ensures !Truthy(Definition(tool).name) ==>
                out == Raised(ValueError(MissingNameMessage)) && names == old(names) && tools == old(tools)
      ensures Truthy(Definition(tool).name) ==>
                var n := Definition(tool).name.value;
                out == Returned(()) && tools == old(tools)[n := tool] && names == InsertKey(old(names), n)
    {
      var toolName := Definition(tool).name;
      if !Truthy(toolName) {
        return Raised(ValueError(MissingNameMessage));
      }
      names := InsertKey(names, toolName.value);
      tools := tools[toolName.value := tool];
      return Returned(());
    }

    /** `get_tool_definitions()`: one definition per registered tool, in
        registration order, each carrying the name it is registered under. */
    function ToolDefinitions(): (r: seq<ToolDefinition>)
      reads this
      requires Valid()
      ensures |r| == |names| == |tools|
      ensures forall i :: 0 <= i < |r| ==> r[i] == Definition(tools[names[i]]) && r[i].name == Some(names[i])
      ensures forall i, j :: 0 <= i < j < |r| ==> r[i].name != r[j].name
    {
      NamesCount();
      DefinitionsOf(names, tools)
    }

    /** A registry with distinct names and the same keys has as many tools as names. */
    lemma NamesCount()
      requires Valid()
      ensures |names| == |tools|
    {
      DistinctCard(names, tools.Keys);
    }

    /** `execute_tool(name, **kwargs)`: an unknown name is reported as text
        and changes nothing; otherwise the call goes to that tool's `execute`,
        which raises `TypeError` for keywords its signature does not accept. */
    method ExecuteTool(name: string, args: Args) returns (out: Outcome<string>)
      requires Valid()
      modifies if name in tools then ObjectsOf(tools[name]) else {}
      ensures name !in tools ==> out == Returned("Tool '" + name + "' not found")
      ensures name in tools && tools[name].SearchTool? ==>
                var t := tools[name].search;
                if !SearchAccepts(args) then
                  out == Raised(TypeError) && t.lastSources == old(t.lastSources)
                else
                  var results := t.store.search(args.query.value, args.courseName, args.lessonNumber);
                  out == Returned(SearchText(results, args.courseName, args.lessonNumber)) &&
                  t.lastSources == SearchSources(old(t.lastSources), results, t.store.lessonLink)
      ensures name in tools && tools[name].OutlineTool? ==>
                var t := tools[name].outline;
                if !OutlineAccepts(args) then
                  out == Raised(TypeError) && t.lastSources == old(t.lastSources)
                else
                  var selection := Select(t.store.catalog, args.courseName, t.store.resolveCourseName);
                  out == Returned(OutlineReply(selection)) &&
                  t.lastSources == OutlineSourcesAfter(old(t.lastSources), selection)
      ensures name in tools && tools[name].CustomTool? ==> out == tools[name].run(args)
    {
      if name !in tools {
        return Returned("Tool '" + name + "' not found");
      }
      match tools[name]
      case SearchTool(t) =>
        if args.query.None? || args.others != {} {
          return Raised(TypeError);
        }
        var text := t.Execute(args.query.value, args.courseName, args.lessonNumber);
        out := Returned(text);
      case OutlineTool(t) =>
        if args.query.Some? || args.lessonNumber.Some? || args.others != {} {
          return Raised(TypeError);
        }
        var text := t.Execute(args.courseName);
        out := Returned(text);
      case CustomTool(_, run) =>
        out := run(args);
    }

    /** `get_last_sources()`: the citations of the first tool, in registration
        order, that has non-empty `last_sources`; none when there is no such tool. */
    method GetLastSources() returns (r: seq<Source>)
      requires Valid()
      ensures r == [] <==> forall k :: 0 <= k < |names| ==> SourcesOf(tools[names[k]]) == []
      ensures r != [] ==>
                exists k :: 0 <= k < |names| && r == SourcesOf(tools[names[k]]) &&
                  forall m :: 0 <= m < k ==> SourcesOf(tools[names[m]]) == []
    {
      var i := 0;
      while i < |names|
        invariant 0 <= i <= |names|
        invariant forall m :: 0 <= m < i ==> SourcesOf(tools[names[m]]) == []
      {
        var tool := tools[names[i]];
        if TracksSources(tool) {
          var sources := if tool.SearchTool? then tool.search.lastSources else tool.outline.lastSources;
          if sources != [] {
            assert sources == SourcesOf(tools[names[i]]);
            return sources;
          }
        }
        i := i + 1;
      }
      return [];
    }

    /** `reset_sources()`: every tool that tracks citations forgets them. */
    method ResetSources()
      requires Valid()
      modifies Objects()
      ensures forall n :: n in tools ==> SourcesOf(tools[n]) == []
    {
      var i := 0;
      while i < |names|
        invariant 0 <= i <= |names|
        invariant forall m :: 0 <= m < i ==> SourcesOf(tools[names[m]]) == []
      {
        var tool := tools[names[i]];
        match tool {
          case SearchTool(t) =>
            assert names[i] in tools && t in ObjectsOf(tools[names[i]]);
            assert t in Objects();
            OnlySearchName(names[i]);
            t.lastSources := [];
          case OutlineTool(t) =>
            assert names[i] in tools && t in ObjectsOf(tools[names[i]]);
            assert t in Objects();
            OnlyOutlineName(names[i]);
            t.lastSources := [];
          case CustomTool(_, _) =>
        }
        i := i + 1;
      }
    }

    /** At most one name holds a search tool: the one its definition gives. */
    lemma OnlySearchName(n: string)
      requires Valid() && n in tools && tools[n].SearchTool?
      ensures forall m :: m in tools && tools[m].SearchTool? ==> m == n
    {
    }

    /** At most one name holds an outline tool: the one its definition gives. */
    lemma OnlyOutlineName(n: string)
      requires Valid() && n in tools && tools[n].OutlineTool?
      ensures forall m :: m in tools && tools[m].OutlineTool? ==> m == n
    {
    }
  }

  /** A sequence without repetitions has as many elements as the set of them. */
  lemma {:induction false} DistinctCard(s: seq<string>, keys: set<string>)
    requires Distinct(s)
    requires forall x :: x in keys <==> x in s
    ensures |s| == |keys|
    decreases |s|
  {
    if s != [] {
      var last := s[|s| - 1];
      var front := s[..|s| - 1];
      assert forall x :: x in keys - {last} <==> x in front by {
        forall x
          ensures x in keys - {last} <==> x in front
        {
          if x in front {
            var k :| 0 <= k < |front| && front[k] == x;
            assert s[k] == x;
          }
          if x in s && x != last {
            var k :| 0 <= k < |s| && s[k] == x;
            assert k < |s| - 1;
            assert front[k] == x;
          }
        }
      }
      DistinctCard(front, keys - {last});
    }
  }
}
