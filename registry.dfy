/** The tool registry that `loadToolsFromDirectory` builds: every `.js` module of
    the tools directory is loaded; its `tool_config` export, when truthy, is
    appended to `tool_configs`, and each of its function-valued exports is written
    into `function_map` under its export name, so that a later module overrides an
    earlier one. The directory listing and `require` are given as a sequence of
    loaded modules, in listing order. */
module Registry {
  import opened Wrappers
  import opened JsValues

  /** The value of one export of a module: a function, or any other value. */
  datatype Export = Callable(handler: Handler) | Plain(value: Json)

  /** One directory entry: its file name and, for a module, what it exports
      (the own enumerable keys of `module.exports` and their values). */
  datatype Source = Source(fileName: string, exports: map<string, Export>)

  const ConfigKey := "tool_config"

  /** `file.endsWith('.js')`. */
  predicate IsJsFile(name: string)
  {
    |name| >= 3 && name[|name| - 3..] == ".js"
  }

  /** `if (value)`: a function is always truthy. */
  predicate IsTruthy(e: Export)
  {
    match e
    case Callable(_) => true
    case Plain(v) => Truthy(v)
  }

  /** The `tool_config` a source contributes: none unless it is a `.js` module
      with a truthy `tool_config` export. */
  function ConfigOf(source: Source): seq<Export>
  {
    if IsJsFile(source.fileName) && ConfigKey in source.exports && IsTruthy(source.exports[ConfigKey])
    then [source.exports[ConfigKey]]
    else []
  }

  /** The function-valued exports of a source, by name; none unless it is a `.js` module. */
  function FunctionsOf(source: Source): map<string, Handler>
  {
    if IsJsFile(source.fileName)
    then map k | k in source.exports && source.exports[k].Callable? :: source.exports[k].handler
    else map[]
  }

  /** `tool_configs` after the sources have been loaded in order. */
  function Configs(sources: seq<Source>): seq<Export>
  {
    if sources == [] then []
    else Configs(sources[..|sources| - 1]) + ConfigOf(sources[|sources| - 1])
  }

  /** `function_map` after the sources have been loaded in order; on a shared
      name the later source's entry replaces the earlier one. */
  function FunctionMap(sources: seq<Source>): map<string, Handler>
  {
    if sources == [] then map[]
    else FunctionMap(sources[..|sources| - 1]) + FunctionsOf(sources[|sources| - 1])
  }

  /** The function-valued exports of a module among the given names. */
  ghost function FunctionsAmong(tool: map<string, Export>, keys: set<string>): map<string, Handler>
  {
    map k | k in keys && k in tool && tool[k].Callable? :: tool[k].handler
  }

  lemma AddKey(tool: map<string, Export>, keys: set<string>, f: string)
    requires f in tool
    ensures FunctionsAmong(tool, keys + {f})
         == if tool[f].Callable? then FunctionsAmong(tool, keys)[f := tool[f].handler] else FunctionsAmong(tool, keys)
  {
  }

  lemma AllKeys(source: Source)
    requires IsJsFile(source.fileName)
    ensures FunctionsAmong(source.exports, source.exports.Keys) == FunctionsOf(source)
  {
  }

  lemma UpdateUnion(m: map<string, Handler>, x: map<string, Handler>, f: string, h: Handler)
    ensures (m + x)[f := h] == m + x[f := h]
  {
  }

  lemma UnionEmpty(m: map<string, Handler>)
    ensures m + map[] == m
  {
  }

  /** The `tool_data` object. */
  class ToolData {
    var toolConfigs: seq<Export>
    var functionMap: map<string, Handler>

    /** `{ tool_configs: [], function_map: {} }`. */
    constructor ()
      ensures toolConfigs == [] && functionMap == map[]
    {
      toolConfigs := [];
      functionMap := map[];
    }

    /** The body of the `forEach` over the directory listing, for one entry. */
    method AddSource(source: Source)
      modifies this
      ensures toolConfigs == old(toolConfigs) + ConfigOf(source)
      ensures functionMap == old(functionMap) + FunctionsOf(source)
    {
      if IsJsFile(source.fileName) {
        var tool := source.exports;
        if ConfigKey in tool && IsTruthy(tool[ConfigKey]) {
          toolConfigs := toolConfigs + [tool[ConfigKey]];
        }
        var pending := tool.Keys;
        ghost var done: set<string> := {};
        while pending != {}
          invariant pending + done == tool.Keys && pending !! done
          invariant toolConfigs == old(toolConfigs) + ConfigOf(source)
          invariant functionMap == old(functionMap) + FunctionsAmong(tool, done)
          decreases |pending|
        {
          var funcName :| funcName in pending;
          AddKey(tool, done, funcName);
          if tool[funcName].Callable? {
            UpdateUnion(old(functionMap), FunctionsAmong(tool, done), funcName, tool[funcName].handler);
            functionMap := functionMap[funcName := tool[funcName].handler];
          }
          pending := pending - {funcName};
          done := done + {funcName};
        }
        assert done == tool.Keys;
        AllKeys(source);
      } else {
        assert FunctionsOf(source) == map[];
        UnionEmpty(functionMap);
      }
    }
  }

  /** `loadToolsFromDirectory`: a fresh `tool_data`, filled source by source. */
  method LoadToolsFromDirectory(sources: seq<Source>) returns (toolData: ToolData)
    ensures fresh(toolData)
    ensures toolData.toolConfigs == Configs(sources)
    ensures toolData.functionMap == FunctionMap(sources)
  {
    toolData := new ToolData();
    for i := 0 to |sources|
      invariant toolData.toolConfigs == Configs(sources[..i])
      invariant toolData.functionMap == FunctionMap(sources[..i])
    {
      toolData.AddSource(sources[i]);
      assert sources[..i + 1][..i] == sources[..i];
    }
    assert sources[..|sources|] == sources;
  }

  /** `tool_data.function_map && tool_data.function_map[name]`: the handler
      registered under the name, looked up among the map's own entries only
      (README, Findings, on the inherited members the source also finds). */
  function Resolve(functionMap: Option<map<string, Handler>>, name: string): Option<Handler>
  {
    if functionMap.Some? && name in functionMap.value then Some(functionMap.value[name]) else None
  }

  /** The names every object literal inherits from `Object.prototype`. */
  const ObjectPrototypeMembers: set<string> := {
    "constructor", "hasOwnProperty", "isPrototypeOf", "propertyIsEnumerable",
    "toLocaleString", "toString", "valueOf", "__proto__",
    "__defineGetter__", "__defineSetter__", "__lookupGetter__", "__lookupSetter__"
  }

  /** What `tool_data.function_map[name]` finds on a JavaScript object: an own
      entry, else a member inherited from `Object.prototype` (all of them truthy). */
  datatype Lookup = Own(handler: Handler) | Inherited(member: string) | Absent

  /** The lookup as the source writes it, property access included. */
  function ResolveAsWritten(functionMap: Option<map<string, Handler>>, name: string): (r: Lookup)
    ensures r.Own? ==> Resolve(functionMap, name) == Some(r.handler)
    ensures r.Inherited? ==> Resolve(functionMap, name).None? && r.member == name
  {
    if functionMap.None? then Absent
    else if name in functionMap.value then Own(functionMap.value[name])
    else if name in ObjectPrototypeMembers then Inherited(name)
    else Absent
  }

  /** The properties a read on the `function_map` object finds: its own entries
      and, for every other name `Object.prototype` supplies, the inherited member,
      whose call behaves as `prototype` says. Looking a name up in this view is
      the lookup as written. */
  function ObjectView(functionMap: Option<map<string, Handler>>, prototype: string -> Handler): Option<map<string, Handler>>
  {
    if functionMap.None? then None
    else Some((map member | member in ObjectPrototypeMembers :: prototype(member)) + functionMap.value)
  }

  /** A source registers the name as a function. */
  ghost predicate Defines(source: Source, name: string)
  {
    IsJsFile(source.fileName) && name in source.exports && source.exports[name].Callable?
  }

  /** A source contributes a configuration. */
  ghost predicate HasConfig(source: Source)
  {
    IsJsFile(source.fileName) && ConfigKey in source.exports && IsTruthy(source.exports[ConfigKey])
  }
}
