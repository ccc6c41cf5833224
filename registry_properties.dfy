/** What the registry fold guarantees: configurations are appended in source
    order, only `.js` modules contribute, only functions are registered, the last
    module that defines a name wins, and a name no module defines is absent. */
module RegistryProperties {
  import opened Wrappers
  import opened JsValues
  import opened Registry

  /** Loading a + b appends b's configurations after a's. */
  lemma {:induction false} ConfigsAppend(a: seq<Source>, b: seq<Source>)
    ensures Configs(a + b) == Configs(a) + Configs(b)
    decreases |b|
  {
    if b == [] {
      assert a + b == a;
    } else {
      var init := b[..|b| - 1];
      assert (a + b)[..|a + b| - 1] == a + init;
      assert (a + b)[|a + b| - 1] == b[|b| - 1];
      ConfigsAppend(a, init);
    }
  }

  /** Loading a + b registers b's functions over a's. */
  lemma {:induction false} FunctionMapAppend(a: seq<Source>, b: seq<Source>)
    ensures FunctionMap(a + b) == FunctionMap(a) + FunctionMap(b)
    decreases |b|
  {
    if b == [] {
      assert a + b == a;
    } else {
      var init := b[..|b| - 1];
      var last := b[|b| - 1];
      assert (a + b)[..|a + b| - 1] == a + init;
      assert (a + b)[|a + b| - 1] == last;
      FunctionMapAppend(a, init);
      UnionAssociative(FunctionMap(a), FunctionMap(init), FunctionsOf(last));
    }
  }

  lemma UnionAssociative(m1: map<string, Handler>, m2: map<string, Handler>, m3: map<string, Handler>)
    ensures (m1 + m2) + m3 == m1 + (m2 + m3)
  {
  }


  /** The configurations are those of the sources, in source order: everything
      before source i, then source i's own, then everything after it. */
  lemma ConfigsInOrder(sources: seq<Source>, i: nat)
    requires i < |sources|
    ensures Configs(sources) == Configs(sources[..i]) + ConfigOf(sources[i]) + Configs(sources[i + 1..])
  {
    var before, one, after := sources[..i], [sources[i]], sources[i + 1..];
    SplitAround(sources, i);
    ConfigsAppend(before, one + after);
    ConfigsAppend(one, after);
    ConfigsOfOne(sources[i]);
    AppendAssociative(Configs(before), ConfigOf(sources[i]), Configs(after));
  }

  lemma SplitAround<T>(s: seq<T>, i: nat)
    requires i < |s|
    ensures s == s[..i] + ([s[i]] + s[i + 1..])
  {
  }

  lemma AppendAssociative<T>(a: seq<T>, b: seq<T>, c: seq<T>)
    ensures a + (b + c) == (a + b) + c
  {
  }

  lemma ConfigsOfOne(source: Source)
    ensures Configs([source]) == ConfigOf(source)
  {
    assert [source][..0] == [];
  }

  /** A configuration is listed exactly when some `.js` module exports it as a
      truthy `tool_config`. */
  lemma ConfigsMembers(sources: seq<Source>, e: Export)
    ensures e in Configs(sources) <==>
      exists i :: 0 <= i < |sources| && HasConfig(sources[i]) && sources[i].exports[ConfigKey] == e
  {
    if e in Configs(sources) {
      ListedHasSource(sources, e);
    }
    if exists i :: 0 <= i < |sources| && HasConfig(sources[i]) && sources[i].exports[ConfigKey] == e {
      var i :| 0 <= i < |sources| && HasConfig(sources[i]) && sources[i].exports[ConfigKey] == e;
      SourceIsListed(sources, i);
    }
  }

  /** Every listed configuration comes from some module. */
  lemma {:induction false} ListedHasSource(sources: seq<Source>, e: Export)
    requires e in Configs(sources)
    ensures exists i :: 0 <= i < |sources| && HasConfig(sources[i]) && sources[i].exports[ConfigKey] == e
    decreases |sources|
  {
    var n := |sources| - 1;
    var init := sources[..n];
    if e in Configs(init) {
      ListedHasSource(init, e);
      var i :| 0 <= i < |init| && HasConfig(init[i]) && init[i].exports[ConfigKey] == e;
      assert sources[i] == init[i];
    } else {
      assert e in ConfigOf(sources[n]);
      assert HasConfig(sources[n]) && sources[n].exports[ConfigKey] == e;
    }
  }

  /** Every module's truthy `tool_config` is listed. */
  lemma SourceIsListed(sources: seq<Source>, i: nat)
    requires i < |sources| && HasConfig(sources[i])
    ensures sources[i].exports[ConfigKey] in Configs(sources)
  {
    ConfigsInOrder(sources, i);
    assert ConfigOf(sources[i]) == [sources[i].exports[ConfigKey]];
  }

  /** A file whose name does not end in `.js` changes nothing. */
  lemma IgnoresNonJs(before: seq<Source>, source: Source, after: seq<Source>)
    requires !IsJsFile(source.fileName)
    ensures Configs(before + [source] + after) == Configs(before + after)
    ensures FunctionMap(before + [source] + after) == FunctionMap(before + after)
  {
    assert (before + [source])[..|before + [source]| - 1] == before;
    assert Configs(before + [source]) == Configs(before);
    ConfigsAppend(before + [source], after);
    ConfigsAppend(before, after);
    assert FunctionMap(before + [source]) == FunctionMap(before) by {
      assert FunctionsOf(source) == map[];
      UnionEmpty(FunctionMap(before));
    }
    FunctionMapAppend(before + [source], after);
    FunctionMapAppend(before, after);
  }

  /** A name is registered exactly when some `.js` module exports a function
      under it: other exports are never registered, and a name no module
      exports has no entry. */
  lemma {:induction false} FunctionMapKeys(sources: seq<Source>, name: string)
    ensures name in FunctionMap(sources) <==> exists i :: 0 <= i < |sources| && Defines(sources[i], name)
    decreases |sources|
  {
    if sources != [] {
      var init := sources[..|sources| - 1];
      var n := |sources| - 1;
      FunctionMapKeys(init, name);
      if name in FunctionMap(sources) {
        if name in FunctionMap(init) {
          var i :| 0 <= i < |init| && Defines(init[i], name);
          assert sources[i] == init[i];
        } else {
          assert Defines(sources[n], name);
        }
      } else {
        forall i | 0 <= i < |sources|
          ensures !Defines(sources[i], name)
        {
          if i < n {
            assert sources[i] == init[i];
          }
        }
      }
    }
  }

  /** On a shared name the handler of the last module that defines it is the one registered. */
  lemma {:induction false} LastDefinitionWins(sources: seq<Source>, i: nat, name: string)
    requires i < |sources| && Defines(sources[i], name)
    requires forall j :: i < j < |sources| ==> !Defines(sources[j], name)
    ensures name in FunctionMap(sources)
    ensures FunctionMap(sources)[name] == sources[i].exports[name].handler
    decreases |sources|
  {
    var init := sources[..|sources| - 1];
    var n := |sources| - 1;
    if i < n {
      forall j | i < j < |init|
        ensures !Defines(init[j], name)
      {
        assert init[j] == sources[j];
      }
      assert init[i] == sources[i];
      LastDefinitionWins(init, i, name);
      assert !Defines(sources[n], name);
    }
  }

  /** The poller's lookup in a loaded registry: no handler for a name no module
      defines, and otherwise the last definition's handler. */
  lemma ResolveInRegistry(sources: seq<Source>, name: string)
    ensures Resolve(Some(FunctionMap(sources)), name).None? <==>
      forall i :: 0 <= i < |sources| ==> !Defines(sources[i], name)
    ensures forall i :: (0 <= i < |sources| && Defines(sources[i], name) &&
        (forall j :: i < j < |sources| ==> !Defines(sources[j], name))) ==>
      Resolve(Some(FunctionMap(sources)), name) == Some(sources[i].exports[name].handler)
  {
    FunctionMapKeys(sources, name);
    forall i | 0 <= i < |sources| && Defines(sources[i], name) &&
        (forall j :: i < j < |sources| ==> !Defines(sources[j], name))
      ensures Resolve(Some(FunctionMap(sources)), name) == Some(sources[i].exports[name].handler)
    {
      LastDefinitionWins(sources, i, name);
    }
  }

  /** As written, the poller's lookup also finds what every object inherits: a
      tool call named "constructor" against an empty registry reaches
      `Object`, where the registry itself has no entry. */
  lemma InheritedNameResolves()
    ensures ResolveAsWritten(Some(map[]), "constructor") == Inherited("constructor")
    ensures Resolve(Some(map[]), "constructor") == None
  {
  }

  /** Away from the inherited names the lookup as written and the own-entry
      lookup agree: the same handler, or nothing for both. */
  lemma ResolveAgreesOffPrototype(functionMap: Option<map<string, Handler>>, name: string)
    requires name !in ObjectPrototypeMembers
    ensures ResolveAsWritten(functionMap, name).Own? <==> Resolve(functionMap, name).Some?
    ensures ResolveAsWritten(functionMap, name).Own? ==>
      Resolve(functionMap, name) == Some(ResolveAsWritten(functionMap, name).handler)
    ensures !ResolveAsWritten(functionMap, name).Inherited?
  {
  }

  /** The own-entry lookup in the object view is the lookup as written: an own
      entry gives its handler, an inherited member its prototype behaviour, and
      anything else nothing. */
  lemma ObjectViewResolves(functionMap: Option<map<string, Handler>>, prototype: string -> Handler, name: string)
    ensures Resolve(ObjectView(functionMap, prototype), name)
         == match ResolveAsWritten(functionMap, name)
            case Own(handler) => Some(handler)
            case Inherited(member) => Some(prototype(member))
            case Absent => None
  {
  }

  /** Away from the inherited names the object view resolves as the registry does. */
  lemma ObjectViewOffPrototype(functionMap: Option<map<string, Handler>>, prototype: string -> Handler, name: string)
    requires name !in ObjectPrototypeMembers
    ensures Resolve(ObjectView(functionMap, prototype), name) == Resolve(functionMap, name)
  {
    ObjectViewResolves(functionMap, prototype, name);
    ResolveAgreesOffPrototype(functionMap, name);
  }
}
