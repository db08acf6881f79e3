/**
 * The plugin managers (src/PluginManager.js and src/DefaultPluginManager.js):
 * a manager turns the parser's units whose class carries the schema's tag
 * into definitions, once, extends them when new units are announced, and
 * creates plugin instances from definitions, through a factory when one is
 * set and otherwise through an opaque loader, caching the instances of
 * classes marked `plugin_persist`.
 */
module Managers {
  import opened Js
  import opened Arrays
  import opened Annotations
  import opened Parser
  import opened Definitions

  /** What a factory, a creator or a constructor hands back: an object
      instance, or a falsy value such as null. */
  datatype Plugin = Falsy | Instance(token: nat)

  /** How the loaded module is turned into an instance: through its static
      creator method of that name, or with `new`. */
  datatype Route = ViaCreator(name: string) | ViaConstructor

  /** One `plugins.<tag>` notification and the batch it carries. */
  datatype Emission = Emission(event: string, definitions: seq<Def>)

  /** The argument of `get`: an id string, or a definition (`None` for
      undefined). */
  datatype Ref = ById(id: string) | ByDefinition(definition: Option<Def>)

  /** The factory: called with the definition and the resolved arguments. */
  type Factory = (Def, seq<Plugin>) -> Plugin

  /** `parser.getPlugin`, which resolves an `args` payload to an instance. */
  type Resolver = JValue -> Plugin

  /** The module loader plus the creator or constructor call. */
  type Loader = (Def, seq<Plugin>, Route) -> Plugin

  /** The outcome of `loadDefinitions(units)` from the given state: whether
      it finished without throwing, the definitions list afterwards, and the
      notifications sent. Every unit built before a throw has already been
      appended; a list that was never materialised (null) throws at the
      first append. */
  function Loaded(defs: Option<seq<Def>>, emitted: seq<Emission>, schema: Schema, units: seq<SourceUnit>)
    : (seq<Def>, bool, Option<seq<Def>>, seq<Emission>)
  {
    if defs.None? then ([], units == [], defs, emitted)
    else
      var (ds, built) := BuildAll(schema, units);
      (ds, built, Some(defs.value + ds),
       emitted + if built && ds != [] then [Emission("plugins." + schema.annotation, ds)] else [])
  }

  /** `loadDefinitions` appends one definition per unit, in unit order,
      behind the earlier ones, each for its unit and the schema's tag; it
      notifies exactly when the whole batch was built and is not empty. */
  lemma LoadedAppends(defs: seq<Def>, emitted: seq<Emission>, schema: Schema, units: seq<SourceUnit>)
    ensures var (ds, built, after, sent) := Loaded(Some(defs), emitted, schema, units);
            && after.Some? && |after.value| == |defs| + |ds| && after.value[..|defs|] == defs
            && (built ==> |ds| == |units|)
            && (forall i :: 0 <= i < |ds| ==>
                  after.value[|defs| + i].plugin == units[i] && after.value[|defs| + i].annotation == schema.annotation)
            && sent[..|emitted|] == emitted
            && (|sent| > |emitted| <==> built && units != [])
            && (built && units != [] ==> sent == emitted + [Emission("plugins." + schema.annotation, ds)])
            && (!(built && units != []) ==> sent == emitted)
  {
    var (ds, built) := BuildAll(schema, units);
    var after := defs + ds;
    assert after[..|defs|] == defs;
    forall i | 0 <= i < |ds|
      ensures after[|defs| + i].plugin == units[i] && after[|defs| + i].annotation == schema.annotation
    {
      assert after[|defs| + i] == ds[i];
    }
  }

  /** The outcome of `getDefinitions()` from the given state: the list it
      returns (or its throw), the definitions list afterwards and the
      notifications sent. The list is materialised as empty before the
      parser is asked for the tagged units. */
  function Materialise(defs: Option<seq<Def>>, emitted: seq<Emission>, schema: Schema, registry: seq<SourceUnit>)
    : (Res<seq<Def>>, Option<seq<Def>>, seq<Emission>)
  {
    if defs.Some? then (Ok(defs.value), defs, emitted)
    else
      match WithClassTag(registry, schema.annotation)
      case TypeError => (TypeError, Some([]), emitted)
      case Ok(units) =>
        var (_, built, after, sent) := Loaded(Some([]), emitted, schema, units);
        (if built then Ok(after.value) else TypeError, after, sent)
  }

  /** `getDefinitions` computes the list only once: from the state it
      leaves behind, a further call returns the same list and changes
      nothing, whatever the registry holds by then. A first call that
      succeeds returns one definition per unit carrying the tag, in
      registry order. */
  lemma MaterialiseOnce(defs: Option<seq<Def>>, emitted: seq<Emission>, schema: Schema,
                        registry: seq<SourceUnit>, later: seq<SourceUnit>)
    ensures var (r, after, sent) := Materialise(defs, emitted, schema, registry);
            && after.Some?
            && (r.Ok? ==> r.value == after.value)
            && Materialise(after, sent, schema, later) == (Ok(after.value), after, sent)
    ensures defs.None? && Materialise(defs, emitted, schema, registry).0.Ok? ==>
              && WithClassTag(registry, schema.annotation).Ok?
              && |Materialise(defs, emitted, schema, registry).0.value| == |WithClassTag(registry, schema.annotation).value|
              && forall i :: 0 <= i < |WithClassTag(registry, schema.annotation).value| ==>
                   Materialise(defs, emitted, schema, registry).0.value[i].plugin == WithClassTag(registry, schema.annotation).value[i]
  {
    if defs.None? {
      match WithClassTag(registry, schema.annotation)
      case TypeError =>
      case Ok(units) =>
        LoadedAppends([], emitted, schema, units);
    }
  }

  /** The outcome of a `plugins` notification announcing `load`: nothing
      happens until the definitions are materialised; then the announced
      units whose class carries the tag are loaded. */
  function Notified(defs: Option<seq<Def>>, emitted: seq<Emission>, schema: Schema, load: seq<SourceUnit>)
    : (bool, Option<seq<Def>>, seq<Emission>)
  {
    if defs.None? then (true, defs, emitted)
    else
      match WithClassTag(load, schema.annotation)
      case TypeError => (false, defs, emitted)
      case Ok(units) =>
        var (_, built, after, sent) := Loaded(defs, emitted, schema, units);
        (built, after, sent)
  }

  /** A notification before materialisation changes nothing; afterwards it
      keeps the earlier entries, in place, and adds only definitions of
      announced units that carry the tag; when every such unit is built,
      each of them gets its definition, in announcement order. */
  lemma NotifiedExtends(defs: Option<seq<Def>>, emitted: seq<Emission>, schema: Schema, load: seq<SourceUnit>)
    ensures defs.None? ==> Notified(defs, emitted, schema, load) == (true, defs, emitted)
    ensures defs.Some? ==>
              var after := Notified(defs, emitted, schema, load).1;
              && after.Some? && |after.value| >= |defs.value| && after.value[..|defs.value|] == defs.value
              && forall i :: |defs.value| <= i < |after.value| ==> AnnouncedWithTag(after.value[i], load, schema.annotation)
    ensures defs.Some? && WithClassTag(load, schema.annotation).Ok? && Notified(defs, emitted, schema, load).0 ==>
              var units := WithClassTag(load, schema.annotation).value;
              var after := Notified(defs, emitted, schema, load).1.value;
              && |after| == |defs.value| + |units|
              && forall i :: 0 <= i < |units| ==> after[|defs.value| + i].plugin == units[i]
  {
    if defs.Some? {
      match WithClassTag(load, schema.annotation)
      case TypeError =>
      case Ok(units) =>
        NotifiedUnits(defs.value, emitted, schema, load, units);
    }
  }

  /** The unit behind `d` is one of `load` and its class carries `tag`. */
  predicate AnnouncedWithTag(d: Def, load: seq<SourceUnit>, tag: string) {
    d.plugin in load && CarriesClassTag(d.plugin, tag)
  }

  lemma NotifiedUnits(defs: seq<Def>, emitted: seq<Emission>, schema: Schema, load: seq<SourceUnit>, units: seq<SourceUnit>)
    requires WithClassTag(load, schema.annotation) == Ok(units)
    ensures var after := Loaded(Some(defs), emitted, schema, units).2;
            && after.Some? && |after.value| >= |defs| && after.value[..|defs|] == defs
            && forall i :: |defs| <= i < |after.value| ==> AnnouncedWithTag(after.value[i], load, schema.annotation)
    ensures var (_, built, after, _) := Loaded(Some(defs), emitted, schema, units);
            built ==> && |after.value| == |defs| + |units|
                      && forall i :: 0 <= i < |units| ==> after.value[|defs| + i].plugin == units[i]
  {
    var (ds, built) := BuildAll(schema, units);
    LoadedAppends(defs, emitted, schema, units);
    forall i | |defs| <= i < |defs| + |ds|
      ensures AnnouncedWithTag((defs + ds)[i], load, schema.annotation)
    {
      assert (defs + ds)[i].plugin == units[i - |defs|];
    }
  }

  /** The instances resolved from the class's `args` occurrences, in order. */
  function ArgPlugins(u: SourceUnit, resolve: Resolver): Res<seq<Plugin>> {
    match ClassAnnotations(u, "args")
    case TypeError => TypeError
    case Ok(ts) => Ok(seq(|ts|, i requires 0 <= i < |ts| => resolve(ts[i].value)))
  }

  /** The creator route: the first static method tagged `plugin_creator`,
      otherwise the constructor. */
  function CreatorRoute(u: SourceUnit): Res<Route> {
    match MethodsByAnnotation(u, "plugin_creator", ["static"])
    case TypeError => TypeError
    case Ok(cs) => Ok(if cs != [] then ViaCreator(cs[0].name) else ViaConstructor)
  }

  /** Whether the class carries `plugin_persist`. */
  function Persists(u: SourceUnit): Res<bool> {
    match ClassAnnotation(u, "plugin_persist", 0)
    case TypeError => TypeError
    case Ok(t) => Ok(t.Some?)
  }

  /** The outcome of `create(definition)` from the given cache: the
      instance (or the throw) and the cache afterwards. */
  function Created(cache: map<string, Plugin>, factory: Option<Factory>, def: Option<Def>,
                   resolve: Resolver, load: Loader): (Res<Plugin>, map<string, Plugin>)
  {
    match def
    case None => (TypeError, cache)
    case Some(d) =>
      match ArgPlugins(d.plugin, resolve)
      case TypeError => (TypeError, cache)
      case Ok(args) =>
        if factory.Some? then (Ok(factory.value(d, args)), cache)
        else
          var key := IdKey(d);
          if key in cache && cache[key].Instance? then (Ok(cache[key]), cache)
          else
            match CreatorRoute(d.plugin)
            case TypeError => (TypeError, cache)
            case Ok(route) =>
              var p := load(d, args, route);
              match Persists(d.plugin)
              case TypeError => (TypeError, cache)
              case Ok(keep) => (Ok(p), if keep then cache[key := p] else cache)
  }

  /** With a factory set, `create` returns what the factory makes of the
      definition and the resolved `args`, and the cache is not touched. */
  lemma FactoryBypassesCache(cache: map<string, Plugin>, f: Factory, d: Def, resolve: Resolver, load: Loader)
    requires ArgPlugins(d.plugin, resolve).Ok?
    ensures var args := ArgPlugins(d.plugin, resolve).value;
            && |args| == |ClassAnnotations(d.plugin, "args").value|
            && (forall i :: 0 <= i < |args| ==> args[i] == resolve(ClassAnnotations(d.plugin, "args").value[i].value))
            && Created(cache, Some(f), Some(d), resolve, load) == (Ok(f(d, args)), cache)
  {
  }

  /** An unknown id reaches `create` as undefined, which throws. */
  lemma CreateUndefinedThrows(cache: map<string, Plugin>, factory: Option<Factory>, resolve: Resolver, load: Loader)
    ensures Created(cache, factory, None, resolve, load) == (TypeError, cache)
  {
  }

  /** Without a factory, an instance of a `plugin_persist` class is cached
      under the definition's id, so creating the same definition again
      returns that instance without loading anything; an instance of any
      other class leaves the cache as it was, so creating the definition
      again loads a new instance (`load2` stands for that second load). */
  lemma PersistedInstanceIsReused(cache: map<string, Plugin>, d: Def, resolve: Resolver, load: Loader, load2: Loader)
    requires Created(cache, None, Some(d), resolve, load).0.Ok?
    ensures var (r, after) := Created(cache, None, Some(d), resolve, load);
            && (Persists(d.plugin) == Ok(false) && !(IdKey(d) in cache && cache[IdKey(d)].Instance?) ==>
                  && after == cache
                  && Created(after, None, Some(d), resolve, load2).0
                       == Ok(load2(d, ArgPlugins(d.plugin, resolve).value, CreatorRoute(d.plugin).value)))
            && (Persists(d.plugin) == Ok(true) && r.value.Instance? ==>
                  Created(after, None, Some(d), resolve, load2) == (r, after))
  {
    var (r, after) := Created(cache, None, Some(d), resolve, load);
    var key := IdKey(d);
    if !(key in cache && cache[key].Instance?) {
      var args, route := ArgPlugins(d.plugin, resolve).value, CreatorRoute(d.plugin).value;
      assert r == Ok(load(d, args, route));
      if Persists(d.plugin) == Ok(true) {
        assert after == cache[key := r.value];
      } else {
        assert after == cache;
      }
    }
  }

  /** `getDefinition(id)` on a list: the first definition whose `id`
      property is that string, nothing when none is. */
  function FindById(defs: seq<Def>, id: string): (r: Option<Def>)
    ensures r.None? <==> forall j :: 0 <= j < |defs| ==> IdOf(defs[j]) != Val(JStr(id))
    ensures r.Some? ==> exists k :: 0 <= k < |defs| && defs[k] == r.value && IdOf(defs[k]) == Val(JStr(id))
                                   && forall j :: 0 <= j < k ==> IdOf(defs[j]) != Val(JStr(id))
  {
    Find(defs, HasId(id))
  }

  /** The default manager: its parser and schema, the definitions list
      (null until materialised), the factory, the instance cache keyed by
      id, and the notifications it has sent. */
  class DefaultPluginManager {
    const parser: AnnotationParser
    const schema: Schema
    var definitions: Option<seq<Def>>
    var factory: Option<Factory>
    var cache: map<string, Plugin>
    var emitted: seq<Emission>

    constructor (parser: AnnotationParser, schema: Schema)
      ensures this.parser == parser && this.schema == schema
      ensures definitions.None? && factory.None? && cache == map[] && emitted == []
    {
      this.parser := parser;
      this.schema := schema;
      definitions := None;
      factory := None;
      cache := map[];
      emitted := [];
    }

    /** `setFactory(factory)`; `None` clears it. */
    method SetFactory(f: Option<Factory>)
      modifies this`factory
      ensures factory == f
    {
      factory := f;
    }

    /** `addAnnotationDefinition(definition, annotation, mapping)`: the slot
        loop over `main`, or the single write of a non-array payload. */
    method AddAnnotationDefinition(def: Def, annotation: Option<Tag>, m: Mapping) returns (r: Res<Def>)
      ensures r == WithProps(def, MainApplied(def.props, annotation, m))
    {
      if annotation.None? {
        return TypeError;
      }
      var value := annotation.value.value;
      if !value.JArr? {
        if m.main.None? {
          return TypeError;
        }
        var path := DefinitionField(m, MainName(m.main.value, 0), JStr("id"));
        var none: seq<(JValue, JValue)> := [];
        assert MainWrites(m, value) == Ok([(path, value)]);
        assert [(path, value)][..0] == none;
        assert Apply(def.props, [(path, value)]) == Apply(def.props, none)[path := Val(value)];
        return Ok(def.(props := def.props[path := Val(value)]));
      }
      if m.main.None? {
        return Ok(def);
      }
      var props := WriteSlots(def.props, m, value.items);
      return WithProps(def, props);
    }

    /** The slot loop of `addAnnotationDefinition` over an array payload:
        slot 0 takes element 0 as it is, every later slot its element or the
        default, each at its own path; a default that cannot be read throws. */
    method WriteSlots(props: Props, m: Mapping, items: seq<JValue>) returns (r: Res<Props>)
      requires m.main.Some?
      ensures r == match SlotWrites(m, m.main.value, items, |m.main.value|)
                   case TypeError => TypeError
                   case Ok(ws) => Ok(Apply(props, ws))
    {
      var names := m.main.value;
      var cur := props;
      var i := 0;
      while i < |names|
        invariant 0 <= i <= |names|
        invariant SlotWrites(m, names, items, i).Ok?
        invariant cur == Apply(props, SlotWrites(m, names, items, i).value)
      {
        var ws := SlotWrites(m, names, items, i).value;
        SlotStep(m, names, items, i);
        var v := if i == 0 then Ok(At(items, 0)) else DefinitionFieldValue(m, names[i], At(items, i));
        if v.TypeError? {
          return TypeError;
        }
        var w := (DefinitionField(m, names[i], if i == 0 then JStr("id") else JNull), v.value);
        ApplySnoc(props, ws, w);
        cur := cur[w.0 := Val(w.1)];
        i := i + 1;
      }
      return Ok(cur);
    }

    /** `addAnnotationDefinitionField(definition, occurrences, name, mapping)`:
        nothing given writes the default over a null, one occurrence writes
        its value, several write the list of their values. */
    method AddAnnotationDefinitionField(def: Def, occ: Option<seq<Tag>>, name: string, m: Mapping) returns (r: Res<Def>)
      ensures r == WithProps(def, FieldApplied(def.props, occ, name, m))
    {
      var path := DefinitionField(m, name, JNull);
      if occ.None? {
        if Read(def.props, path) == Val(JNull) {
          var v := DefinitionFieldValue(m, name, JUndefined);
          if v.TypeError? {
            return TypeError;
          }
          return Ok(def.(props := def.props[path := Val(v.value)]));
        }
        return Ok(def);
      }
      var ts := occ.value;
      if |ts| == 1 {
        var v := DefinitionFieldValue(m, name, ts[0].value);
        if v.TypeError? {
          return TypeError;
        }
        return Ok(def.(props := def.props[path := Val(v.value)]));
      }
      var values: seq<JValue> := [];
      var j := 0;
      while j < |ts|
        invariant 0 <= j <= |ts|
        invariant FieldValues(m, name, ts[..j]) == Ok(values)
      {
        assert ts[..j + 1][..j] == ts[..j];
        var v := DefinitionFieldValue(m, name, ts[j].value);
        if v.TypeError? {
          assert ts[j].value == JUndefined;
          return TypeError;
        }
        values := values + [v.value];
        j := j + 1;
      }
      assert ts[..j] == ts;
      return Ok(def.(props := def.props[path := Val(JArr(values))]));
    }

    /** The field loop shared by class-level and method-level definitions:
        every field of the mapping, in order, with its occurrences. */
    method AddFields(def: Def, m: Mapping, occ: string -> Res<Option<seq<Tag>>>) returns (r: Res<Def>)
      ensures r == WithProps(def, FieldsApplied(def.props, m, FieldNames(m), occ))
    {
      var names := FieldNames(m);
      var d := def;
      var k := 0;
      while k < |names|
        invariant 0 <= k <= |names|
        invariant d == def.(props := d.props)
        invariant FieldsApplied(def.props, m, names[..k], occ) == Ok(d.props)
      {
        assert names[..k + 1][..k] == names[..k];
        var o := occ(names[k]);
        if o.TypeError? {
          FieldsStayFailed(def.props, m, names, occ, k + 1);
          return TypeError;
        }
        // `names` is not empty, so the mapping has `fields` and no default read throws
        var next := AddAnnotationDefinitionField(d, o.value, names[k], m);
        assert next.Ok?;
        d := next.value;
        k := k + 1;
      }
      assert names[..k] == names;
      return Ok(d);
    }

    /** The nested definition of one method carrying a method-level tag. */
    method NestedDefinition(u: SourceUnit, tag: string, sub: Mapping, x: Item) returns (r: Res<Def>)
      ensures r == MethodDefinition(u, tag, sub, x)
    {
      var d := Def(u, tag, Some(x), map[]);
      var main := AddAnnotationDefinition(d, FirstOccurrence(x, tag), sub);
      if main.TypeError? {
        return TypeError;
      }
      r := AddFields(main.value, sub, MethodOccurrences(x));
    }

    /** The inner method loop: one nested definition per method, in order. */
    method NestedDefinitions(u: SourceUnit, tag: string, sub: Mapping, xs: seq<Item>) returns (r: Res<seq<Def>>)
      ensures r == MethodDefinitions(u, tag, sub, xs)
    {
      var ds: seq<Def> := [];
      var k := 0;
      while k < |xs|
        invariant 0 <= k <= |xs|
        invariant |ds| == k
        invariant forall j :: 0 <= j < k ==> Ok(ds[j]) == MethodDefinition(u, tag, sub, xs[j])
      {
        var d := NestedDefinition(u, tag, sub, xs[k]);
        if d.TypeError? {
          assert MethodDefinitions(u, tag, sub, xs).TypeError?;
          return TypeError;
        }
        ds := ds + [d.value];
        k := k + 1;
      }
      ghost var spec := MethodDefinitions(u, tag, sub, xs);
      assert spec.Ok? && |spec.value| == |ds|;
      assert forall j :: 0 <= j < |ds| ==> spec.value[j] == ds[j];
      assert spec.value == ds;
      return Ok(ds);
    }

    /** The body of the `loadDefinitions` loop for one unit: main slots from
        the class's first occurrence of the tag, the fields, then one list
        of nested definitions per method-level tag. */
    method Definition(u: SourceUnit) returns (r: Res<Def>)
      ensures r == BuildDefinition(schema, u)
    {
      var annotation := ClassAnnotation(u, schema.annotation, 0);
      if annotation.TypeError? {
        return TypeError;
      }
      var main := AddAnnotationDefinition(Def(u, schema.annotation, None, map[]), annotation.value, schema.mapping);
      if main.TypeError? {
        return TypeError;
      }
      var fields := AddFields(main.value, schema.mapping, ClassOccurrences(u));
      if fields.TypeError? {
        return TypeError;
      }
      r := AddMethodLists(fields.value, u);
    }

    /** The method loop of `loadDefinitions`: under each method-level tag,
        the list of nested definitions of the methods carrying it. */
    method AddMethodLists(def: Def, u: SourceUnit) returns (r: Res<Def>)
      ensures r == WithProps(def, MethodLists(def.props, schema.methods, ListsOf(u)))
    {
      var d := def;
      var k := 0;
      while k < |schema.methods|
        invariant 0 <= k <= |schema.methods|
        invariant d == def.(props := d.props)
        invariant MethodLists(def.props, schema.methods[..k], ListsOf(u)) == Ok(d.props)
      {
        MethodListsStep(def.props, schema.methods, ListsOf(u), k, d.props);
        var (tag, sub) := schema.methods[k];
        assert ListsOf(u)(schema.methods[k]) == TagList(u, tag, sub);
        var xs := TaggedMethods(u, tag);
        if xs.TypeError? {
          MethodListsStayFailed(def.props, schema.methods, ListsOf(u), k + 1);
          return TypeError;
        }
        var ds := NestedDefinitions(u, tag, sub, xs.value);
        if ds.TypeError? {
          MethodListsStayFailed(def.props, schema.methods, ListsOf(u), k + 1);
          return TypeError;
        }
        d := d.(props := d.props[JStr(tag) := Defs(ds.value)]);
        k := k + 1;
      }
      assert schema.methods[..k] == schema.methods;
      return Ok(d);
    }

    /** `loadDefinitions(units)`: builds and appends one definition per
        unit, in order, then sends `plugins.<tag>` with the batch when it is
        not empty. A throw leaves the definitions appended so far. */
    method LoadDefinitions(units: seq<SourceUnit>) returns (ok: bool)
      modifies this`definitions, this`emitted
      ensures var outcome := Loaded(old(definitions), old(emitted), schema, units);
              ok == outcome.1 && definitions == outcome.2 && emitted == outcome.3
    {
      if definitions.None? {
        return units == [];
      }
      var batch, built := AppendDefinitions(units);
      if !built {
        return false;
      }
      if |batch| > 0 {
        emitted := emitted + [Emission("plugins." + schema.annotation, batch)];
      }
      return true;
    }

    /** The loop of `loadDefinitions`: each unit's definition is pushed onto
        the materialised list as soon as it is built; the first throw ends
        the loop. */
    method AppendDefinitions(units: seq<SourceUnit>) returns (batch: seq<Def>, built: bool)
      requires definitions.Some?
      modifies this`definitions
      ensures (batch, built) == BuildAll(schema, units)
      ensures definitions == Some(old(definitions).value + batch)
    {
      ghost var base := definitions.value;
      ghost var build := Builder(schema);
      batch := [];
      assert base + batch == base;
      var i := 0;
      while i < |units|
        invariant 0 <= i <= |units|
        invariant |batch| == i
        invariant forall j :: 0 <= j < i ==> build(units[j]) == Ok(batch[j])
        invariant definitions == Some(base + batch)
      {
        var d := Definition(units[i]);
        assert build(units[i]) == d;
        if d.TypeError? {
          MapUntilUnique(units, build, batch, false);
          return batch, false;
        }
        assert base + (batch + [d.value]) == (base + batch) + [d.value];
        batch := batch + [d.value];
        definitions := Some(definitions.value + [d.value]);
        i := i + 1;
      }
      MapUntilUnique(units, build, batch, true);
      return batch, true;
    }

    /** `getDefinitions()`: the materialised list, computed on the first
        call from the parser's units that carry the schema's tag. */
    method GetDefinitions() returns (r: Res<seq<Def>>)
      modifies this`definitions, this`emitted
      ensures (r, definitions, emitted) == Materialise(old(definitions), old(emitted), schema, parser.registry)
    {
      if definitions.Some? {
        return Ok(definitions.value);
      }
      definitions := Some([]);
      var units := parser.GetByAnnotation(schema.annotation);
      if units.TypeError? {
        return TypeError;
      }
      var ok := LoadDefinitions(units.value);
      if !ok {
        return TypeError;
      }
      return Ok(definitions.value);
    }

    /** The `plugins` handler, called directly with the announced units. */
    method OnPlugins(load: seq<SourceUnit>) returns (ok: bool)
      modifies this`definitions, this`emitted
      ensures (ok, definitions, emitted) == Notified(old(definitions), old(emitted), schema, load)
    {
      if definitions.None? {
        return true;
      }
      var units := WithClassTag(load, schema.annotation);
      if units.TypeError? {
        return false;
      }
      ok := LoadDefinitions(units.value);
    }

    /** `create(definition)`: the argument list, then the factory if set,
        else a cached instance, else the loader, caching the new instance
        of a `plugin_persist` class under the definition's id. */
    method Create(def: Option<Def>, resolve: Resolver, load: Loader) returns (r: Res<Plugin>)
      modifies this`cache
      ensures (r, cache) == Created(old(cache), factory, def, resolve, load)
    {
      if def.None? {
        return TypeError;
      }
      var d := def.value;
      var occurrences := ClassAnnotations(d.plugin, "args");
      if occurrences.TypeError? {
        return TypeError;
      }
      var ts := occurrences.value;
      var args: seq<Plugin> := [];
      var i := 0;
      while i < |ts|
        invariant 0 <= i <= |ts|
        invariant |args| == i
        invariant forall j :: 0 <= j < i ==> args[j] == resolve(ts[j].value)
      {
        args := args + [resolve(ts[i].value)];
        i := i + 1;
      }
      assert args == seq(|ts|, j requires 0 <= j < |ts| => resolve(ts[j].value));
      if factory.Some? {
        return Ok(factory.value(d, args));
      }
      var key := IdKey(d);
      if key in cache && cache[key].Instance? {
        return Ok(cache[key]);
      }
      var route := CreatorRoute(d.plugin);
      if route.TypeError? {
        return TypeError;
      }
      var p := load(d, args, route.value);
      var keep := Persists(d.plugin);
      if keep.TypeError? {
        return TypeError;
      }
      if keep.value {
        cache := cache[key := p];
      }
      return Ok(p);
    }

    /** `getDefinition(id)`: the first materialised definition with that id. */
    method GetDefinition(id: string) returns (r: Res<Option<Def>>)
      modifies this`definitions, this`emitted
      ensures var (ds, after, sent) := Materialise(old(definitions), old(emitted), schema, parser.registry);
              && definitions == after && emitted == sent
              && r == match ds case TypeError => TypeError case Ok(list) => Ok(FindById(list, id))
    {
      var ds := GetDefinitions();
      if ds.TypeError? {
        return TypeError;
      }
      return Ok(FindById(ds.value, id));
    }

    /** `get(id)`: a string is looked up with `getDefinition` first (an
        unknown id reaching `create` as undefined); anything else goes to
        `create` unchanged. */
    method Get(ref: Ref, resolve: Resolver, load: Loader) returns (r: Res<Plugin>)
      modifies this`definitions, this`emitted, this`cache
      ensures ref.ByDefinition? ==>
                && (r, cache) == Created(old(cache), factory, ref.definition, resolve, load)
                && definitions == old(definitions) && emitted == old(emitted)
      ensures ref.ById? ==>
                var (ds, after, sent) := Materialise(old(definitions), old(emitted), schema, parser.registry);
                && definitions == after && emitted == sent
                && (ds.TypeError? ==> r.TypeError? && cache == old(cache))
                && (ds.Ok? ==> (r, cache) == Created(old(cache), factory, FindById(ds.value, ref.id), resolve, load))
    {
      var def: Option<Def>;
      if ref.ById? {
        var found := GetDefinition(ref.id);
        if found.TypeError? {
          return TypeError;
        }
        def := found.value;
      } else {
        def := ref.definition;
      }
      r := Create(def, resolve, load);
    }
  }

  /** A definition with its properties replaced, or the throw. */
  function WithProps(def: Def, props: Res<Props>): Res<Def> {
    match props
    case TypeError => TypeError
    case Ok(p) => Ok(def.(props := p))
  }

  /** Once a prefix of the field loop has thrown, the whole loop throws. */
  lemma {:induction false} FieldsStayFailed(props: Props, m: Mapping, names: seq<string>,
                                            occ: string -> Res<Option<seq<Tag>>>, k: nat)
    requires k <= |names| && FieldsApplied(props, m, names[..k], occ).TypeError?
    ensures FieldsApplied(props, m, names, occ).TypeError?
    decreases |names|
  {
    if k < |names| {
      var init := names[..|names| - 1];
      assert init[..k] == names[..k];
      FieldsStayFailed(props, m, init, occ, k);
    } else {
      assert names[..k] == names;
    }
  }

  /** One more method-level tag: its list is stored under it, or the loop throws. */
  lemma MethodListsStep(props: Props, methods: seq<(string, Mapping)>, lists: ((string, Mapping)) -> Res<seq<Def>>,
                        k: nat, p: Props)
    requires k < |methods| && MethodLists(props, methods[..k], lists) == Ok(p)
    ensures MethodLists(props, methods[..k + 1], lists)
              == match lists(methods[k])
                 case TypeError => TypeError
                 case Ok(ds) => Ok(p[JStr(methods[k].0) := Defs(ds)])
  {
    assert methods[..k + 1][..k] == methods[..k];
  }

  /** Once a prefix of the method loop has thrown, the whole loop throws. */
  lemma {:induction false} MethodListsStayFailed(props: Props, methods: seq<(string, Mapping)>,
                                                 lists: ((string, Mapping)) -> Res<seq<Def>>, k: nat)
    requires k <= |methods| && MethodLists(props, methods[..k], lists).TypeError?
    ensures MethodLists(props, methods, lists).TypeError?
    decreases |methods|
  {
    if k < |methods| {
      var init := methods[..|methods| - 1];
      assert init[..k] == methods[..k];
      MethodListsStayFailed(props, init, lists, k);
    } else {
      assert methods[..k] == methods;
    }
  }
}
