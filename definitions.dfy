/**
 * What the plugin manager builds from a parsed unit (the definition logic
 * of src/DefaultPluginManager.js): a schema says which tag marks a plugin
 * class, how the tag's payload fills positional slots, which further tags
 * fill named fields, and which method-level tags produce nested
 * definitions. A definition is a map from property path to value; the
 * helper that writes and reads a path (`setDeep`/`getDeep`) is a flat
 * write and read of that map.
 */
module Definitions {
  import opened Js
  import opened Arrays
  import opened Annotations

  /** One level of a plugin schema. `main` names the fields that the
      positional slots of the payload fill; `fields` gives, per field name,
      an entry that is `[path, default]`, a bare path (any other truthy
      value), or falsy. Either may be absent. JavaScript object keys are
      distinct, so a name occurs at most once in `fields` in practice; a
      lookup takes the first entry. */
  datatype Mapping = Mapping(main: Option<seq<string>>, fields: Option<seq<(string, JValue)>>)

  /** The manager's schema: the class-level tag, its mapping, and one
      mapping per method-level tag, in key order. */
  datatype Schema = Schema(annotation: string, mapping: Mapping, methods: seq<(string, Mapping)>)

  /** A property of a definition: a JSON value written through a path, or
      the list of nested definitions stored under a method-level tag. */
  datatype Prop = Val(v: JValue) | Defs(defs: seq<Def>)

  /** A definition object: `_plugin`, `_annotation`, `_method` (`methodItem`, method-level
      only) and the properties written by the schema, keyed by path. */
  datatype Def = Def(plugin: SourceUnit, annotation: string, methodItem: Option<Item>, props: map<JValue, Prop>)

  type Props = map<JValue, Prop>

  /** `getDeep(definition, path)`: an unwritten path reads as undefined. */
  function Read(props: Props, path: JValue): Prop {
    if path in props then props[path] else Val(JUndefined)
  }

  /** `fields[name]` on the entry list: the first entry with that name,
      undefined when there is none. */
  function Lookup(entries: seq<(string, JValue)>, name: string): (v: JValue)
    ensures (forall k :: 0 <= k < |entries| ==> entries[k].0 != name) ==> v == JUndefined
    ensures forall k :: (0 <= k < |entries| && entries[k].0 == name
                         && forall j :: 0 <= j < k ==> entries[j].0 != name) ==> v == entries[k].1
  {
    var k := FindIndex(entries, HasName(name));
    if k < 0 then JUndefined else entries[k].1
  }

  function HasName(name: string): ((string, JValue)) -> bool {
    (e: (string, JValue)) => e.0 == name
  }

  /** The schema entry of a field; undefined when `fields` is absent. */
  function Entry(m: Mapping, name: string): JValue {
    match m.fields
    case None => JUndefined
    case Some(es) => Lookup(es, name)
  }

  /** The default of a field: the second element of a `[path, default]`
      entry, undefined for any other entry. */
  function DefaultOf(m: Mapping, name: string): JValue {
    var e := Entry(m, name);
    if e.JArr? then At(e.items, 1) else JUndefined
  }

  /** `getDefinitionField(definition, name, fallback)`: the path a field is
      written to — the first element of an array entry, a truthy entry
      itself, otherwise the fallback. */
  function DefinitionField(m: Mapping, name: string, fallback: JValue): JValue {
    var e := Entry(m, name);
    if e.JArr? then At(e.items, 0)
    else if Truthy(e) then e
    else fallback
  }

  /** `getDefinitionFieldValue(definition, name, value)`: a defined value
      wins; otherwise the field's default, read from `fields`, which throws
      when the mapping has no `fields`. */
  function DefinitionFieldValue(m: Mapping, name: string, value: JValue): Res<JValue> {
    if value != JUndefined then Ok(value)
    else if m.fields.None? then TypeError
    else Ok(DefaultOf(m, name))
  }

  /** What the three kinds of schema entry mean for a field: `[path,
      default]` writes to `path` and supplies `default` for an undefined
      value; a bare truthy entry is the path itself with no default; a
      missing or falsy entry leaves the caller's fallback path. A defined
      value always passes through. */
  lemma SchemaEntryMeaning(m: Mapping, name: string, fallback: JValue, value: JValue)
    requires m.fields.Some?
    ensures Entry(m, name).JArr? && |Entry(m, name).items| >= 2 ==>
              && DefinitionField(m, name, fallback) == Entry(m, name).items[0]
              && DefinitionFieldValue(m, name, JUndefined) == Ok(Entry(m, name).items[1])
    ensures !Entry(m, name).JArr? && Truthy(Entry(m, name)) ==>
              && DefinitionField(m, name, fallback) == Entry(m, name)
              && DefinitionFieldValue(m, name, JUndefined) == Ok(JUndefined)
    ensures !Truthy(Entry(m, name)) ==>
              && DefinitionField(m, name, fallback) == fallback
              && DefinitionFieldValue(m, name, JUndefined) == Ok(JUndefined)
    ensures value != JUndefined ==> DefinitionFieldValue(m, name, value) == Ok(value)
  {
  }

  /** The written-or-defaulted value of a field: the value unless it is
      undefined, then the field's default. */
  function OrDefault(m: Mapping, name: string, value: JValue): JValue {
    if value != JUndefined then value else DefaultOf(m, name)
  }

  /** A sequence of `setDeep` writes applied in order. */
  function Apply(props: Props, writes: seq<(JValue, JValue)>): Props
    decreases |writes|
  {
    if writes == [] then props
    else
      var w := writes[|writes| - 1];
      Apply(props, writes[..|writes| - 1])[w.0 := Val(w.1)]
  }

  lemma ApplySnoc(props: Props, writes: seq<(JValue, JValue)>, w: (JValue, JValue))
    ensures Apply(props, writes + [w]) == Apply(props, writes)[w.0 := Val(w.1)]
  {
    assert (writes + [w])[..|writes|] == writes;
  }

  /** One more slot: slot 0 writes its element, a later slot its element or
      default, and an unreadable default makes the whole loop throw. */
  lemma SlotStep(m: Mapping, names: seq<string>, items: seq<JValue>, i: nat)
    requires i < |names|
    requires SlotWrites(m, names, items, i).Ok?
    ensures i == 0 ==> SlotWrites(m, names, items, 1) == Ok([(DefinitionField(m, names[0], JStr("id")), At(items, 0))])
    ensures 0 < i && DefinitionFieldValue(m, names[i], At(items, i)).Ok? ==>
              SlotWrites(m, names, items, i + 1)
                == Ok(SlotWrites(m, names, items, i).value
                      + [(DefinitionField(m, names[i], JNull), DefinitionFieldValue(m, names[i], At(items, i)).value)])
    ensures 0 < i && DefinitionFieldValue(m, names[i], At(items, i)).TypeError? ==>
              SlotWrites(m, names, items, |names|).TypeError?
  {
    if i == 0 {
      var none: seq<(JValue, JValue)> := [];
      var w := (DefinitionField(m, names[0], JStr("id")), At(items, 0));
      assert SlotWrites(m, names, items, 0) == Ok(none);
      assert none + [w] == [w];
    }
  }

  /** A path that no write in the sequence touches keeps what it held. */
  lemma {:induction false} ApplyUntouched(props: Props, writes: seq<(JValue, JValue)>, p: JValue)
    requires forall i :: 0 <= i < |writes| ==> writes[i].0 != p
    ensures Read(Apply(props, writes), p) == Read(props, p)
  {
    if writes != [] {
      var init := writes[..|writes| - 1];
      assert forall i :: 0 <= i < |init| ==> init[i] == writes[i];
      ApplyUntouched(props, init, p);
    }
  }

  /** After a sequence of writes, a path holds the value of the last write to it. */
  lemma {:induction false} ApplyLastWrite(props: Props, writes: seq<(JValue, JValue)>, p: JValue, i: nat)
    requires LastWriteAt(writes, p, i)
    ensures Read(Apply(props, writes), p) == Val(writes[i].1)
  {
    var init, w := writes[..|writes| - 1], writes[|writes| - 1];
    if i < |init| {
      assert init[i] == writes[i];
      assert LastWriteAt(init, p, i);
      ApplyLastWrite(props, init, p, i);
    }
  }

  /** The write at index `i` is the last one to path `p`. */
  predicate LastWriteAt(writes: seq<(JValue, JValue)>, p: JValue, i: int) {
    0 <= i < |writes| && writes[i].0 == p && forall j :: i < j < |writes| ==> writes[j].0 != p
  }

  /** `main[i]` as a property name: past the end it is undefined, which
      names the property "undefined". */
  function MainName(names: seq<string>, i: nat): string {
    if i < |names| then names[i] else "undefined"
  }

  /** The writes of the first `n` positional slots of an array payload:
      slot 0 goes to its field's path (by default 'id') with the payload's
      first element as it is; every later slot goes to its field's path
      (by default null) with its element or, when that is undefined, the
      field's default. Reading a default throws when the mapping has no
      `fields`. */
  function SlotWrites(m: Mapping, names: seq<string>, items: seq<JValue>, n: nat): (r: Res<seq<(JValue, JValue)>>)
    requires n <= |names|
    ensures r.TypeError? <==> m.fields.None? && exists i :: 1 <= i < n && At(items, i) == JUndefined
    ensures r.Ok? ==> |r.value| == n
    ensures r.Ok? && n > 0 ==> r.value[0] == (DefinitionField(m, names[0], JStr("id")), At(items, 0))
    ensures r.Ok? ==> forall i :: 1 <= i < n ==>
                        r.value[i] == (DefinitionField(m, names[i], JNull), OrDefault(m, names[i], At(items, i)))
    decreases n
  {
    if n == 0 then Ok([])
    else
      match SlotWrites(m, names, items, n - 1)
      case TypeError => TypeError
      case Ok(ws) =>
        var i := n - 1;
        if i == 0 then Ok(ws + [(DefinitionField(m, names[0], JStr("id")), At(items, 0))])
        else
          match DefinitionFieldValue(m, names[i], At(items, i))
          case TypeError => TypeError
          case Ok(v) => Ok(ws + [(DefinitionField(m, names[i], JNull), v)])
  }

  /** The writes `addAnnotationDefinition` makes for a payload: one per
      `main` slot for an array payload (none when `main` is absent), or the
      whole payload to slot 0's path; `main[0]` of an absent `main` throws. */
  function MainWrites(m: Mapping, value: JValue): Res<seq<(JValue, JValue)>> {
    match m.main
    case None => if value.JArr? then Ok([]) else TypeError
    case Some(names) =>
      if value.JArr? then SlotWrites(m, names, value.items, |names|)
      else Ok([(DefinitionField(m, MainName(names, 0), JStr("id")), value)])
  }

  /** `addAnnotationDefinition(definition, annotation, mapping)` on the
      properties of the definition; a null annotation throws. */
  function MainApplied(props: Props, annotation: Option<Tag>, m: Mapping): Res<Props> {
    match annotation
    case None => TypeError
    case Some(t) =>
      match MainWrites(m, t.value)
      case TypeError => TypeError
      case Ok(ws) => Ok(Apply(props, ws))
  }

  /** The main mapping: a non-array payload lands whole on slot 0's path;
      for an array payload each slot's path holds its element (slot 0) or
      its element-or-default (later slots), unless a later slot writes the
      same path; paths no slot names keep their value. */
  lemma {:induction false} MainSlots(props: Props, t: Tag, m: Mapping, p: JValue)
    requires m.main.Some?
    ensures !t.value.JArr? ==>
              MainApplied(props, Some(t), m) == Ok(props[DefinitionField(m, MainName(m.main.value, 0), JStr("id")) := Val(t.value)])
    ensures t.value.JArr? && MainApplied(props, Some(t), m).Ok? ==>
              var names, items, r := m.main.value, t.value.items, MainApplied(props, Some(t), m).value;
              && (forall i :: 0 <= i < |names| ==> SlotPath(m, names, i) != p) ==> Read(r, p) == Read(props, p)
    ensures t.value.JArr? && MainApplied(props, Some(t), m).Ok? ==>
              var names, items, r := m.main.value, t.value.items, MainApplied(props, Some(t), m).value;
              forall i :: 0 <= i < |names| && SlotPath(m, names, i) == p
                          && (forall j :: i < j < |names| ==> SlotPath(m, names, j) != p) ==>
                Read(r, p) == Val(if i == 0 then At(items, 0) else OrDefault(m, names[i], At(items, i)))
  {
    if !t.value.JArr? {
      var w := (DefinitionField(m, MainName(m.main.value, 0), JStr("id")), t.value);
      assert MainWrites(m, t.value) == Ok([w]);
      var none: seq<(JValue, JValue)> := [];
      assert [w][..0] == none;
      assert Apply(props, [w]) == Apply(props, [])[w.0 := Val(w.1)];
    } else if MainApplied(props, Some(t), m).Ok? {
      var names, items := m.main.value, t.value.items;
      var ws := SlotWrites(m, names, items, |names|).value;
      assert forall i :: 0 <= i < |names| ==> ws[i].0 == SlotPath(m, names, i);
      if forall i :: 0 <= i < |names| ==> SlotPath(m, names, i) != p {
        ApplyUntouched(props, ws, p);
      }
      forall i | 0 <= i < |names| && SlotPath(m, names, i) == p
                 && (forall j :: i < j < |names| ==> SlotPath(m, names, j) != p)
        ensures Read(MainApplied(props, Some(t), m).value, p) == Val(ws[i].1)
      {
        ApplyLastWrite(props, ws, p, i);
      }
    }
  }

  /** An occurrence as the manager reads it with the code as written: the
      parser stores the parsed payload under `settings`, so the manager's
      `.value` is undefined whatever the payload was. */
  function AsWrittenOccurrence(t: Tag): Tag {
    t.(value := JUndefined)
  }

  /** With the code as written the payload never reaches a definition: for
      a schema whose `main` has no path configured, the class tag
      `@plugin (["x"])` leaves `id` undefined instead of "x". */
  lemma AsWrittenPayloadLost(t: Tag, m: Mapping)
    requires m.main.Some? && m.fields.None?
    ensures MainApplied(map[], Some(AsWrittenOccurrence(t)), m) == Ok(map[JStr("id") := Val(JUndefined)])
    ensures t.value == JArr([JStr("x")]) && |m.main.value| == 1 ==>
              MainApplied(map[], Some(t), m) == Ok(map[JStr("id") := Val(JStr("x"))])
  {
    MainSlots(map[], AsWrittenOccurrence(t), m, JStr("id"));
    if t.value == JArr([JStr("x")]) && |m.main.value| == 1 {
      var w := (JStr("id"), JStr("x"));
      var none: seq<(JValue, JValue)> := [];
      assert SlotWrites(m, m.main.value, [JStr("x")], 0) == Ok(none);
      assert none + [w] == [w];
      assert DefinitionField(m, m.main.value[0], JStr("id")) == JStr("id");
      assert SlotWrites(m, m.main.value, [JStr("x")], 1) == Ok([w]);
      assert MainWrites(m, t.value) == Ok([w]);
      assert [w][..0] == none;
      assert Apply(map[], [w]) == Apply(map[], none)[w.0 := Val(w.1)];
    }
  }

  /** The path slot `i` of `main` is written to. */
  function SlotPath(m: Mapping, names: seq<string>, i: nat): JValue
    requires i < |names|
  {
    if i == 0 then DefinitionField(m, names[0], JStr("id")) else DefinitionField(m, names[i], JNull)
  }

  /** The `values` list built for a field with several occurrences: each
      occurrence's value or, when undefined, the field's default. */
  function FieldValues(m: Mapping, name: string, ts: seq<Tag>): (r: Res<seq<JValue>>)
    ensures r.TypeError? <==> m.fields.None? && exists i :: 0 <= i < |ts| && ts[i].value == JUndefined
    ensures r.Ok? ==> |r.value| == |ts|
    ensures r.Ok? ==> forall i :: 0 <= i < |ts| ==> r.value[i] == OrDefault(m, name, ts[i].value)
    decreases |ts|
  {
    if ts == [] then Ok([])
    else
      match FieldValues(m, name, ts[..|ts| - 1])
      case TypeError => TypeError
      case Ok(vs) =>
        match DefinitionFieldValue(m, name, ts[|ts| - 1].value)
        case TypeError => TypeError
        case Ok(v) => Ok(vs + [v])
  }

  /** `addAnnotationDefinitionField(definition, occurrences, name, mapping)`
      on the properties of the definition. `None` stands for an absent
      (undefined) occurrence list. */
  function FieldApplied(props: Props, occ: Option<seq<Tag>>, name: string, m: Mapping): (r: Res<Props>)
    ensures var path := DefinitionField(m, name, JNull);
            && (occ.None? && Read(props, path) != Val(JNull) ==> r == Ok(props))
            && (occ.None? && Read(props, path) == Val(JNull) && m.fields.Some? ==>
                  r == Ok(props[path := Val(DefaultOf(m, name))]))
            && (occ.Some? && |occ.value| == 1 && r.Ok? ==>
                  r.value == props[path := Val(OrDefault(m, name, occ.value[0].value))])
            && (occ.Some? && |occ.value| != 1 && r.Ok? ==>
                  && path in r.value && r.value[path].Val? && r.value[path].v.JArr?
                  && |r.value[path].v.items| == |occ.value|
                  && (forall i :: 0 <= i < |occ.value| ==>
                        r.value[path].v.items[i] == OrDefault(m, name, occ.value[i].value))
                  && r.value == props[path := r.value[path]])
            && (r.TypeError? ==> m.fields.None?)
  {
    var path := DefinitionField(m, name, JNull);
    match occ
    case None =>
      if Read(props, path) == Val(JNull) then
        match DefinitionFieldValue(m, name, JUndefined)
        case TypeError => TypeError
        case Ok(v) => Ok(props[path := Val(v)])
      else Ok(props)
    case Some(ts) =>
      if |ts| == 1 then
        match DefinitionFieldValue(m, name, ts[0].value)
        case TypeError => TypeError
        case Ok(v) => Ok(props[path := Val(v)])
      else
        match FieldValues(m, name, ts)
        case TypeError => TypeError
        case Ok(vs) => Ok(props[path := Val(JArr(vs))])
  }

  /** A field with no occurrences whose path nothing has written stays
      unset: `getDeep` reads the unset path as undefined, not null, so the
      default is not written. */
  lemma UnsetFieldGetsNoDefault(props: Props, name: string, m: Mapping)
    requires DefinitionField(m, name, JNull) !in props
    ensures FieldApplied(props, None, name, m) == Ok(props)
  {
  }

  /** A class-level field that the class does not carry is written as an
      empty list: `getClassAnnotations` answers with `[]`, which is truthy
      and not of length one. */
  lemma ClassFieldWithoutOccurrences(props: Props, name: string, m: Mapping)
    ensures FieldApplied(props, Some([]), name, m) == Ok(props[DefinitionField(m, name, JNull) := Val(JArr([]))])
  {
    assert FieldValues(m, name, []) == Ok([]);
  }

  /** The field names of a mapping, in key order; none when `fields` is absent. */
  function FieldNames(m: Mapping): seq<string> {
    match m.fields
    case None => []
    case Some(es) => seq(|es|, i requires 0 <= i < |es| => es[i].0)
  }

  /** The occurrences of a class-level field: `getClassAnnotations(name)`. */
  function ClassOccurrences(u: SourceUnit): string -> Res<Option<seq<Tag>>> {
    (name: string) => match ClassAnnotations(u, name)
                      case TypeError => TypeError
                      case Ok(ts) => Ok(Some(ts))
  }

  /** The occurrences of a method-level field: `method.annotations[name]`,
      undefined when the method does not carry it. */
  function MethodOccurrences(x: Item): string -> Res<Option<seq<Tag>>> {
    (name: string) => match x.annotations
                      case None => TypeError
                      case Some(tags) => Ok(if name in tags then Some(tags[name]) else None)
  }

  /** The field loop: every named field applied in order, the first throw ending it. */
  function FieldsApplied(props: Props, m: Mapping, names: seq<string>, occ: string -> Res<Option<seq<Tag>>>): Res<Props>
    decreases |names|
  {
    if names == [] then Ok(props)
    else
      match FieldsApplied(props, m, names[..|names| - 1], occ)
      case TypeError => TypeError
      case Ok(p) =>
        var name := names[|names| - 1];
        match occ(name)
        case TypeError => TypeError
        case Ok(o) => FieldApplied(p, o, name, m)
  }

  /** The occurrence a method-level definition reads its payload from:
      `method.annotations[tag][0]`. */
  function FirstOccurrence(x: Item, tag: string): Option<Tag> {
    if x.annotations.Some? && tag in x.annotations.value then Some(x.annotations.value[tag][0]) else None
  }

  /** The nested definition of one method carrying a method-level tag. */
  function MethodDefinition(u: SourceUnit, tag: string, sub: Mapping, x: Item): (r: Res<Def>)
    ensures r.Ok? ==> r.value.plugin == u && r.value.annotation == tag && r.value.methodItem == Some(x)
  {
    match MainApplied(map[], FirstOccurrence(x, tag), sub)
    case TypeError => TypeError
    case Ok(p) =>
      match FieldsApplied(p, sub, FieldNames(sub), MethodOccurrences(x))
      case TypeError => TypeError
      case Ok(q) => Ok(Def(u, tag, Some(x), q))
  }

  function MethodBuilder(u: SourceUnit, tag: string, sub: Mapping): Item -> Res<Def> {
    x => MethodDefinition(u, tag, sub, x)
  }

  /** The nested definitions of the given methods, one per method, in order. */
  function MethodDefinitions(u: SourceUnit, tag: string, sub: Mapping, xs: seq<Item>): (r: Res<seq<Def>>)
    ensures r.Ok? <==> forall k :: 0 <= k < |xs| ==> MethodDefinition(u, tag, sub, xs[k]).Ok?
    ensures r.Ok? ==> |r.value| == |xs|
    ensures r.Ok? ==> forall k :: 0 <= k < |xs| ==> Ok(r.value[k]) == MethodDefinition(u, tag, sub, xs[k])
  {
    MapRes(xs, MethodBuilder(u, tag, sub))
  }

  /** The methods carrying a method-level tag, with the modifiers unrestricted. */
  function TaggedMethods(u: SourceUnit, tag: string): Res<seq<Item>> {
    MethodsByAnnotation(u, tag, [])
  }

  /** The list a method-level tag gets: one nested definition per method
      carrying the tag, in method order. */
  function TagList(u: SourceUnit, tag: string, sub: Mapping): (r: Res<seq<Def>>)
    ensures r.Ok? ==> && TaggedMethods(u, tag).Ok?
                      && |r.value| == |TaggedMethods(u, tag).value|
                      && forall k :: 0 <= k < |r.value| ==>
                           Ok(r.value[k]) == MethodDefinition(u, tag, sub, TaggedMethods(u, tag).value[k])
  {
    match TaggedMethods(u, tag)
    case TypeError => TypeError
    case Ok(xs) => MethodDefinitions(u, tag, sub, xs)
  }

  function ListsOf(u: SourceUnit): ((string, Mapping)) -> Res<seq<Def>> {
    (e: (string, Mapping)) => TagList(u, e.0, e.1)
  }

  /** The method loop: for each method-level tag, in schema order, its list
      stored under the tag; the first list that throws ends the loop. */
  function MethodLists(props: Props, methods: seq<(string, Mapping)>, lists: ((string, Mapping)) -> Res<seq<Def>>): (r: Res<Props>)
    ensures r.Ok? ==> forall i :: 0 <= i < |methods| ==> Read(r.value, JStr(methods[i].0)).Defs?
    decreases |methods|
  {
    if methods == [] then Ok(props)
    else
      var init := methods[..|methods| - 1];
      assert forall i :: 0 <= i < |init| ==> init[i] == methods[i];
      match MethodLists(props, init, lists)
      case TypeError => TypeError
      case Ok(p) =>
        var tag := methods[|methods| - 1].0;
        match lists(methods[|methods| - 1])
        case TypeError => TypeError
        case Ok(ds) =>
          var q := p[JStr(tag) := Defs(ds)];
          assert forall i :: 0 <= i < |methods| ==> Read(q, JStr(methods[i].0)).Defs?;
          Ok(q)
  }

  /** The list a method-level tag ends up holding is its own list (when a
      tag is listed twice, its last listing wins). */
  lemma {:induction false} MethodListAt(props: Props, methods: seq<(string, Mapping)>,
                                        lists: ((string, Mapping)) -> Res<seq<Def>>, i: nat)
    requires MethodLists(props, methods, lists).Ok?
    requires i < |methods| && forall j :: i < j < |methods| ==> methods[j].0 != methods[i].0
    ensures lists(methods[i]).Ok?
    ensures MethodLists(props, methods, lists).value[JStr(methods[i].0)] == Defs(lists(methods[i]).value)
  {
    var init := methods[..|methods| - 1];
    var last := methods[|methods| - 1];
    var p := MethodLists(props, init, lists);
    assert p.Ok? && lists(last).Ok?;
    assert MethodLists(props, methods, lists).value == p.value[JStr(last.0) := Defs(lists(last).value)];
    if i < |init| {
      assert init[i] == methods[i] && last.0 != methods[i].0;
      assert forall j :: i < j < |init| ==> init[j] == methods[j];
      MethodListAt(props, init, lists, i);
    }
  }

  /** The definition of one unit: `_plugin` and `_annotation`, the main
      slots filled from the class's first occurrence of the schema's tag,
      then the fields, then one list per method-level tag. A unit whose
      class does not carry the tag throws. */
  function BuildDefinition(schema: Schema, u: SourceUnit): (r: Res<Def>)
    ensures ClassAnnotations(u, schema.annotation) == Ok([]) ==> r.TypeError?
    ensures r.Ok? ==> && r.value.plugin == u && r.value.annotation == schema.annotation && r.value.methodItem.None?
                      && forall i :: 0 <= i < |schema.methods| ==> Read(r.value.props, JStr(schema.methods[i].0)).Defs?
  {
    match ClassAnnotation(u, schema.annotation, 0)
    case TypeError => TypeError
    case Ok(a) =>
      match MainApplied(map[], a, schema.mapping)
      case TypeError => TypeError
      case Ok(p) =>
        match FieldsApplied(p, schema.mapping, FieldNames(schema.mapping), ClassOccurrences(u))
        case TypeError => TypeError
        case Ok(q) =>
          match MethodLists(q, schema.methods, ListsOf(u))
          case TypeError => TypeError
          case Ok(s) => Ok(Def(u, schema.annotation, None, s))
  }

  function Builder(schema: Schema): SourceUnit -> Res<Def> {
    u => BuildDefinition(schema, u)
  }

  /** The definitions of a batch of units, built in order until the first
      throw: `ok` says whether every unit was built. */
  function BuildAll(schema: Schema, units: seq<SourceUnit>): (r: (seq<Def>, bool))
    ensures |r.0| <= |units|
    ensures r.1 <==> |r.0| == |units|
    ensures forall i :: 0 <= i < |r.0| ==> BuildDefinition(schema, units[i]) == Ok(r.0[i])
    ensures !r.1 ==> BuildDefinition(schema, units[|r.0|]).TypeError?
  {
    MapUntil(units, Builder(schema))
  }

  /** The outcome of building a batch is pinned down by its contract: the
      definitions built, in order, up to the first unit that throws. */
  lemma BuildAllUnique(schema: Schema, units: seq<SourceUnit>, ds: seq<Def>, built: bool)
    requires |ds| <= |units|
    requires built <==> |ds| == |units|
    requires forall i :: 0 <= i < |ds| ==> BuildDefinition(schema, units[i]) == Ok(ds[i])
    requires !built ==> BuildDefinition(schema, units[|ds|]).TypeError?
    ensures BuildAll(schema, units) == (ds, built)
  {
    MapUntilUnique(units, Builder(schema), ds, built);
  }

  /** `definition.id`: the property at path 'id'. */
  function IdOf(d: Def): Prop {
    Read(d.props, JStr("id"))
  }

  /** The property name `definition.id` becomes as a cache key: an array of
      definitions reads as its objects joined with ','. */
  function IdKey(d: Def): string {
    match IdOf(d)
    case Val(v) => KeyText(v)
    case Defs(ds) => CommaJoin(seq(|ds|, i requires 0 <= i < |ds| => "[object Object]"))
  }

  /** `v.id === id` for a string id. */
  function HasId(id: string): Def -> bool {
    (d: Def) => IdOf(d) == Val(JStr(id))
  }
}
