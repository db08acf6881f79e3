/**
 * One parsed source file (`Annotation` in src/Annotation.js): the ordered
 * list of documented declarations, the root it was loaded from and its
 * path relative to that root, with the file name and namespace derived
 * from the path. Every query is a find, filter or reduce over the list.
 */
module Annotations {
  import opened Js
  import opened Arrays

  /** One occurrence of a tag in a doc comment: `@name {typeHint} (payload) description`.
      `value` is the payload as JSON.parse read it, null when it was absent
      or malformed. The parser stores the payload under the property
      `settings` while the plugin manager reads `.value`, so with the code as
      written every payload the manager sees is undefined; this model keeps a
      single payload field for both sides. */
  datatype Tag = Tag(name: string, typeHint: Option<string>, value: JValue, description: string)

  /** The occurrences of one tag on one declaration, in comment order. The
      parser creates such a list only to push onto it, so it is never empty. */
  type Occurrences = ts: seq<Tag> | |ts| >= 1 witness [Tag("", None, JNull, "")]

  /** `type` of a declaration: 'class', 'method', or unset when the text
      after the comment matched neither header form. */
  datatype Kind = ClassKind | MethodKind | Untyped

  /** One documented declaration. `annotations` is absent (`None`) when the
      comment held no tag at all; class items carry no modifiers. */
  datatype Item = Item(kind: Kind, name: string, modifiers: seq<string>, annotations: Option<map<string, Occurrences>>)

  datatype SourceUnit = SourceUnit(data: seq<Item>, root: Option<string>, path: Option<string>,
                                   file: Option<string>, ns: Option<string>)

  /** The plain record that `save` produces and `load` consumes. */
  datatype Saved = Saved(data: seq<Item>, root: Option<string>, path: Option<string>)

  /** `new Annotation(data, root, path)`: without a (non-empty) path the file
      name and namespace stay null; otherwise the file name is the last
      '/'-segment of the path and the namespace is the segments before it,
      so that namespace, '/' and file name spell the path again. */
  function NewUnit(data: seq<Item>, root: Option<string>, path: Option<string>): (u: SourceUnit)
    ensures u.data == data && u.root == root && u.path == path
    ensures path.None? || path.value == "" ==> u.file == None && u.ns == None
    ensures path.Some? && path.value != "" ==>
              && u.file.Some? && u.ns.Some?
              && '/' !in u.file.value
              && ('/' in path.value ==> u.ns.value + "/" + u.file.value == path.value)
              && ('/' !in path.value ==> u.ns.value == "" && u.file.value == path.value)
  {
    if path.Some? && path.value != "" then
      var parts := Split(path.value, '/');
      SplitAtLast(path.value, '/');
      SourceUnit(data, root, path, Some(parts[|parts| - 1]), Some(Join(parts[..|parts| - 1], '/')))
    else
      SourceUnit(data, root, path, None, None)
  }

  function Save(u: SourceUnit): Saved {
    Saved(u.data, u.root, u.path)
  }

  function Load(s: Saved): SourceUnit {
    NewUnit(s.data, s.root, s.path)
  }

  /** `Annotation.load(a.save())` rebuilds the same unit: same declarations,
      root and path, hence the same file name, namespace and id. */
  lemma LoadSave(u: SourceUnit)
    requires u == NewUnit(u.data, u.root, u.path)
    ensures Load(Save(u)) == u
    ensures Id(Load(Save(u))) == Id(u)
  {
  }

  predicate IsClass(x: Item) {
    x.kind == ClassKind
  }

  predicate IsMethod(x: Item) {
    x.kind == MethodKind
  }

  /** `get class`: the first class item. */
  function ClassItem(u: SourceUnit): (r: Option<Item>)
    ensures r.None? <==> forall j :: 0 <= j < |u.data| ==> u.data[j].kind != ClassKind
    ensures r.Some? ==> exists k :: 0 <= k < |u.data| && u.data[k] == r.value && r.value.kind == ClassKind
                                   && forall j :: 0 <= j < k ==> u.data[j].kind != ClassKind
  {
    Find(u.data, IsClass)
  }

  /** `get methods`: exactly the method items, in their order. */
  function Methods(u: SourceUnit): (r: seq<Item>)
    ensures forall i :: 0 <= i < |r| ==> r[i].kind == MethodKind
    ensures forall j :: 0 <= j < |u.data| && u.data[j].kind == MethodKind ==> u.data[j] in r
    ensures |r| == Count(u.data, IsMethod)
    ensures IsSubseq(r, u.data)
  {
    Filter(u.data, IsMethod)
  }

  /** The namespace as string concatenation renders it: null becomes "null". */
  function NsText(u: SourceUnit): string {
    match u.ns
    case None => "null"
    case Some(s) => s
  }

  /** `get id`: `this.ns + '/' + this.class.name`, which throws when the
      unit has no class item. */
  function Id(u: SourceUnit): (r: Res<string>)
    ensures r.Ok? <==> ClassItem(u).Some?
  {
    match ClassItem(u)
    case None => TypeError
    case Some(c) => Ok(NsText(u) + "/" + c.name)
  }

  /** The id of a constructed unit is its relative path with the file
      segment replaced by the class name; without a path it starts with
      "null/". Two files declaring the same class in different directories
      therefore get different ids. */
  lemma IdFromPath(u: SourceUnit)
    requires u == NewUnit(u.data, u.root, u.path)
    requires ClassItem(u).Some?
    ensures var name := ClassItem(u).value.name;
            && (u.path.Some? && '/' in u.path.value ==>
                  var p := u.path.value;
                  && |u.file.value| < |p|
                  && p[|p| - |u.file.value|..] == u.file.value
                  && Id(u) == Ok(p[..|p| - |u.file.value|] + name))
            && (u.path.Some? && u.path.value != "" && '/' !in u.path.value ==> Id(u) == Ok("/" + name))
            && (u.path.None? || u.path.value == "" ==> Id(u) == Ok("null/" + name))
  {
    var name := ClassItem(u).value.name;
    assert Id(u) == Ok(NsText(u) + "/" + name);
    if u.path.Some? && '/' in u.path.value {
      IdFromNestedPath(u.path.value, u.file.value, u.ns.value, name);
    } else if u.path.Some? && u.path.value != "" {
      assert NsText(u) == "";
      assert "" + "/" + name == "/" + name;
    } else {
      assert NsText(u) == "null";
      assert "null" + "/" + name == "null/" + name;
    }
  }

  /** A path `ns/file` with the file segment cut off leaves `ns/`. */
  lemma IdFromNestedPath(p: string, f: string, n: string, name: string)
    requires p == n + "/" + f
    ensures |f| < |p| && p[|p| - |f|..] == f && p[..|p| - |f|] + name == n + "/" + name
  {
    var dir := n + "/";
    assert p == dir + f;
    assert p[..|dir|] == dir;
    assert p[|dir|..] == f;
  }

  /** `getClassAnnotations(tag)`: the class's occurrences of `tag`, or an
      empty list when it has none; throws without a class item or when the
      class comment held no tag at all. */
  function ClassAnnotations(u: SourceUnit, tag: string): (r: Res<seq<Tag>>)
    ensures r.TypeError? <==> ClassItem(u).None? || ClassItem(u).value.annotations.None?
    ensures r.Ok? ==> var m := ClassItem(u).value.annotations.value;
                      && (tag in m ==> r.value == m[tag] && r.value != [])
                      && (tag !in m ==> r.value == [])
  {
    match ClassItem(u)
    case None => TypeError
    case Some(c) =>
      match c.annotations
      case None => TypeError
      case Some(m) => Ok(if tag in m then m[tag] else [])
  }

  /** `getClassAnnotation(tag, index)`: the occurrence at `index`, null when
      the tag is absent or the index out of range. */
  function ClassAnnotation(u: SourceUnit, tag: string, index: int): (r: Res<Option<Tag>>)
  {
    match ClassItem(u)
    case None => TypeError
    case Some(c) =>
      match c.annotations
      case None => TypeError
      case Some(m) => Ok(if tag in m && 0 <= index < |m[tag]| then Some(m[tag][index]) else None)
  }

  /** `getClassAnnotation(tag, i)` is the i-th element of
      `getClassAnnotations(tag)` and null past either end; the two throw on
      the same units. */
  lemma ClassAnnotationAt(u: SourceUnit, tag: string, index: int)
    ensures ClassAnnotation(u, tag, index).TypeError? <==> ClassAnnotations(u, tag).TypeError?
    ensures ClassAnnotations(u, tag).Ok? ==>
              var xs := ClassAnnotations(u, tag).value;
              ClassAnnotation(u, tag, index) == Ok(if 0 <= index < |xs| then Some(xs[index]) else None)
  {
  }

  function Named(name: string): Item -> bool {
    (x: Item) => x.name == name
  }

  /** `getMethod(name)`: the first method item with that name. */
  function GetMethod(u: SourceUnit, name: string): (r: Option<Item>)
    ensures r.None? <==> forall j :: 0 <= j < |Methods(u)| ==> Methods(u)[j].name != name
    ensures r.Some? ==> exists k :: 0 <= k < |Methods(u)| && Methods(u)[k] == r.value && r.value.name == name
                                   && forall j :: 0 <= j < k ==> Methods(u)[j].name != name
  {
    Find(Methods(u), Named(name))
  }

  /** Every element of `wanted` occurs in `have` (the `reduce` over `includes`). */
  predicate IncludesAll(have: seq<string>, wanted: seq<string>) {
    forall k :: 0 <= k < |wanted| ==> wanted[k] in have
  }

  /** The `getMethodsByAnnotation` callback: reading `annotations[tag]`
      throws on an item whose comment held no tag. */
  function TaggedWith(tag: string, modifiers: seq<string>): Item -> Res<bool> {
    (x: Item) => match x.annotations
                 case None => TypeError
                 case Some(m) => Ok(tag in m && IncludesAll(x.modifiers, modifiers))
  }

  /** `getMethodsByAnnotation(tag, modifiers)`: in order, exactly the methods
      that carry `tag` and have every listed modifier; with no modifiers
      listed, every method carrying `tag`. Throws as soon as one method item
      has no annotations map. */
  function MethodsByAnnotation(u: SourceUnit, tag: string, modifiers: seq<string>): (r: Res<seq<Item>>)
    ensures r.Ok? <==> forall j :: 0 <= j < |Methods(u)| ==> Methods(u)[j].annotations.Some?
    ensures r.Ok? ==> IsSubseq(r.value, Methods(u))
    ensures r.Ok? ==> forall i :: 0 <= i < |r.value| ==>
                        && r.value[i].kind == MethodKind
                        && r.value[i].annotations.Some?
                        && tag in r.value[i].annotations.value
                        && IncludesAll(r.value[i].modifiers, modifiers)
    ensures r.Ok? ==> forall j :: 0 <= j < |Methods(u)| ==>
                        (tag in Methods(u)[j].annotations.value && IncludesAll(Methods(u)[j].modifiers, modifiers)
                         ==> Methods(u)[j] in r.value)
    ensures r.Ok? ==> r.value == Filter(Methods(u), CarriesMethodTag(tag, modifiers))
  {
    var p := TaggedWith(tag, modifiers);
    var ms := Methods(u);
    TaggedWithAll(ms, tag, modifiers);
    var r := FilterRes(ms, p);
    assert r.Ok? ==> forall i :: 0 <= i < |r.value| ==> Holds(p)(r.value[i]);
    r
  }

  /** The callback throws exactly on items without an annotations map and
      accepts exactly the items carrying the tag and the modifiers. */
  lemma TaggedWithAll(xs: seq<Item>, tag: string, modifiers: seq<string>)
    ensures forall x :: TaggedWith(tag, modifiers)(x).Ok? <==> x.annotations.Some?
    ensures Filter(xs, Holds(TaggedWith(tag, modifiers))) == Filter(xs, CarriesMethodTag(tag, modifiers))
  {
    var p := TaggedWith(tag, modifiers);
    assert forall i :: 0 <= i < |xs| ==> Holds(p)(xs[i]) == CarriesMethodTag(tag, modifiers)(xs[i]);
    FilterCongruent(xs, Holds(p), CarriesMethodTag(tag, modifiers));
  }

  /** The item's comment carries `tag` and it has every listed modifier. */
  function CarriesMethodTag(tag: string, modifiers: seq<string>): Item -> bool {
    (x: Item) => x.annotations.Some? && tag in x.annotations.value && IncludesAll(x.modifiers, modifiers)
  }
}
