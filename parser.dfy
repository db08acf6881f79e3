/**
 * The annotation parser and registry (`AnnotationParser` in
 * src/AnnotationParser.js). The three regular expressions and JSON.parse
 * are not modelled: a scanned file arrives as the list of its comment
 * matches (the declaration text after each doc comment, how that text
 * classified, and the tag matches inside the comment), and payload text is
 * read by an uninterpreted `parseJson`.
 */
module Parser {
  import opened Js
  import opened Arrays
  import opened Annotations

  /** One `annotationRegex` match: the tag name, the `{...}` type hint, the
      `(...)` payload text and the rest of the line. */
  datatype TagMatch = TagMatch(name: string, typeHint: Option<string>, settings: Option<string>, description: string)

  /** What `identRegex` captured from the declaration text: a class name
      (possibly empty), the method text before the opening parenthesis, or no
      match at all. */
  datatype Header = ClassHeader(className: string) | MethodHeader(methodText: string) | NoHeader

  /** One `commentRegex` match: the raw declaration text after the comment,
      its classification, and the comment's tag matches in order. */
  datatype CommentMatch = CommentMatch(ident: string, header: Header, tags: seq<TagMatch>)

  /** Characters that `.` in a JavaScript regular expression does not match. */
  predicate IsLineTerminator(c: char) {
    c in {'\n', '\r', '\U{2028}', '\U{2029}'}
  }

  /** Index of the first ')' or line terminator at or after `i` in `s`, or
      `|s|` when there is none. */
  function CloseAt(s: string, i: nat): (k: nat)
    requires i <= |s|
    ensures i <= k <= |s|
    ensures k < |s| ==> s[k] == ')' || IsLineTerminator(s[k])
    ensures forall j :: i <= j < k ==> s[j] != ')' && !IsLineTerminator(s[j])
    decreases |s| - i
  {
    if i == |s| || s[i] == ')' || IsLineTerminator(s[i]) then i
    else CloseAt(s, i + 1)
  }

  /** The payload group `\((?<settings>.+?)(?=\))\)` of `annotationRegex`
      tried at the start of `rest`: an opening parenthesis, then the
      shortest non-empty run of characters on the same line that is followed
      by ')'. No parenthesis balancing takes place. */
  function SettingsGroup(rest: string): (r: Option<string>)
    ensures r.Some? ==> && |r.value| >= 1 && |rest| >= |r.value| + 2
                        && rest[0] == '(' && rest[1..|r.value| + 1] == r.value && rest[|r.value| + 1] == ')'
                        && (forall j :: 1 <= j < |r.value| ==> r.value[j] != ')')
                        && forall j :: 0 <= j < |r.value| ==> !IsLineTerminator(r.value[j])
    ensures r.None? && |rest| > 0 && rest[0] == '(' ==>
              forall n :: 2 <= n < |rest| && rest[n] == ')' ==> exists j :: 1 <= j < n && IsLineTerminator(rest[j])
  {
    if |rest| >= 3 && rest[0] == '(' && !IsLineTerminator(rest[1]) then
      var k := CloseAt(rest, 2);
      if k < |rest| && rest[k] == ')' then Some(rest[1..k])
      else
        assert forall n :: 2 <= n < |rest| && rest[n] == ')' ==> k < n && IsLineTerminator(rest[k]);
        None
    else
      assert |rest| > 0 && rest[0] == '(' && |rest| >= 3 ==> IsLineTerminator(rest[1]);
      None
  }

  /** Nested parentheses are cut at the first ')' after the first payload
      character, not matched. */
  lemma SettingsGroupNested()
    ensures SettingsGroup("((a+(b*c))+d) text") == Some("(a+(b*c")
  {
    var s := "((a+(b*c))+d) text";
    assert CloseAt(s, 8) == 8;
    assert CloseAt(s, 7) == 8;
    assert CloseAt(s, 6) == 8;
    assert CloseAt(s, 5) == 8;
    assert CloseAt(s, 4) == 8;
    assert CloseAt(s, 3) == 8;
    assert CloseAt(s, 2) == 8;
    assert s[1..8] == "(a+(b*c";
  }

  /** The payload: JSON.parse of the payload text, null when there was no
      payload (JSON.parse(undefined) throws) or it did not parse. */
  function Payload(settings: Option<string>, parseJson: string -> Option<JValue>): JValue {
    match settings
    case None => JNull
    case Some(text) =>
      match parseJson(text)
      case None => JNull
      case Some(v) => v
  }

  function TagOf(t: TagMatch, parseJson: string -> Option<JValue>): (a: Tag)
    ensures a.name == t.name && a.typeHint == t.typeHint && a.description == t.description
    ensures t.settings.None? ==> a.value == JNull
    ensures t.settings.Some? && parseJson(t.settings.value).None? ==> a.value == JNull
    ensures t.settings.Some? && parseJson(t.settings.value).Some? ==> a.value == parseJson(t.settings.value).value
  {
    Tag(t.name, t.typeHint, Payload(t.settings, parseJson), t.description)
  }

  function Reader(parseJson: string -> Option<JValue>): TagMatch -> Tag {
    t => TagOf(t, parseJson)
  }

  function NamedTag(n: string): TagMatch -> bool {
    (t: TagMatch) => t.name == n
  }

  /** The `annotations` map built by pushing each tag match, in order, onto
      the list under its name. */
  function GroupTags(ts: seq<TagMatch>, parseJson: string -> Option<JValue>): map<string, Occurrences>
    decreases |ts|
  {
    if ts == [] then map[]
    else
      var g := GroupTags(ts[..|ts| - 1], parseJson);
      var t := ts[|ts| - 1];
      g[t.name := (if t.name in g then g[t.name] else []) + [TagOf(t, parseJson)]]
  }

  lemma MapConcat<T, U>(a: seq<T>, b: seq<T>, f: T -> U)
    ensures Map(a + b, f) == Map(a, f) + Map(b, f)
  {
  }

  /** A name is a key of the map exactly when some tag match carries it. */
  lemma {:induction false} GroupTagsKeys(ts: seq<TagMatch>, parseJson: string -> Option<JValue>, n: string)
    ensures n in GroupTags(ts, parseJson) <==> exists i :: 0 <= i < |ts| && ts[i].name == n
  {
    if ts != [] {
      var init, t := ts[..|ts| - 1], ts[|ts| - 1];
      GroupTagsKeys(init, parseJson, n);
      if n in GroupTags(init, parseJson) {
        var i :| 0 <= i < |init| && init[i].name == n;
        assert ts[i] == init[i];
      }
      if exists i :: 0 <= i < |ts| && ts[i].name == n {
        var i :| 0 <= i < |ts| && ts[i].name == n;
        if i < |ts| - 1 {
          assert init[i] == ts[i];
        }
      }
    }
  }

  /** Every occurrence of a tag is kept, under its name, in comment order:
      the list under a name is the matches carrying that name, read, in
      their order. */
  lemma {:induction false} GroupTagsByName(ts: seq<TagMatch>, parseJson: string -> Option<JValue>, n: string)
    requires n in GroupTags(ts, parseJson)
    ensures GroupTags(ts, parseJson)[n] == Map(Filter(ts, NamedTag(n)), Reader(parseJson))
  {
    var init, t := ts[..|ts| - 1], ts[|ts| - 1];
    assert ts == init + [t];
    var g := GroupTags(init, parseJson);
    FilterSnoc(init, t, NamedTag(n));
    if t.name != n {
      assert !NamedTag(n)(t);
      assert GroupTags(ts, parseJson)[n] == g[n];
      GroupTagsByName(init, parseJson, n);
    } else {
      assert NamedTag(n)(t);
      assert Filter(ts, NamedTag(n)) == Filter(init, NamedTag(n)) + [t];
      MapConcat(Filter(init, NamedTag(n)), [t], Reader(parseJson));
      assert Map([t], Reader(parseJson)) == [TagOf(t, parseJson)];
      if n in g {
        GroupTagsByName(init, parseJson, n);
      } else {
        GroupTagsKeys(init, parseJson, n);
        assert Filter(init, NamedTag(n)) == [];
      }
    }
  }

  /** The `annotations` property of an item: absent when the comment held no
      tag at all. */
  function TagsOf(ts: seq<TagMatch>, parseJson: string -> Option<JValue>): Option<map<string, Occurrences>> {
    if ts == [] then None else Some(GroupTags(ts, parseJson))
  }

  /** Classification of the declaration text: a class header with a
      non-empty name gives a class item named after the class; a method
      header is split on single spaces, its last token being the method name
      and the others its modifiers; anything else leaves the item untyped. */
  function Declared(h: Header): (x: Item)
    ensures x.annotations.None?
    ensures h.ClassHeader? && h.className != "" ==> x.kind == ClassKind && x.name == h.className && x.modifiers == []
    ensures h.MethodHeader? && h.methodText != "" ==>
              && x.kind == MethodKind
              && ' ' !in x.name
              && (forall k :: 0 <= k < |x.modifiers| ==> ' ' !in x.modifiers[k])
              && Join(x.modifiers + [x.name], ' ') == h.methodText
    ensures (h.ClassHeader? && h.className == "") || (h.MethodHeader? && h.methodText == "") || h.NoHeader? ==>
              x.kind == Untyped
  {
    match h
    case ClassHeader(n) =>
      if n != "" then Item(ClassKind, n, [], None) else Item(Untyped, "", [], None)
    case MethodHeader(text) =>
      if text != "" then
        var parts := Split(text, ' ');
        assert parts[..|parts| - 1] + [parts[|parts| - 1]] == parts;
        Item(MethodKind, parts[|parts| - 1], parts[..|parts| - 1], None)
      else Item(Untyped, "", [], None)
    case NoHeader => Item(Untyped, "", [], None)
  }

  function ItemOf(c: CommentMatch, parseJson: string -> Option<JValue>): Item {
    Declared(c.header).(annotations := TagsOf(c.tags, parseJson))
  }

  function ItemReader(parseJson: string -> Option<JValue>): CommentMatch -> Item {
    c => ItemOf(c, parseJson)
  }

  predicate Declares(c: CommentMatch) {
    !IsBlank(c.ident)
  }

  /** The `data` list a scan produces: one item per comment match whose
      declaration text is not blank. */
  function ItemsOf(scan: seq<CommentMatch>, parseJson: string -> Option<JValue>): seq<Item>
    decreases |scan|
  {
    if scan == [] then []
    else
      var c := scan[|scan| - 1];
      ItemsOf(scan[..|scan| - 1], parseJson) + (if Declares(c) then [ItemOf(c, parseJson)] else [])
  }

  /** One item per comment whose declaration text is not blank after
      trimming, in comment order; blank ones produce nothing. */
  lemma {:induction false} ItemsOfDeclared(scan: seq<CommentMatch>, parseJson: string -> Option<JValue>)
    ensures ItemsOf(scan, parseJson) == Map(Filter(scan, Declares), ItemReader(parseJson))
    ensures |ItemsOf(scan, parseJson)| == Count(scan, Declares)
  {
    var f := ItemReader(parseJson);
    if scan != [] {
      var init, c := scan[..|scan| - 1], scan[|scan| - 1];
      assert scan == init + [c];
      ItemsOfDeclared(init, parseJson);
      FilterSnoc(init, c, Declares);
      var kept := Filter(init, Declares);
      if Declares(c) {
        assert Filter(scan, Declares) == kept + [c];
        MapConcat(kept, [c], f);
        assert Map([c], f) == [ItemOf(c, parseJson)];
        assert ItemsOf(scan, parseJson) == ItemsOf(init, parseJson) + [ItemOf(c, parseJson)];
      } else {
        assert Filter(scan, Declares) == kept;
        assert ItemsOf(scan, parseJson) == ItemsOf(init, parseJson);
      }
    }
    assert |Map(Filter(scan, Declares), f)| == |Filter(scan, Declares)|;
  }

  /** The memo key: the file argument as a property name, null read as "null". */
  function MemoKey(file: Option<string>): string {
    file.GetOr("null")
  }

  /** The stored path: with both a root and a file given (non-empty), the
      file with the normalised root and one more character cut from the
      front; otherwise the file argument unchanged. */
  function RelPath(root: Option<string>, file: Option<string>, normalize: string -> string): Option<string> {
    if root.Some? && root.value != "" && file.Some? && file.value != "" then
      Some(Substring(file.value, |normalize(root.value)| + 1))
    else file
  }

  /** A file below the normalised root, after one separator character, is
      stored as the path that follows the separator. */
  lemma RelPathBelowRoot(root: string, file: string, sep: char, rest: string, normalize: string -> string)
    requires root != ""
    requires file == normalize(root) + [sep] + rest
    ensures RelPath(Some(root), Some(file), normalize) == Some(rest)
  {
    assert file[|normalize(root)| + 1..] == rest;
  }

  /** The unit a first `parse` of a file builds. */
  function ParsedUnit(scan: seq<CommentMatch>, root: Option<string>, file: Option<string>,
                      parseJson: string -> Option<JValue>, normalize: string -> string): SourceUnit
  {
    NewUnit(ItemsOf(scan, parseJson), root, RelPath(root, file, normalize))
  }

  /** The `getByAnnotation` callback: reading `v.class.annotations[tag]`
      throws on a unit without a class item or whose class comment held no tag. */
  function ClassTagged(tag: string): SourceUnit -> Res<bool> {
    (u: SourceUnit) => match ClassItem(u)
         case None => TypeError
         case Some(c) =>
           match c.annotations
           case None => TypeError
           case Some(m) => Ok(tag in m)
  }

  /** The unit's class has at least one occurrence of `tag`. */
  predicate CarriesClassTag(u: SourceUnit, tag: string) {
    ClassAnnotations(u, tag).Ok? && ClassAnnotations(u, tag).value != []
  }

  /** The units, in order, whose class carries `tag`: exactly those with
      at least one class-level occurrence of it. Throws when any unit has no
      class item or an untagged class. */
  function WithClassTag(units: seq<SourceUnit>, tag: string): (r: Res<seq<SourceUnit>>)
    ensures r.Ok? <==> forall i :: 0 <= i < |units| ==> ClassAnnotations(units[i], tag).Ok?
    ensures r.Ok? ==> IsSubseq(r.value, units)
    ensures r.Ok? ==> forall i :: 0 <= i < |r.value| ==> CarriesClassTag(r.value[i], tag)
    ensures r.Ok? ==> forall i :: 0 <= i < |units| ==> (CarriesClassTag(units[i], tag) ==> units[i] in r.value)
    ensures r.Ok? ==> r.value == Filter(units, Carrying(tag))
  {
    var p := ClassTagged(tag);
    ClassTaggedAll(units, tag);
    var r := FilterRes(units, p);
    assert r.Ok? ==> forall i :: 0 <= i < |r.value| ==> Holds(p)(r.value[i]) && r.value[i] in units;
    assert forall i :: 0 <= i < |units| ==> Holds(p)(units[i]) == Carrying(tag)(units[i]);
    FilterCongruent(units, Holds(p), Carrying(tag));
    r
  }

  function Carrying(tag: string): SourceUnit -> bool {
    u => CarriesClassTag(u, tag)
  }

  /** The callback throws exactly where `getClassAnnotations` would, and
      accepts exactly the units carrying the tag. */
  lemma ClassTaggedAll(units: seq<SourceUnit>, tag: string)
    ensures forall u :: u in units ==> (ClassTagged(tag)(u).Ok? <==> ClassAnnotations(u, tag).Ok?)
    ensures forall u :: u in units ==> (Holds(ClassTagged(tag))(u) <==> CarriesClassTag(u, tag))
  {
    forall u | u in units
      ensures ClassTagged(tag)(u).Ok? <==> ClassAnnotations(u, tag).Ok?
      ensures Holds(ClassTagged(tag))(u) <==> CarriesClassTag(u, tag)
    {
    }
  }

  /** The `get` callback: reading `v.id` throws on a unit without a class item. */
  function IdIs(id: string): SourceUnit -> Res<bool> {
    (u: SourceUnit) => match Id(u)
         case TypeError => TypeError
         case Ok(s) => Ok(s == id)
  }

  /** The unit has an id, and it is not `id`. */
  predicate OtherId(u: SourceUnit, id: string) {
    Id(u).Ok? && Id(u).value != id
  }

  /** `get(id)`: the first unit with that id; the search throws when it
      reaches a unit without a class item first. */
  function UnitById(units: seq<SourceUnit>, id: string): (r: Res<Option<SourceUnit>>)
    ensures r == Ok(None) <==> forall i :: 0 <= i < |units| ==> OtherId(units[i], id)
    ensures r.Ok? && r.value.Some? ==>
              exists k :: 0 <= k < |units| && units[k] == r.value.value && Id(units[k]) == Ok(id)
                          && forall j :: 0 <= j < k ==> OtherId(units[j], id)
    ensures r.TypeError? ==>
              exists k :: 0 <= k < |units| && Id(units[k]).TypeError?
                          && forall j :: 0 <= j < k ==> OtherId(units[j], id)
  {
    var p := IdIs(id);
    var k := FindIndex(units, Stops(p));
    assert forall j :: 0 <= j < |units| ==> (Stops(p)(units[j]) <==> !OtherId(units[j], id));
    assert 0 <= k ==> units[k] == units[k];
    FindRes(units, p)
  }

  /** The parser: its registry of units, its memo of parsed files, and the
      two collaborators it calls (JSON.parse and Path.normalize). */
  class AnnotationParser {
    const parseJson: string -> Option<JValue>
    const normalize: string -> string
    var registry: seq<SourceUnit>
    var loaded: map<string, SourceUnit>

    constructor (parseJson: string -> Option<JValue>, normalize: string -> string)
      ensures this.parseJson == parseJson && this.normalize == normalize
      ensures registry == [] && loaded == map[]
    {
      this.parseJson := parseJson;
      this.normalize := normalize;
      registry := [];
      loaded := map[];
    }

    function Get(id: string): Res<Option<SourceUnit>>
      reads this
    {
      UnitById(registry, id)
    }

    function GetByAnnotation(tag: string): Res<seq<SourceUnit>>
      reads this
    {
      WithClassTag(registry, tag)
    }

    /** The tag loop of `parse`: each tag match is pushed onto the list under
        its name, the map being created at the first match. */
    method CollectTags(tags: seq<TagMatch>) returns (annotations: Option<map<string, Occurrences>>)
      ensures annotations == TagsOf(tags, parseJson)
    {
      annotations := None;
      var j := 0;
      while j < |tags|
        invariant 0 <= j <= |tags|
        invariant annotations == TagsOf(tags[..j], parseJson)
      {
        var t := tags[j];
        var m: map<string, Occurrences> := if annotations.Some? then annotations.value else map[];
        var list: seq<Tag> := if t.name in m then m[t.name] else [];
        assert m == GroupTags(tags[..j], parseJson);
        assert tags[..j + 1][..j] == tags[..j] && tags[..j + 1][j] == t;
        annotations := Some(m[t.name := list + [TagOf(t, parseJson)]]);
        j := j + 1;
      }
      assert tags[..j] == tags;
    }

    /** `parse(content, root, file)`: a file argument seen before (null
        included) returns the stored unit without scanning; otherwise the
        scan's comment matches become items, the unit is built with the path
        relative to the root, and it is stored under the original argument. */
    method Parse(scan: seq<CommentMatch>, root: Option<string>, file: Option<string>) returns (u: SourceUnit)
      modifies this`loaded
      ensures MemoKey(file) in old(loaded) ==> u == old(loaded)[MemoKey(file)] && loaded == old(loaded)
      ensures MemoKey(file) !in old(loaded) ==>
                && u == ParsedUnit(scan, root, file, parseJson, normalize)
                && loaded == old(loaded)[MemoKey(file) := u]
    {
      var key := MemoKey(file);
      if key in loaded {
        return loaded[key];
      }
      var data: seq<Item> := [];
      var i := 0;
      while i < |scan|
        invariant 0 <= i <= |scan|
        invariant data == ItemsOf(scan[..i], parseJson)
        invariant loaded == old(loaded)
      {
        var c := scan[i];
        assert scan[..i + 1][..i] == scan[..i];
        if !IsBlank(c.ident) {
          var item := Declared(c.header);
          var annotations := CollectTags(c.tags);
          data := data + [item.(annotations := annotations)];
        }
        i := i + 1;
      }
      assert scan[..i] == scan;
      u := NewUnit(data, root, RelPath(root, file, normalize));
      loaded := loaded[key := u];
    }

    /** `load(root, glob)` with the file search and reads replaced by the
        list of (absolute path, scanned content) pairs: each file is parsed
        through the memo and its unit appended to the registry. */
    method Load(root: Option<string>, files: seq<(string, seq<CommentMatch>)>)
      modifies this`registry, this`loaded
      ensures var (m, units) := LoadAll(old(loaded), files, FileParser(root, parseJson, normalize));
              loaded == m && registry == old(registry) + units
    {
      var i := 0;
      assert files[..0] == [];
      while i < |files|
        invariant 0 <= i <= |files|
        invariant loaded == LoadAll(old(loaded), files[..i], FileParser(root, parseJson, normalize)).0
        invariant registry == old(registry) + LoadAll(old(loaded), files[..i], FileParser(root, parseJson, normalize)).1
      {
        assert files[..i + 1][..i] == files[..i];
        assert FileParser(root, parseJson, normalize)(files[i]) == ParsedUnit(files[i].1, root, Some(files[i].0), parseJson, normalize);
        var u := Parse(files[i].1, root, Some(files[i].0));
        registry := registry + [u];
        i := i + 1;
      }
      assert files[..i] == files;
    }
  }

  /** A listed file (its path and its scan) parsed for the first time. */
  function FileParser(root: Option<string>, parseJson: string -> Option<JValue>, normalize: string -> string)
    : ((string, seq<CommentMatch>)) -> SourceUnit
  {
    (f: (string, seq<CommentMatch>)) => ParsedUnit(f.1, root, Some(f.0), parseJson, normalize)
  }

  /** The memo and the registered units after parsing `files` in order,
      starting from the memo `memo`; `parse` builds the unit of a file the
      memo does not hold yet. */
  function LoadAll(memo: map<string, SourceUnit>, files: seq<(string, seq<CommentMatch>)>,
                   parse: ((string, seq<CommentMatch>)) -> SourceUnit): (map<string, SourceUnit>, seq<SourceUnit>)
    decreases |files|
  {
    if files == [] then (memo, [])
    else
      var (m, units) := LoadAll(memo, files[..|files| - 1], parse);
      var f := files[|files| - 1];
      if f.0 in m then (m, units + [m[f.0]])
      else (m[f.0 := parse(f)], units + [parse(f)])
  }

  /** One more file: it is registered with the unit the memo then holds
      for its path, and the memo only gains that path. */
  lemma LoadAllStep(memo: map<string, SourceUnit>, files: seq<(string, seq<CommentMatch>)>,
                    parse: ((string, seq<CommentMatch>)) -> SourceUnit)
    requires files != []
    ensures var (m, units) := LoadAll(memo, files[..|files| - 1], parse);
            var (m', units') := LoadAll(memo, files, parse);
            var f := files[|files| - 1];
            && f.0 in m' && units' == units + [m'[f.0]]
            && (forall k :: k in m ==> k in m' && m'[k] == m[k])
            && (forall k :: k in m' ==> k in m || k == f.0)
  {
  }

  /** Loading registers one unit per listed file, in order, each the unit
      the memo holds for that path afterwards. */
  lemma {:induction false} LoadAllUnits(memo: map<string, SourceUnit>, files: seq<(string, seq<CommentMatch>)>,
                                        parse: ((string, seq<CommentMatch>)) -> SourceUnit)
    ensures var (m, units) := LoadAll(memo, files, parse);
            && |units| == |files|
            && forall i :: 0 <= i < |files| ==> files[i].0 in m && units[i] == m[files[i].0]
  {
    if files != [] {
      var init := files[..|files| - 1];
      LoadAllUnits(memo, init, parse);
      LoadAllStep(memo, files, parse);
      var (m, units) := LoadAll(memo, init, parse);
      var (m', units') := LoadAll(memo, files, parse);
      forall i | 0 <= i < |init|
        ensures files[i].0 in m' && units'[i] == m'[files[i].0]
      {
        assert files[i] == init[i] && units'[i] == units[i];
      }
    }
  }

  /** Entries already in the memo are kept, and nothing but the listed
      paths is added to it. */
  lemma {:induction false} LoadAllMemo(memo: map<string, SourceUnit>, files: seq<(string, seq<CommentMatch>)>,
                                       parse: ((string, seq<CommentMatch>)) -> SourceUnit)
    ensures var m := LoadAll(memo, files, parse).0;
            && (forall k :: k in memo ==> k in m && m[k] == memo[k])
            && (forall k :: k in m && k !in memo ==> exists i :: 0 <= i < |files| && files[i].0 == k)
  {
    if files != [] {
      var init := files[..|files| - 1];
      LoadAllMemo(memo, init, parse);
      LoadAllStep(memo, files, parse);
      var m := LoadAll(memo, init, parse).0;
      var m' := LoadAll(memo, files, parse).0;
      forall k | k in m' && k !in memo
        ensures exists i :: 0 <= i < |files| && files[i].0 == k
      {
        if k in m {
          var i :| 0 <= i < |init| && init[i].0 == k;
          assert files[i] == init[i];
        } else {
          assert files[|files| - 1].0 == k;
        }
      }
    }
  }

  /** A path that is not in the memo beforehand is parsed on its first
      occurrence in the list; every later occurrence registers that same
      unit again. */
  lemma {:induction false} LoadAllParsesOnce(memo: map<string, SourceUnit>, files: seq<(string, seq<CommentMatch>)>,
                                             parse: ((string, seq<CommentMatch>)) -> SourceUnit, i: nat)
    requires i < |files| && files[i].0 !in memo
    requires forall j :: 0 <= j < i ==> files[j].0 != files[i].0
    ensures var m := LoadAll(memo, files, parse).0;
            files[i].0 in m && m[files[i].0] == parse(files[i])
  {
    var init, f := files[..|files| - 1], files[|files| - 1];
    LoadAllMemo(memo, init, parse);
    var m := LoadAll(memo, init, parse).0;
    if i < |init| {
      assert init[i] == files[i];
      LoadAllParsesOnce(memo, init, parse, i);
      assert files[i].0 in m;
    } else {
      assert f == files[i];
    }
  }
}
