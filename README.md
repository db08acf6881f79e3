# zero-annotation, modelled in Dafny

zero-annotation reads JavaScript source files and collects the `@tag`
annotations in their doc comments. The model covers five parts:

- **Source units** (`Annotation`): one parsed file.
- **The parser and registry** (`AnnotationParser`): parsing is memoised per file.
- **The schema-driven definition engine** (`DefaultPluginManager` and its
  base `PluginManager`): it turns annotated classes into plugin definitions
  and creates instances from them.
- **The instance cache**: part of the same engine.
- **The lazy plugin list** (`PluginCollection`).

Files:

- `js.dfy` (module `Js`): the JavaScript values the engine handles.
  - A thrown TypeError (a property read on undefined or null) is the value
    `Res.TypeError`.
  - Also here: truthiness, and the property name a value becomes when it is
    used as an object key.
- `arrays.dfy` (module `Arrays`): `find`, `findIndex`, `filter` (also with a
  callback that may throw), `map`, `split` and `join`, each with its contract.
- `annotation.dfy` (module `Annotations`): the source unit as a datatype, and
  its queries as functions.
- `parser.dfy` (module `Parser`): the parser as a class with its registry and
  `_loaded` memo.
  - `parse` and its tag loop are methods, proved against the functions that
    specify them.
  - `get` and `getByAnnotation` are functions over the registry.
- `definitions.dfy` (module `Definitions`): the schema and definition records.
  - `setDeep`/`getDeep` are a write and a read of a map keyed by path.
  - Also here: the mapping rules (main slots, fields, nested method
    definitions) as specification functions, and the lemmas about them.
- `manager.dfy` (module `Managers`): the default manager as a class.
  - It holds the definitions list, the factory, the instance cache and the
    notifications sent.
  - Every loop of `loadDefinitions`, `addAnnotationDefinition`,
    `addAnnotationDefinitionField` and `create` is a method, proved equal to
    a specification function.
  - `get` and `getDefinition` of the base class are methods of the same class.
- `collection.dfy` (module `Collections`): `PluginCollection` as a generic
  class whose `_plugins` memo is a field.

Where the code and the written description of the system differ, the model
follows the code:

- The payload is the text up to the first `)` on the line, not a
  balanced-parenthesis extraction. Bare words are not quoted.
  - The tag name `\S+` is greedy, so `@tag(x)` without a space is read as
    the tag `tag(x)` with no payload.
  - Tag matches are inputs of the model, so this reaches it only through
    `SettingsGroup`.
- A non-array truthy `fields` entry is a path alias, not a default.
- `create(undefined)` throws; it does not return nothing. This is what
  `get` with an unknown id does.
- A comment without any tag gives its item no `annotations` map. Any query
  that reads it then throws.

## Model

| member | source | states |
|---|---|---|
| Annotations.NewUnit | src/Annotation.js:17-30 | without a non-empty path `file` and `ns` are null; otherwise `file` is the last `/` segment, with no `/` in it, and `ns + '/' + file` is the path whenever it holds a `/` (`ns` empty otherwise) |
| Annotations.LoadSave | src/Annotation.js:8-42 | `load(save(u))` gives back the same unit, so the same file, namespace and id |
| Annotations.ClassItem | src/Annotation.js:49-51 | the first item of kind class; absent exactly when there is none |
| Annotations.Methods | src/Annotation.js:54-56 | exactly the method items, as an ordered subsequence of the data |
| Annotations.Id | src/Annotation.js:44-46 | throws exactly when the unit has no class item |
| Annotations.IdFromPath | src/Annotation.js:44-46 | the id is the path with its file segment replaced by the class name; `"/" + name` for a path without `/`; `"null/" + name` without a path |
| Annotations.ClassAnnotations | src/Annotation.js:62-64 | the class's occurrences of the tag (non-empty), or `[]` when it has none; throws without a class item or when the class comment held no tag |
| Annotations.ClassAnnotationAt | src/Annotation.js:71-73 | `getClassAnnotation(tag, i)` is element `i` of `getClassAnnotations(tag)`, and null out of range; both throw on the same units |
| Annotations.GetMethod | src/Annotation.js:76-78 | the first method with that name; absent exactly when no method has it |
| Annotations.MethodsByAnnotation | src/Annotation.js:84-86 | the result is the list of methods, filtered in order to those that carry the tag and have every listed modifier; with no modifiers listed, every method carrying the tag. Throws exactly when some method has no annotations map |
| Parser.SettingsGroup | src/AnnotationParser.js:12 | the payload is the shortest non-empty text after `(` that is followed by `)`; it holds no line terminator and no `)` after its first character; nothing when every later `)` comes after a line break |
| Parser.SettingsGroupNested | src/AnnotationParser.js:12 | nested parentheses are not balanced: `((a+(b*c))+d)` yields `(a+(b*c` |
| Parser.TagOf | src/AnnotationParser.js:78-86 | name, type hint and description are copied; the payload is the parsed value, or null when it is absent or does not parse |
| Parser.GroupTagsKeys | src/AnnotationParser.js:75-88 | a name is a key of the annotations map exactly when some tag match carries it |
| Parser.GroupTagsByName | src/AnnotationParser.js:75-88 | the list under a name is every match with that name, read, in comment order |
| Parser.Declared | src/AnnotationParser.js:59-72 | a class header with a name gives a class item named after the class; method text gives a method whose name is the last space-separated token, with the earlier tokens as modifiers, and they join back to the text; anything else gives an untyped item |
| Parser.ItemsOfDeclared | src/AnnotationParser.js:54-90 | one item per comment whose declaration text is not blank, in comment order |
| Parser.RelPathBelowRoot | src/AnnotationParser.js:92-95 | a file below the normalised root is stored as the path after one separator character |
| Parser.WithClassTag | src/AnnotationParser.js:26-28 | the registry filtered, in order, to the units whose class has an occurrence of the tag; throws exactly when some unit has no class item or an untagged class |
| Parser.UnitById | src/AnnotationParser.js:22-24 | the first unit with that id; nothing exactly when every unit has another id; throws when the search first reaches a unit without a class |
| Parser.AnnotationParser.constructor | src/AnnotationParser.js:8-17 | empty registry and memo |
| Parser.AnnotationParser.CollectTags | src/AnnotationParser.js:75-88 | the tag loop builds exactly the grouped annotations map, and none for a comment without tags |
| Parser.AnnotationParser.Parse | src/AnnotationParser.js:51-98 | a file argument already in the memo (null as "null") returns the stored unit and changes nothing; otherwise the unit is built from the declared items and the relative path, and stored under the original argument |
| Parser.AnnotationParser.Load | src/AnnotationParser.js:35-43 | the registry grows by exactly the units `LoadAll` gives, in file order, and the memo becomes `LoadAll`'s |
| Parser.LoadAllUnits | src/AnnotationParser.js:35-43 | one unit per file, in file order, each the one the memo holds for its path afterwards |
| Parser.LoadAllMemo | src/AnnotationParser.js:35-52 | earlier memo entries are kept, and only listed paths are added to the memo |
| Parser.LoadAllParsesOnce | src/AnnotationParser.js:35-52 | a path new to the memo is parsed at its first occurrence, and the memo keeps that unit; later occurrences reuse it |
| Definitions.Lookup | src/DefaultPluginManager.js:120-123 | `fields[name]` is the first entry with that name, and undefined when there is none |
| Definitions.SchemaEntryMeaning | src/DefaultPluginManager.js:119-140 | `[path, default]` gives the path and the default; a bare truthy entry is the path, with no default; a falsy or missing entry gives the fallback; a defined value passes through |
| Definitions.SlotWrites | src/DefaultPluginManager.js:148-155 | slot 0 writes element 0 to its path (by default `id`); each later slot writes its element or the default to its path (by default null); throws exactly when a default is needed and the mapping has no `fields` |
| Definitions.MainSlots | src/DefaultPluginManager.js:147-159 | a non-array payload lands whole on slot 0's path; with an array, each path holds the value of the last slot writing it; other paths keep their values |
| Definitions.AsWrittenPayloadLost | src/DefaultPluginManager.js:148 | with the payload read from `.value` as written, `id` is undefined for every payload; read as intended, `(["x"])` gives `id` "x" |
| Definitions.FieldValues | src/DefaultPluginManager.js:176-180 | one value per occurrence, in order, each the value or the default; throws exactly when a default is needed and the mapping has no `fields` |
| Definitions.FieldApplied | src/DefaultPluginManager.js:168-182 | no occurrence list writes the default, and only over a null; one occurrence writes its value or the default; several write the ordered list of their values; only that path changes |
| Definitions.UnsetFieldGetsNoDefault | src/DefaultPluginManager.js:169-172 | a field with no occurrences whose path is unset is left unset: the default is written only over a null |
| Definitions.ClassFieldWithoutOccurrences | src/DefaultPluginManager.js:86-90 | a class-level field with no occurrences is written as an empty list |
| Definitions.MethodDefinition | src/DefaultPluginManager.js:96-104 | a nested definition carries the unit, the method-level tag and the method |
| Definitions.MethodDefinitions | src/DefaultPluginManager.js:96-105 | one nested definition per method, in method order; throws exactly when one of them does |
| Definitions.TagList | src/DefaultPluginManager.js:93-105 | the list for a method-level tag has one nested definition per method carrying the tag, in method order |
| Definitions.MethodLists | src/DefaultPluginManager.js:92-106 | every method-level tag of the schema ends up holding a list |
| Definitions.MethodListAt | src/DefaultPluginManager.js:92-106 | the list under a tag is exactly its own list (`TagList` in a definition), the last listing of a tag winning |
| Definitions.BuildDefinition | src/DefaultPluginManager.js:80-107 | a definition carries its unit and the schema's tag, and a list per method-level tag; a class without the tag throws |
| Definitions.BuildAll | src/DefaultPluginManager.js:79-109 | the definitions of the units, in order, up to the first unit whose definition throws |
| Managers.LoadedAppends | src/DefaultPluginManager.js:78-111 | the earlier definitions are kept in place; one definition per unit follows, in unit order, with `_plugin` the unit and `_annotation` the tag; exactly when the whole non-empty batch was built, one `plugins.<tag>` notification carrying that batch is sent, and otherwise none |
| Managers.MaterialiseOnce | src/DefaultPluginManager.js:67-73 | after the first call, a further call returns the same list and changes nothing, whatever the registry holds; a first call that succeeds returns one definition per tagged unit, in registry order, with that unit as `_plugin` |
| Managers.NotifiedExtends | src/DefaultPluginManager.js:18-22 | a notification before materialisation changes nothing; afterwards earlier entries stay, and every new one is for an announced unit whose class carries the tag; when all of those are built, each announced tagged unit gets its definition, in order |
| Managers.FactoryBypassesCache | src/DefaultPluginManager.js:38-45 | with a factory, `create` returns the factory's result for the definition and the resolved `args`, one per occurrence, in order; the cache is untouched |
| Managers.CreateUndefinedThrows | src/PluginManager.js:13-18 | an unknown id reaches `create` as undefined, which throws and leaves the cache as it was |
| Managers.PersistedInstanceIsReused | src/DefaultPluginManager.js:46-60 | without a factory, an instance of a `plugin_persist` class is cached and returned again without loading; for other classes the cache stays as it was and a second `create` loads again |
| Managers.FindById | src/PluginManager.js:24-26 | the first definition whose `id` is the string; nothing exactly when none is |
| Js.NumberKeysAreStrings | src/DefaultPluginManager.js:46-58 | a numeric id and its decimal string name the same cache entry, as does a one-element array of it |
| Managers.DefaultPluginManager.constructor | src/DefaultPluginManager.js:11-17 | no definitions yet (null), no factory, empty cache |
| Managers.DefaultPluginManager.SetFactory | src/DefaultPluginManager.js:29-32 | the factory is replaced |
| Managers.DefaultPluginManager.AddAnnotationDefinition | src/DefaultPluginManager.js:147-159 | the definition's properties become `MainApplied`'s (see `MainSlots`); a null occurrence throws |
| Managers.DefaultPluginManager.WriteSlots | src/DefaultPluginManager.js:148-155 | the slot loop applies exactly `SlotWrites` |
| Managers.DefaultPluginManager.AddAnnotationDefinitionField | src/DefaultPluginManager.js:168-182 | the definition's properties become `FieldApplied`'s |
| Managers.DefaultPluginManager.AddFields | src/DefaultPluginManager.js:86-90 | the field loop applies every field of the mapping, in order |
| Managers.DefaultPluginManager.NestedDefinition | src/DefaultPluginManager.js:96-104 | the nested definition is `MethodDefinition`'s |
| Managers.DefaultPluginManager.NestedDefinitions | src/DefaultPluginManager.js:96-105 | the inner loop gives `MethodDefinitions` |
| Managers.DefaultPluginManager.AddMethodLists | src/DefaultPluginManager.js:92-106 | the method loop gives `MethodLists` |
| Managers.DefaultPluginManager.Definition | src/DefaultPluginManager.js:80-107 | one unit's definition is `BuildDefinition`'s |
| Managers.DefaultPluginManager.AppendDefinitions | src/DefaultPluginManager.js:80-109 | the batch is `BuildAll`'s, and exactly that batch is appended to the list |
| Managers.DefaultPluginManager.LoadDefinitions | src/DefaultPluginManager.js:78-111 | the outcome, the list and the notifications are `Loaded`'s (see `LoadedAppends`) |
| Managers.DefaultPluginManager.GetDefinitions | src/DefaultPluginManager.js:67-73 | the result and the new state are `Materialise`'s (see `MaterialiseOnce`) |
| Managers.DefaultPluginManager.OnPlugins | src/DefaultPluginManager.js:18-22 | the new state is `Notified`'s (see `NotifiedExtends`) |
| Managers.DefaultPluginManager.Create | src/DefaultPluginManager.js:38-61 | the instance and the new cache are `Created`'s (see the three lemmas above) |
| Managers.DefaultPluginManager.GetDefinition | src/PluginManager.js:24-26 | `FindById` on the materialised list, with `getDefinitions`' effect on the state |
| Managers.DefaultPluginManager.Get | src/PluginManager.js:13-18 | a definition goes to `create` unchanged; an id goes through `getDefinition` and then to `create`, an unknown one as undefined |
| Collections.Resolved | src/PluginCollection.js:31-36 | a set memo is returned as it is; otherwise one instance per id, resolved in id order |
| Collections.ResolvedOnce | src/PluginCollection.js:31-36 | after the first call, a further call returns the same list whatever the resolver gives |
| Collections.Visited | src/PluginCollection.js:38-41 | every plugin in list order; a callback that throws ends the walk at that plugin |
| Arrays.MapRes | src/PluginCollection.js:43-47 | one result per element, in order, each that element's call; throws exactly when one of the calls does |
| Collections.CalledVisitsAll | src/PluginCollection.js:43-47 | `call` throws exactly when `each` with the same calls stops early |
| Collections.PluginCollection.constructor | src/PluginCollection.js:25-29 | no plugins cached |
| Collections.PluginCollection.GetPlugins | src/PluginCollection.js:31-36 | the result is `Resolved`'s, and it is kept as the memo |
| Collections.PluginCollection.Each | src/PluginCollection.js:38-41 | the plugins visited are `Visited`'s |
| Collections.PluginCollection.Call | src/PluginCollection.js:43-47 | the result is `MapRes`'s over the memoised list |

## Findings

| source | as written | input that shows it | evidently intended | confidence | as-written member | corrected member |
|---|---|---|---|---|---|---|
| src/AnnotationParser.js:85 | the parser stores the parsed payload as `settings`; the manager reads `annotation.value` (src/DefaultPluginManager.js:148, 157) | a class tagged `@plugin (["x"])` under a schema with `main: ['name']` | the definition's `id` is "x" | not executed | Definitions.AsWrittenPayloadLost | Definitions.MainSlots |

`types.js` also names the field `settings`. Every other member of the model
uses one payload field that both sides read (`Tag.value`).

## Left out

- The regular expressions and `JSON.parse` are not modelled as such.
  - A scanned file is given as its comment matches: the declaration text,
    what `identRegex` captured, and the tag matches.
  - Payload text is read by an uninterpreted `parseJson`.
  - `identRegex` is anchored and not multiline, so it matches at most once;
    one `Header` per comment stands for that.
- `load`'s Glob search and file reads are left out. `Load` takes the list of
  (absolute path, scanned content) pairs those would produce.
- Calls into code outside these files become function parameters:
  `Path.normalize`, `parser.getPlugin`, the module `require` together with
  the creator or constructor call, and the factory.
  - The factory's first argument (the manager) is not passed.
  - The definition at the head of the argument list is passed as its own
    parameter.
  - Instances are opaque tokens; a falsy creator result is `Falsy`.
  - `new` gives a fresh object on every call. In the model, freshness is
    only that each `create` receives its own `Loader`. Nothing makes two
    loaders return different tokens, and aliasing between instances is
    not modelled.
- The `parser.handler` event bus is left out. The `plugins` handler is the
  method `OnPlugins`, and each `plugins.<tag>` emit is appended to
  `emitted`.
- `setDeep`/`getDeep` come from another package and are modelled as a flat
  map keyed by path value. A dotted path is one key, not nested objects.
- Definitions.FieldApplied: an unset path is taken to read as undefined
  under `getDeep`, since that package is not part of this model.
  - The zero-occurrence branch (src/DefaultPluginManager.js:169-172) therefore
    writes the default only over a null that a main slot wrote.
  - On a fresh nested definition such a field stays unset
    (`UnsetFieldGetsNoDefault`).
  - A `getDeep` that answered null for an unset path would write the
    default there instead.
- `_plugin`, `_annotation` and `_method` are separate fields. In JavaScript
  a schema path with one of these names could overwrite them.
- Definitions are values, so pushing the same object into the local batch
  and into `_definitions` is not modelled as aliasing.
- Numbers are integers: no NaN and no floating point. Object keys are
  listed in schema order, not reordered the way JavaScript puts integer-like
  keys first.
- A thrown error is the single outcome `TypeError`. Changes made to a
  definition object before the throw are not kept, since that object is
  never reachable afterwards.
- Property names that hit `Object.prototype` (`constructor`, `__proto__`)
  in the `_loaded`, `_cache` and annotations objects are not modelled.
- The base `PluginManager`'s `getDefinitions` and `create`, which return
  nothing, are not modelled separately: without inheritance, `get` and
  `getDefinition` sit in the default manager's class.
- src/ServiceProxy.js and the unused proxy factory at the top of
  src/PluginCollection.js (lines 1-17) are not part of this model.
- Collections.PluginCollection.Each: returns the plugins visited and
  whether the walk finished, instead of the collection itself.
- Collections.PluginCollection.Call: the dynamic `p[method](...params)` is
  an abstract per-plugin function `invoke`.
