# Mobiledoc 0.2.0 renderer, modelled and proved in Dafny

The renderer turns an editor post into a mobiledoc document in two passes. The model covers the serializer in `src/js/renderers/mobiledoc/0-3.js`.

1. **Linearizer** (`visitor`). It walks the post in pre-order and emits one opcode per node. It emits nothing on leaving a node. A marker's opcode carries its close count and value, and is followed by one `openMarkup` opcode per opened markup. A markup's opcode carries its key-sorted attribute list.
2. **Opcode compiler** (`postOpcodeCompiler`). It is a state machine over the opcodes. It appends sections, list items and runs through its "current" lists. It interns card, atom and markup definitions in three tables with lazily created caches.
3. **Driver** (`render`). It linearizes, compiles with a fresh compiler and returns the compiler's result.

Modules, one per concept:

- `Wrappers`: `Option`.
- `Seqs`: small sequence identities used by the larger proofs.
- `Attributes`: attribute and payload objects as ordered key/value entries, and the key sort used for canonical attribute lists.
- `Document`: the post tree. The tree has markup, list, image and card sections, list items, markers, atoms and markups.
- `Mobiledoc`: the output format, its numeric tags, the cache keys, `objectToCacheKey` and the stored shape of a markup definition.
- `Linearizer`: the opcodes and the visitor, as recursive functions over the tree.
- `Interning`: the find-or-append interner shared by the three `_findOrAdd*TypeIndex` helpers.
- `Handles`: the values that stand for the JavaScript aliases.
  - `this.markers` is a `Loc`: the run list of a markup section, or that of one item of a list section.
  - `this.items` is a section index.
  - `this.markupMarkerIds` is a `RunRef`: one run in one run list.
- `CompilerState`: each handler as a pure step on the compiler's state, with that step's meaning stated. `RunOpcodes` folds the steps over an opcode list.
- `Compiler`: the class `PostOpcodeCompiler`, with the source's fields, one method per handler and per interning helper, and the loop `Compile` over the opcodes. Each method is proved to perform exactly its step on the state (`Model()`).
- `Renderer`: what a rendered document says about its post (`Represents`).
  - A chain of lemmas proves that compiling every post's opcodes succeeds and yields a document that represents the post, with each definition stored once.
  - `Render` is the driver.

`Represents(doc, post)` states:

- the version is `0.2.0`;
- the wire sections stand, one for one and in order, for the post's sections:
  - `[1, tag, runs]` for a markup section;
  - `[3, tag, items]` for a list section;
  - `[2, src]` for an image section;
  - `[10, cardIndex]` for a card section;
- each run stands for its marker or atom:
  - the close count passes through unchanged;
  - the text is `value || ''`;
  - a marker's run carries, in order, the ids of the markup entries for its opened markups;
  - an atom's run carries its atom's index;
- every card, atom and markup index points to an entry with that node's key.

The atom visitor (lines 54-56) emits no `openMarkup` opcodes for an atom's opened markups, although atom nodes carry opened markups just as markers do. The model follows the code: an atom's run always has an empty markup-id list, and `RunRep` states so.

## Model

| member | source | states |
|---|---|---|
| Mobiledoc.SectionTypeTag | src/js/renderers/mobiledoc/0-3.js:16-19 | The section tags are 1, 2, 3 and 10. Each tag holds exactly for its section kind (markup, image, list, card). |
| Mobiledoc.ContentTypeTag | src/js/renderers/mobiledoc/0-3.js:21-22 | A run's tag is 0 exactly for text and 1 exactly for an atom. |
| Mobiledoc.ObjectToCacheKey | src/js/renderers/mobiledoc/0-3.js:60-67 | The `'none'` sentinel appears exactly for a falsy payload. Any object, including `{}`, gets a key that is a key-sorted permutation of its entries. |
| Mobiledoc.ObjectToCacheKeyCanonical | src/js/renderers/mobiledoc/0-3.js:60-67 | Two payloads with the same entries in any property order get the same cache key. |
| Mobiledoc.MarkupTypeFor | src/js/renderers/mobiledoc/0-3.js:158-160 | A stored markup definition omits the attribute list exactly when it is empty. The key can be read back from the definition. |
| Mobiledoc.MarkupTypeForInjective | src/js/renderers/mobiledoc/0-3.js:155-160 | Different markup keys give different stored definitions. |
| Attributes.SortEntriesCanonical | src/js/renderers/mobiledoc/0-3.js:51-53 | Attribute lists with distinct keys and the same entries, in any order, canonicalize to the same sorted list. |
| Linearizer.VisitMarkups | src/js/renderers/mobiledoc/0-3.js:49-53 | The opened markups give exactly one `openMarkup` each, in array order, each carrying the sorted attributes. |
| Linearizer.VisitSectionsAppend | src/js/renderers/mobiledoc/0-3.js:25-28 | The stream of consecutive sections is the concatenation of their streams, in order. |
| Linearizer.VisitItemsAppend | src/js/renderers/mobiledoc/0-3.js:33-40 | The stream of consecutive list items is the concatenation of their streams, in order. |
| Linearizer.VisitInlinesAppend | src/js/renderers/mobiledoc/0-3.js:29-32 | The stream of consecutive markers and atoms is the concatenation of their streams, in order. |
| Linearizer.InlinesHaveNoSectionOpcodes | src/js/renderers/mobiledoc/0-3.js:47-56 | Markers, atoms and markups emit no section-level opcode. |
| Linearizer.SectionOpcodesInOrder | src/js/renderers/mobiledoc/0-3.js:25-46 | The section-level opcodes of a post's stream are exactly one per section, in section order. |
| Interning.FindOrAdd | src/js/renderers/mobiledoc/0-3.js:125-168 | The index is below the table length, and its entry has the requested key. On a hit the table is unchanged and the cached index is returned. On a miss exactly one definition is appended and its index is the old length. The cache then maps the key to the index, and cache and table stay consistent. |
| Interning.FindOrAddTwice | src/js/renderers/mobiledoc/0-3.js:125-168 | A second request for the same key returns the same index and leaves the table unchanged. |
| Interning.KeysDistinct | src/js/renderers/mobiledoc/0-3.js:125-168 | In a consistent interner, two entries with the same key are the same entry. |
| Handles.PushRun | src/js/renderers/mobiledoc/0-3.js:72-77 | Appending through the current run list's handle extends that list by the run. Every other run list is unchanged. |
| Handles.PushRunToLastSection | src/js/renderers/mobiledoc/0-3.js:79-82 | When the handle names the last markup section, appending through it appends to that section's runs. |
| Handles.PushRunToLastItem | src/js/renderers/mobiledoc/0-3.js:87-90 | When the handle names the last item of the last list section, appending through it appends to that item. |
| Handles.AddMarkupIdToLastRun | src/js/renderers/mobiledoc/0-3.js:121-124 | Adding a markup id through the current-marker handle adds it only to the last run of that list. |
| Handles.PushItem | src/js/renderers/mobiledoc/0-3.js:87-90 | A new empty item is added at the end of list section `i`. Every other section and every existing run list is unchanged. |
| CompilerState.OpenPostStep | src/js/renderers/mobiledoc/0-3.js:108-120 | Afterwards the tables and the section list are empty and the result is set. |
| CompilerState.OpenMarkupSectionStep | src/js/renderers/mobiledoc/0-3.js:79-82 | Appends `[1, tag, []]`, whose empty run list becomes current. The tables, `items` and `markupMarkerIds` are unchanged. |
| CompilerState.OpenListSectionStep | src/js/renderers/mobiledoc/0-3.js:83-86 | Appends `[3, tag, []]`, whose item list becomes current. The tables, `markers` and `markupMarkerIds` are unchanged. |
| CompilerState.OpenListItemStep | src/js/renderers/mobiledoc/0-3.js:87-90 | Appends an empty item to the current list section only. That item becomes the current run list. The tables and `markupMarkerIds` are unchanged. |
| CompilerState.OpenImageSectionStep | src/js/renderers/mobiledoc/0-3.js:91-93 | Appends `[2, src]`. The tables and all three handles are unchanged. |
| CompilerState.OpenCardSectionStep | src/js/renderers/mobiledoc/0-3.js:94-97 | Appends `[10, index]`, where the entry at `index` has the card's name and payload key. Earlier sections, the atom and markup tables and all three handles are unchanged. |
| CompilerState.OpenMarkerStep | src/js/renderers/mobiledoc/0-3.js:70-78 | Appends the text run `[0, [], closeCount, value or '']` through the current handle. That run becomes the current marker. No table and no other handle changes. |
| CompilerState.OpenAtomStep | src/js/renderers/mobiledoc/0-3.js:98-107 | Appends an atom run with no markup ids, the same close count and the index of an entry with the atom's key. That run becomes the current marker. The card and markup tables are unchanged. |
| CompilerState.OpenMarkupStep | src/js/renderers/mobiledoc/0-3.js:121-124 | Appends exactly one id to the current marker's run. The id names the canonical definition of the markup. No other run, handle or table other than the markup table changes. |
| CompilerState.Step | src/js/renderers/mobiledoc/0-3.js:69-124 | Every handler keeps the state consistent. After `openPost`, tables only grow and sections are never removed. |
| CompilerState.RunAppend | src/js/renderers/mobiledoc/0-3.js:184 | Compiling a concatenation of opcode lists is compiling one list after the other. |
| CompilerState.Result | src/js/renderers/mobiledoc/0-3.js:113-119 | A result exists exactly once `openPost` has run. It has version `0.2.0` and shares the compiler's sections and tables. |
| Compiler.PostOpcodeCompiler.constructor | src/js/renderers/mobiledoc/0-3.js:183 | A fresh compiler is in the initial state. |
| Compiler.PostOpcodeCompiler.OpenMarker | src/js/renderers/mobiledoc/0-3.js:70-78 | Makes exactly the `openMarker` step on the fields. |
| Compiler.PostOpcodeCompiler.OpenMarkupSection | src/js/renderers/mobiledoc/0-3.js:79-82 | Makes exactly the `openMarkupSection` step on the fields. |
| Compiler.PostOpcodeCompiler.OpenListSection | src/js/renderers/mobiledoc/0-3.js:83-86 | Makes exactly the `openListSection` step on the fields. |
| Compiler.PostOpcodeCompiler.OpenListItem | src/js/renderers/mobiledoc/0-3.js:87-90 | Makes exactly the `openListItem` step on the fields. |
| Compiler.PostOpcodeCompiler.OpenImageSection | src/js/renderers/mobiledoc/0-3.js:91-93 | Makes exactly the `openImageSection` step on the fields. |
| Compiler.PostOpcodeCompiler.OpenCardSection | src/js/renderers/mobiledoc/0-3.js:94-97 | Makes exactly the `openCardSection` step on the fields. |
| Compiler.PostOpcodeCompiler.OpenAtom | src/js/renderers/mobiledoc/0-3.js:98-107 | Makes exactly the `openAtom` step on the fields. |
| Compiler.PostOpcodeCompiler.OpenPost | src/js/renderers/mobiledoc/0-3.js:108-120 | Makes exactly the `openPost` step on the fields. |
| Compiler.PostOpcodeCompiler.OpenMarkup | src/js/renderers/mobiledoc/0-3.js:121-124 | Makes exactly the `openMarkup` step on the fields. |
| Compiler.PostOpcodeCompiler.FindOrAddCardTypeIndex | src/js/renderers/mobiledoc/0-3.js:125-138 | Creates the cache if absent, then does find-or-append of `[name, payload]` under its key. Fields other than the card table and cache are unchanged. |
| Compiler.PostOpcodeCompiler.FindOrAddAtomTypeIndex | src/js/renderers/mobiledoc/0-3.js:139-152 | Creates the cache if absent, then does find-or-append of `[name, value, payload]` under its key. Fields other than the atom table and cache are unchanged. |
| Compiler.PostOpcodeCompiler.FindOrAddMarkerTypeIndex | src/js/renderers/mobiledoc/0-3.js:153-168 | Creates the cache if absent, then does find-or-append of `[tag]` or `[tag, attributes]` under its key. Fields other than the markup table and cache are unchanged. |
| Compiler.PostOpcodeCompiler.CompileOpcode | src/js/renderers/mobiledoc/0-3.js:69-124 | Dispatches an opcode to its handler by name. |
| Compiler.PostOpcodeCompiler.Compile | src/js/renderers/mobiledoc/0-3.js:184 | Compiling an opcode list, opcode by opcode, ends in the state that folding the steps over the list gives. |
| Renderer.CompileMarkups | src/js/renderers/mobiledoc/0-3.js:47-53 | A marker's `openMarkup` opcodes append, in order, one id per opened markup to that marker's run only. Each id names the markup's canonical definition. |
| Renderer.CompileInlines | src/js/renderers/mobiledoc/0-3.js:29-32 | A run list's markers and atoms append, in order, one run each that represents them. No other run list changes. |
| Renderer.CompileItems | src/js/renderers/mobiledoc/0-3.js:33-40 | A list section's items append, in order, one run list each that represents them, to that section only. |
| Renderer.CompileSections | src/js/renderers/mobiledoc/0-3.js:25-46 | A post's sections append, in order, one wire section each that represents them. |
| Renderer.CompilePost | src/js/renderers/mobiledoc/0-3.js:180-186 | Every post's stream compiles without a failing handler, and the result represents the post. |
| Renderer.ResultTables | src/js/renderers/mobiledoc/0-3.js:125-168 | Each table of a result stores every key at most once, and every markup entry has its canonical shape. |
| Renderer.EqualMarkupsShareId | src/js/renderers/mobiledoc/0-3.js:153-168 | Two opened markups with the same tag and sorted attributes get the same markup id. |
| Renderer.ReorderedMarkupSameKey | src/js/renderers/mobiledoc/0-3.js:51-53 | A markup's key does not depend on the order its attributes were set in. |
| Renderer.EqualAtomsShareIndex | src/js/renderers/mobiledoc/0-3.js:139-152 | Two atoms with the same name, value and payload key get the same atom index. |
| Renderer.EqualCardsShareIndex | src/js/renderers/mobiledoc/0-3.js:125-138 | Two cards with the same name and payload key get the same card index. |
| Renderer.Render | src/js/renderers/mobiledoc/0-3.js:180-186 | The returned document is the result of compiling the post's stream. It represents the post, is version `0.2.0` and stores each definition once, each markup in canonical shape. |

## Left out

- The internals of `visit`, `visitArray` and `compile` (`../../utils/compiler`) are not part of this model.
  - They are modelled as plain dispatch: the handler for a node's kind, and the handler named by an opcode.
  - Node kinds and opcodes are closed datatypes, so an unknown kind cannot be represented.
- `objectToSortedKVArray` (`../../utils/array-utils`) is not part of this model.
  - It is modelled as an insertion sort by key (`Attributes.SortEntries`), lexicographic on Dafny characters (Unicode scalar values).
  - The sort is not stable: two entries with equal keys would come out in reverse order. An object never has two equal keys, so no rendered result depends on this.
  - JavaScript's default string sort compares UTF-16 code units. The two orders differ only when one key has a character above U+FFFF where the other has one in U+E000 to U+FFFF.
  - Its result is kept as key/value pairs rather than the flat `[k1, v1, k2, v2]` array.
  - Order independence is proved only for objects with distinct keys, which is what a JavaScript object has.
- The string cache keys are modelled as structured tuples, not as `-`-joined strings.
  - The source's keys collide when a name, value or attribute contains `-`, or when a value is literally `'undefined'`.
  - The model therefore never merges two different definitions, where the source can.
- Payloads, attribute values and atom values are modelled as strings or string entries. Only the falsy versus object distinction on a payload is kept. Other JavaScript value kinds are not modelled.
- Malformed opcode streams are ruled out by preconditions (`CompilerState.Ready`), as the source would throw or misbehave on them:
  - handlers before `openPost`;
  - `openMarker` or `openAtom` with no current run list;
  - `openListItem` with no current list section;
  - `openMarkup` with no current marker.
  - A second `openPost` is also excluded. The source does not reset its caches there, so later lookups would return indices into the discarded tables.
  - The linearizer never emits any of these streams (`Renderer.CompilePost`).
- JavaScript aliasing is modelled by handles into the value `sections`, not by shared mutable arrays. The result object's sharing of the compiler's tables and sections is modelled by reading the result from the final state (`CompilerState.Result`).
- The prototype mechanics of `Object.create` are not modelled. So are construction of the input tree and the other renderers.
- The visitor's pushes onto a shared `opcodes` array are modelled as a function returning the opcode sequence.
- Renderer.Represents: it does not state that every table entry is referenced by some run or section. Every entry is added by the lookup of a node that then refers to it, but this is not proved.
