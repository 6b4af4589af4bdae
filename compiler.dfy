/**
 * `postOpcodeCompiler` as an object whose fields the opcode handlers
 * update in place. Each method is specified by the matching handler of
 * `CompilerState`, through `Model()`, the state those fields represent.
 */
module Compiler {
  import opened Wrappers
  import opened Attributes
  import opened Document
  import opened Mobiledoc
  import Linearizer
  import opened Interning
  import opened Handles
  import opened CompilerState

  class PostOpcodeCompiler {
    /** Whether `openPost` has run, i.e. whether `result` is set. */
    var started: bool
    var sections: seq<WireSection>
    var atomTypes: seq<AtomType>
    var cardTypes: seq<CardType>
    var markerTypes: seq<MarkupType>
    var atomTypeCache: Option<map<AtomKey, nat>>
    var cardTypeCache: Option<map<CardKey, nat>>
    var markerTypeCache: Option<map<MarkupKey, nat>>
    /** The current run list (`this.markers`), as a handle. */
    var markers: Option<Loc>
    /** The current item list (`this.items`), as the index of its list section. */
    var items: Option<nat>
    /** The current run's markup-id list (`this.markupMarkerIds`), as a handle to the run. */
    var markupMarkerIds: Option<RunRef>

    /** The state the fields represent. */
    function Model(): State
      reads this
    {
      State(started, sections,
            Interner(atomTypes, atomTypeCache), Interner(cardTypes, cardTypeCache),
            Interner(markerTypes, markerTypeCache), markers, items, markupMarkerIds)
    }

    ghost predicate Valid()
      reads this
    {
      CompilerState.Valid(Model())
    }

    /** `Object.create(postOpcodeCompiler)`: every field undefined. */
    constructor ()
      ensures Model() == Initial && Valid()
    {
      started := false;
      sections, atomTypes, cardTypes, markerTypes := [], [], [], [];
      atomTypeCache, cardTypeCache, markerTypeCache := None, None, None;
      markers, items, markupMarkerIds := None, None, None;
    }

    /** `compiler.result`. */
    function Result(): Option<Doc>
      reads this
    {
      CompilerState.Result(Model())
    }

    method OpenMarker(closeCount: nat, value: Option<string>)
      requires Valid() && Ready(Model(), Linearizer.OpenMarker(closeCount, value))
      modifies this
      ensures Model() == OpenMarkerStep(old(Model()), closeCount, value)
    {
      var loc := markers.value;
      markupMarkerIds := Some(RunRef(loc, |RunsAt(sections, loc)|));
      sections := PushRun(sections, loc, TextRun([], closeCount, value.GetOr("")));
    }

    method OpenMarkupSection(tagName: string)
      requires Valid() && Ready(Model(), Linearizer.OpenMarkupSection(tagName))
      modifies this
      ensures Model() == OpenMarkupSectionStep(old(Model()), tagName)
    {
      markers := Some(SectionRuns(|sections|));
      sections := sections + [MarkupSec(tagName, [])];
    }

    method OpenListSection(tagName: string)
      requires Valid() && Ready(Model(), Linearizer.OpenListSection(tagName))
      modifies this
      ensures Model() == OpenListSectionStep(old(Model()), tagName)
    {
      items := Some(|sections|);
      sections := sections + [ListSec(tagName, [])];
    }

    method OpenListItem()
      requires Valid() && Ready(Model(), Linearizer.OpenListItem)
      modifies this
      ensures Model() == OpenListItemStep(old(Model()))
    {
      var i := items.value;
      markers := Some(ItemRuns(i, |sections[i].items|));
      sections := PushItem(sections, i);
    }

    method OpenImageSection(url: string)
      requires Valid() && Ready(Model(), Linearizer.OpenImageSection(url))
      modifies this
      ensures Model() == OpenImageSectionStep(old(Model()), url)
    {
      sections := sections + [ImageSec(url)];
    }

    method OpenCardSection(name: string, payload: Payload)
      requires Valid() && Ready(Model(), Linearizer.OpenCardSection(name, payload))
      modifies this
      ensures Model() == OpenCardSectionStep(old(Model()), name, payload)
    {
      var index := FindOrAddCardTypeIndex(name, payload);
      sections := sections + [CardSec(index)];
    }

    method OpenAtom(closeCount: nat, name: string, value: Option<string>, payload: Payload)
      requires Valid() && Ready(Model(), Linearizer.OpenAtom(closeCount, name, value, payload))
      modifies this
      ensures Model() == OpenAtomStep(old(Model()), closeCount, name, value, payload)
    {
      var index := FindOrAddAtomTypeIndex(name, value, payload);
      var loc := markers.value;
      markupMarkerIds := Some(RunRef(loc, |RunsAt(sections, loc)|));
      sections := PushRun(sections, loc, AtomRun([], closeCount, index));
    }

    method OpenPost()
      requires Valid() && Ready(Model(), Linearizer.OpenPost)
      modifies this
      ensures Model() == OpenPostStep(old(Model()))
    {
      atomTypes, cardTypes, markerTypes := [], [], [];
      sections := [];
      started := true;
    }

    method OpenMarkup(tagName: string, attributes: Entries)
      requires Valid() && Ready(Model(), Linearizer.OpenMarkup(tagName, attributes))
      modifies this
      ensures Model() == OpenMarkupStep(old(Model()), tagName, attributes)
    {
      var index := FindOrAddMarkerTypeIndex(tagName, attributes);
      sections := AddMarkupId(sections, markupMarkerIds.value, index);
    }

    method FindOrAddCardTypeIndex(cardName: string, payload: Payload) returns (index: nat)
      requires Valid()
      modifies this
      ensures var key := CardKey(cardName, ObjectToCacheKey(payload));
        (Interner(cardTypes, cardTypeCache), index)
          == FindOrAdd(old(Model()).cards, key, CardType(cardName, payload), CardKeyOf)
      ensures Model() == old(Model()).(cards := Interner(cardTypes, cardTypeCache))
    {
      if cardTypeCache.None? {
        cardTypeCache := Some(map[]);
      }
      var key := CardKey(cardName, ObjectToCacheKey(payload));
      if key in cardTypeCache.value {
        index := cardTypeCache.value[key];
      } else {
        cardTypes := cardTypes + [CardType(cardName, payload)];
        index := |cardTypes| - 1;
        cardTypeCache := Some(cardTypeCache.value[key := index]);
      }
    }

    method FindOrAddAtomTypeIndex(atomName: string, atomValue: Option<string>, payload: Payload) returns (index: nat)
      requires Valid()
      modifies this
      ensures var key := AtomKey(atomName, atomValue, ObjectToCacheKey(payload));
        (Interner(atomTypes, atomTypeCache), index)
          == FindOrAdd(old(Model()).atoms, key, AtomType(atomName, atomValue, payload), AtomKeyOf)
      ensures Model() == old(Model()).(atoms := Interner(atomTypes, atomTypeCache))
    {
      if atomTypeCache.None? {
        atomTypeCache := Some(map[]);
      }
      var key := AtomKey(atomName, atomValue, ObjectToCacheKey(payload));
      if key in atomTypeCache.value {
        index := atomTypeCache.value[key];
      } else {
        atomTypes := atomTypes + [AtomType(atomName, atomValue, payload)];
        index := |atomTypes| - 1;
        atomTypeCache := Some(atomTypeCache.value[key := index]);
      }
    }

    method FindOrAddMarkerTypeIndex(tagName: string, attributesArray: Entries) returns (index: nat)
      requires Valid()
      modifies this
      ensures var key := MarkupKey(tagName, attributesArray);
        (Interner(markerTypes, markerTypeCache), index)
          == FindOrAdd(old(Model()).markups, key, MarkupTypeFor(key), MarkupKeyOf)
      ensures Model() == old(Model()).(markups := Interner(markerTypes, markerTypeCache))
    {
      if markerTypeCache.None? {
        markerTypeCache := Some(map[]);
      }
      var key := MarkupKey(tagName, attributesArray);
      if key in markerTypeCache.value {
        index := markerTypeCache.value[key];
      } else {
        var markerType := MarkupType(tagName, None);
        if |attributesArray| > 0 {
          markerType := MarkupType(tagName, Some(attributesArray));
        }
        markerTypes := markerTypes + [markerType];
        index := |markerTypes| - 1;
        markerTypeCache := Some(markerTypeCache.value[key := index]);
      }
    }

    /** One opcode, dispatched by name to its handler. */
    method CompileOpcode(op: Linearizer.Opcode)
      requires Valid() && Ready(Model(), op)
      modifies this
      ensures Valid() && Model() == Step(old(Model()), op)
    {
      match op
      case OpenPost => OpenPost();
      case OpenMarkupSection(tagName) => OpenMarkupSection(tagName);
      case OpenListSection(tagName) => OpenListSection(tagName);
      case OpenListItem => OpenListItem();
      case OpenImageSection(src) => OpenImageSection(src);
      case OpenCardSection(name, payload) => OpenCardSection(name, payload);
      case OpenMarker(closeCount, value) => OpenMarker(closeCount, value);
      case OpenMarkup(tagName, attributes) => OpenMarkup(tagName, attributes);
      case OpenAtom(closeCount, name, value, payload) => OpenAtom(closeCount, name, value, payload);
    }

    /** `compile(compiler, opcodes)`: every opcode in order. */
    method Compile(opcodes: seq<Linearizer.Opcode>)
      requires Valid() && Runnable(Model(), opcodes)
      modifies this
      ensures Valid() && Model() == RunOpcodes(old(Model()), opcodes)
    {
      var i := 0;
      while i < |opcodes|
        invariant 0 <= i <= |opcodes|
        invariant Valid() && Runnable(Model(), opcodes[i..])
        invariant RunOpcodes(old(Model()), opcodes) == RunOpcodes(Model(), opcodes[i..])
      {
        assert opcodes[i..][1..] == opcodes[i + 1..];
        CompileOpcode(opcodes[i]);
        i := i + 1;
      }
    }
  }
}
