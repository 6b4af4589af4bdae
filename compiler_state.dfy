/**
 * The second pass of the renderer as a state machine: the state of the
 * opcode compiler and the effect of each opcode handler on it.
 */
module CompilerState {
  import opened Wrappers
  import opened Attributes
  import opened Document
  import opened Mobiledoc
  import opened Linearizer
  import opened Interning
  import opened Handles
  import opened Seqs

  /**
   * `started` records that `openPost` has run (`result` is set);
   * `markers`, `items` and `markupMarkerIds` are `None` while the source's
   * fields are still undefined.
   */
  datatype State = State(
    started: bool,
    sections: seq<WireSection>,
    atoms: Interner<AtomKey, AtomType>,
    cards: Interner<CardKey, CardType>,
    markups: Interner<MarkupKey, MarkupType>,
    markers: Option<Loc>,
    items: Option<nat>,
    markupMarkerIds: Option<RunRef>)

  /** A compiler fresh from `Object.create(postOpcodeCompiler)`. */
  const Initial: State :=
    State(false, [], Interner([], None), Interner([], None), Interner([], None), None, None, None)

  /**
   * The compiler's invariant: the three tables are valid interners, every
   * handle points at an existing run list, item list or run, every index
   * stored in the sections is a valid table index, and nothing has
   * happened before `openPost`.
   */
  ghost predicate Valid(st: State) {
    InternerValid(st.atoms, AtomKeyOf) &&
    InternerValid(st.cards, CardKeyOf) &&
    InternerValid(st.markups, MarkupKeyOf) && MarkupsCanonical(st.markups.table) &&
    (st.markers.Some? ==> ValidLoc(st.sections, st.markers.value)) &&
    (st.items.Some? ==> ValidList(st.sections, st.items.value)) &&
    (st.markupMarkerIds.Some? ==> ValidRef(st.sections, st.markupMarkerIds.value)) &&
    SectionsInBounds(st.sections, |st.atoms.table|, |st.cards.table|, |st.markups.table|) &&
    (!st.started ==> st == Initial)
  }

  /** Every stored markup definition is the one built from its key (shape `[tag]` or `[tag, attrs]`). */
  ghost predicate MarkupsCanonical(table: seq<MarkupType>) {
    forall i :: 0 <= i < |table| ==> table[i] == MarkupTypeFor(MarkupKeyOf(table[i]))
  }

  lemma InitialValid()
    ensures Valid(Initial)
  {
  }

  /**
   * What each handler needs in order not to fail: `openPost` comes first
   * and once; a run needs a current run list, a list item a current list
   * section, a markup a current run.
   */
  predicate Ready(st: State, op: Opcode) {
    match op
    case OpenPost => !st.started
    case OpenMarker(_, _) => st.started && st.markers.Some?
    case OpenAtom(_, _, _, _) => st.started && st.markers.Some?
    case OpenMarkup(_, _) => st.started && st.markupMarkerIds.Some?
    case OpenListItem => st.started && st.items.Some?
    case _ => st.started
  }

  /** The tables of `before` are prefixes of those of `after`. */
  ghost predicate TablesGrow(before: State, after: State) {
    before.atoms.table <= after.atoms.table &&
    before.cards.table <= after.cards.table &&
    before.markups.table <= after.markups.table
  }

  // ---------------------------------------------------------------------
  // The handlers.

  /** `openPost`: empty tables and sections, and the result is set. */
  function OpenPostStep(st: State): (r: State)
    requires Valid(st) && !st.started
    ensures Valid(r) && r.started
    ensures r.sections == [] && r.atoms.table == [] && r.cards.table == [] && r.markups.table == []
    ensures r.markers.None? && r.items.None? && r.markupMarkerIds.None?
  {
    st.(started := true, sections := [],
        atoms := st.atoms.(table := []), cards := st.cards.(table := []), markups := st.markups.(table := []))
  }

  /** `openMarkupSection`: a new markup section with an empty run list, which becomes current. */
  function OpenMarkupSectionStep(st: State, tagName: string): (r: State)
    requires Valid(st) && st.started
    ensures Valid(r) && TablesGrow(st, r)
    ensures r.sections == st.sections + [MarkupSec(tagName, [])]
    ensures r.markers == Some(SectionRuns(|st.sections|)) && RunsAt(r.sections, r.markers.value) == []
    ensures r.started == st.started && r.atoms == st.atoms && r.cards == st.cards && r.markups == st.markups
    ensures r.items == st.items && r.markupMarkerIds == st.markupMarkerIds
  {
    AppendSectionKeepsHandles(st.sections, MarkupSec(tagName, []));
    SectionsInBoundsAppend(st, MarkupSec(tagName, []));
    st.(sections := st.sections + [MarkupSec(tagName, [])], markers := Some(SectionRuns(|st.sections|)))
  }

  /** `openListSection`: a new list section with an empty item list, which becomes current. */
  function OpenListSectionStep(st: State, tagName: string): (r: State)
    requires Valid(st) && st.started
    ensures Valid(r) && TablesGrow(st, r)
    ensures r.sections == st.sections + [ListSec(tagName, [])]
    ensures r.items == Some(|st.sections|)
    ensures r.started == st.started && r.atoms == st.atoms && r.cards == st.cards && r.markups == st.markups
    ensures r.markers == st.markers && r.markupMarkerIds == st.markupMarkerIds
  {
    AppendSectionKeepsHandles(st.sections, ListSec(tagName, []));
    SectionsInBoundsAppend(st, ListSec(tagName, []));
    st.(sections := st.sections + [ListSec(tagName, [])], items := Some(|st.sections|))
  }

  /** `openListItem`: a new empty run list at the end of the current item list, which becomes current. */
  function OpenListItemStep(st: State): (r: State)
    requires Valid(st) && st.started && st.items.Some?
    ensures Valid(r) && TablesGrow(st, r)
    ensures var i := st.items.value;
      |r.sections| == |st.sections| && r.items == st.items && ValidList(r.sections, i) &&
      r.sections[i].items == st.sections[i].items + [[]] &&
      r.markers == Some(ItemRuns(i, |st.sections[i].items|)) &&
      RunsAt(r.sections, r.markers.value) == [] &&
      r.sections == st.sections[i := ListSec(st.sections[i].tagName, st.sections[i].items + [[]])]
    ensures r.started == st.started && r.atoms == st.atoms && r.cards == st.cards && r.markups == st.markups
    ensures r.markupMarkerIds == st.markupMarkerIds
  {
    var i := st.items.value;
    var secs := PushItem(st.sections, i);
    assert SectionsInBounds(secs, |st.atoms.table|, |st.cards.table|, |st.markups.table|) by {
      forall j | 0 <= j < |secs|
        ensures SectionInBounds(secs[j], |st.atoms.table|, |st.cards.table|, |st.markups.table|)
      {
        assert SectionInBounds(st.sections[j], |st.atoms.table|, |st.cards.table|, |st.markups.table|);
      }
    }
    st.(sections := secs, markers := Some(ItemRuns(i, |st.sections[i].items|)))
  }

  /** `openImageSection`: a new image section; no handle changes. */
  function OpenImageSectionStep(st: State, src: string): (r: State)
    requires Valid(st) && st.started
    ensures Valid(r) && TablesGrow(st, r)
    ensures r.sections == st.sections + [ImageSec(src)]
    ensures r.started == st.started && r.atoms == st.atoms && r.cards == st.cards && r.markups == st.markups
    ensures r.markers == st.markers && r.items == st.items && r.markupMarkerIds == st.markupMarkerIds
  {
    AppendSectionKeepsHandles(st.sections, ImageSec(src));
    SectionsInBoundsAppend(st, ImageSec(src));
    st.(sections := st.sections + [ImageSec(src)])
  }

  /** `openCardSection`: interns the card, then appends a section referring to its index. */
  function OpenCardSectionStep(st: State, name: string, payload: Payload): (r: State)
    requires Valid(st) && st.started
    ensures Valid(r) && TablesGrow(st, r)
    ensures |r.sections| == |st.sections| + 1 && r.sections[..|st.sections|] == st.sections
    ensures var c := r.sections[|st.sections|];
      c.CardSec? && c.cardIndex < |r.cards.table| &&
      CardKeyOf(r.cards.table[c.cardIndex]) == CardKey(name, ObjectToCacheKey(payload))
    ensures r.started == st.started && r.atoms == st.atoms && r.markups == st.markups
    ensures r.markers == st.markers && r.items == st.items && r.markupMarkerIds == st.markupMarkerIds
  {
    var key := CardKey(name, ObjectToCacheKey(payload));
    var (cards, index) := FindOrAdd(st.cards, key, CardType(name, payload), CardKeyOf);
    var s := CardSec(index);
    AppendSectionKeepsHandles(st.sections, s);
    SectionsInBoundsGrow(st.sections, |st.atoms.table|, |st.cards.table|, |st.markups.table|,
                         |st.atoms.table|, |cards.table|, |st.markups.table|);
    assert SectionsInBounds(st.sections + [s], |st.atoms.table|, |cards.table|, |st.markups.table|) by {
      var secs := st.sections + [s];
      forall j | 0 <= j < |secs|
        ensures SectionInBounds(secs[j], |st.atoms.table|, |cards.table|, |st.markups.table|)
      {
        if j < |st.sections| {
          assert secs[j] == st.sections[j];
        }
      }
    }
    assert (st.sections + [s])[..|st.sections|] == st.sections;
    st.(sections := st.sections + [s], cards := cards)
  }

  /** The effect shared by `openMarker` and `openAtom`: append `run` (with no markup ids yet) and make it current. */
  function PushCurrentRun(st: State, run: Run): (r: State)
    requires Valid(st) && st.markers.Some? && run.markupIds == []
    requires run.AtomRun? ==> run.atomIndex < |st.atoms.table|
    ensures Valid(r) && TablesGrow(st, r)
    ensures var loc := st.markers.value;
      r.markers == st.markers && r.items == st.items &&
      RunsAt(r.sections, loc) == RunsAt(st.sections, loc) + [run] &&
      r.markupMarkerIds == Some(RunRef(loc, |RunsAt(st.sections, loc)|)) &&
      RunAt(r.sections, r.markupMarkerIds.value) == run
    ensures r.started == st.started && r.atoms == st.atoms && r.cards == st.cards && r.markups == st.markups
    ensures SameShapes(st.sections, r.sections)
    ensures forall l :: ValidLoc(st.sections, l) && l != st.markers.value ==>
      ValidLoc(r.sections, l) && RunsAt(r.sections, l) == RunsAt(st.sections, l)
  {
    var loc := st.markers.value;
    var secs := PushRun(st.sections, loc, run);
    SameShapesKeepHandles(st.sections, secs);
    RunsAtInBounds(st.sections, loc, |st.atoms.table|, |st.cards.table|, |st.markups.table|);
    SetRunsAtInBounds(st.sections, loc, RunsAt(st.sections, loc) + [run],
                      |st.atoms.table|, |st.cards.table|, |st.markups.table|);
    assert ValidRef(secs, RunRef(loc, |RunsAt(st.sections, loc)|));
    st.(sections := secs, markupMarkerIds := Some(RunRef(loc, |RunsAt(st.sections, loc)|)))
  }

  /** `openMarker`: a text run `[0, [], closeCount, value || '']` appended to the current run list. */
  function OpenMarkerStep(st: State, closeCount: nat, value: Option<string>): (r: State)
    requires Valid(st) && st.started && st.markers.Some?
    ensures Valid(r) && TablesGrow(st, r) && r.markers == st.markers && r.items == st.items
    ensures var loc := st.markers.value; var run := TextRun([], closeCount, value.GetOr(""));
      RunsAt(r.sections, loc) == RunsAt(st.sections, loc) + [run] &&
      r.sections == PushRun(st.sections, loc, run) &&
      r.markupMarkerIds == Some(RunRef(loc, |RunsAt(st.sections, loc)|))
    ensures r.started == st.started && r.atoms == st.atoms && r.cards == st.cards && r.markups == st.markups
  {
    PushCurrentRun(st, TextRun([], closeCount, value.GetOr("")))
  }

  /** `openAtom`: interns the atom, then appends `[1, [], closeCount, index]` to the current run list. */
  function OpenAtomStep(st: State, closeCount: nat, name: string, value: Option<string>, payload: Payload): (r: State)
    requires Valid(st) && st.started && st.markers.Some?
    ensures Valid(r) && TablesGrow(st, r) && r.markers == st.markers && r.items == st.items
    ensures var loc := st.markers.value; var runs := RunsAt(r.sections, loc);
      |runs| == |RunsAt(st.sections, loc)| + 1 && runs[..|runs| - 1] == RunsAt(st.sections, loc) &&
      var run := runs[|runs| - 1];
      r.sections == PushRun(st.sections, loc, run) &&
      r.markupMarkerIds == Some(RunRef(loc, |RunsAt(st.sections, loc)|)) &&
      run.AtomRun? && run.markupIds == [] && run.closeCount == closeCount &&
      run.atomIndex < |r.atoms.table| &&
      AtomKeyOf(r.atoms.table[run.atomIndex]) == AtomKey(name, value, ObjectToCacheKey(payload))
    ensures r.started == st.started && r.cards == st.cards && r.markups == st.markups
  {
    var key := AtomKey(name, value, ObjectToCacheKey(payload));
    var (atoms, index) := FindOrAdd(st.atoms, key, AtomType(name, value, payload), AtomKeyOf);
    SectionsInBoundsGrow(st.sections, |st.atoms.table|, |st.cards.table|, |st.markups.table|,
                         |atoms.table|, |st.cards.table|, |st.markups.table|);
    var r := PushCurrentRun(st.(atoms := atoms), AtomRun([], closeCount, index));
    assert RunsAt(r.sections, st.markers.value) == RunsAt(st.sections, st.markers.value) + [AtomRun([], closeCount, index)];
    r
  }

  /** `openMarkup`: interns the markup, then appends its index to the current run's markup ids. */
  function OpenMarkupStep(st: State, tagName: string, attributes: Entries): (r: State)
    requires Valid(st) && st.started && st.markupMarkerIds.Some?
    ensures Valid(r) && TablesGrow(st, r)
    ensures r.markers == st.markers && r.items == st.items && r.markupMarkerIds == st.markupMarkerIds
    ensures r.started == st.started && r.atoms == st.atoms && r.cards == st.cards
    ensures var ref := st.markupMarkerIds.value; var run := RunAt(st.sections, ref);
      ValidRef(r.sections, ref) &&
      var run' := RunAt(r.sections, ref);
      r.sections == SetRunAt(st.sections, ref, run') &&
      run' == run.(markupIds := run'.markupIds) &&
      |run'.markupIds| == |run.markupIds| + 1 && run'.markupIds[..|run.markupIds|] == run.markupIds &&
      var id := run'.markupIds[|run.markupIds|];
      id < |r.markups.table| && r.markups.table[id] == MarkupTypeFor(MarkupKey(tagName, attributes))
    ensures SameShapes(st.sections, r.sections)
    ensures forall l :: ValidLoc(st.sections, l) && l != st.markupMarkerIds.value.loc ==>
      ValidLoc(r.sections, l) && RunsAt(r.sections, l) == RunsAt(st.sections, l)
  {
    var ref := st.markupMarkerIds.value;
    var key := MarkupKey(tagName, attributes);
    var (markups, index) := FindOrAdd(st.markups, key, MarkupTypeFor(key), MarkupKeyOf);
    var secs := AddMarkupId(st.sections, ref, index);
    SameShapesKeepHandles(st.sections, secs);
    SectionsInBoundsGrow(st.sections, |st.atoms.table|, |st.cards.table|, |st.markups.table|,
                         |st.atoms.table|, |st.cards.table|, |markups.table|);
    var runs := RunsAt(st.sections, ref.loc);
    RunsAtInBounds(st.sections, ref.loc, |st.atoms.table|, |st.cards.table|, |markups.table|);
    var run' := WithMarkupId(runs[ref.index], index);
    assert RunInBounds(run', |st.atoms.table|, |markups.table|) by {
      assert RunInBounds(runs[ref.index], |st.atoms.table|, |markups.table|);
    }
    SetRunsAtInBounds(st.sections, ref.loc, runs[ref.index := run'],
                      |st.atoms.table|, |st.cards.table|, |markups.table|);
    assert MarkupsCanonical(markups.table) by {
      if key !in Cache(st.markups) {
        assert markups.table == st.markups.table + [MarkupTypeFor(key)];
      }
    }
    st.(sections := secs, markups := markups)
  }


  lemma SectionsInBoundsAppend(st: State, s: WireSection)
    requires SectionsInBounds(st.sections, |st.atoms.table|, |st.cards.table|, |st.markups.table|)
    requires SectionInBounds(s, |st.atoms.table|, |st.cards.table|, |st.markups.table|)
    ensures SectionsInBounds(st.sections + [s], |st.atoms.table|, |st.cards.table|, |st.markups.table|)
  {
    var secs := st.sections + [s];
    forall j | 0 <= j < |secs|
      ensures SectionInBounds(secs[j], |st.atoms.table|, |st.cards.table|, |st.markups.table|)
    {
      if j < |st.sections| {
        assert secs[j] == st.sections[j];
      }
    }
  }

  // ---------------------------------------------------------------------
  // The compiler: each opcode dispatched to its handler, in order.

  /** `compile` applies the handler named by the opcode to its arguments. */
  function Step(st: State, op: Opcode): (r: State)
    requires Valid(st) && Ready(st, op)
    ensures Valid(r) && r.started
    ensures op != OpenPost ==> TablesGrow(st, r) && |st.sections| <= |r.sections|
  {
    match op
    case OpenPost => OpenPostStep(st)
    case OpenMarkupSection(tagName) => OpenMarkupSectionStep(st, tagName)
    case OpenListSection(tagName) => OpenListSectionStep(st, tagName)
    case OpenListItem => OpenListItemStep(st)
    case OpenImageSection(src) => OpenImageSectionStep(st, src)
    case OpenCardSection(name, payload) => OpenCardSectionStep(st, name, payload)
    case OpenMarker(closeCount, value) =>
      var r := OpenMarkerStep(st, closeCount, value);
      assert SameShapes(st.sections, r.sections);
      r
    case OpenMarkup(tagName, attributes) => OpenMarkupStep(st, tagName, attributes)
    case OpenAtom(closeCount, name, value, payload) =>
      var r := OpenAtomStep(st, closeCount, name, value, payload);
      assert SameShapes(st.sections, r.sections);
      r
  }

  /** Every handler in the stream finds what it needs. */
  ghost predicate Runnable(st: State, ops: seq<Opcode>)
    requires Valid(st)
    decreases |ops|
  {
    ops == [] || (Ready(st, ops[0]) && Runnable(Step(st, ops[0]), ops[1..]))
  }

  /** The state after compiling `ops` from `st`. */
  function RunOpcodes(st: State, ops: seq<Opcode>): (r: State)
    requires Valid(st) && Runnable(st, ops)
    ensures Valid(r)
    ensures st.started ==> r.started && TablesGrow(st, r)
    decreases |ops|
  {
    if ops == [] then st else RunOpcodes(Step(st, ops[0]), ops[1..])
  }

  /** Compiling a concatenation is compiling one part after the other. */
  lemma {:induction false} RunAppend(st: State, a: seq<Opcode>, b: seq<Opcode>)
    requires Valid(st) && Runnable(st, a) && Runnable(RunOpcodes(st, a), b)
    ensures Runnable(st, a + b) && RunOpcodes(st, a + b) == RunOpcodes(RunOpcodes(st, a), b)
    decreases |a|
  {
    if a == [] {
      assert a + b == b;
    } else {
      ConsAppend(a, b);
      RunAppend(Step(st, a[0]), a[1..], b);
    }
  }

  /** `compiler.result`: set by `openPost`; it shares the tables and sections built afterwards. */
  function Result(st: State): (doc: Option<Doc>)
    ensures doc.Some? <==> st.started
    ensures doc.Some? ==> doc.value.version == MOBILEDOC_VERSION && doc.value.sections == st.sections
    ensures doc.Some? ==> doc.value.atoms == st.atoms.table
    ensures doc.Some? ==> doc.value.cards == st.cards.table && doc.value.markups == st.markups.table
  {
    if st.started then
      Some(Doc(MOBILEDOC_VERSION, st.atoms.table, st.cards.table, st.markups.table, st.sections))
    else None
  }
}
