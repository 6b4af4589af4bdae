/**
 * `render`: linearize the post, compile the opcodes with a fresh
 * compiler, return the compiler's result; and what that result says
 * about the post, proved for every post.
 */
module Renderer {
  import opened Wrappers
  import opened Attributes
  import opened Document
  import opened Mobiledoc
  import opened Linearizer
  import opened Interning
  import opened Handles
  import opened CompilerState
  import opened Seqs
  import Compiler

  // ---------------------------------------------------------------------
  // What a rendered document says about the post it came from.

  datatype Tables = Tables(atoms: seq<AtomType>, cards: seq<CardType>, markups: seq<MarkupType>)

  function TablesOf(st: State): Tables {
    Tables(st.atoms.table, st.cards.table, st.markups.table)
  }

  function DocTables(doc: Doc): Tables {
    Tables(doc.atoms, doc.cards, doc.markups)
  }

  ghost predicate Extends(t: Tables, t': Tables) {
    t.atoms <= t'.atoms && t.cards <= t'.cards && t.markups <= t'.markups
  }

  /** The key under which a markup of the post is interned. */
  function MarkupKeyFor(m: Markup): MarkupKey {
    MarkupKey(m.tagName, SortEntries(m.attributes))
  }

  /** Each id names the table entry `[tagName]` or `[tagName, sortedAttributes]` of the markup at its position. */
  ghost predicate MarkupIdsRep(markups: seq<MarkupType>, ids: seq<nat>, ms: seq<Markup>) {
    |ids| == |ms| &&
    forall k :: 0 <= k < |ms| ==> ids[k] < |markups| && markups[ids[k]] == MarkupTypeFor(MarkupKeyFor(ms[k]))
  }

  /**
   * A text run carries the marker's close count, value (or `''`) and the
   * ids of its opened markups; an atom run carries the atom's close count
   * and the index of an atom entry with the atom's key.
   */
  ghost predicate RunRep(t: Tables, r: Run, m: Inline) {
    match m
    case Marker(closed, value, opens) =>
      r.TextRun? && r.closeCount == |closed| && r.text == value.GetOr("") &&
      MarkupIdsRep(t.markups, r.markupIds, opens)
    case Atom(closed, name, value, payload, _) =>
      r.AtomRun? && r.closeCount == |closed| && r.markupIds == [] &&
      r.atomIndex < |t.atoms| && AtomKeyOf(t.atoms[r.atomIndex]) == AtomKey(name, value, ObjectToCacheKey(payload))
  }

  ghost predicate RunsRep(t: Tables, rs: seq<Run>, ms: seq<Inline>) {
    |rs| == |ms| && forall j :: 0 <= j < |ms| ==> RunRep(t, rs[j], ms[j])
  }

  ghost predicate ItemsRep(t: Tables, its: seq<seq<Run>>, items: seq<ListItem>) {
    |its| == |items| && forall k :: 0 <= k < |items| ==> RunsRep(t, its[k], items[k].markers)
  }

  ghost predicate SectionRep(t: Tables, ws: WireSection, s: Section) {
    match s
    case MarkupSection(tagName, markers) =>
      ws.MarkupSec? && ws.tagName == tagName && RunsRep(t, ws.runs, markers)
    case ListSection(tagName, items) =>
      ws.ListSec? && ws.tagName == tagName && ItemsRep(t, ws.items, items)
    case ImageSection(src) =>
      ws == ImageSec(src)
    case CardSection(name, payload) =>
      ws.CardSec? && ws.cardIndex < |t.cards| &&
      CardKeyOf(t.cards[ws.cardIndex]) == CardKey(name, ObjectToCacheKey(payload))
  }

  ghost predicate SectionsRep(t: Tables, wss: seq<WireSection>, ss: seq<Section>) {
    |wss| == |ss| && forall i :: 0 <= i < |ss| ==> SectionRep(t, wss[i], ss[i])
  }

  /** The document is version 0.2.0 and its sections stand, one for one and in order, for the post's. */
  ghost predicate Represents(doc: Doc, post: Post) {
    doc.version == MOBILEDOC_VERSION && SectionsRep(DocTables(doc), doc.sections, post.sections)
  }

  // ---------------------------------------------------------------------
  // Tables only grow, so what a run or section stands for stays true.

  lemma MarkupIdsRepGrow(markups: seq<MarkupType>, markups': seq<MarkupType>, ids: seq<nat>, ms: seq<Markup>)
    requires MarkupIdsRep(markups, ids, ms) && markups <= markups'
    ensures MarkupIdsRep(markups', ids, ms)
  {
    forall k | 0 <= k < |ms|
      ensures ids[k] < |markups'| && markups'[ids[k]] == MarkupTypeFor(MarkupKeyFor(ms[k]))
    {
      assert markups'[ids[k]] == markups[ids[k]];
    }
  }

  lemma RunRepGrow(t: Tables, t': Tables, r: Run, m: Inline)
    requires RunRep(t, r, m) && Extends(t, t')
    ensures RunRep(t', r, m)
  {
    match m
    case Marker(_, _, opens) => MarkupIdsRepGrow(t.markups, t'.markups, r.markupIds, opens);
    case Atom(_, _, _, _, _) => assert t'.atoms[r.atomIndex] == t.atoms[r.atomIndex];
  }

  lemma RunsRepGrow(t: Tables, t': Tables, rs: seq<Run>, ms: seq<Inline>)
    requires RunsRep(t, rs, ms) && Extends(t, t')
    ensures RunsRep(t', rs, ms)
  {
    forall j | 0 <= j < |ms| ensures RunRep(t', rs[j], ms[j]) {
      RunRepGrow(t, t', rs[j], ms[j]);
    }
  }

  lemma ItemsRepGrow(t: Tables, t': Tables, its: seq<seq<Run>>, items: seq<ListItem>)
    requires ItemsRep(t, its, items) && Extends(t, t')
    ensures ItemsRep(t', its, items)
  {
    forall k | 0 <= k < |items| ensures RunsRep(t', its[k], items[k].markers) {
      RunsRepGrow(t, t', its[k], items[k].markers);
    }
  }

  lemma SectionRepGrow(t: Tables, t': Tables, ws: WireSection, s: Section)
    requires SectionRep(t, ws, s) && Extends(t, t')
    ensures SectionRep(t', ws, s)
  {
    match s
    case MarkupSection(_, markers) => RunsRepGrow(t, t', ws.runs, markers);
    case ListSection(_, items) => ItemsRepGrow(t, t', ws.items, items);
    case ImageSection(_) =>
    case CardSection(_, _) => assert t'.cards[ws.cardIndex] == t.cards[ws.cardIndex];
  }

  lemma SectionsRepGrow(t: Tables, t': Tables, wss: seq<WireSection>, ss: seq<Section>)
    requires SectionsRep(t, wss, ss) && Extends(t, t')
    ensures SectionsRep(t', wss, ss)
  {
    forall i | 0 <= i < |ss| ensures SectionRep(t', wss[i], ss[i]) {
      SectionRepGrow(t, t', wss[i], ss[i]);
    }
  }

  // ---------------------------------------------------------------------
  // Compiling the stream of each kind of node.

  /**
   * From `st` to `r` the markup ids of the markups `ms` were appended, in
   * order, to the current run, and nothing else in the sections changed.
   */
  ghost predicate IdsAppended(st: State, r: State, ms: seq<Markup>)
    requires st.markupMarkerIds.Some? && ValidRef(st.sections, st.markupMarkerIds.value)
  {
    var ref := st.markupMarkerIds.value;
    r.started && r.markers == st.markers && r.items == st.items && r.markupMarkerIds == st.markupMarkerIds &&
    TablesGrow(st, r) && ValidRef(r.sections, ref) &&
    var run := RunAt(st.sections, ref);
    var run' := RunAt(r.sections, ref);
    r.sections == SetRunAt(st.sections, ref, run') &&
    run' == run.(markupIds := run'.markupIds) &&
    |run'.markupIds| == |run.markupIds| + |ms| && run'.markupIds[..|run.markupIds|] == run.markupIds &&
    MarkupIdsRep(r.markups.table, run'.markupIds[|run.markupIds|..], ms)
  }

  lemma OneMarkupAppended(st: State, m: Markup)
    requires Valid(st) && st.started && st.markupMarkerIds.Some?
    ensures Runnable(st, [VisitMarkup(m)])
    ensures IdsAppended(st, RunOpcodes(st, [VisitMarkup(m)]), [m])
  {
    RunOne(st, VisitMarkup(m));
  }

  lemma NoMarkupsAppended(st: State)
    requires Valid(st) && st.started && st.markupMarkerIds.Some?
    ensures IdsAppended(st, st, [])
  {
    var ref := st.markupMarkerIds.value;
    SetRunsAtSame(st.sections, ref.loc);
    assert RunsAt(st.sections, ref.loc)[ref.index := RunAt(st.sections, ref)] == RunsAt(st.sections, ref.loc);
  }

  lemma IdsAppendedCompose(st: State, s1: State, s2: State, a: seq<Markup>, b: seq<Markup>)
    requires st.markupMarkerIds.Some? && ValidRef(st.sections, st.markupMarkerIds.value)
    requires IdsAppended(st, s1, a) && IdsAppended(s1, s2, b)
    ensures IdsAppended(st, s2, a + b)
  {
    var ref := st.markupMarkerIds.value;
    var run := RunAt(st.sections, ref);
    var run1 := RunAt(s1.sections, ref);
    var run2 := RunAt(s2.sections, ref);
    var n := |run.markupIds|;
    SetRunsAtTwice(st.sections, ref.loc, RunsAt(st.sections, ref.loc)[ref.index := run1],
                   RunsAt(s1.sections, ref.loc)[ref.index := run2]);
    assert RunsAt(s1.sections, ref.loc) == RunsAt(st.sections, ref.loc)[ref.index := run1];
    assert RunsAt(st.sections, ref.loc)[ref.index := run1][ref.index := run2]
        == RunsAt(st.sections, ref.loc)[ref.index := run2];
    assert s2.sections == SetRunAt(st.sections, ref, run2);
    assert run2.markupIds[..n + |a|] == run1.markupIds;
    assert run2.markupIds[..n] == run.markupIds;
    var tail1 := run1.markupIds[n..];
    var tail2 := run1.markupIds[n + |a|..];
    MarkupIdsRepGrow(s1.markups.table, s2.markups.table, tail1, a);
    var tail := run2.markupIds[n..];
    assert tail[..|a|] == tail1;
    assert tail[|a|..] == run2.markupIds[n + |a|..];
    forall k | 0 <= k < |a + b|
      ensures tail[k] < |s2.markups.table| && s2.markups.table[tail[k]] == MarkupTypeFor(MarkupKeyFor((a + b)[k]))
    {
      if k < |a| {
        assert tail[k] == tail1[k];
      } else {
        assert tail[k] == run2.markupIds[n + |a|..][k - |a|];
      }
    }
  }

  /** The `openMarkup` opcodes after a marker append, in order, one id each to that marker's run. */
  lemma {:induction false} CompileMarkups(st: State, ms: seq<Markup>)
    requires Valid(st) && st.started && st.markupMarkerIds.Some?
    ensures Runnable(st, VisitMarkups(ms))
    ensures IdsAppended(st, RunOpcodes(st, VisitMarkups(ms)), ms)
    decreases |ms|
  {
    if ms == [] {
      NoMarkupsAppended(st);
    } else {
      var ops := [VisitMarkup(ms[0])];
      OneMarkupAppended(st, ms[0]);
      var st1 := RunOpcodes(st, ops);
      CompileMarkups(st1, ms[1..]);
      RunAppend(st, ops, VisitMarkups(ms[1..]));
      IdsAppendedCompose(st, st1, RunOpcodes(st1, VisitMarkups(ms[1..])), [ms[0]], ms[1..]);
      HeadTail(ms);
    }
  }

  lemma RunOne(st: State, op: Opcode)
    requires Valid(st) && Ready(st, op)
    ensures Runnable(st, [op]) && RunOpcodes(st, [op]) == Step(st, op)
  {
    assert [op][1..] == [];
  }

  /**
   * From `st` to `r` the runs standing for `ms` were appended, in order, to
   * the current run list, and no other run list changed.
   */
  ghost predicate RunsAppended(st: State, r: State, ms: seq<Inline>)
    requires st.markers.Some? && ValidLoc(st.sections, st.markers.value)
  {
    var loc := st.markers.value;
    r.started && r.markers == st.markers && r.items == st.items &&
    TablesGrow(st, r) && ValidLoc(r.sections, loc) &&
    var runs := RunsAt(st.sections, loc);
    var runs' := RunsAt(r.sections, loc);
    r.sections == SetRunsAt(st.sections, loc, runs') &&
    |runs'| == |runs| + |ms| && runs'[..|runs|] == runs &&
    RunsRep(TablesOf(r), runs'[|runs|..], ms)
  }

  /** A run pushed through a handle and then replaced through a reference to it is the replacement pushed. */
  lemma PushThenSet(secs: seq<WireSection>, loc: Loc, run0: Run, run': Run)
    requires ValidLoc(secs, loc)
    ensures var runs := RunsAt(secs, loc); var ref := RunRef(loc, |runs|);
      ValidRef(PushRun(secs, loc, run0), ref) &&
      SetRunAt(PushRun(secs, loc, run0), ref, run') == SetRunsAt(secs, loc, runs + [run'])
  {
    var runs := RunsAt(secs, loc);
    SetRunsAtTwice(secs, loc, runs + [run0], (runs + [run0])[|runs| := run']);
    assert (runs + [run0])[|runs| := run'] == runs + [run'];
  }

  lemma RunsAppendedIntro(st: State, r: State, ms: seq<Inline>, added: seq<Run>)
    requires st.markers.Some? && ValidLoc(st.sections, st.markers.value)
    requires r.started && r.markers == st.markers && r.items == st.items && TablesGrow(st, r)
    requires r.sections == SetRunsAt(st.sections, st.markers.value, RunsAt(st.sections, st.markers.value) + added)
    requires RunsRep(TablesOf(r), added, ms)
    ensures RunsAppended(st, r, ms)
  {
    var runs := RunsAt(st.sections, st.markers.value);
    assert (runs + added)[..|runs|] == runs && (runs + added)[|runs|..] == added;
  }

  lemma OneMarkerAppended(st: State, m: Inline)
    requires Valid(st) && st.started && st.markers.Some? && m.Marker?
    ensures Runnable(st, VisitInline(m))
    ensures RunsAppended(st, RunOpcodes(st, VisitInline(m)), [m])
  {
    var loc := st.markers.value;
    var runs := RunsAt(st.sections, loc);
    var op := Linearizer.OpenMarker(|m.closedMarkups|, m.value);
    RunOne(st, op);
    var st1 := Step(st, op);
    CompileMarkups(st1, m.openedMarkups);
    RunAppend(st, [op], VisitMarkups(m.openedMarkups));
    var r := RunOpcodes(st1, VisitMarkups(m.openedMarkups));
    var run' := RunAt(r.sections, RunRef(loc, |runs|));
    PushThenSet(st.sections, loc, TextRun([], |m.closedMarkups|, m.value.GetOr("")), run');
    assert run'.markupIds[0..] == run'.markupIds;
    RunsAppendedIntro(st, r, [m], [run']);
  }

  lemma OneAtomAppended(st: State, m: Inline)
    requires Valid(st) && st.started && st.markers.Some? && m.Atom?
    ensures Runnable(st, VisitInline(m))
    ensures RunsAppended(st, RunOpcodes(st, VisitInline(m)), [m])
  {
    var loc := st.markers.value;
    var runs := RunsAt(st.sections, loc);
    var op := Linearizer.OpenAtom(|m.closedMarkups|, m.name, m.value, m.payload);
    RunOne(st, op);
    var r := Step(st, op);
    var runs' := RunsAt(r.sections, loc);
    assert runs' == runs + [runs'[|runs|]];
    RunsAppendedIntro(st, r, [m], [runs'[|runs|]]);
  }

  lemma OneInlineAppended(st: State, m: Inline)
    requires Valid(st) && st.started && st.markers.Some?
    ensures Runnable(st, VisitInline(m))
    ensures RunsAppended(st, RunOpcodes(st, VisitInline(m)), [m])
  {
    if m.Marker? {
      OneMarkerAppended(st, m);
    } else {
      OneAtomAppended(st, m);
    }
  }

  lemma RunsAppendedCompose(st: State, s1: State, s2: State, a: seq<Inline>, b: seq<Inline>)
    requires st.markers.Some? && ValidLoc(st.sections, st.markers.value)
    requires RunsAppended(st, s1, a) && RunsAppended(s1, s2, b)
    ensures RunsAppended(st, s2, a + b)
  {
    var loc := st.markers.value;
    var runs := RunsAt(st.sections, loc);
    var runs1 := RunsAt(s1.sections, loc);
    var runs2 := RunsAt(s2.sections, loc);
    var n := |runs|;
    SetRunsAtTwice(st.sections, loc, runs1, runs2);
    assert runs2[..n] == runs;
    var tail1 := runs1[n..];
    var tail := runs2[n..];
    RunsRepGrow(TablesOf(s1), TablesOf(s2), tail1, a);
    forall j | 0 <= j < |a + b| ensures RunRep(TablesOf(s2), tail[j], (a + b)[j]) {
      if j < |a| {
        assert tail[j] == tail1[j];
      } else {
        assert tail[j] == runs2[n + |a|..][j - |a|];
      }
    }
  }

  lemma {:induction false} CompileInlines(st: State, ms: seq<Inline>)
    requires Valid(st) && st.started && st.markers.Some?
    ensures Runnable(st, VisitInlines(ms))
    ensures RunsAppended(st, RunOpcodes(st, VisitInlines(ms)), ms)
    decreases |ms|
  {
    var loc := st.markers.value;
    if ms == [] {
      SetRunsAtSame(st.sections, loc);
      assert RunsAt(st.sections, loc)[|RunsAt(st.sections, loc)|..] == [];
    } else {
      var ops := VisitInline(ms[0]);
      OneInlineAppended(st, ms[0]);
      var st1 := RunOpcodes(st, ops);
      CompileInlines(st1, ms[1..]);
      RunAppend(st, ops, VisitInlines(ms[1..]));
      RunsAppendedCompose(st, st1, RunOpcodes(st1, VisitInlines(ms[1..])), [ms[0]], ms[1..]);
      HeadTail(ms);
    }
  }

  /**
   * From `st` to `r` the items standing for `its` were appended, in order,
   * to the current list section, and no other section changed.
   */
  ghost predicate ItemsAppended(st: State, r: State, its: seq<ListItem>)
    requires st.items.Some? && ValidList(st.sections, st.items.value)
  {
    var i := st.items.value;
    var items := st.sections[i].items;
    r.started && r.items == st.items && TablesGrow(st, r) && ValidList(r.sections, i) &&
    var items' := r.sections[i].items;
    r.sections == st.sections[i := ListSec(st.sections[i].tagName, items')] &&
    |items'| == |items| + |its| && items'[..|items|] == items &&
    ItemsRep(TablesOf(r), items'[|items|..], its)
  }

  /** Filling the run list of a new last item of a list section. */
  lemma FillNewItem(secs: seq<WireSection>, i: nat, tagName: string, items: seq<seq<Run>>, runs: seq<Run>)
    requires i < |secs|
    ensures ValidLoc(secs[i := ListSec(tagName, items + [[]])], ItemRuns(i, |items|))
    ensures SetRunsAt(secs[i := ListSec(tagName, items + [[]])], ItemRuns(i, |items|), runs)
         == secs[i := ListSec(tagName, items + [runs])]
  {
    UpdateLast(items, [], runs);
  }

  lemma OneItemAppended(st: State, it: ListItem)
    requires Valid(st) && st.started && st.items.Some?
    ensures Runnable(st, VisitItem(it))
    ensures ItemsAppended(st, RunOpcodes(st, VisitItem(it)), [it])
  {
    var i := st.items.value;
    var tag := st.sections[i].tagName;
    var items := st.sections[i].items;
    RunOne(st, OpenListItem);
    var st1 := Step(st, OpenListItem);
    var loc := ItemRuns(i, |items|);
    CompileInlines(st1, it.markers);
    RunAppend(st, [OpenListItem], VisitInlines(it.markers));
    var r := RunOpcodes(st1, VisitInlines(it.markers));
    var runs' := RunsAt(r.sections, loc);
    DropNone(runs');
    FillNewItem(st.sections, i, tag, items, runs');
    AppendOne(items, runs');
  }

  lemma ItemsAppendedCompose(st: State, s1: State, s2: State, a: seq<ListItem>, b: seq<ListItem>)
    requires st.items.Some? && ValidList(st.sections, st.items.value)
    requires ItemsAppended(st, s1, a) && ItemsAppended(s1, s2, b)
    ensures ItemsAppended(st, s2, a + b)
  {
    var i := st.items.value;
    var tag := st.sections[i].tagName;
    var items := st.sections[i].items;
    var n := |items|;
    var items1 := s1.sections[i].items;
    var items2 := s2.sections[i].items;
    assert s1.sections[i].tagName == tag;
    assert s2.sections == st.sections[i := ListSec(tag, items2)];
    assert items2[..n] == items;
    ItemsRepGrow(TablesOf(s1), TablesOf(s2), items1[n..], a);
    var tail := items2[n..];
    forall k | 0 <= k < |a + b| ensures RunsRep(TablesOf(s2), tail[k], (a + b)[k].markers) {
      if k < |a| {
        assert tail[k] == items1[n..][k];
      } else {
        assert tail[k] == items2[|items1|..][k - |a|];
      }
    }
  }

  lemma {:induction false} CompileItems(st: State, its: seq<ListItem>)
    requires Valid(st) && st.started && st.items.Some?
    ensures Runnable(st, VisitItems(its))
    ensures ItemsAppended(st, RunOpcodes(st, VisitItems(its)), its)
    decreases |its|
  {
    var i := st.items.value;
    if its == [] {
      var items := st.sections[i].items;
      assert st.sections == st.sections[i := ListSec(st.sections[i].tagName, items)];
      assert items[..|items|] == items && items[|items|..] == [];
    } else {
      var ops := VisitItem(its[0]);
      OneItemAppended(st, its[0]);
      var st1 := RunOpcodes(st, ops);
      CompileItems(st1, its[1..]);
      RunAppend(st, ops, VisitItems(its[1..]));
      ItemsAppendedCompose(st, st1, RunOpcodes(st1, VisitItems(its[1..])), [its[0]], its[1..]);
      HeadTail(its);
    }
  }

  /** From `st` to `r` the wire sections standing for `ss` were appended, in order, after the existing ones. */
  ghost predicate SectionsAppended(st: State, r: State, ss: seq<Section>) {
    r.started && TablesGrow(st, r) &&
    |r.sections| == |st.sections| + |ss| && r.sections[..|st.sections|] == st.sections &&
    SectionsRep(TablesOf(r), r.sections[|st.sections|..], ss)
  }

  /** Filling the run list of a new last markup section. */
  lemma FillNewMarkupSection(secs: seq<WireSection>, tagName: string, runs: seq<Run>)
    ensures ValidLoc(secs + [MarkupSec(tagName, [])], SectionRuns(|secs|))
    ensures SetRunsAt(secs + [MarkupSec(tagName, [])], SectionRuns(|secs|), runs) == secs + [MarkupSec(tagName, runs)]
  {
  }

  lemma MarkupSectionAppended(st: State, s: Section)
    requires Valid(st) && st.started && s.MarkupSection?
    ensures Runnable(st, VisitSection(s))
    ensures SectionsAppended(st, RunOpcodes(st, VisitSection(s)), [s])
  {
    var n := |st.sections|;
    var op := Linearizer.OpenMarkupSection(s.tagName);
    RunOne(st, op);
    var st1 := OpenMarkupSectionStep(st, s.tagName);
    assert Step(st, op) == st1;
    CompileInlines(st1, s.markers);
    RunAppend(st, [op], VisitInlines(s.markers));
    var r := RunOpcodes(st1, VisitInlines(s.markers));
    var runs' := RunsAt(r.sections, SectionRuns(n));
    DropNone(runs');
    FillNewMarkupSection(st.sections, s.tagName, runs');
    AppendOne(st.sections, MarkupSec(s.tagName, runs'));
  }

  lemma ListSectionAppended(st: State, s: Section)
    requires Valid(st) && st.started && s.ListSection?
    ensures Runnable(st, VisitSection(s))
    ensures SectionsAppended(st, RunOpcodes(st, VisitSection(s)), [s])
  {
    var n := |st.sections|;
    var op := Linearizer.OpenListSection(s.tagName);
    RunOne(st, op);
    var st1 := OpenListSectionStep(st, s.tagName);
    assert Step(st, op) == st1;
    CompileItems(st1, s.items);
    RunAppend(st, [op], VisitItems(s.items));
    var r := RunOpcodes(st1, VisitItems(s.items));
    var items' := r.sections[n].items;
    DropNone(items');
    UpdateLast(st.sections, ListSec(s.tagName, []), ListSec(s.tagName, items'));
    AppendOne(st.sections, ListSec(s.tagName, items'));
  }

  lemma LeafSectionAppended(st: State, s: Section)
    requires Valid(st) && st.started && (s.ImageSection? || s.CardSection?)
    ensures Runnable(st, VisitSection(s))
    ensures SectionsAppended(st, RunOpcodes(st, VisitSection(s)), [s])
  {
    var n := |st.sections|;
    var op := SectionOpcode(s);
    assert VisitSection(s) == [op];
    RunOne(st, op);
    var r := Step(st, op);
    assert r.sections[n..] == [r.sections[n]];
  }

  lemma OneSectionAppended(st: State, s: Section)
    requires Valid(st) && st.started
    ensures Runnable(st, VisitSection(s))
    ensures SectionsAppended(st, RunOpcodes(st, VisitSection(s)), [s])
  {
    if s.MarkupSection? {
      MarkupSectionAppended(st, s);
    } else if s.ListSection? {
      ListSectionAppended(st, s);
    } else {
      LeafSectionAppended(st, s);
    }
  }

  lemma SectionsAppendedCompose(st: State, s1: State, s2: State, a: seq<Section>, b: seq<Section>)
    requires SectionsAppended(st, s1, a) && SectionsAppended(s1, s2, b)
    ensures SectionsAppended(st, s2, a + b)
  {
    var n := |st.sections|;
    assert s2.sections[..n] == s1.sections[..|s1.sections|][..n];
    SectionsRepGrow(TablesOf(s1), TablesOf(s2), s1.sections[n..], a);
    var tail := s2.sections[n..];
    forall i | 0 <= i < |a + b| ensures SectionRep(TablesOf(s2), tail[i], (a + b)[i]) {
      if i < |a| {
        assert tail[i] == s1.sections[n..][i];
      } else {
        assert tail[i] == s2.sections[|s1.sections|..][i - |a|];
      }
    }
  }

  lemma {:induction false} CompileSections(st: State, ss: seq<Section>)
    requires Valid(st) && st.started
    ensures Runnable(st, VisitSections(ss))
    ensures SectionsAppended(st, RunOpcodes(st, VisitSections(ss)), ss)
    decreases |ss|
  {
    if ss == [] {
      assert st.sections[..|st.sections|] == st.sections;
    } else {
      var ops := VisitSection(ss[0]);
      OneSectionAppended(st, ss[0]);
      var st1 := RunOpcodes(st, ops);
      CompileSections(st1, ss[1..]);
      RunAppend(st, ops, VisitSections(ss[1..]));
      SectionsAppendedCompose(st, st1, RunOpcodes(st1, VisitSections(ss[1..])), [ss[0]], ss[1..]);
      HeadTail(ss);
    }
  }

  /** The opcode stream of every post compiles without a failing handler, and the result represents the post. */
  lemma CompilePost(post: Post)
    ensures Valid(Initial) && Runnable(Initial, Linearize(post))
    ensures var st := RunOpcodes(Initial, Linearize(post));
      Result(st).Some? && Represents(Result(st).value, post)
  {
    InitialValid();
    RunOne(Initial, OpenPost);
    var st1 := Step(Initial, OpenPost);
    CompileSections(st1, post.sections);
    RunAppend(Initial, [OpenPost], VisitSections(post.sections));
    var st := RunOpcodes(st1, VisitSections(post.sections));
    assert st.sections[0..] == st.sections;
  }

  // ---------------------------------------------------------------------
  // Dedup: each definition is stored once, and equal nodes share it.

  /** No two entries of a table have the same cache key. */
  ghost predicate NoDuplicates(doc: Doc) {
    (forall i, j ::
       0 <= i < |doc.atoms| && 0 <= j < |doc.atoms| && AtomKeyOf(doc.atoms[i]) == AtomKeyOf(doc.atoms[j]) ==> i == j) &&
    (forall i, j ::
       0 <= i < |doc.cards| && 0 <= j < |doc.cards| && CardKeyOf(doc.cards[i]) == CardKeyOf(doc.cards[j]) ==> i == j) &&
    (forall i, j ::
       0 <= i < |doc.markups| && 0 <= j < |doc.markups| &&
       MarkupKeyOf(doc.markups[i]) == MarkupKeyOf(doc.markups[j])
       ==> i == j)
  }

  /** The result of a started compiler stores each definition once, each markup as `[tag]` or `[tag, attrs]`. */
  lemma ResultTables(st: State)
    requires Valid(st) && st.started
    ensures var doc := Result(st).value;
      NoDuplicates(doc) && MarkupsCanonical(doc.markups)
  {
    var doc := Result(st).value;
    forall i, j | 0 <= i < |doc.atoms| && 0 <= j < |doc.atoms| && AtomKeyOf(doc.atoms[i]) == AtomKeyOf(doc.atoms[j])
      ensures i == j
    {
      KeysDistinct(st.atoms, AtomKeyOf, i, j);
    }
    forall i, j | 0 <= i < |doc.cards| && 0 <= j < |doc.cards| && CardKeyOf(doc.cards[i]) == CardKeyOf(doc.cards[j])
      ensures i == j
    {
      KeysDistinct(st.cards, CardKeyOf, i, j);
    }
    forall i, j | 0 <= i < |doc.markups| && 0 <= j < |doc.markups| &&
                  MarkupKeyOf(doc.markups[i]) == MarkupKeyOf(doc.markups[j])
      ensures i == j
    {
      KeysDistinct(st.markups, MarkupKeyOf, i, j);
    }
  }

  /** Two opened markups with the same tag and the same sorted attributes get the same markup id. */
  lemma EqualMarkupsShareId(doc: Doc, r1: Run, m1: Inline, k: nat, r2: Run, m2: Inline, l: nat)
    requires NoDuplicates(doc) && RunRep(DocTables(doc), r1, m1) && RunRep(DocTables(doc), r2, m2)
    requires m1.Marker? && m2.Marker? && k < |m1.openedMarkups| && l < |m2.openedMarkups|
    requires MarkupKeyFor(m1.openedMarkups[k]) == MarkupKeyFor(m2.openedMarkups[l])
    ensures r1.markupIds[k] == r2.markupIds[l]
  {
    var key := MarkupKeyFor(m1.openedMarkups[k]);
    assert doc.markups[r1.markupIds[k]] == MarkupTypeFor(key) == doc.markups[r2.markupIds[l]];
  }

  /** The order in which a markup's attributes were set does not change its key. */
  lemma ReorderedMarkupSameKey(m1: Markup, m2: Markup)
    requires m1.tagName == m2.tagName && DistinctKeys(m1.attributes) && DistinctKeys(m2.attributes)
    requires forall e :: e in m1.attributes <==> e in m2.attributes
    ensures MarkupKeyFor(m1) == MarkupKeyFor(m2)
  {
    SortEntriesCanonical(m1.attributes, m2.attributes);
  }

  /** Two atoms with the same name, value and payload key get the same atom index. */
  lemma EqualAtomsShareIndex(doc: Doc, r1: Run, m1: Inline, r2: Run, m2: Inline)
    requires NoDuplicates(doc) && RunRep(DocTables(doc), r1, m1) && RunRep(DocTables(doc), r2, m2)
    requires m1.Atom? && m2.Atom? && m1.name == m2.name && m1.value == m2.value
    requires ObjectToCacheKey(m1.payload) == ObjectToCacheKey(m2.payload)
    ensures r1.atomIndex == r2.atomIndex
  {
    assert AtomKeyOf(doc.atoms[r1.atomIndex]) == AtomKeyOf(doc.atoms[r2.atomIndex]);
  }

  /** Two cards with the same name and payload key get the same card index. */
  lemma EqualCardsShareIndex(doc: Doc, w1: WireSection, s1: Section, w2: WireSection, s2: Section)
    requires NoDuplicates(doc) && SectionRep(DocTables(doc), w1, s1) && SectionRep(DocTables(doc), w2, s2)
    requires s1.CardSection? && s2.CardSection? && s1.name == s2.name
    requires ObjectToCacheKey(s1.payload) == ObjectToCacheKey(s2.payload)
    ensures w1.cardIndex == w2.cardIndex
  {
    assert CardKeyOf(doc.cards[w1.cardIndex]) == CardKeyOf(doc.cards[w2.cardIndex]);
  }

  // ---------------------------------------------------------------------
  // The driver.

  /**
   * `render(post)`: the post's opcodes compiled by a fresh compiler. The
   * result is the state machine's result, represents the post, and stores
   * each definition once.
   */
  method Render(post: Post) returns (doc: Doc)
    ensures Valid(Initial) && Runnable(Initial, Linearize(post)) &&
      Some(doc) == Result(RunOpcodes(Initial, Linearize(post)))
    ensures doc.version == MOBILEDOC_VERSION && Represents(doc, post)
    ensures NoDuplicates(doc) && MarkupsCanonical(doc.markups)
  {
    var opcodes := Linearize(post);
    CompilePost(post);
    var compiler := new Compiler.PostOpcodeCompiler();
    compiler.Compile(opcodes);
    var result := compiler.Result();
    doc := result.value;
    ResultTables(compiler.Model());
  }
}
