/**
 * The current run list, the current item list and the current markup-id
 * list of the compiler are aliases, in the source, into arrays already
 * stored inside the sections. Here they are handles: positions inside the
 * sections, through which the updates are applied.
 */
module Handles {
  import opened Mobiledoc

  /** Where a run list lives: a markup section's runs, or one item of a list section. */
  datatype Loc = SectionRuns(section: nat) | ItemRuns(section: nat, item: nat)

  /** One run: its run list and its position there. */
  datatype RunRef = RunRef(loc: Loc, index: nat)

  ghost predicate ValidLoc(secs: seq<WireSection>, loc: Loc) {
    match loc
    case SectionRuns(i) => i < |secs| && secs[i].MarkupSec?
    case ItemRuns(i, k) => i < |secs| && secs[i].ListSec? && k < |secs[i].items|
  }

  /** A handle to a list section's item list. */
  ghost predicate ValidList(secs: seq<WireSection>, i: nat) {
    i < |secs| && secs[i].ListSec?
  }

  function RunsAt(secs: seq<WireSection>, loc: Loc): seq<Run>
    requires ValidLoc(secs, loc)
  {
    match loc
    case SectionRuns(i) => secs[i].runs
    case ItemRuns(i, k) => secs[i].items[k]
  }

  ghost predicate ValidRef(secs: seq<WireSection>, ref: RunRef) {
    ValidLoc(secs, ref.loc) && ref.index < |RunsAt(secs, ref.loc)|
  }

  function RunAt(secs: seq<WireSection>, ref: RunRef): Run
    requires ValidRef(secs, ref)
  {
    RunsAt(secs, ref.loc)[ref.index]
  }

  /** Same kind, same tag, same number of items: what the validity of a handle depends on. */
  ghost predicate SameShape(a: WireSection, b: WireSection) {
    match a
    case MarkupSec(tag, _) => b.MarkupSec? && b.tagName == tag
    case ListSec(tag, items) => b.ListSec? && b.tagName == tag && |b.items| == |items|
    case _ => b == a
  }

  ghost predicate SameShapes(a: seq<WireSection>, b: seq<WireSection>) {
    |a| == |b| && forall i :: 0 <= i < |a| ==> SameShape(a[i], b[i])
  }

  /** Replaces the run list at `loc`, and nothing else. */
  function SetRunsAt(secs: seq<WireSection>, loc: Loc, runs: seq<Run>): (r: seq<WireSection>)
    requires ValidLoc(secs, loc)
    ensures SameShapes(secs, r)
    ensures ValidLoc(r, loc) && RunsAt(r, loc) == runs
    ensures forall l :: ValidLoc(secs, l) && l != loc ==> ValidLoc(r, l) && RunsAt(r, l) == RunsAt(secs, l)
  {
    match loc
    case SectionRuns(i) => secs[i := secs[i].(runs := runs)]
    case ItemRuns(i, k) => secs[i := secs[i].(items := secs[i].items[k := runs])]
  }

  /** Replacing a run list twice is replacing it with the second list. */
  lemma SetRunsAtTwice(secs: seq<WireSection>, loc: Loc, a: seq<Run>, b: seq<Run>)
    requires ValidLoc(secs, loc)
    ensures SetRunsAt(SetRunsAt(secs, loc, a), loc, b) == SetRunsAt(secs, loc, b)
  {
    var i := loc.section;
    var once := SetRunsAt(secs, loc, a);
    match loc
    case SectionRuns(_) =>
      assert once[i].(runs := b) == secs[i].(runs := b);
    case ItemRuns(_, k) =>
      assert once[i].items[k := b] == secs[i].items[k := b];
      assert once[i].(items := once[i].items[k := b]) == secs[i].(items := secs[i].items[k := b]);
  }

  /** Replacing the run list of a section by its own run list changes nothing. */
  lemma SetRunsAtSame(secs: seq<WireSection>, loc: Loc)
    requires ValidLoc(secs, loc)
    ensures SetRunsAt(secs, loc, RunsAt(secs, loc)) == secs
  {
    var i := loc.section;
    match loc
    case SectionRuns(_) =>
      assert secs[i].(runs := secs[i].runs) == secs[i];
    case ItemRuns(_, k) =>
      assert secs[i].items[k := secs[i].items[k]] == secs[i].items;
      assert secs[i].(items := secs[i].items) == secs[i];
  }

  /** Replaces one run, and nothing else. */
  function SetRunAt(secs: seq<WireSection>, ref: RunRef, run: Run): (r: seq<WireSection>)
    requires ValidRef(secs, ref)
    ensures SameShapes(secs, r) && ValidRef(r, ref) && RunAt(r, ref) == run
  {
    SetRunsAt(secs, ref.loc, RunsAt(secs, ref.loc)[ref.index := run])
  }

  /** Handles valid before a change of run contents are valid after it. */
  lemma SameShapesKeepHandles(a: seq<WireSection>, b: seq<WireSection>)
    requires SameShapes(a, b)
    ensures forall l :: ValidLoc(a, l) ==> ValidLoc(b, l)
    ensures forall i :: ValidList(a, i) ==> ValidList(b, i)
  {
    forall l | ValidLoc(a, l) ensures ValidLoc(b, l) {
      assert SameShape(a[l.section], b[l.section]);
    }
    forall i: nat | ValidList(a, i) ensures ValidList(b, i) {
      assert SameShape(a[i], b[i]);
    }
  }

  /** `this.markers.push(run)`: appends a run through the handle. */
  function PushRun(secs: seq<WireSection>, loc: Loc, run: Run): (r: seq<WireSection>)
    requires ValidLoc(secs, loc)
    ensures SameShapes(secs, r)
    ensures ValidLoc(r, loc) && RunsAt(r, loc) == RunsAt(secs, loc) + [run]
    ensures forall l :: ValidLoc(secs, l) && l != loc ==> ValidLoc(r, l) && RunsAt(r, l) == RunsAt(secs, l)
  {
    SetRunsAt(secs, loc, RunsAt(secs, loc) + [run])
  }

  /** The run with one more markup index at the end of its markup-id list. */
  function WithMarkupId(run: Run, id: nat): (r: Run)
    ensures r.markupIds == run.markupIds + [id]
    ensures r.TextRun? == run.TextRun? && r.closeCount == run.closeCount
    ensures r.TextRun? ==> r.text == run.text
    ensures r.AtomRun? ==> r.atomIndex == run.atomIndex
  {
    run.(markupIds := run.markupIds + [id])
  }

  /** `this.markupMarkerIds.push(id)`: appends a markup index to the referenced run. */
  function AddMarkupId(secs: seq<WireSection>, ref: RunRef, id: nat): (r: seq<WireSection>)
    requires ValidRef(secs, ref)
    ensures SameShapes(secs, r)
    ensures ValidLoc(r, ref.loc) && |RunsAt(r, ref.loc)| == |RunsAt(secs, ref.loc)|
    ensures RunsAt(r, ref.loc) == RunsAt(secs, ref.loc)[ref.index := WithMarkupId(RunAt(secs, ref), id)]
    ensures forall l :: ValidLoc(secs, l) && l != ref.loc ==> ValidLoc(r, l) && RunsAt(r, l) == RunsAt(secs, l)
  {
    var runs := RunsAt(secs, ref.loc);
    SetRunsAt(secs, ref.loc, runs[ref.index := WithMarkupId(runs[ref.index], id)])
  }

  /** `this.items.push(this.markers = [])`: a new empty item at the end of list section `i`. */
  function PushItem(secs: seq<WireSection>, i: nat): (r: seq<WireSection>)
    requires ValidList(secs, i)
    ensures |r| == |secs| && r[i].ListSec? && r[i].tagName == secs[i].tagName
    ensures r[i].items == secs[i].items + [[]]
    ensures forall j :: 0 <= j < |secs| && j != i ==> r[j] == secs[j]
    ensures ValidLoc(r, ItemRuns(i, |secs[i].items|)) && RunsAt(r, ItemRuns(i, |secs[i].items|)) == []
    ensures forall l :: ValidLoc(secs, l) ==> ValidLoc(r, l) && RunsAt(r, l) == RunsAt(secs, l)
    ensures forall j :: ValidList(secs, j) ==> ValidList(r, j)
  {
    secs[i := secs[i].(items := secs[i].items + [[]])]
  }

  /** A new section at the end leaves every handle in place. */
  lemma AppendSectionKeepsHandles(secs: seq<WireSection>, s: WireSection)
    ensures forall l :: ValidLoc(secs, l) ==> ValidLoc(secs + [s], l) && RunsAt(secs + [s], l) == RunsAt(secs, l)
    ensures forall i :: ValidList(secs, i) ==> ValidList(secs + [s], i)
  {
  }

  // ---------------------------------------------------------------------
  // Appending through a handle to the newest section or item is appending
  // to the last element.

  lemma PushRunToLastSection(secs: seq<WireSection>, run: Run)
    requires |secs| > 0 && secs[|secs| - 1].MarkupSec?
    ensures var n := |secs| - 1;
      PushRun(secs, SectionRuns(n), run) == secs[..n] + [MarkupSec(secs[n].tagName, secs[n].runs + [run])]
  {
    var n := |secs| - 1;
    var r := PushRun(secs, SectionRuns(n), run);
    assert r == secs[n := secs[n].(runs := secs[n].runs + [run])];
  }

  lemma PushRunToLastItem(secs: seq<WireSection>, run: Run)
    requires |secs| > 0 && secs[|secs| - 1].ListSec? && |secs[|secs| - 1].items| > 0
    ensures var n := |secs| - 1; var items := secs[n].items; var m := |items| - 1;
      PushRun(secs, ItemRuns(n, m), run)
        == secs[..n] + [ListSec(secs[n].tagName, items[..m] + [items[m] + [run]])]
  {
    var n := |secs| - 1;
    var items := secs[n].items;
    var m := |items| - 1;
    assert items[m := items[m] + [run]] == items[..m] + [items[m] + [run]];
    assert PushRun(secs, ItemRuns(n, m), run) == secs[n := secs[n].(items := items[m := items[m] + [run]])];
  }

  lemma AddMarkupIdToLastRun(secs: seq<WireSection>, loc: Loc, id: nat)
    requires ValidLoc(secs, loc) && |RunsAt(secs, loc)| > 0
    ensures var runs := RunsAt(secs, loc); var j := |runs| - 1;
      ValidRef(secs, RunRef(loc, j)) &&
      AddMarkupId(secs, RunRef(loc, j), id) == SetRunsAt(secs, loc, runs[..j] + [WithMarkupId(runs[j], id)])
  {
    var runs := RunsAt(secs, loc);
    var j := |runs| - 1;
    assert runs[j := WithMarkupId(runs[j], id)] == runs[..j] + [WithMarkupId(runs[j], id)];
  }

  // ---------------------------------------------------------------------
  // Every index stored in the sections is a valid table index.

  ghost predicate RunInBounds(r: Run, atoms: nat, markups: nat) {
    (forall k :: 0 <= k < |r.markupIds| ==> r.markupIds[k] < markups) &&
    (r.AtomRun? ==> r.atomIndex < atoms)
  }

  ghost predicate RunsInBounds(rs: seq<Run>, atoms: nat, markups: nat) {
    forall j :: 0 <= j < |rs| ==> RunInBounds(rs[j], atoms, markups)
  }

  ghost predicate SectionInBounds(s: WireSection, atoms: nat, cards: nat, markups: nat) {
    match s
    case MarkupSec(_, rs) => RunsInBounds(rs, atoms, markups)
    case ListSec(_, items) => forall k :: 0 <= k < |items| ==> RunsInBounds(items[k], atoms, markups)
    case CardSec(c) => c < cards
    case ImageSec(_) => true
  }

  ghost predicate SectionsInBounds(secs: seq<WireSection>, atoms: nat, cards: nat, markups: nat) {
    forall i :: 0 <= i < |secs| ==> SectionInBounds(secs[i], atoms, cards, markups)
  }

  lemma RunsAtInBounds(secs: seq<WireSection>, loc: Loc, atoms: nat, cards: nat, markups: nat)
    requires ValidLoc(secs, loc) && SectionsInBounds(secs, atoms, cards, markups)
    ensures RunsInBounds(RunsAt(secs, loc), atoms, markups)
  {
    assert SectionInBounds(secs[loc.section], atoms, cards, markups);
  }

  lemma SetRunsAtInBounds(secs: seq<WireSection>, loc: Loc, runs: seq<Run>, atoms: nat, cards: nat, markups: nat)
    requires ValidLoc(secs, loc) && SectionsInBounds(secs, atoms, cards, markups)
    requires RunsInBounds(runs, atoms, markups)
    ensures SectionsInBounds(SetRunsAt(secs, loc, runs), atoms, cards, markups)
  {
    var r := SetRunsAt(secs, loc, runs);
    forall i | 0 <= i < |r|
      ensures SectionInBounds(r[i], atoms, cards, markups)
    {
      assert SectionInBounds(secs[i], atoms, cards, markups);
    }
  }

  /** Tables only grow, so an index valid once stays valid. */
  lemma SectionsInBoundsGrow(secs: seq<WireSection>, atoms: nat, cards: nat, markups: nat,
                             atoms': nat, cards': nat, markups': nat)
    requires SectionsInBounds(secs, atoms, cards, markups)
    requires atoms <= atoms' && cards <= cards' && markups <= markups'
    ensures SectionsInBounds(secs, atoms', cards', markups')
  {
    forall i | 0 <= i < |secs|
      ensures SectionInBounds(secs[i], atoms', cards', markups')
    {
      assert SectionInBounds(secs[i], atoms, cards, markups);
      match secs[i]
      case MarkupSec(_, rs) =>
        assert forall j :: 0 <= j < |rs| ==> RunInBounds(rs[j], atoms, markups);
      case ListSec(_, items) =>
        assert forall k, j :: 0 <= k < |items| && 0 <= j < |items[k]| ==> RunInBounds(items[k][j], atoms, markups);
      case _ =>
    }
  }
}
