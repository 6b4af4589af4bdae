/**
 * The first pass of the renderer: a pre-order walk of the post that emits
 * one opcode per node it visits and no opcode on leaving a node. The
 * nesting of markups is carried only by the close count of each marker
 * and atom and by the `openMarkup` opcodes that follow a marker.
 */
module Linearizer {
  import opened Wrappers
  import opened Attributes
  import opened Document

  datatype Opcode =
    | OpenPost
    | OpenMarkupSection(tagName: string)
    | OpenListSection(tagName: string)
    | OpenListItem
    | OpenImageSection(src: string)
    | OpenCardSection(name: string, payload: Payload)
    | OpenMarker(closeCount: nat, value: Option<string>)
    | OpenMarkup(tagName: string, attributes: Entries)
    | OpenAtom(closeCount: nat, name: string, value: Option<string>, payload: Payload)

  /** A markup's opcode carries its key-sorted attribute list. */
  function VisitMarkup(m: Markup): Opcode {
    OpenMarkup(m.tagName, SortEntries(m.attributes))
  }

  function VisitMarkups(ms: seq<Markup>): (ops: seq<Opcode>)
    ensures |ops| == |ms|
    ensures forall k :: 0 <= k < |ms| ==> ops[k] == VisitMarkup(ms[k])
    decreases |ms|
  {
    if ms == [] then [] else [VisitMarkup(ms[0])] + VisitMarkups(ms[1..])
  }

  /**
   * A marker emits its own opcode, then one opcode per opened markup;
   * an atom emits only its own opcode (its opened markups are not visited).
   */
  function VisitInline(m: Inline): seq<Opcode> {
    match m
    case Marker(closed, value, opens) =>
      [OpenMarker(|closed|, value)] + VisitMarkups(opens)
    case Atom(closed, name, value, payload, _) =>
      [OpenAtom(|closed|, name, value, payload)]
  }

  function VisitInlines(ms: seq<Inline>): seq<Opcode>
    decreases |ms|
  {
    if ms == [] then [] else VisitInline(ms[0]) + VisitInlines(ms[1..])
  }

  function VisitItem(it: ListItem): seq<Opcode> {
    [OpenListItem] + VisitInlines(it.markers)
  }

  function VisitItems(its: seq<ListItem>): seq<Opcode>
    decreases |its|
  {
    if its == [] then [] else VisitItem(its[0]) + VisitItems(its[1..])
  }

  function VisitSection(s: Section): seq<Opcode> {
    match s
    case MarkupSection(tagName, markers) => [OpenMarkupSection(tagName)] + VisitInlines(markers)
    case ListSection(tagName, items) => [OpenListSection(tagName)] + VisitItems(items)
    case ImageSection(src) => [OpenImageSection(src)]
    case CardSection(name, payload) => [OpenCardSection(name, payload)]
  }

  function VisitSections(ss: seq<Section>): seq<Opcode>
    decreases |ss|
  {
    if ss == [] then [] else VisitSection(ss[0]) + VisitSections(ss[1..])
  }

  /** The whole opcode stream of a post. */
  function Linearize(post: Post): seq<Opcode> {
    [OpenPost] + VisitSections(post.sections)
  }

  // ---------------------------------------------------------------------
  // Order: the stream of a sequence of siblings is the concatenation of
  // their streams, in order.

  lemma {:induction false} VisitSectionsAppend(a: seq<Section>, b: seq<Section>)
    ensures VisitSections(a + b) == VisitSections(a) + VisitSections(b)
    decreases |a|
  {
    if a == [] {
      assert a + b == b;
    } else {
      assert (a + b)[0] == a[0] && (a + b)[1..] == a[1..] + b;
      VisitSectionsAppend(a[1..], b);
    }
  }

  lemma {:induction false} VisitItemsAppend(a: seq<ListItem>, b: seq<ListItem>)
    ensures VisitItems(a + b) == VisitItems(a) + VisitItems(b)
    decreases |a|
  {
    if a == [] {
      assert a + b == b;
    } else {
      assert (a + b)[0] == a[0] && (a + b)[1..] == a[1..] + b;
      VisitItemsAppend(a[1..], b);
    }
  }

  lemma {:induction false} VisitInlinesAppend(a: seq<Inline>, b: seq<Inline>)
    ensures VisitInlines(a + b) == VisitInlines(a) + VisitInlines(b)
    decreases |a|
  {
    if a == [] {
      assert a + b == b;
    } else {
      assert (a + b)[0] == a[0] && (a + b)[1..] == a[1..] + b;
      VisitInlinesAppend(a[1..], b);
    }
  }

  /** The opcode a section contributes at the section level. */
  function SectionOpcode(s: Section): Opcode {
    match s
    case MarkupSection(tagName, _) => OpenMarkupSection(tagName)
    case ListSection(tagName, _) => OpenListSection(tagName)
    case ImageSection(src) => OpenImageSection(src)
    case CardSection(name, payload) => OpenCardSection(name, payload)
  }

  predicate IsSectionOpcode(op: Opcode) {
    op.OpenMarkupSection? || op.OpenListSection? || op.OpenImageSection? || op.OpenCardSection?
  }

  /** The section-level opcodes of a stream, in stream order. */
  function SectionOpcodes(ops: seq<Opcode>): seq<Opcode>
    decreases |ops|
  {
    if ops == [] then []
    else if IsSectionOpcode(ops[0]) then [ops[0]] + SectionOpcodes(ops[1..])
    else SectionOpcodes(ops[1..])
  }

  lemma {:induction false} SectionOpcodesAppend(a: seq<Opcode>, b: seq<Opcode>)
    ensures SectionOpcodes(a + b) == SectionOpcodes(a) + SectionOpcodes(b)
    decreases |a|
  {
    if a == [] {
      assert a + b == b;
    } else {
      assert (a + b)[0] == a[0] && (a + b)[1..] == a[1..] + b;
      SectionOpcodesAppend(a[1..], b);
    }
  }

  lemma {:induction false} MarkupsHaveNoSectionOpcodes(ms: seq<Markup>)
    ensures SectionOpcodes(VisitMarkups(ms)) == []
    decreases |ms|
  {
    if ms != [] {
      SectionOpcodesAppend([VisitMarkup(ms[0])], VisitMarkups(ms[1..]));
      MarkupsHaveNoSectionOpcodes(ms[1..]);
    }
  }

  lemma {:induction false} InlinesHaveNoSectionOpcodes(ms: seq<Inline>)
    ensures SectionOpcodes(VisitInlines(ms)) == []
    decreases |ms|
  {
    if ms != [] {
      SectionOpcodesAppend(VisitInline(ms[0]), VisitInlines(ms[1..]));
      InlinesHaveNoSectionOpcodes(ms[1..]);
      match ms[0]
      case Marker(closed, value, opens) =>
        SectionOpcodesAppend([OpenMarker(|closed|, value)], VisitMarkups(opens));
        MarkupsHaveNoSectionOpcodes(opens);
      case Atom(_, _, _, _, _) =>
    }
  }

  lemma {:induction false} ItemsHaveNoSectionOpcodes(its: seq<ListItem>)
    ensures SectionOpcodes(VisitItems(its)) == []
    decreases |its|
  {
    if its != [] {
      SectionOpcodesAppend(VisitItem(its[0]), VisitItems(its[1..]));
      SectionOpcodesAppend([OpenListItem], VisitInlines(its[0].markers));
      InlinesHaveNoSectionOpcodes(its[0].markers);
      ItemsHaveNoSectionOpcodes(its[1..]);
    }
  }

  /**
   * Pre-order with no closing opcode: the section-level opcodes of a post's
   * stream are exactly one per section, in the order of the sections.
   */
  lemma {:induction false} SectionOpcodesInOrder(post: Post)
    ensures |SectionOpcodes(Linearize(post))| == |post.sections|
    ensures forall i :: 0 <= i < |post.sections| ==> SectionOpcodes(Linearize(post))[i] == SectionOpcode(post.sections[i])
  {
    SectionOpcodesAppend([OpenPost], VisitSections(post.sections));
    SectionsOpcodesInOrder(post.sections);
  }

  lemma {:induction false} SectionsOpcodesInOrder(ss: seq<Section>)
    ensures |SectionOpcodes(VisitSections(ss))| == |ss|
    ensures forall i :: 0 <= i < |ss| ==> SectionOpcodes(VisitSections(ss))[i] == SectionOpcode(ss[i])
    decreases |ss|
  {
    if ss != [] {
      SectionsOpcodesInOrder(ss[1..]);
      SectionOpcodesAppend(VisitSection(ss[0]), VisitSections(ss[1..]));
      match ss[0]
      case MarkupSection(tagName, markers) =>
        SectionOpcodesAppend([OpenMarkupSection(tagName)], VisitInlines(markers));
        InlinesHaveNoSectionOpcodes(markers);
      case ListSection(tagName, items) =>
        SectionOpcodesAppend([OpenListSection(tagName)], VisitItems(items));
        ItemsHaveNoSectionOpcodes(items);
      case ImageSection(_) =>
      case CardSection(_, _) =>
    }
  }
}
