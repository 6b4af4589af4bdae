/**
 * The mobiledoc document the renderer produces: the version, the three
 * definition tables (atoms, cards, markups) and the sections, with the
 * interning keys under which each table deduplicates its definitions.
 */
module Mobiledoc {
  import opened Wrappers
  import opened Attributes
  import opened Document

  const MOBILEDOC_VERSION: string := "0.2.0"
  const MOBILEDOC_MARKUP_SECTION_TYPE: nat := 1
  const MOBILEDOC_IMAGE_SECTION_TYPE: nat := 2
  const MOBILEDOC_LIST_SECTION_TYPE: nat := 3
  const MOBILEDOC_CARD_SECTION_TYPE: nat := 10
  const MOBILEDOC_MARKUP_CONTENT_TYPE: nat := 0
  const MOBILEDOC_ATOM_CONTENT_TYPE: nat := 1

  /** An atom definition `[name, value, payload]`. */
  datatype AtomType = AtomType(name: string, value: Option<string>, payload: Payload)

  /** A card definition `[name, payload]`. */
  datatype CardType = CardType(name: string, payload: Payload)

  /** A markup definition: `[tagName]` when `attributes` is `None`, `[tagName, attributes]` otherwise. */
  datatype MarkupType = MarkupType(tagName: string, attributes: Option<Entries>)

  /**
   * A run of a section: `[0, markupIds, closeCount, text]` for text and
   * `[1, markupIds, closeCount, atomIndex]` for an atom.
   */
  datatype Run =
    | TextRun(markupIds: seq<nat>, closeCount: nat, text: string)
    | AtomRun(markupIds: seq<nat>, closeCount: nat, atomIndex: nat)

  /**
   * A section: `[1, tagName, runs]`, `[2, src]`, `[3, tagName, items]`
   * or `[10, cardIndex]`.
   */
  datatype WireSection =
    | MarkupSec(tagName: string, runs: seq<Run>)
    | ImageSec(src: string)
    | ListSec(tagName: string, items: seq<seq<Run>>)
    | CardSec(cardIndex: nat)

  datatype Doc = Doc(
    version: string,
    atoms: seq<AtomType>,
    cards: seq<CardType>,
    markups: seq<MarkupType>,
    sections: seq<WireSection>)

  /** The numeric type tag that leads a section tuple. */
  function SectionTypeTag(s: WireSection): (tag: nat)
    ensures tag in {MOBILEDOC_MARKUP_SECTION_TYPE, MOBILEDOC_IMAGE_SECTION_TYPE,
                    MOBILEDOC_LIST_SECTION_TYPE, MOBILEDOC_CARD_SECTION_TYPE}
    ensures (tag == 1 <==> s.MarkupSec?) && (tag == 2 <==> s.ImageSec?)
    ensures (tag == 3 <==> s.ListSec?) && (tag == 10 <==> s.CardSec?)
  {
    match s
    case MarkupSec(_, _) => MOBILEDOC_MARKUP_SECTION_TYPE
    case ImageSec(_) => MOBILEDOC_IMAGE_SECTION_TYPE
    case ListSec(_, _) => MOBILEDOC_LIST_SECTION_TYPE
    case CardSec(_) => MOBILEDOC_CARD_SECTION_TYPE
  }

  /** The numeric content tag that leads a run tuple. */
  function ContentTypeTag(r: Run): (tag: nat)
    ensures (tag == 0 <==> r.TextRun?) && (tag == 1 <==> r.AtomRun?)
  {
    match r
    case TextRun(_, _, _) => MOBILEDOC_MARKUP_CONTENT_TYPE
    case AtomRun(_, _, _) => MOBILEDOC_ATOM_CONTENT_TYPE
  }

  // ---------------------------------------------------------------------
  // Interning keys. The source joins the fields into a `-`-separated
  // string; here each key is the tuple of the fields it joins.

  /** What `objectToCacheKey` yields: the sentinel `'none'` or the sorted entries. */
  datatype PayloadKey = NoPayload | PayloadEntries(entries: Entries)

  datatype CardKey = CardKey(name: string, payload: PayloadKey)
  datatype AtomKey = AtomKey(name: string, value: Option<string>, payload: PayloadKey)
  datatype MarkupKey = MarkupKey(tagName: string, attributes: Entries)

  /**
   * `objectToCacheKey`: a falsy payload gets the sentinel; an object,
   * even an empty one, gets its sorted entries.
   */
  function ObjectToCacheKey(p: Payload): (k: PayloadKey)
    ensures k.NoPayload? <==> p.None?
    ensures p.Some? ==> multiset(k.entries) == multiset(p.value) && Sorted(k.entries)
  {
    match p
    case None => NoPayload
    case Some(entries) =>
      SortPermutes(entries);
      SortSorted(entries);
      PayloadEntries(SortEntries(entries))
  }

  /** Equal payload objects, whatever their property order, get the same cache key. */
  lemma ObjectToCacheKeyCanonical(p: Payload, q: Payload)
    requires p.Some? <==> q.Some?
    requires p.Some? ==> DistinctKeys(p.value) && DistinctKeys(q.value)
    requires p.Some? ==> forall e :: e in p.value <==> e in q.value
    ensures ObjectToCacheKey(p) == ObjectToCacheKey(q)
  {
    if p.Some? {
      SortEntriesCanonical(p.value, q.value);
    }
  }

  function CardKeyOf(c: CardType): CardKey {
    CardKey(c.name, ObjectToCacheKey(c.payload))
  }

  function AtomKeyOf(a: AtomType): AtomKey {
    AtomKey(a.name, a.value, ObjectToCacheKey(a.payload))
  }

  function MarkupKeyOf(m: MarkupType): MarkupKey {
    MarkupKey(m.tagName, m.attributes.GetOr([]))
  }

  /**
   * The definition stored for a markup key: the attribute list is left
   * out when it is empty, and the key can be read back from it.
   */
  function MarkupTypeFor(key: MarkupKey): (m: MarkupType)
    ensures m.tagName == key.tagName
    ensures m.attributes.None? <==> key.attributes == []
    ensures MarkupKeyOf(m) == key
  {
    if |key.attributes| > 0 then MarkupType(key.tagName, Some(key.attributes))
    else MarkupType(key.tagName, None)
  }

  /** Distinct keys give distinct stored markup definitions. */
  lemma MarkupTypeForInjective(k1: MarkupKey, k2: MarkupKey)
    requires MarkupTypeFor(k1) == MarkupTypeFor(k2)
    ensures k1 == k2
  {
    assert MarkupKeyOf(MarkupTypeFor(k1)) == k1;
  }
}
