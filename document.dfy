/**
 * The post tree the renderer walks: a post owns sections, sections own
 * markers and atoms (or list items that own them), and markers and atoms
 * carry the markups they close and open.
 */
module Document {
  import opened Wrappers
  import opened Attributes

  /** An inline formatting node, e.g. `b` or `a` with an `href`. */
  datatype Markup = Markup(tagName: string, attributes: Entries)

  /**
   * A card or atom payload. `None` is a falsy payload (`null`,
   * `undefined`); `Some(entries)` is an object, possibly empty.
   */
  type Payload = Option<Entries>

  /** A marker (text run) or an atom (inline embed). */
  datatype Inline =
    | Marker(closedMarkups: seq<Markup>, value: Option<string>, openedMarkups: seq<Markup>)
    | Atom(closedMarkups: seq<Markup>, name: string, value: Option<string>, payload: Payload, openedMarkups: seq<Markup>)

  datatype ListItem = ListItem(markers: seq<Inline>)

  datatype Section =
    | MarkupSection(tagName: string, markers: seq<Inline>)
    | ListSection(tagName: string, items: seq<ListItem>)
    | ImageSection(src: string)
    | CardSection(name: string, payload: Payload)

  datatype Post = Post(sections: seq<Section>)
}
