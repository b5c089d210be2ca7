/**
 * The parsed page, seen only through the queries the scraper makes of it.
 * CSS matching and HTML parsing are not modelled: each query is an oracle
 * whose answers are part of the input.
 */
module Dom {
  import opened Results

  /** An element of the parsed document. */
  type NodeId = nat

  /** A CSS selector, kept as the literal text the scraper passes. */
  type Selector = string

  /**
   * `select(e, sel)` is `e.select(sel)` (all matches under `e`, in document
   * order); `findAll(e, tags)` is `e.find_all(tags)`; `text(e)` is `e.text`;
   * `tagName(e)` is `e.name`; `href(e)` is the `href` attribute if present;
   * `parent(e)` is `e.parent`.
   */
  datatype Document = Document(
    select: (NodeId, Selector) -> seq<NodeId>,
    findAll: (NodeId, seq<string>) -> seq<NodeId>,
    text: NodeId -> string,
    tagName: NodeId -> string,
    href: NodeId -> Option<string>,
    parent: NodeId -> Option<NodeId>)

  /** `e.select_one(sel)`: the first match, if any. */
  function SelectOne(doc: Document, e: NodeId, sel: Selector): (r: Option<NodeId>)
    ensures r.None? <==> doc.select(e, sel) == []
    ensures r.Some? ==> r.value == doc.select(e, sel)[0]
  {
    var matches := doc.select(e, sel);
    if matches == [] then None else Some(matches[0])
  }
}
