/**
 * The content model the controller reads: document links found in a
 * document's fields, and the documents themselves.
 */
module Content {
  import opened Wrappers

  /**
   * A document link fragment: the target's type, id and slug as they were
   * when the link was authored, and whether the repository reports the
   * target as no longer reachable.
   */
  datatype Link = Link(linkType: string, id: string, slug: string, broken: bool)

  /**
   * A fetched document. Only the parts the controller looks at are kept:
   * the repeated link fragments by field path, and date fragments by field
   * path, in milliseconds since the epoch.
   */
  datatype Document = Document(
    id: string,
    docType: string,
    slug: string,
    links: map<string, seq<Link>>,
    dates: map<string, int>)

  /** All link fragments stored under `path`; none when the field is absent. */
  function GetAll(d: Document, path: string): seq<Link> {
    if path in d.links then d.links[path] else []
  }

  /** The date fragment at `path`, or `None` where the Java API returns null. */
  function GetDate(d: Document, path: string): Option<int> {
    if path in d.dates then Some(d.dates[path]) else None
  }
}
