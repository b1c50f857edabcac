/**
 * Resolution of a document link to the route that displays its target
 * (`Application.LinkResolver.resolve`). Whether the link is one of the
 * bookmarked singleton pages is decided by the content repository; here it
 * arrives as `marks`, the names of the bookmarks the link is recognised as.
 */
module LinkResolver {
  import opened Wrappers
  import opened Content
  import opened Routes

  /**
   * The document types that have a detail page, and which page that is.
   * `selection` has a detail page but no entry: its links are not routed.
   */
  const DetailTable: map<string, Page> :=
    map["store" := StorePage, "product" := ProductPage,
        "job-offer" := JobPage, "blog-post" := PostPage]

  function DetailPageFor(linkType: string): Option<Page> {
    if linkType in DetailTable then Some(DetailTable[linkType]) else None
  }

  /** The link is one of the three bookmarks that have a page of their own. */
  predicate Bookmarked(marks: set<string>) {
    "about" in marks || "jobs" in marks || "stores" in marks
  }

  /**
   * First match wins: the three bookmarks in order, then the four typed
   * detail pages (each only for a link that is not broken), then the
   * broken-link page.
   */
  function Resolve(link: Link, marks: set<string>, ref: string): (r: Route)
    ensures r.ref == ref
    ensures "about" in marks ==> r == About(ref)
    ensures "about" !in marks && "jobs" in marks ==> r == Jobs(ref)
    ensures "about" !in marks && "jobs" !in marks && "stores" in marks ==> r == Stores(ref)
    ensures r.Detail? <==>
      !Bookmarked(marks) && !link.broken && DetailPageFor(link.linkType).Some?
    ensures r.Detail? ==>
      r == Detail(DetailPageFor(link.linkType).value, link.id, link.slug, ref)
    ensures r.BrokenLink? <==>
      !Bookmarked(marks) && (link.broken || DetailPageFor(link.linkType).None?)
  {
    if "about" in marks then About(ref)
    else if "jobs" in marks then Jobs(ref)
    else if "stores" in marks then Stores(ref)
    else if link.linkType == "store" && !link.broken then
      Detail(StorePage, link.id, link.slug, ref)
    else if link.linkType == "product" && !link.broken then
      Detail(ProductPage, link.id, link.slug, ref)
    else if link.linkType == "job-offer" && !link.broken then
      Detail(JobPage, link.id, link.slug, ref)
    else if link.linkType == "blog-post" && !link.broken then
      Detail(PostPage, link.id, link.slug, ref)
    else
      BrokenLink(ref)
  }

  /**
   * The same resolution written as a table lookup that tests the broken
   * flag once, before the type: bookmark, else broken, else table entry,
   * else fallback.
   */
  function ResolveByTable(link: Link, marks: set<string>, ref: string): Route {
    if "about" in marks then About(ref)
    else if "jobs" in marks then Jobs(ref)
    else if "stores" in marks then Stores(ref)
    else if link.broken then BrokenLink(ref)
    else match DetailPageFor(link.linkType)
      case Some(p) => Detail(p, link.id, link.slug, ref)
      case None => BrokenLink(ref)
  }

  /** The per-branch `!isBroken()` guards amount to one broken check up front. */
  lemma ResolveIsTableLookup(link: Link, marks: set<string>, ref: string)
    ensures Resolve(link, marks, ref) == ResolveByTable(link, marks, ref)
  {
  }

  /** A broken link that is not a bookmark never reaches a detail page. */
  lemma BrokenLinkFallsBack(link: Link, marks: set<string>, ref: string)
    requires !Bookmarked(marks) && link.broken
    ensures Resolve(link, marks, ref) == BrokenLink(ref)
  {
  }

  /** A link of a type without a detail route, `selection` included, falls back. */
  lemma UnroutedTypeFallsBack(link: Link, marks: set<string>, ref: string)
    requires !Bookmarked(marks)
    requires link.linkType !in {"store", "product", "job-offer", "blog-post"}
    ensures Resolve(link, marks, ref) == BrokenLink(ref)
  {
  }

  /**
   * A live link to a routable type resolves to its detail page with exactly
   * the link's id and slug, whatever else it carries.
   */
  lemma TypedLinkRoutes(link: Link, marks: set<string>, ref: string)
    requires !Bookmarked(marks) && !link.broken
    ensures link.linkType == "store" ==>
      Resolve(link, marks, ref) == Detail(StorePage, link.id, link.slug, ref)
    ensures link.linkType == "product" ==>
      Resolve(link, marks, ref) == Detail(ProductPage, link.id, link.slug, ref)
    ensures link.linkType == "job-offer" ==>
      Resolve(link, marks, ref) == Detail(JobPage, link.id, link.slug, ref)
    ensures link.linkType == "blog-post" ==>
      Resolve(link, marks, ref) == Detail(PostPage, link.id, link.slug, ref)
  {
  }

  /** A detail route never leads to the selection page. */
  lemma NeverSelectionPage(link: Link, marks: set<string>, ref: string)
    ensures Resolve(link, marks, ref).Detail? ==>
      Resolve(link, marks, ref).page != SelectionPage
  {
  }
}
