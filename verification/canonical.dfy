/**
 * The controller run against a snapshot of the content repository. The
 * repository helpers in `controllers.Prismic` that decide bookmark
 * membership, fetch documents and check slugs are not part of this model.
 * Here they are ASSUMED to behave as follows: a bookmark is a name bound to
 * one document id; `getBookmark` yields the bound document when it exists;
 * the slug check answers not-found for a missing document, ok for the
 * current slug and the current slug otherwise. With that, link resolution
 * and the detail actions can be followed end to end.
 */
module Canonical {
  import opened Wrappers
  import opened Content
  import opened Routes
  import opened LinkResolver
  import opened DetailActions
  import opened Related

  /** One release of the repository: documents by id, bookmark names to ids. */
  datatype Repository = Repository(docs: map<string, Document>, bookmarks: map<string, string>)

  function GetDocument(repo: Repository, id: string): Option<Document> {
    if id in repo.docs then Some(repo.docs[id]) else None
  }

  /** The document a bookmark is bound to, if the name is bound and the document exists. */
  function GetBookmark(repo: Repository, name: string): Option<Document> {
    if name in repo.bookmarks then GetDocument(repo, repo.bookmarks[name]) else None
  }

  /** The bookmark names bound to the link's target. */
  function MarksOf(repo: Repository, link: Link): set<string> {
    set name | name in repo.bookmarks && repo.bookmarks[name] == link.id
  }

  /** The slug check as assumed above: the verdict the detail actions branch on. */
  function CheckSlug(doc: Option<Document>, slug: string): (v: Verdict)
    ensures v == NotFound <==> doc.None?
    ensures v == Ok <==> doc.Some? && doc.value.slug == slug
    ensures v.Redirect? ==> doc.Some? && v.slug == doc.value.slug && v.slug != slug
  {
    match doc
    case None => NotFound
    case Some(d) => if d.slug == slug then Ok else Redirect(d.slug)
  }

  /**
   * A bookmarked singleton page: not found while `getBookmark` yields no
   * document, that is, while the name is unbound or its document is missing.
   */
  function BookmarkPage(repo: Repository, name: string): (o: Outcome)
    ensures o.PageNotFound? <==> name !in repo.bookmarks || repo.bookmarks[name] !in repo.docs
    ensures o.Render? ==> o.view == BookmarkView(name, repo.docs[repo.bookmarks[name]])
  {
    match GetBookmark(repo, name)
    case None => PageNotFound
    case Some(d) => Render(BookmarkView(name, d))
  }

  /**
   * The response to a request for `route` against `repo`: the bookmark
   * pages, the broken-link page (always not found) and the detail actions
   * fed with the fetched document and its slug verdict.
   */
  function Serve(repo: Repository, route: Route): (o: Outcome)
    ensures route.BrokenLink? ==> o == PageNotFound
    ensures route.About? ==> o == BookmarkPage(repo, "about")
    ensures route.Jobs? ==> o == BookmarkPage(repo, "jobs")
    ensures route.Stores? ==> o == BookmarkPage(repo, "stores")
    ensures route.Detail? && route.page == JobPage && GetBookmark(repo, "jobs").None? ==>
      o == PageNotFound
    ensures route.Detail? && (route.page != JobPage || GetBookmark(repo, "jobs").Some?) ==>
      Follows(o, CheckSlug(GetDocument(repo, route.id), route.slug), route.page, route.id, route.ref)
  {
    match route
    case About(_) => BookmarkPage(repo, "about")
    case Jobs(_) => BookmarkPage(repo, "jobs")
    case Stores(_) => BookmarkPage(repo, "stores")
    case BrokenLink(_) => PageNotFound
    case Detail(page, id, slug, ref) =>
      var doc, jobsPage := GetDocument(repo, id), GetBookmark(repo, "jobs");
      var o := DetailAction(page, id, slug, ref, jobsPage, doc, CheckSlug(doc, slug));
      assert page != JobPage || jobsPage.Some? ==> Follows(o, CheckSlug(doc, slug), page, id, ref) by {
        if page != JobPage || jobsPage.Some? {
          AllDetailActionsFollowVerdict(page, id, slug, slug, ref, jobsPage, doc, CheckSlug(doc, slug));
        }
      }
      o
  }

  /** The link resolver of a request against `repo`. */
  function ResolveIn(repo: Repository, link: Link, ref: string): Route {
    Resolve(link, MarksOf(repo, link), ref)
  }

  /**
   * A redirect is followed by a render: the canonical slug is accepted
   * straight away, so no detail page redirects twice.
   */
  lemma RedirectSettles(repo: Repository, route: Route)
    requires Serve(repo, route).RedirectTo?
    ensures Serve(repo, Serve(repo, route).route).Render?
  {
  }

  /**
   * A live link to a document of a routable type leads to that document's
   * page: directly when the link's slug is current, else through one
   * redirect to the current slug.
   */
  lemma ResolvedLinkServes(repo: Repository, link: Link, ref: string)
    requires link.id in repo.docs
    requires ResolveIn(repo, link, ref).Detail?
    requires ResolveIn(repo, link, ref).page == JobPage ==> GetBookmark(repo, "jobs").Some?
    ensures var route, d := ResolveIn(repo, link, ref), repo.docs[link.id];
      && (d.slug == link.slug ==> Serve(repo, route).Render?)
      && (d.slug != link.slug ==>
            Serve(repo, route) == RedirectTo(Detail(route.page, link.id, d.slug, ref))
            && Serve(repo, Serve(repo, route).route).Render?)
  {
  }

  /** A link to a document missing from this release shows the not-found page. */
  lemma MissingTargetNotFound(repo: Repository, link: Link, ref: string)
    requires link.id !in repo.docs
    requires ResolveIn(repo, link, ref).Detail?
    ensures Serve(repo, ResolveIn(repo, link, ref)) == PageNotFound
  {
  }

  /** Broken and unroutable links show the not-found page. */
  lemma FallbackNotFound(repo: Repository, link: Link, ref: string)
    requires !Bookmarked(MarksOf(repo, link))
    requires link.broken || DetailPageFor(link.linkType).None?
    ensures Serve(repo, ResolveIn(repo, link, ref)) == PageNotFound
  {
  }

  /**
   * A bookmark wins over the link's type: a link whose target is bound to
   * `about` goes to the About page, even when its type has a detail page.
   */
  lemma BookmarkBeatsType(repo: Repository, link: Link, ref: string)
    requires "about" in repo.bookmarks && repo.bookmarks["about"] == link.id
    ensures ResolveIn(repo, link, ref) == About(ref)
  {
  }

  /** A stored document requested under an old slug redirects to its current slug. */
  lemma StaleSlugScenario(ref: string)
    ensures var store := Document("X1", "store", "main-street", map[], map[]);
      var repo := Repository(map["X1" := store], map[]);
      Serve(repo, Detail(StorePage, "X1", "old-name", ref))
        == RedirectTo(Detail(StorePage, "X1", "main-street", ref))
  {
  }

  /** A live product link resolves to the product page with its own id and slug. */
  lemma ProductLinkScenario()
    ensures Resolve(Link("product", "P9", "tart", false), {}, "abc")
         == Detail(ProductPage, "P9", "tart", "abc")
  {
  }

  /** Only the live product link of a mixed related field is kept. */
  lemma RelatedFieldScenario()
    ensures RelatedIds([Link("product", "A", "a", false), Link("store", "B", "b", false),
                        Link("product", "C", "c", true)], "product") == ["A"]
  {
  }
}
