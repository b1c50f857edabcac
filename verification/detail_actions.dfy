/**
 * The five detail actions (`jobDetail`, `storeDetail`, `selectionDetail`,
 * `blogPost`, `productDetail`) with the repository calls replaced by their
 * results: the fetched document (`None` for null) and the verdict of the
 * slug check, which is made by the content repository's helper.
 */
module DetailActions {
  import opened Wrappers
  import opened Content
  import opened Routes
  import opened Related

  /** What the slug check said: no such document, slug current, or the canonical slug. */
  datatype Verdict = NotFound | Ok | Redirect(slug: string)

  /** The data each detail template is rendered with. */
  datatype View =
    | JobDetailView(jobsPage: Document, job: Option<Document>)
    | StoreDetailView(store: Option<Document>)
    | SelectionDetailView(selection: Document, productIds: seq<string>)
    | PostDetailView(post: Document, relatedProductIds: seq<string>, relatedPostIds: seq<string>)
    | ProductDetailView(product: Document, relatedProductIds: seq<string>)
    | BookmarkView(name: string, bookmarked: Document)

  /** The response of an action. */
  datatype Outcome = PageNotFound | Render(view: View) | RedirectTo(route: Route)

  /** The detail page a view belongs to. */
  function PageOf(v: View): Option<Page> {
    match v
    case JobDetailView(_, _) => Some(JobPage)
    case StoreDetailView(_) => Some(StorePage)
    case SelectionDetailView(_, _) => Some(SelectionPage)
    case PostDetailView(_, _, _) => Some(PostPage)
    case ProductDetailView(_, _) => Some(ProductPage)
    case BookmarkView(_, _) => None
  }

  /**
   * The mapping every detail action applies to the verdict: not found gives
   * the not-found page, ok renders this page, and a canonical slug
   * redirects to this page with the same id and release and that slug.
   */
  predicate Follows(o: Outcome, checked: Verdict, page: Page, id: string, ref: string) {
    && (checked.NotFound? ==> o == PageNotFound)
    && (checked.Ok? ==> o.Render? && PageOf(o.view) == Some(page))
    && (checked.Redirect? ==> o == RedirectTo(Detail(page, id, checked.slug, ref)))
  }

  /**
   * A verdict that renders comes with a document. The selection, post and
   * product actions dereference it on that branch; the job and store
   * actions pass it to the template as it is.
   */
  predicate Coherent(doc: Option<Document>, checked: Verdict) {
    checked.Ok? ==> doc.Some?
  }

  /** The field paths of the related-document link lists, and their types. */
  const SelectionProducts := "selection.product"
  const PostRelatedProducts := "blog-post.relatedproduct"
  const PostRelatedPosts := "blog-post.relatedpost"
  const ProductRelated := "product.related"

  /** Job offers are shown only while the `jobs` bookmark resolves to a page. */
  function JobDetail(id: string, slug: string, ref: string,
                     jobsPage: Option<Document>, job: Option<Document>,
                     checked: Verdict): (o: Outcome)
    ensures jobsPage.None? ==> o == PageNotFound
    ensures jobsPage.Some? ==> Follows(o, checked, JobPage, id, ref)
    ensures o.Render? ==> jobsPage.Some? && o.view == JobDetailView(jobsPage.value, job)
  {
    match jobsPage
    case None => PageNotFound
    case Some(page) =>
      match checked
      case NotFound => PageNotFound
      case Ok => Render(JobDetailView(page, job))
      case Redirect(canonical) => RedirectTo(Detail(JobPage, id, canonical, ref))
  }

  function StoreDetail(id: string, slug: string, ref: string,
                       store: Option<Document>, checked: Verdict): (o: Outcome)
    ensures Follows(o, checked, StorePage, id, ref)
    ensures o.Render? ==> o.view == StoreDetailView(store)
  {
    match checked
    case NotFound => PageNotFound
    case Ok => Render(StoreDetailView(store))
    case Redirect(canonical) => RedirectTo(Detail(StorePage, id, canonical, ref))
  }

  /** A selection is rendered with the products its live product links name. */
  function SelectionDetail(id: string, slug: string, ref: string,
                           selection: Option<Document>, checked: Verdict): (o: Outcome)
    requires Coherent(selection, checked)
    ensures Follows(o, checked, SelectionPage, id, ref)
    ensures o.Render? ==>
      o.view.SelectionDetailView? && o.view.selection == selection.value
      && o.view.productIds == RelatedIds(GetAll(selection.value, SelectionProducts), "product")
  {
    match checked
    case NotFound => PageNotFound
    case Ok =>
      var ids := RelatedIds(GetAll(selection.value, SelectionProducts), "product");
      Render(SelectionDetailView(selection.value, ids))
    case Redirect(canonical) => RedirectTo(Detail(SelectionPage, id, canonical, ref))
  }

  /** A post is rendered with its live related products and related posts. */
  function BlogPost(id: string, slug: string, ref: string,
                    post: Option<Document>, checked: Verdict): (o: Outcome)
    requires Coherent(post, checked)
    ensures Follows(o, checked, PostPage, id, ref)
    ensures o.Render? ==>
      o.view.PostDetailView? && o.view.post == post.value
      && o.view.relatedProductIds == RelatedIds(GetAll(post.value, PostRelatedProducts), "product")
      && o.view.relatedPostIds == RelatedIds(GetAll(post.value, PostRelatedPosts), "blog-post")
  {
    match checked
    case NotFound => PageNotFound
    case Ok =>
      var products := RelatedIds(GetAll(post.value, PostRelatedProducts), "product");
      var posts := RelatedIds(GetAll(post.value, PostRelatedPosts), "blog-post");
      Render(PostDetailView(post.value, products, posts))
    case Redirect(canonical) => RedirectTo(Detail(PostPage, id, canonical, ref))
  }

  /** A product is rendered with its live related products. */
  function ProductDetail(id: string, slug: string, ref: string,
                         product: Option<Document>, checked: Verdict): (o: Outcome)
    requires Coherent(product, checked)
    ensures Follows(o, checked, ProductPage, id, ref)
    ensures o.Render? ==>
      o.view.ProductDetailView? && o.view.product == product.value
      && o.view.relatedProductIds == RelatedIds(GetAll(product.value, ProductRelated), "product")
  {
    match checked
    case NotFound => PageNotFound
    case Ok =>
      Render(ProductDetailView(product.value, RelatedIds(GetAll(product.value, ProductRelated), "product")))
    case Redirect(canonical) => RedirectTo(Detail(ProductPage, id, canonical, ref))
  }

  /** The pages whose action reads the fetched document's fields before rendering. */
  predicate ReadsDocument(page: Page) {
    page == SelectionPage || page == PostPage || page == ProductPage
  }

  /** Any of the five detail actions, chosen by page. */
  function DetailAction(page: Page, id: string, slug: string, ref: string,
                        jobsPage: Option<Document>, doc: Option<Document>,
                        checked: Verdict): Outcome
    requires ReadsDocument(page) ==> Coherent(doc, checked)
  {
    match page
    case JobPage => JobDetail(id, slug, ref, jobsPage, doc, checked)
    case StorePage => StoreDetail(id, slug, ref, doc, checked)
    case SelectionPage => SelectionDetail(id, slug, ref, doc, checked)
    case PostPage => BlogPost(id, slug, ref, doc, checked)
    case ProductPage => ProductDetail(id, slug, ref, doc, checked)
  }

  /**
   * The five actions agree: each maps the verdict to the same kind of
   * response, redirecting to its own page, and the requested slug plays no
   * part beyond the verdict. Only the job page adds a guard.
   */
  lemma AllDetailActionsFollowVerdict(page: Page, id: string, slug: string, slug': string,
                                      ref: string, jobsPage: Option<Document>,
                                      doc: Option<Document>, checked: Verdict)
    requires ReadsDocument(page) ==> Coherent(doc, checked)
    requires page != JobPage || jobsPage.Some?
    ensures Follows(DetailAction(page, id, slug, ref, jobsPage, doc, checked), checked, page, id, ref)
    ensures DetailAction(page, id, slug, ref, jobsPage, doc, checked)
         == DetailAction(page, id, slug', ref, jobsPage, doc, checked)
  {
  }

  /** Without the `jobs` bookmark no job offer is shown, whatever the document and verdict. */
  lemma JobsBookmarkGuardsJobDetail(id: string, slug: string, ref: string,
                                    job: Option<Document>, checked: Verdict)
    ensures JobDetail(id, slug, ref, None, job, checked) == PageNotFound
  {
  }
}
