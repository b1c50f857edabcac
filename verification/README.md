# Les Bonnes Choses controller: link resolution, slug verdicts, related ids, blog order

A model of the decision logic in the Play controller of the Les Bonnes
Choses site, which serves pages from a Prismic content repository
(`app/controllers/Application.java`). All HTTP, template and repository
calls become plain values. The model covers four pieces:

- **Link resolution** (`LinkResolver.Resolve`). A document link is sent to
  the route that shows its target. The rules are tried in order, and the
  first match wins:
  - the `about`, `jobs` and `stores` bookmarks;
  - the detail pages of live `store`, `product`, `job-offer` and
    `blog-post` links;
  - otherwise the broken-link page.
  Routes are values of the `Routes.Route` datatype, not URLs. Bookmark
  membership comes in as `marks`, the set of bookmark names the link is
  recognised as.
- **Detail actions** (`DetailActions`). `jobDetail`, `storeDetail`,
  `selectionDetail`, `blogPost` and `productDetail` all turn the slug
  check's verdict into a response in the same way:
  - `NotFound` gives the not-found page;
  - `Ok` renders the page;
  - `Redirect(s)` redirects to the same page with the same id and release,
    and slug `s`.
  `jobDetail` also answers not-found while the `jobs` bookmark is unbound.
- **Related ids** (`Related`). These are the loops that collect the ids of
  the live links of one type from a repeated link field. Authoring order
  and duplicates are kept.
- **Blog order** (`BlogOrder`). `Collections.sort` with the comparator
  `t2.compareTo(t1)` orders posts newest first by date in milliseconds. A
  missing date counts as 0. The sort is stable, and the model proves that
  sorted plus stable fixes the result uniquely.

`Canonical` runs the actions against a repository snapshot. The helpers of
`controllers.Prismic` are not part of this model, so `Canonical` ASSUMES
the following behaviour for them:

- a bookmark is a name bound to one document id, and a link is recognised
  as that bookmark when its id is the bound id;
- `getBookmark` yields the bound document, or null when the name is unbound
  or its document is missing;
- `checkSlug` answers the not-found sentinel for a missing document, null
  when the requested slug is the document's current slug, and the current
  slug otherwise.

With that, two things can be proved end to end: a redirect is always
followed by a render, and a resolved live link always leads to its
document's page.

Three points where the code may surprise a reader; the model follows the code:

- The broken flag is not checked once up front: `!isBroken()` is repeated
  in each typed branch. `ResolveIsTableLookup` proves this gives the same
  result as checking bookmarks, then the broken flag, then the type.
- The resolver has no branch for `selection` links, so they resolve to the
  broken-link page, although the `selectionDetail` action exists.
- A post without a date is not sorted last: its key is 0, so it sorts
  after every post dated after 1970 and before every post dated before it.

Inputs that stand for code outside this model:

- `marks`: the results of `isBookmark`.
- `Verdict`: the result of `checkSlug`. The sentinel string becomes
  `NotFound`, `null` becomes `Ok`, and any other string `s` becomes
  `Redirect(s)`.
- `Option<Document>`: the result of `getDocument` and `getBookmark`, with
  `None` for null.

## Model

| member | source | states |
|---|---|---|
| LinkResolver.Resolve | app/controllers/Application.java:31-66 | The route always carries the resolver's release. The `about`, `jobs` and `stores` bookmarks win in that order over everything else. A detail route is produced exactly when the link is not a bookmark, is not broken and its type has an entry in the type-to-page table; that route carries exactly the link's id and slug. Every other link goes to the broken-link page. |
| LinkResolver.ResolveIsTableLookup | app/controllers/Application.java:44-65 | The if-chain with a `!isBroken()` guard in every branch equals a lookup that checks bookmarks, then the broken flag, then the type-to-page table, for all inputs. |
| LinkResolver.BrokenLinkFallsBack | app/controllers/Application.java:45-65 | A broken link that is not a bookmark resolves to the broken-link page, whatever its type, id or slug. |
| LinkResolver.UnroutedTypeFallsBack | app/controllers/Application.java:64-65 | A non-bookmark link of a type other than the four routed ones resolves to the broken-link page. This includes `selection`. |
| LinkResolver.TypedLinkRoutes | app/controllers/Application.java:44-62 | A live non-bookmark link of each routed type resolves to its own detail page with the link's id and slug. |
| LinkResolver.NeverSelectionPage | app/controllers/Application.java:44-62 | No link ever resolves to the selection detail page. |
| Related.RelatedIds | app/controllers/Application.java:171-177 | Every extracted id is the id of a kept link (right type, not broken). There are never more ids than links. |
| Related.KeptIndices | app/controllers/Application.java:171-274 | For each of the four loops (171-177, 220-226, 229-235, 268-274): the extracted ids are exactly the ids of the kept links in authoring order. This is witnessed by strictly increasing positions that include every kept link's position, so duplicates are kept and nothing is reordered. |
| Related.InRelatedIds | app/controllers/Application.java:171-274 | For each of the four loops (171-177, 220-226, 229-235, 268-274): an id is extracted if and only if some kept link carries it. |
| Related.RelatedIdsAppend | app/controllers/Application.java:171-274 | For each of the four loops (171-177, 220-226, 229-235, 268-274): extracting from two concatenated link lists gives the two extractions concatenated. |
| Related.CollectRelatedIds | app/controllers/Application.java:171-177 | The loop that appends each kept link's id computes exactly `RelatedIds`. |
| DetailActions.JobDetail | app/controllers/Application.java:113-131 | Without the `jobs` page the result is not-found. With it, the verdict is followed as described for `AllDetailActionsFollowVerdict`. A render shows the jobs page and the fetched job. |
| DetailActions.StoreDetail | app/controllers/Application.java:146-159 | The result follows the verdict: not-found, render of the store page with the fetched store, or a redirect to the store page with the same id and release and the canonical slug. |
| DetailActions.SelectionDetail | app/controllers/Application.java:163-184 | The result follows the verdict. A render shows the selection with the live product ids of its `selection.product` field. |
| DetailActions.BlogPost | app/controllers/Application.java:212-243 | The result follows the verdict. A render shows the post with the live product ids of `blog-post.relatedproduct` and the live post ids of `blog-post.relatedpost`. |
| DetailActions.ProductDetail | app/controllers/Application.java:260-282 | The result follows the verdict. A render shows the product with the live product ids of `product.related`. |
| DetailActions.AllDetailActionsFollowVerdict | app/controllers/Application.java:120-129 | All five actions map the verdict the same way: not-found, render of their own page, or a redirect to their own page with the same id and release and the verdict's slug. The requested slug matters only through the verdict. |
| DetailActions.JobsBookmarkGuardsJobDetail | app/controllers/Application.java:115-117 | With the `jobs` bookmark unbound, `jobDetail` is not-found whatever the document and verdict. |
| BlogOrder.DateKey | app/controllers/Application.java:204-205 | A post's sort key is its `blog-post.date` in milliseconds when the post has that date, and 0 when it does not. |
| BlogOrder.Compare | app/controllers/Application.java:203-207 | The comparator orders two posts as "first not after second" exactly when the first post's date key is the larger or equal one. It calls them equal exactly when their keys are equal. |
| BlogOrder.Insert | app/controllers/Application.java:202-208 | Inserting a post adds exactly that post to the list: the multiset grows by one element. |
| BlogOrder.InsertSorted | app/controllers/Application.java:202-208 | Inserting into a list sorted by the comparator keeps it sorted. |
| BlogOrder.InsertWithKey | app/controllers/Application.java:202-208 | The inserted post goes ahead of the posts that have its own key, so insertion is stable. |
| BlogOrder.SortByDate | app/controllers/Application.java:202-208 | The sorted listing is a permutation of the fetched posts, and its date keys never increase. |
| BlogOrder.SortByDateStable | app/controllers/Application.java:202-208 | Posts with equal keys keep their fetched order, as a stable `Collections.sort` guarantees. |
| BlogOrder.SortedStableUnique | app/controllers/Application.java:202-208 | Two lists that are both sorted and list the posts of every key in the same order are equal. |
| BlogOrder.StableSortIsSortByDate | app/controllers/Application.java:202-208 | Every sorted, stable ordering of the fetched posts is `SortByDate`. |
| Canonical.CheckSlug | app/controllers/Application.java:148-149 | The verdict the detail actions receive, under the assumed `checkSlug` behaviour: not-found exactly for a missing document, ok exactly when the slug is current, otherwise a redirect to the current slug. |
| Canonical.BookmarkPage | app/controllers/Application.java:90-98 | A bookmarked page is not-found exactly when `getBookmark` yields no document (the name is unbound or its document is missing), and otherwise renders the bound document. |
| Canonical.Serve | app/controllers/Application.java:74-77 | Serving a route: the broken-link route is always not-found; the About, Jobs and Stores routes give their bookmark pages; a detail route is not-found for a job offer while the `jobs` bookmark yields no page, and otherwise follows the verdict of the fetched document for the requested slug (not-found, render of that page, or a redirect to that page with the same id and release and the canonical slug). |
| Canonical.RedirectSettles | app/controllers/Application.java:156-157 | Following a detail action's redirect leads to a render, so no page redirects twice. |
| Canonical.ResolvedLinkServes | app/controllers/Application.java:45-47 | A live link to an existing document of a routed type leads to that document's page. It renders directly when the link's slug is current. Otherwise it takes exactly one redirect to the current slug. |
| Canonical.MissingTargetNotFound | app/controllers/Application.java:150-152 | A resolved link to a document that is missing from the release gets the not-found page. |
| Canonical.FallbackNotFound | app/controllers/Application.java:74-77 | Broken and unroutable links lead to the not-found page. |
| Canonical.BookmarkBeatsType | app/controllers/Application.java:33-36 | A link whose target is bound to `about` goes to the About page, whatever its type. |
| Canonical.StaleSlugScenario | app/controllers/Application.java:146-158 | Store `X1` with current slug `main-street`, requested as `old-name`, redirects to `main-street`. |
| Canonical.ProductLinkScenario | app/controllers/Application.java:49-51 | A live product link `P9`/`tart` in release `abc` resolves to the product page for `P9`, `tart`, `abc`. |
| Canonical.RelatedFieldScenario | app/controllers/Application.java:268-274 | Of a live product link, a store link and a broken product link, only the first id is kept. |

## Left out

- Play plumbing: `Result`, `ok`/`notFound`/`redirect`, `absoluteURL(request)` and the templates. Responses are the `Outcome` datatype and routes are the `Route` datatype.
- `controllers.Prismic` (`isBookmark`, `checkSlug`, `getDocument`, `getBookmark`, `getDocuments`) is not part of this model. Its results are inputs to the actions. `Canonical` gives it an assumed behaviour, stated above, and only the end-to-end lemmas use that.
- The batched `getDocuments` fetch: a render records the list of ids it would fetch, not the fetched documents.
- The listing and search actions (`index`, `products`, `productsByFlavour`, `search`, `stores`, `jobs`, `about`) and the form queries built by string concatenation. They fetch and render. `Canonical.BookmarkPage` keeps only the bookmark check of `about`, `jobs` and `stores`.
- The fetch and category query of `blog`: only its sort is modelled.
- The constant tables `BlogCategories` and `ProductCategories`, which the logic above does not use.
- A null link type and a fragment that is not a document link. In the loops these raise a `NullPointerException` or a `ClassCastException`. Link types are plain strings, and fields hold only links.
- DetailActions.SelectionDetail: requires `Coherent` (a present document whenever the verdict is ok), because on a null document with a null verdict the Java throws a `NullPointerException` at `selection.getAll` (line 172), and the assumed `checkSlug` never answers ok for a missing document.
- DetailActions.BlogPost: requires `Coherent` for the same reason; the Java throws at `post.getAll` (line 221).
- DetailActions.ProductDetail: requires `Coherent` for the same reason; the Java throws at `product.getAll` (line 269).
- DetailActions.DetailAction: requires `Coherent` only for the selection, post and product pages, whose actions throw there; the job and store pages render a null document as the Java does (lines 125 and 154).
- DetailActions.AllDetailActionsFollowVerdict: requires `Coherent` only for the selection, post and product pages, as `DetailAction` does.
- Object identity: the sentinel is compared with `==`, by reference. The model assumes the slug check returns the sentinel object itself.
- Date milliseconds are unbounded integers. `Long` comparison of 64-bit values does not overflow, so nothing is lost.
