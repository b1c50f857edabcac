/**
 * The application's routes, as values rather than URLs. Every route carries
 * the release reference `ref` it was built for.
 */
module Routes {

  /** The five detail pages, each addressed by a document id and a slug. */
  datatype Page = StorePage | ProductPage | JobPage | PostPage | SelectionPage

  datatype Route =
    | About(ref: string)
    | Jobs(ref: string)
    | Stores(ref: string)
    | Detail(page: Page, id: string, slug: string, ref: string)
    | BrokenLink(ref: string)
}
