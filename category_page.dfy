/** src/pages/Category/index.tsx: the category list page. */
module CategoryPage {
  import opened Wrappers
  import opened QuestionTypes
  import opened ListPages

  /** The page's initial state; its delete awaits the reload. */
  method NewPage() returns (page: ListPage<Category>)
    ensures fresh(page)
    ensures page.awaitsReload
    ensures page.items == [] && page.selected == None
    ensures !page.isLoading && !page.isGettingOne && !page.isOpenEdit && page.pendingReloads == 0
  {
    page := new ListPage<Category>(true);
  }
}
