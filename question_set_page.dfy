/** src/pages/QuestionSet/index.tsx: the question-set list page. */
module QuestionSetPage {
  import opened Wrappers
  import opened QuestionTypes
  import opened ListPages

  /** The page's initial state; its delete awaits the reload. */
  method NewPage() returns (page: ListPage<QuestionSet>)
    ensures fresh(page)
    ensures page.awaitsReload
    ensures page.items == [] && page.selected == None
    ensures !page.isLoading && !page.isGettingOne && !page.isOpenEdit && page.pendingReloads == 0
  {
    page := new ListPage<QuestionSet>(true);
  }
}
