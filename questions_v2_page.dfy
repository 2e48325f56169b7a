/**
 * src/pages/QuestionsV2/index.tsx: the question grid. Its delete awaits the
 * reload; its columns show a row number and the first variant's name.
 */
module QuestionsV2Page {
  import opened Wrappers
  import opened QuestionTypes
  import opened ListPages
  import QuestionsPage

  /** The page's initial state; its delete awaits the reload. */
  method NewPage() returns (page: ListPage<Question>)
    ensures fresh(page)
    ensures page.awaitsReload
    ensures page.items == [] && page.selected == None
    ensures !page.isLoading && !page.isGettingOne && !page.isOpenEdit && page.pendingReloads == 0
  {
    page := new ListPage<Question>(true);
  }

  /** The variant column's value getter: `question_variant?.[0]?.name || ""`. */
  function VariantValue(q: Question): (v: string)
    ensures |q.question_variant| == 0 ==> v == ""
  {
    if |q.question_variant| > 0 then q.question_variant[0].name else ""
  }

  /**
   * The grid shows the same label as the table of the Questions page, and its
   * badge is amber exactly for a first variant named `multiple_choice`.
   */
  lemma VariantValueMatchesTable(q: Question)
    ensures VariantValue(q) == QuestionsPage.BadgeLabel(QuestionsPage.VariantAccessor(q))
    ensures QuestionsPage.IsAmberBadge(VariantValue(q)) <==>
      |q.question_variant| > 0 && q.question_variant[0].name == MULTIPLE_CHOICE
  {
  }
}
