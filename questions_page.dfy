/**
 * src/pages/Questions/index.tsx: the question table. Its delete starts the
 * reload without awaiting it, and its variant column shows the first variant's name.
 */
module QuestionsPage {
  import opened Wrappers
  import opened Fetch
  import opened QuestionTypes
  import opened ListPages

  /** The page's initial state; its delete does not await the reload. */
  method NewPage() returns (page: ListPage<Question>)
    ensures fresh(page)
    ensures !page.awaitsReload
    ensures page.items == [] && page.selected == None
    ensures !page.isLoading && !page.isGettingOne && !page.isOpenEdit && page.pendingReloads == 0
  {
    page := new ListPage<Question>(false);
  }

  /** The variant column's accessor: `row.question_variant?.[0]?.name`. */
  function VariantAccessor(q: Question): (v: Option<string>)
    ensures v.Some? <==> |q.question_variant| > 0
    ensures v.Some? ==> v.value == q.question_variant[0].name
  {
    if |q.question_variant| > 0 then Some(q.question_variant[0].name) else None
  }

  /** The badge text: `String(getValue() || "")`. */
  function BadgeLabel(value: Option<string>): string {
    value.GetOr("")
  }

  /** The badge is amber for multiple-choice questions and blue otherwise. */
  predicate IsAmberBadge(text: string) {
    text == MULTIPLE_CHOICE
  }

  /** The badge is amber exactly when the first variant is named `multiple_choice`. */
  lemma AmberIffFirstVariantMultipleChoice(q: Question)
    ensures IsAmberBadge(BadgeLabel(VariantAccessor(q))) <==>
      |q.question_variant| > 0 && q.question_variant[0].name == MULTIPLE_CHOICE
  {
  }

  /**
   * A confirmed, successful delete followed by the completion of the reload it
   * started leaves the page as an awaited reload would: the list replaced by the
   * reload's data (or kept if it threw), the flag down and nothing in flight.
   */
  method DeleteThenReloadCompletes(page: ListPage<Question>, reload: ListResponse<Question>)
    requires !page.awaitsReload && page.pendingReloads == 0
    modifies page
    ensures page.items == AfterLoad(old(page.items), reload)
    ensures !page.isLoading && page.pendingReloads == 0
  {
    var started, alert := page.OnDeleteClick(true, Succeeded, reload);
    assert page.pendingReloads == 1 && page.items == old(page.items);
    page.SettleReload(reload);
  }
}
