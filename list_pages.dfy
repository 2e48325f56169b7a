/**
 * The list controller shared by the Category, QuestionSet, Questions and
 * QuestionsV2 pages: a list replaced wholesale by each successful load, a
 * loading flag, the record selected for editing with its own loading flag,
 * and a confirm-gated delete that reloads the list on success.
 */
module ListPages {
  import opened Wrappers
  import opened Fetch

  const DELETE_ALERT := "Error deleting question"

  /** The list after one load: the response's data, or the old list when the call threw. */
  function AfterLoad<T>(items: seq<T>, resp: ListResponse<T>): seq<T> {
    match resp
    case ListFetched(data) => data
    case ListThrew => items
  }

  /** The list after a series of loads completed in order. */
  function AfterLoads<T>(items: seq<T>, resps: seq<ListResponse<T>>): seq<T>
    decreases |resps|
  {
    if resps == [] then items else AfterLoads(AfterLoad(items, resps[0]), resps[1..])
  }

  /** The data of the last load that did not throw, if any. */
  function LastFetched<T>(resps: seq<ListResponse<T>>): (r: Option<seq<T>>)
    ensures r.None? <==> forall i :: 0 <= i < |resps| ==> resps[i].ListThrew?
  {
    if resps == [] then None
    else if resps[|resps| - 1].ListFetched? then Some(resps[|resps| - 1].data)
    else LastFetched(resps[..|resps| - 1])
  }

  /**
   * Loads never merge: after any series of loads the list is the data of the
   * last one that did not throw, and failed loads leave the earlier list in place.
   */
  lemma {:induction false} LoadsKeepLastSuccess<T>(items: seq<T>, resps: seq<ListResponse<T>>)
    ensures AfterLoads(items, resps) == LastFetched(resps).GetOr(items)
    decreases |resps|
  {
    if resps != [] {
      var init, last := resps[..|resps| - 1], resps[|resps| - 1];
      AfterLoadsSnoc(items, init, last);
      assert init + [last] == resps;
      LoadsKeepLastSuccess(items, init);
    }
  }

  lemma {:induction false} AfterLoadsSnoc<T>(items: seq<T>, resps: seq<ListResponse<T>>, last: ListResponse<T>)
    ensures AfterLoads(items, resps + [last]) == AfterLoad(AfterLoads(items, resps), last)
    decreases |resps|
  {
    if resps != [] {
      assert (resps + [last])[1..] == resps[1..] + [last];
      AfterLoadsSnoc(AfterLoad(items, resps[0]), resps[1..], last);
    }
  }

  /** The selection after fetching one record: the response's data (even null), or unchanged when the call threw. */
  function AfterGet<T>(selected: Option<T>, resp: ItemResponse<T>): Option<T> {
    match resp
    case ItemFetched(data) => data
    case ItemThrew => selected
  }

  /** The row-number column: `(rowIndex ?? 0) + 1`, counting from 1. */
  function RowNumber(rowIndex: Option<nat>): (n: int)
    ensures n >= 1
    ensures rowIndex.Some? ==> n - 1 == rowIndex.value
    ensures rowIndex.None? ==> n == 1
  {
    rowIndex.GetOr(0) + 1
  }

  /** One list page's state. */
  class ListPage<T> {
    /** Whether delete awaits the reload it starts (all pages but Questions). */
    const awaitsReload: bool
    var items: seq<T>
    var selected: Option<T>
    var isLoading: bool
    var isGettingOne: bool
    var isOpenEdit: bool
    /** Reloads started by a delete that did not await them, still in flight. */
    var pendingReloads: nat

    constructor (awaitsReload: bool)
      ensures this.awaitsReload == awaitsReload
      ensures items == [] && selected == None
      ensures !isLoading && !isGettingOne && !isOpenEdit && pendingReloads == 0
    {
      this.awaitsReload := awaitsReload;
      items := [];
      selected := None;
      isLoading := false;
      isGettingOne := false;
      isOpenEdit := false;
      pendingReloads := 0;
    }

    /** The edit modal is rendered only while a record is selected. */
    predicate EditModalMounted()
      reads this
    {
      selected.Some?
    }

    /** The list load: replace the list on a response, keep it on a throw; the flag always ends false. */
    method LoadList(resp: ListResponse<T>)
      modifies this`items, this`isLoading
      ensures items == AfterLoad(old(items), resp)
      ensures !isLoading
    {
      isLoading := true;
      match resp {
        case ListFetched(data) =>
          items := data;
        case ListThrew =>
      }
      isLoading := false;
    }

    /** The mount effect runs exactly one load. */
    method Mount(resp: ListResponse<T>)
      modifies this`items, this`isLoading
      ensures items == AfterLoad(old(items), resp)
      ensures !isLoading
    {
      LoadList(resp);
    }

    /** The synchronous start of a reload nobody awaits: the flag goes up and the call is in flight. */
    method StartReload()
      modifies this`isLoading, this`pendingReloads
      ensures isLoading && pendingReloads == old(pendingReloads) + 1
    {
      isLoading := true;
      pendingReloads := pendingReloads + 1;
    }

    /** The completion of the oldest reload still in flight. */
    method SettleReload(resp: ListResponse<T>)
      requires pendingReloads > 0
      modifies this`items, this`isLoading, this`pendingReloads
      ensures items == AfterLoad(old(items), resp)
      ensures !isLoading && pendingReloads == old(pendingReloads) - 1
    {
      match resp {
        case ListFetched(data) =>
          items := data;
        case ListThrew =>
      }
      isLoading := false;
      pendingReloads := pendingReloads - 1;
    }

    /**
     * The delete handler with the delete's outcome `resp` and, when the page
     * awaits it, the reload's response `reload`. Only `success` starts a reload,
     * exactly one; `success: false` raises the alert; nothing is removed from the
     * list optimistically; the loading flag ends false on every path.
     */
    method HandleDelete(resp: Outcome, reload: ListResponse<T>) returns (reloadsStarted: nat, alert: Option<string>)
      modifies this`items, this`isLoading, this`pendingReloads
      ensures reloadsStarted == if resp == Succeeded then 1 else 0
      ensures alert == if resp == Rejected then Some(DELETE_ALERT) else None
      ensures !isLoading
      ensures items == if awaitsReload && resp == Succeeded then AfterLoad(old(items), reload) else old(items)
      ensures pendingReloads == if awaitsReload then old(pendingReloads) else old(pendingReloads) + reloadsStarted
    {
      isLoading := true;
      reloadsStarted, alert := 0, None;
      match resp {
        case Succeeded =>
          reloadsStarted := 1;
          if awaitsReload {
            LoadList(reload);
          } else {
            StartReload();
          }
        case Rejected =>
          alert := Some(DELETE_ALERT);
        case Threw =>
      }
      isLoading := false;
    }

    /** The delete button: the handler runs only when the operator confirms. */
    method OnDeleteClick(confirmed: bool, resp: Outcome, reload: ListResponse<T>) returns (reloadsStarted: nat, alert: Option<string>)
      modifies this`items, this`isLoading, this`pendingReloads
      ensures !confirmed ==>
        && reloadsStarted == 0 && alert == None
        && items == old(items) && isLoading == old(isLoading) && pendingReloads == old(pendingReloads)
      ensures confirmed ==>
        && reloadsStarted == (if resp == Succeeded then 1 else 0)
        && alert == (if resp == Rejected then Some(DELETE_ALERT) else None)
        && !isLoading
        && items == (if awaitsReload && resp == Succeeded then AfterLoad(old(items), reload) else old(items))
        && pendingReloads == (if awaitsReload then old(pendingReloads) else old(pendingReloads) + reloadsStarted)
    {
      reloadsStarted, alert := 0, None;
      if confirmed {
        reloadsStarted, alert := HandleDelete(resp, reload);
      }
    }

    /** Fetching one record: only the selection and its own flag change. */
    method GetOne(resp: ItemResponse<T>)
      modifies this`selected, this`isGettingOne
      ensures selected == AfterGet(old(selected), resp)
      ensures !isGettingOne
    {
      isGettingOne := true;
      match resp {
        case ItemFetched(data) =>
          selected := data;
        case ItemThrew =>
      }
      isGettingOne := false;
    }

    /** The edit button: fetch the record, then open the edit modal whatever the fetch did. */
    method OnEditClick(resp: ItemResponse<T>)
      modifies this`selected, this`isGettingOne, this`isOpenEdit
      ensures selected == AfterGet(old(selected), resp)
      ensures !isGettingOne && isOpenEdit
      ensures EditModalMounted() <==>
        (resp.ItemFetched? && resp.data.Some?) || (resp.ItemThrew? && old(selected).Some?)
    {
      GetOne(resp);
      isOpenEdit := true;
    }
  }
}
