/**
 * What a backend call can come back with, as seen by the pages after
 * `await res.json()`. The network itself is not modelled: each call's
 * result is an argument of the operation that makes it.
 */
module Fetch {
  import opened Wrappers

  /** A list request: the body's `data` array, or a thrown fetch or JSON error. */
  datatype ListResponse<T> = ListFetched(data: seq<T>) | ListThrew

  /** A single-record request: the body's `data` (possibly null), or a thrown error. */
  datatype ItemResponse<T> = ItemFetched(data: Option<T>) | ItemThrew

  /** A create, update or delete request: `success` true, `success` false, or a thrown error. */
  datatype Outcome = Succeeded | Rejected | Threw
}
