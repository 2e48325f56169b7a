# love-deck-cms: a Dafny model of the admin console's logic

love-deck-cms is a small React admin console for the question decks of a card game.
This project models the parts of it that hold logic rather than rendering:

- **The session gate.** `checkAuth` and `ProtectedRoute` in `src/App.tsx`, the login form in
  `src/pages/Login`, and `logout`, `getRemainingLoginTime` and `formatRemainingTime` in
  `src/utils/auth.ts`. The session is two keys in `localStorage`: `code` and `loginTime`.
  A session lasts one week.
- **The value/error state of a select input** in `src/hooks/useSelectState.ts`.
- **Two forms.** The create-question modal and the question-set update modal. The model covers
  their default values, `onSubmit`, `handleClose`, the declared `required` rules, the option-row
  guard, and the re-sync of the update modal from its `category` prop.
- **The four list pages.** Category, QuestionSet, Questions and QuestionsV2 share one controller:
  - a list that is replaced wholesale by each successful load;
  - an `isLoading` flag that always ends false;
  - a confirm-gated delete that reloads the list on success;
  - a separate flag for fetching one record for editing.
- **The date formatter** `formatDateTime` in `src/utils/time.ts`.

Code that changes state in the source is modelled as Dafny classes whose methods update fields:

- `Browser.Window` holds the store, the location and the dispatched events.
- `AppRoot.App`, `LoginPage.Login` and `SelectHook.SelectState` hold component state.
- `CreateQuestion.CreateQuestionModal` and `UpdateQuestionSet.UpdateModal` hold the two forms.
- `ListPages.ListPage<T>` is the list controller.

Each method is specified against a function on values (`StoreAfterCheck`, `StoreAfterLogin`,
`ValidationError`, `AfterLoad`, `CheckSubmit`, …). The properties are proved about those functions
as lemmas. Pure code is modelled as functions with lemmas: `ProtectedRoute`, the remaining-time
arithmetic, the column accessors, the payloads and `formatDateTime`.

Several inputs are parameters of the model:

- **JavaScript numbers:** `JsNumber.Num`, which is an integer or NaN.
- **`parseInt`:** modelled with its leading white space, sign, `0x` prefix and digit-prefix rules.
- **The clock:** the `now` parameter.
- **The configured login code:** the `expected` parameter.
- **Each network call:** its outcome (`Fetch.Outcome`, `ListResponse`, `ItemResponse`).
- **The confirmation dialog:** a boolean.

`validate`'s `required` argument defaults to `false` (src/hooks/useSelectState.ts:12); the model
takes it as an explicit parameter.

## Model

| member | source | states |
|---|---|---|
| JsNumber.JsRem | src/utils/auth.ts:24-25 | JavaScript `%`: for a non-negative dividend it is the ordinary remainder, for a negative one it is non-positive and differs from the dividend by a multiple of the divisor, and its magnitude is always below the divisor |
| JsNumber.TrimStart | src/App.tsx:52 | `parseInt` skips leading white space and nothing else (tab, vertical tab, form feed, byte order mark, every Unicode space separator and the four line terminators): the result is a suffix of the input, every skipped character is white space, and the result starts with a non-space character |
| JsNumber.DigitPrefix | src/App.tsx:52 | `parseInt` reads the longest prefix of digits of the radix; the next character, if any, is not such a digit |
| JsNumber.ValueOfNatToString | src/pages/Login/index.tsx:26 | the decimal digits printed for a natural number evaluate back to that number |
| JsNumber.ParseDigits | src/App.tsx:52 | a non-empty string of decimal digits parses to its decimal value, all of it |
| JsNumber.ParseMinus | src/App.tsx:52 | a leading minus sign negates the value of what follows |
| JsNumber.ParseIntToString | src/pages/Login/index.tsx:26 | `parseInt(String(i)) == i` for every integer below 10^21 in magnitude (the model's `String` has no exponent form): the login time written by the login page reads back exactly |
| Browser.Window.GetItem | src/App.tsx:30-31 | `getItem` returns the stored string exactly when the key is present, `null` otherwise |
| Browser.Window.SetItem | src/pages/Login/index.tsx:27-28 | `setItem` updates one key and nothing else |
| Browser.Window.RemoveItem | src/utils/auth.ts:2-3 | `removeItem` drops one key; removing an absent key changes nothing |
| Browser.Window.DispatchEvent | src/utils/auth.ts:5 | a dispatched event is appended to the window's event log |
| Browser.Window.Navigate | src/utils/auth.ts:7 | the window's location becomes the target path |
| Auth.StoreAfterLogout | src/utils/auth.ts:1-3 | logout removes exactly `code` and `loginTime`; every other key and value is unchanged |
| Auth.LogoutIdempotent | src/utils/auth.ts:1-3 | logging out twice leaves the same store as logging out once |
| Auth.Logout | src/utils/auth.ts:1-8 | logout clears the two keys, dispatches `auth-changed` once and sets the location to `/login` |
| Auth.RemainingLoginTime | src/utils/auth.ts:10-20 | 0 without a (non-empty) login time whatever the code; never negative; NaN exactly when the stored login time is not a number |
| Auth.RemainingForTimestamp | src/utils/auth.ts:14-19 | for a stored timestamp `t` the result is `max(0, 604800000 - (now - t))`: 0 exactly once a week has elapsed, at most one week otherwise |
| Auth.DecomposeExact | src/utils/auth.ts:23-25 | for `ms >= 0`: days is `ms` div one day, hours lie in [0,23], minutes in [0,59], and they add back to `ms` less the sub-minute rest |
| Auth.FormatTruncates | src/utils/auth.ts:22-34 | the duration the text names is at most `ms` and less than one unit of its last component below it |
| Auth.FormatShapes | src/utils/auth.ts:27-33 | "D ngày H giờ" from one day on, "H giờ M phút" from one hour on, else "M phút" |
| Auth.FormatNinetyMinutes | src/utils/auth.ts:22-34 | 5400000 ms renders as "1 giờ 30 phút" |
| Auth.FormatTwoDaysThreeHours | src/utils/auth.ts:22-34 | two days and three hours render as "2 ngày 3 giờ" |
| Auth.FormatZero | src/utils/auth.ts:22-34 | 0 ms renders as "0 phút" |
| AppRoot.StoreAfterCheck | src/App.tsx:29-66 | `checkAuth` never touches a key other than `code` and `loginTime` |
| AppRoot.ProtectedRoute | src/App.tsx:9-22 | the loading view exactly while loading, the children exactly when loaded and authenticated, otherwise a redirect to `/login` |
| AppRoot.App.constructor | src/App.tsx:25-26 | the gate starts unauthenticated and loading, so it shows the loading view |
| AppRoot.App.CheckAuth | src/App.tsx:29-66 | authenticated exactly when the gate classifies the store as a live session; `isLoading` is false on every path; the store becomes `StoreAfterCheck` of the old one |
| Session.CheckAuthIdempotent | src/App.tsx:29-66 | a second `checkAuth` at the same time gives the same verdict and leaves the store as the first left it |
| Session.CheckAuthCleansOnlyStaleSessions | src/App.tsx:34-61 | the store changes exactly in the missing-login-time and expired branches; with a missing login time only `code` is removed; an expired session loses both `code` and `loginTime`, exactly the store `logout` leaves; a wrong code leaves even the login time |
| Session.ExpiryIsStrict | src/App.tsx:50-65 | with the right code and a stored timestamp `t`, the session is expired exactly when `now - t > 604800000` and authenticated exactly otherwise |
| Session.BoundaryGateAndRemainingDisagree | src/App.tsx:54 | at exactly one week the gate still admits while the remaining time is already 0; one millisecond later the session is expired |
| Session.LogoutEndsSession | src/utils/auth.ts:2 | after logout the gate finds no code, removes nothing further, and no time remains |
| Session.LoginStartsSession | src/pages/Login/index.tsx:25-28 | a login at `t` passes `checkAuth` at a later time exactly while at most one week has elapsed; right after login the store is left alone and a full week remains |
| Session.NonNumericLoginTimeNeverExpires | src/App.tsx:52-54 | a non-numeric login time with the right code is never expired: the gate stays open, the store is kept, and the remaining time renders "NaN phút" |
| LoginPage.StoreAfterLogin | src/pages/Login/index.tsx:25-28 | a login writes the code and the decimal clock value, adds no other key and changes no other value |
| LoginPage.StoredLoginTimeRoundTrip | src/pages/Login/index.tsx:26 | the stored login time parses back to the clock value it was written from |
| LoginPage.Login.constructor | src/pages/Login/index.tsx:15 | the typed code starts empty |
| LoginPage.Login.HandleCodeChange | src/pages/Login/index.tsx:18-20 | the held code becomes exactly the input's value |
| LoginPage.Login.HandleLogin | src/pages/Login/index.tsx:22-38 | on a match: both keys written, `auth-changed` dispatched, navigation to `/`, no alert. On a mismatch: store, events and location unchanged, and the "Invalid code" alert |
| SelectHook.MissingValueIgnoresValidator | src/hooks/useSelectState.ts:12-24 | for an undefined or empty value the outcome does not depend on the validator; it fails exactly when the field is required |
| SelectHook.PresentValueDecidedByValidator | src/hooks/useSelectState.ts:18-27 | a non-empty value passes exactly when there is no validator or it returns the empty string |
| SelectHook.SelectState.constructor | src/hooks/useSelectState.ts:3-5 | the value starts as the initial value and the error as empty |
| SelectHook.SelectState.HandleValueChange | src/hooks/useSelectState.ts:7-10 | the value becomes the new one and the error is empty |
| SelectHook.SelectState.Validate | src/hooks/useSelectState.ts:12-28 | the error becomes the required message, the validator's message or empty, as `ValidationError` decides; the result is true exactly when the error is empty |
| SelectHook.SelectState.Reset | src/hooks/useSelectState.ts:30-33 | back to the initial value with no error, whatever the state was; hence resetting twice equals resetting once |
| ListPages.LastFetched | src/pages/Category/index.tsx:20-39 | there is no last successful load exactly when every load threw |
| ListPages.LoadsKeepLastSuccess | src/pages/Category/index.tsx:32-37 | after any series of loads the list is the data of the last load that did not throw, or the original list if all threw: loads never merge |
| ListPages.RowNumber | src/pages/QuestionsV2/index.tsx:103-104 | the row number is the row index plus one, 1 without an index, and never below 1 |
| ListPages.ListPage.constructor | src/pages/Category/index.tsx:11-18 | empty list, nothing selected, both loading flags false, edit modal closed |
| ListPages.ListPage.LoadList | src/pages/Category/index.tsx:20-39 | the list is replaced by the response's data, or kept when the call threw; `isLoading` ends false |
| ListPages.ListPage.Mount | src/pages/Category/index.tsx:88-90 | mounting runs exactly one load |
| ListPages.ListPage.StartReload | src/pages/Questions/index.tsx:52 | a reload nobody awaits raises the loading flag and is counted as in flight |
| ListPages.ListPage.SettleReload | src/pages/Questions/index.tsx:22-38 | the in-flight reload completes like a load, lowers the flag and leaves one fewer in flight |
| ListPages.ListPage.HandleDelete | src/pages/Category/index.tsx:41-65 | only `success` starts a reload, exactly one. `success: false` alerts. Nothing is removed optimistically. The list changes only through an awaited reload. `isLoading` ends false on every path |
| ListPages.ListPage.OnDeleteClick | src/pages/Category/index.tsx:159-163 | without confirmation nothing happens; with it, exactly what the delete handler does |
| ListPages.ListPage.GetOne | src/pages/Category/index.tsx:67-86 | only the selection and its own flag change: the selection takes the response's data, or is kept when the call threw; the flag ends false |
| ListPages.ListPage.OnEditClick | src/pages/Category/index.tsx:146-149 | the record is fetched, then the edit modal opens whatever the fetch did; the modal is mounted afterwards exactly when the fetch returned a record, or threw while one was already selected |
| CategoryPage.NewPage | src/pages/Category/index.tsx:11-18 | the category page starts empty and idle, and its delete awaits the reload |
| QuestionSetPage.NewPage | src/pages/QuestionSet/index.tsx:11-18 | the question-set page starts empty and idle, and its delete awaits the reload |
| QuestionsPage.NewPage | src/pages/Questions/index.tsx:12-19 | the questions page starts empty and idle, and its delete does not await the reload |
| QuestionsPage.VariantAccessor | src/pages/Questions/index.tsx:87 | the column value is present exactly when there is a first variant, and is then that variant's name |
| QuestionsPage.AmberIffFirstVariantMultipleChoice | src/pages/Questions/index.tsx:87-93 | the badge is amber exactly when the first variant exists and is named `multiple_choice` |
| QuestionsPage.DeleteThenReloadCompletes | src/pages/Questions/index.tsx:40-61 | a confirmed successful delete whose reload then completes leaves the page as an awaited reload would: list reloaded, flag down, nothing in flight |
| QuestionsV2Page.NewPage | src/pages/QuestionsV2/index.tsx:12-19 | the grid page starts empty and idle, and its delete awaits the reload |
| QuestionsV2Page.VariantValue | src/pages/QuestionsV2/index.tsx:115-116 | without variants the value is the empty string |
| QuestionsV2Page.VariantValueMatchesTable | src/pages/QuestionsV2/index.tsx:115-125 | the grid shows the same label as the Questions table, and its badge is amber exactly for a first variant named `multiple_choice` |
| CreateQuestion.SentPayloadShape | src/pages/Questions/components/CreateQuestionModal/index.tsx:82-89 | a sent payload keeps the four texts and the type, and carries options exactly for multiple choice (then all of them) |
| CreateQuestion.RulesGuaranteeRequest | src/pages/Questions/components/CreateQuestionModal/index.tsx:140-263 | once the declared rules pass and one option row remains, neither early return of `onSubmit` can happen |
| CreateQuestion.OneFilledOptionIsSent | src/pages/Questions/components/CreateQuestionModal/index.tsx:44-89 | a multiple-choice question with its one default row filled in passes the rules and is sent with that row |
| CreateQuestion.CreateQuestionModal.constructor | src/pages/Questions/components/CreateQuestionModal/index.tsx:44-51 | empty texts, no type, exactly one empty option row, not loading |
| CreateQuestion.CreateQuestionModal.OnSubmit | src/pages/Questions/components/CreateQuestionModal/index.tsx:67-119 | Early returns send nothing and alert. Success resets the form, fires the callback once and closes. Failure or a throw alerts and keeps form and modal. `loading` ends false on every path |
| CreateQuestion.CreateQuestionModal.HandleSubmit | src/pages/Questions/components/CreateQuestionModal/index.tsx:132-263 | when the declared rules fail nothing is sent and nothing changes; when they pass the payload is always sent, the alert is `onSubmit`'s, a success resets the form, fires the callback once and closes, and a rejected or thrown POST keeps the form, the modal and the callback count |
| CreateQuestion.CreateQuestionModal.HandleClose | src/pages/Questions/components/CreateQuestionModal/index.tsx:121-124 | the form returns to its defaults and the modal closes |
| CreateQuestion.CreateQuestionModal.AppendOption | src/pages/Questions/components/CreateQuestionModal/index.tsx:296 | one empty row is added at the end, all else kept |
| CreateQuestion.CreateQuestionModal.RemoveOption | src/pages/Questions/components/CreateQuestionModal/index.tsx:283-284 | at one row the button is disabled and nothing changes; otherwise exactly that row is removed, so at least one row always remains |
| CreateQuestion.CreateQuestionModal.EditFields | src/pages/Questions/components/CreateQuestionModal/index.tsx:132-225 | typing into the question fields changes those fields and keeps the option rows |
| CreateQuestion.CreateQuestionModal.EditOption | src/pages/Questions/components/CreateQuestionModal/index.tsx:234-280 | typing into one option row changes that row only |
| UpdateQuestionSet.FormOf | src/pages/QuestionSet/components/UpdateModal/index.tsx:35-38 | the defaults are the record's names, or empty strings without a record |
| UpdateQuestionSet.UpdateModal.constructor | src/pages/QuestionSet/components/UpdateModal/index.tsx:26-39 | the form and its defaults start as the record's names, not loading |
| UpdateQuestionSet.UpdateModal.OnSubmit | src/pages/QuestionSet/components/UpdateModal/index.tsx:42-81 | Without a record id nothing happens, `loading` included. Otherwise both names are sent to the record's id. Success resets, fires the callback and closes. Failure or a throw alerts and keeps the modal open. `loading` ends false |
| UpdateQuestionSet.UpdateModal.HandleSubmit | src/pages/QuestionSet/components/UpdateModal/index.tsx:103-132 | when a name is empty nothing is sent and nothing changes; otherwise, without a record id nothing happens either, and with one the two names go to that id, a success restores the defaults, fires the callback and closes, a failure alerts and keeps form and modal, and `loading` ends false |
| UpdateQuestionSet.UpdateModal.HandleClose | src/pages/QuestionSet/components/UpdateModal/index.tsx:83-86 | the form returns to its defaults and the modal closes |
| UpdateQuestionSet.UpdateModal.Edit | src/pages/QuestionSet/components/UpdateModal/index.tsx:108-135 | typing replaces the two names |
| UpdateQuestionSet.UpdateModal.Resync | src/pages/QuestionSet/components/UpdateModal/index.tsx:88-95 | a new record becomes both the form values and the defaults; a missing record changes neither |
| UpdateQuestionSet.ResyncThenClose | src/pages/QuestionSet/components/UpdateModal/index.tsx:83-95 | after a re-sync, closing restores the new record's names, not the mounted one's |
| Time.PadStart | src/utils/time.ts:9-10 | padding fills on the left up to the width and keeps the original string as the suffix |
| Time.PaddedRoundTrip | src/utils/time.ts:9-10 | for 0 to 99 the padded number has exactly two digits and reads back as the number |
| Time.MonthIndex | src/utils/time.ts:4-7 | a name found in the month table is at a position in [0,11] that holds that name |
| Time.MonthIndexOfMonth | src/utils/time.ts:4-7 | the twelve names are distinct: each is found at its own position |
| Time.FormatExample | src/utils/time.ts:9-15 | 09:05 on 3 January 2024 renders as "09:05 3 Jan 2024": padded clock, bare day, month name, full year |
| Time.FormatParseRoundTrip | src/utils/time.ts:9-15 | for every valid date the output is "HH:MM D Mon YYYY" with two-digit clock fields, and reading it back gives the same components |

## Left out

- The `fetch` calls, JSON decoding, the Supabase URLs and the bearer key are left out. Each call is
  an outcome argument: the response's data, `success` true or false, or a throw.
- A list response without a `data` field is left out. The source would set the list to `undefined`.
- `alert` and `confirm` are reduced to an output string and an input boolean.
- Intermediate renders are not modelled. While an awaited call is pending, the source shows
  `isLoading` (or `loading`, `isGettingQuestion`) as true. Each handler is one atomic step that
  ends in its final state.
- Interleavings of concurrent handlers are left out. Only sequential completion is modelled,
  including for the reload that the Questions page starts without awaiting
  (`StartReload`/`SettleReload`).
- The `storage` and `auth-changed` listeners in `src/App.tsx:72-80` are left out. Each event
  re-runs `CheckAuth`, which the model covers.
- Floating point and `Infinity` are left out. Numbers are integers or NaN. The clock value from
  `Date.getTime()` is an integer, so this is enough for the session logic.
- JsNumber.IntToString: prints every integer in plain decimal. JavaScript's `String` switches to
  exponent form ("1e+21") from 10^21 in magnitude, where `parseInt` reads back only the leading
  digit; clock values stay far below that bound.
- `new Date(...)`, time zones and `getHours`/`getMonth` etc. are left out. `formatDateTime` takes
  the already decomposed components as `Time.DateParts`.
- A missing configured login code is left out. The model takes it as a string parameter.
- `localStorage` exceptions are left out. The login's `try`/`catch` only logs them.
- react-hook-form is modelled only through its declared `required` rules (`RulesHold`, checked by
  `HandleSubmit`) and `reset`. Field registration, error display and `isSubmitting` are left out.
- A page's `isOpenCreate` flag appears only as `CreateQuestionModal`'s `open` field. Its
  `isOpenEdit` flag is `ListPages.ListPage.isOpenEdit`, which `OnEditClick` sets; the update
  modal's `open` field stands for the same flag, but the model keeps the two apart and does not
  link them.
- The `console.log`/`console.error` calls in the `catch` blocks (for example
  `src/pages/Category/index.tsx:35`) are left out; they only write to the console.
- The modals' `callback` prop is optional (`if (callback)`), but the model counts a callback on
  every success. Every page passes one, so nothing observable is lost.
- SelectHook.SelectState.Reset: the initial value is fixed when the object is built. The hook's
  `reset` uses the `initialValue` of the latest render; no caller changes it between renders.
- The list pages have no question-set filter. None exists in the code, so none is modelled.
- The layout's countdown timer and logout confirmation, `CustomSelect`, `CustomModal`, `NotFound`,
  and all rendering and styling beyond the badge colour rule are not part of this model.
- QuestionsV2Page.VariantValue: its own contract states only the no-variant case. The value for a
  present variant is stated by `VariantValueMatchesTable`.
