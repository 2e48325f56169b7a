/**
 * src/App.tsx: the session gate. `checkAuth` reads the two session keys,
 * decides whether the operator is authenticated, and removes stale keys;
 * `ProtectedRoute` picks the view from the gate's state.
 */
module AppRoot {
  import opened Wrappers
  import opened JsNumber
  import opened Browser
  import opened Auth

  /** The four ways `checkAuth` can end. */
  datatype AuthBranch =
    | CodeMismatch      // stored code absent or different from the configured one
    | MissingLoginTime  // right code, but no (or an empty) login time
    | Expired           // right code, login time more than one week ago
    | Authenticated

  /**
   * Which branch `checkAuth` takes for the store `store`, the configured code
   * `expected` and the clock `now`. The expiry test is `now - parseInt(loginTime) > oneWeek`,
   * which is false for NaN.
   */
  function Classify(store: map<string, string>, expected: string, now: int): AuthBranch {
    if CODE_KEY !in store || store[CODE_KEY] != expected then CodeMismatch
    else if !HasLoginTime(store) then MissingLoginTime
    else if Greater(Sub(Finite(now), ParseInt(store[LOGIN_TIME_KEY])), ONE_WEEK_MS) then Expired
    else Authenticated
  }

  /** The store after `checkAuth`: only a stale session's keys are removed. */
  function StoreAfterCheck(store: map<string, string>, expected: string, now: int): (s: map<string, string>)
    ensures forall k :: k != CODE_KEY && k != LOGIN_TIME_KEY ==>
      (k in s <==> k in store) && (k in s ==> s[k] == store[k])
  {
    match Classify(store, expected, now)
    case CodeMismatch => store
    case MissingLoginTime => store - {CODE_KEY}
    case Expired => store - {CODE_KEY, LOGIN_TIME_KEY}
    case Authenticated => store
  }

  lemma RemoveBothKeys(store: map<string, string>)
    ensures store - {CODE_KEY} - {LOGIN_TIME_KEY} == store - {CODE_KEY, LOGIN_TIME_KEY}
  {
  }

  /** What `ProtectedRoute` renders. */
  datatype View = LoadingView | Children | RedirectTo(path: string)

  /** `ProtectedRoute`: loading first, then the children or a redirect to the login page. */
  function ProtectedRoute(isAuthenticated: bool, isLoading: bool): (v: View)
    ensures v == LoadingView <==> isLoading
    ensures v == Children <==> !isLoading && isAuthenticated
    ensures v.RedirectTo? ==> v.path == LOGIN_PATH
  {
    if isLoading then LoadingView
    else if isAuthenticated then Children
    else RedirectTo(LOGIN_PATH)
  }

  /** The `App` component's gate state. */
  class App {
    var isAuthenticated: bool
    var isLoading: bool

    constructor ()
      ensures !isAuthenticated && isLoading
      ensures ProtectedRoute(isAuthenticated, isLoading) == LoadingView
    {
      isAuthenticated := false;
      isLoading := true;
    }

    /**
     * `checkAuth`, run on mount and again on every `storage` or `auth-changed`
     * event. Every path ends with `isLoading` false.
     */
    method CheckAuth(w: Window, expected: string, now: int)
      modifies this, w`storage
      ensures isAuthenticated <==> Classify(old(w.storage), expected, now) == Authenticated
      ensures !isLoading
      ensures w.storage == StoreAfterCheck(old(w.storage), expected, now)
      ensures ProtectedRoute(isAuthenticated, isLoading) ==
        if isAuthenticated then Children else RedirectTo(LOGIN_PATH)
    {
      ghost var store := w.storage;
      var code := w.GetItem(CODE_KEY);
      var loginTime := w.GetItem(LOGIN_TIME_KEY);

      if code != Some(expected) {
        isAuthenticated := false;
        isLoading := false;
        return;
      }

      if loginTime == None || loginTime == Some("") {
        w.RemoveItem(CODE_KEY);
        isAuthenticated := false;
        isLoading := false;
        return;
      }

      var storedLoginTime := ParseInt(loginTime.value);
      if Greater(Sub(Finite(now), storedLoginTime), ONE_WEEK_MS) {
        w.RemoveItem(CODE_KEY);
        w.RemoveItem(LOGIN_TIME_KEY);
        RemoveBothKeys(store);
        isAuthenticated := false;
        isLoading := false;
        return;
      }

      isAuthenticated := true;
      isLoading := false;
    }
  }
}
