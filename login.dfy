/**
 * src/pages/Login/index.tsx: the login form. The typed code is held in `code`;
 * submitting compares it with the configured code and, on a match, starts a session.
 */
module LoginPage {
  import opened Wrappers
  import opened JsNumber
  import opened Browser
  import opened Auth

  const HOME_PATH := "/"
  const INVALID_CODE_ALERT := "Invalid code"

  /** The store after a successful login at `now`: the code and the decimal login time. */
  function StoreAfterLogin(store: map<string, string>, code: string, now: int): (s: map<string, string>)
    ensures CODE_KEY in s && s[CODE_KEY] == code
    ensures LOGIN_TIME_KEY in s && s[LOGIN_TIME_KEY] == IntToString(now)
    ensures s.Keys == store.Keys + {CODE_KEY, LOGIN_TIME_KEY}
    ensures forall k :: k != CODE_KEY && k != LOGIN_TIME_KEY && k in store ==> s[k] == store[k]
  {
    store[CODE_KEY := code][LOGIN_TIME_KEY := IntToString(now)]
  }

  /** The stored login time reads back as the clock value it was written from. */
  lemma StoredLoginTimeRoundTrip(store: map<string, string>, code: string, now: int)
    ensures ParseInt(StoreAfterLogin(store, code, now)[LOGIN_TIME_KEY]) == Finite(now)
  {
    ParseIntToString(now);
  }

  class Login {
    /** The code typed into the form. */
    var code: string

    constructor ()
      ensures code == ""
    {
      code := "";
    }

    /** `handleCodeChange`: the held code becomes the input's value. */
    method HandleCodeChange(value: string)
      modifies this
      ensures code == value
    {
      code := value;
    }

    /**
     * `handleLogin` with the configured code `expected` at time `now`. A match
     * writes both keys, dispatches `auth-changed` and navigates to `/`; a mismatch
     * changes nothing and raises the "Invalid code" alert.
     */
    method HandleLogin(w: Window, expected: string, now: int) returns (alert: Option<string>)
      modifies w
      ensures code == expected ==>
        && w.storage == StoreAfterLogin(old(w.storage), code, now)
        && w.events == old(w.events) + [AUTH_CHANGED]
        && w.location == HOME_PATH
        && alert == None
      ensures code != expected ==>
        && w.storage == old(w.storage)
        && w.events == old(w.events)
        && w.location == old(w.location)
        && alert == Some(INVALID_CODE_ALERT)
    {
      if code == expected {
        var currentTime := IntToString(now);
        w.SetItem(CODE_KEY, code);
        w.SetItem(LOGIN_TIME_KEY, currentTime);
        w.DispatchEvent(AUTH_CHANGED);
        w.Navigate(HOME_PATH);
        alert := None;
      } else {
        alert := Some(INVALID_CODE_ALERT);
      }
    }
  }
}
