/**
 * Properties of the session gate as a whole: `checkAuth` (src/App.tsx) against
 * the store written by the login page and cleared by `logout`, and against
 * `getRemainingLoginTime` (src/utils/auth.ts).
 */
module Session {
  import opened JsNumber
  import opened Auth
  import opened AppRoot
  import opened LoginPage

  /** A second `checkAuth` at the same time gives the same verdict and leaves the store alone. */
  lemma CheckAuthIdempotent(store: map<string, string>, expected: string, now: int)
    ensures var s := StoreAfterCheck(store, expected, now);
      && StoreAfterCheck(s, expected, now) == s
      && (Classify(s, expected, now) == Authenticated <==> Classify(store, expected, now) == Authenticated)
  {
    var s := StoreAfterCheck(store, expected, now);
    match Classify(store, expected, now)
    case CodeMismatch =>
    case MissingLoginTime =>
      assert CODE_KEY !in s;
    case Expired =>
      assert CODE_KEY !in s;
    case Authenticated =>
  }

  /**
   * `checkAuth` changes the store exactly when it finds a stale session with the
   * right code; a wrong or absent code leaves everything, login time included.
   * An expired session loses both keys, just as `logout` would remove them.
   */
  lemma CheckAuthCleansOnlyStaleSessions(store: map<string, string>, expected: string, now: int)
    ensures StoreAfterCheck(store, expected, now) != store <==>
      Classify(store, expected, now) in {MissingLoginTime, Expired}
    ensures Classify(store, expected, now) == MissingLoginTime ==>
      StoreAfterCheck(store, expected, now) == store - {CODE_KEY}
    ensures Classify(store, expected, now) == Expired ==>
      StoreAfterCheck(store, expected, now) == StoreAfterLogout(store)
  {
    var b := Classify(store, expected, now);
    if b == MissingLoginTime || b == Expired {
      assert CODE_KEY in store && CODE_KEY !in StoreAfterCheck(store, expected, now);
    }
  }

  /**
   * With the right code and a login time written as the decimal string of `t`,
   * the session expires exactly when more than one week has elapsed.
   */
  lemma ExpiryIsStrict(store: map<string, string>, expected: string, t: int, now: int)
    requires CODE_KEY in store && store[CODE_KEY] == expected
    requires LOGIN_TIME_KEY in store && store[LOGIN_TIME_KEY] == IntToString(t)
    ensures Classify(store, expected, now) == Expired <==> now - t > ONE_WEEK_MS
    ensures Classify(store, expected, now) == Authenticated <==> now - t <= ONE_WEEK_MS
  {
    ParseIntToString(t);
  }

  /**
   * At exactly one week the gate still lets the operator in while
   * `getRemainingLoginTime` already reports 0; one millisecond later it expires.
   */
  lemma BoundaryGateAndRemainingDisagree(store: map<string, string>, expected: string, t: int)
    requires CODE_KEY in store && store[CODE_KEY] == expected
    requires LOGIN_TIME_KEY in store && store[LOGIN_TIME_KEY] == IntToString(t)
    ensures Classify(store, expected, t + ONE_WEEK_MS) == Authenticated
    ensures RemainingLoginTime(store, t + ONE_WEEK_MS) == Finite(0)
    ensures Classify(store, expected, t + ONE_WEEK_MS + 1) == Expired
  {
    ExpiryIsStrict(store, expected, t, t + ONE_WEEK_MS);
    ExpiryIsStrict(store, expected, t, t + ONE_WEEK_MS + 1);
    RemainingForTimestamp(store, t, t + ONE_WEEK_MS);
  }

  /** After `logout` the gate finds no code, cleans nothing more, and no time remains. */
  lemma LogoutEndsSession(store: map<string, string>, expected: string, now: int)
    ensures Classify(StoreAfterLogout(store), expected, now) == CodeMismatch
    ensures StoreAfterCheck(StoreAfterLogout(store), expected, now) == StoreAfterLogout(store)
    ensures RemainingLoginTime(StoreAfterLogout(store), now) == Finite(0)
  {
  }

  /**
   * A session started at `loginAt` passes the gate at `later` exactly while no
   * more than one week has elapsed; right after login it passes and a full week remains.
   */
  lemma LoginStartsSession(store: map<string, string>, expected: string, loginAt: int, later: int)
    ensures var s := StoreAfterLogin(store, expected, loginAt);
      && (Classify(s, expected, later) == Authenticated <==> later - loginAt <= ONE_WEEK_MS)
      && Classify(s, expected, loginAt) == Authenticated
      && StoreAfterCheck(s, expected, loginAt) == s
      && RemainingLoginTime(s, loginAt) == Finite(ONE_WEEK_MS)
  {
    var s := StoreAfterLogin(store, expected, loginAt);
    ExpiryIsStrict(s, expected, loginAt, later);
    ExpiryIsStrict(s, expected, loginAt, loginAt);
    RemainingForTimestamp(s, loginAt, loginAt);
  }

  /**
   * A login time that is not a number (a tampered store) never expires: with the
   * right code the gate stays open, and the remaining time renders as "NaN phút".
   */
  lemma NonNumericLoginTimeNeverExpires(store: map<string, string>, expected: string, now: int)
    requires CODE_KEY in store && store[CODE_KEY] == expected
    requires HasLoginTime(store) && ParseInt(store[LOGIN_TIME_KEY]).NaN?
    ensures Classify(store, expected, now) == Authenticated
    ensures StoreAfterCheck(store, expected, now) == store
    ensures FormatRemainingTime(RemainingLoginTime(store, now)) == "NaN phút"
  {
  }
}
