/**
 * src/utils/auth.ts: ending the session and reporting how long it has left.
 * The store is the `localStorage` map of a `Browser.Window`; the clock is the
 * parameter `now` (milliseconds since the epoch).
 */
module Auth {
  import opened JsNumber
  import opened Browser

  const CODE_KEY := "code"
  const LOGIN_TIME_KEY := "loginTime"
  const LOGIN_PATH := "/login"

  const MINUTE_MS := 60 * 1000
  const HOUR_MS := 60 * MINUTE_MS
  const DAY_MS := 24 * HOUR_MS
  /** A session lasts one week: 604800000 ms. */
  const ONE_WEEK_MS := 7 * DAY_MS

  // ---------------------------------------------------------------------------
  // logout

  /** The store once both session keys are removed. */
  function StoreAfterLogout(store: map<string, string>): (s: map<string, string>)
    ensures CODE_KEY !in s && LOGIN_TIME_KEY !in s
    ensures forall k :: k != CODE_KEY && k != LOGIN_TIME_KEY ==>
      (k in s <==> k in store) && (k in s ==> s[k] == store[k])
  {
    store - {CODE_KEY, LOGIN_TIME_KEY}
  }

  /** Logging out twice leaves the same store as logging out once. */
  lemma LogoutIdempotent(store: map<string, string>)
    ensures StoreAfterLogout(StoreAfterLogout(store)) == StoreAfterLogout(store)
  {
  }

  /** `logout`: clear both keys, announce the change, go to the login page. */
  method Logout(w: Window)
    modifies w
    ensures w.storage == StoreAfterLogout(old(w.storage))
    ensures w.events == old(w.events) + [AUTH_CHANGED]
    ensures w.location == LOGIN_PATH
  {
    w.RemoveItem(CODE_KEY);
    w.RemoveItem(LOGIN_TIME_KEY);
    w.DispatchEvent(AUTH_CHANGED);
    w.Navigate(LOGIN_PATH);
  }

  // ---------------------------------------------------------------------------
  // getRemainingLoginTime

  /** `localStorage.getItem("loginTime")` is truthy: present and not empty. */
  predicate HasLoginTime(store: map<string, string>) {
    LOGIN_TIME_KEY in store && store[LOGIN_TIME_KEY] != ""
  }

  /**
   * `getRemainingLoginTime()` at time `now`: 0 without a login time, otherwise
   * `Math.max(0, oneWeek - (now - parseInt(loginTime)))`, which is NaN when the
   * stored string is not a number.
   */
  function RemainingLoginTime(store: map<string, string>, now: int): (r: Num)
    ensures !HasLoginTime(store) ==> r == Finite(0)
    ensures r.Finite? ==> 0 <= r.v
    ensures r.NaN? <==> HasLoginTime(store) && ParseInt(store[LOGIN_TIME_KEY]).NaN?
  {
    if !HasLoginTime(store) then Finite(0)
    else MaxZero(Sub(Finite(ONE_WEEK_MS), Sub(Finite(now), ParseInt(store[LOGIN_TIME_KEY]))))
  }

  /**
   * For a login time stored as the decimal string of `t`, the remaining time is
   * what is left of the week, never negative, and 0 exactly once a full week has passed.
   */
  lemma RemainingForTimestamp(store: map<string, string>, t: int, now: int)
    requires LOGIN_TIME_KEY in store && store[LOGIN_TIME_KEY] == IntToString(t)
    ensures RemainingLoginTime(store, now).Finite?
    ensures RemainingLoginTime(store, now).v == if now - t >= ONE_WEEK_MS then 0 else ONE_WEEK_MS - (now - t)
    ensures RemainingLoginTime(store, now) == Finite(0) <==> now - t >= ONE_WEEK_MS
    ensures now >= t ==> RemainingLoginTime(store, now).v <= ONE_WEEK_MS
  {
    ParseIntToString(t);
    assert |IntToString(t)| >= 1;
    assert HasLoginTime(store);
    assert RemainingLoginTime(store, now) == MaxZero(Finite(ONE_WEEK_MS - (now - t)));
  }

  // ---------------------------------------------------------------------------
  // formatRemainingTime

  /** The whole days, hours of the day and minutes of the hour in a duration. */
  datatype Duration = Duration(days: int, hours: int, minutes: int)

  /** The three `Math.floor` expressions of `formatRemainingTime`, with JavaScript's `%`. */
  function Decompose(ms: int): Duration {
    Duration(ms / DAY_MS, JsRem(ms, DAY_MS) / HOUR_MS, JsRem(ms, HOUR_MS) / MINUTE_MS)
  }

  /**
   * `formatRemainingTime(ms)`: "D ngày H giờ" when there is at least a day,
   * otherwise "H giờ M phút" when there is at least an hour, otherwise "M phút".
   * For NaN every component is NaN and only the last branch is taken.
   */
  function FormatRemainingTime(ms: Num): string {
    match ms
    case NaN => "NaN phút"
    case Finite(v) =>
      var d := Decompose(v);
      if d.days > 0 then IntToString(d.days) + " ngày " + IntToString(d.hours) + " giờ"
      else if d.hours > 0 then IntToString(d.hours) + " giờ " + IntToString(d.minutes) + " phút"
      else IntToString(d.minutes) + " phút"
  }

  /**
   * For a non-negative duration the components are the unique days/hours/minutes
   * decomposition: hours in [0, 23], minutes in [0, 59], and they add back up to
   * `ms` up to the seconds below a minute.
   */
  lemma DecomposeExact(ms: int)
    requires ms >= 0
    ensures var d := Decompose(ms);
      && d.days == ms / DAY_MS && d.days >= 0
      && 0 <= d.hours < 24
      && 0 <= d.minutes < 60
      && ms == d.days * DAY_MS + d.hours * HOUR_MS + d.minutes * MINUTE_MS + ms % MINUTE_MS
  {
    var q, r := ms / DAY_MS, ms % DAY_MS;
    assert ms == q * DAY_MS + r;
    var h, r2 := r / HOUR_MS, r % HOUR_MS;
    assert r == h * HOUR_MS + r2;
    assert ms == (q * 24 + h) * HOUR_MS + r2;
    ModOfMultiplePlus(q * 24 + h, r2, HOUR_MS);
    assert ms % HOUR_MS == r2;
    var m, r3 := r2 / MINUTE_MS, r2 % MINUTE_MS;
    assert r2 == m * MINUTE_MS + r3;
    assert ms == ((q * 24 + h) * 60 + m) * MINUTE_MS + r3;
    ModOfMultiplePlus((q * 24 + h) * 60 + m, r3, MINUTE_MS);
  }

  lemma ModOfMultiplePlus(k: int, r: int, n: int)
    requires n == HOUR_MS || n == MINUTE_MS
    requires 0 <= r < n
    ensures (k * n + r) % n == r
  {
    if n == HOUR_MS {
      assert (k * HOUR_MS + r) % HOUR_MS == r;
    } else {
      assert (k * MINUTE_MS + r) % MINUTE_MS == r;
    }
  }

  /**
   * The rendering truncates and never rounds up: the duration it names is at
   * most `ms`, and less than one unit of its last component below it.
   */
  lemma FormatTruncates(ms: int)
    requires ms >= 0
    ensures var d := Decompose(ms);
      var shown := if d.days > 0 then d.days * DAY_MS + d.hours * HOUR_MS
                   else d.hours * HOUR_MS + d.minutes * MINUTE_MS;
      var unit := if d.days > 0 then HOUR_MS else MINUTE_MS;
      shown <= ms < shown + unit
  {
    DecomposeExact(ms);
  }

  /** The three rendering shapes, selected by the leading non-zero component. */
  lemma FormatShapes(ms: int)
    requires ms >= 0
    ensures var d := Decompose(ms);
      var s := FormatRemainingTime(Finite(ms));
      && (ms >= DAY_MS ==> s == IntToString(ms / DAY_MS) + " ngày " + IntToString(d.hours) + " giờ")
      && (HOUR_MS <= ms < DAY_MS ==> s == IntToString(ms / HOUR_MS) + " giờ " + IntToString(d.minutes) + " phút")
      && (ms < HOUR_MS ==> s == IntToString(ms / MINUTE_MS) + " phút")
  {
    DecomposeExact(ms);
    var d := Decompose(ms);
    if ms >= DAY_MS {
      assert d.days > 0;
    } else {
      assert d.days == 0;
      assert JsRem(ms, DAY_MS) == ms;
      assert d.hours == ms / HOUR_MS;
      if ms >= HOUR_MS {
        assert d.hours > 0;
      } else {
        assert d.hours == 0;
        assert JsRem(ms, HOUR_MS) == ms;
        assert d.minutes == ms / MINUTE_MS;
      }
    }
  }

  /** 90 minutes render as "1 giờ 30 phút". */
  lemma FormatNinetyMinutes()
    ensures FormatRemainingTime(Finite(5400000)) == "1 giờ 30 phút"
  {
    DecomposeNinetyMinutes();
    ThirtyToString();
    assert IntToString(1) == "1";
  }

  lemma DecomposeNinetyMinutes()
    ensures Decompose(5400000) == Duration(0, 1, 30)
  {
  }

  lemma ThirtyToString()
    ensures IntToString(30) == "30"
  {
    assert NatToString(30) == NatToString(3) + [DigitChar(0)];
  }

  /** Two days and three hours render as "2 ngày 3 giờ". */
  lemma FormatTwoDaysThreeHours()
    ensures FormatRemainingTime(Finite(2 * DAY_MS + 3 * HOUR_MS)) == "2 ngày 3 giờ"
  {
    var d := Decompose(2 * DAY_MS + 3 * HOUR_MS);
    assert d == Duration(2, 3, 0);
    assert IntToString(2) == "2";
    assert IntToString(3) == "3";
  }

  /** An elapsed session renders as "0 phút". */
  lemma FormatZero()
    ensures FormatRemainingTime(Finite(0)) == "0 phút"
  {
    assert Decompose(0) == Duration(0, 0, 0);
    assert IntToString(0) == "0";
  }
}
