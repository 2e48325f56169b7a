/**
 * The browser facilities the application touches: `localStorage` (a string-to-string
 * store), the current location, and the events dispatched on `window`.
 */
module Browser {
  import opened Wrappers

  /** The custom event the login page and `logout` dispatch after changing the store. */
  const AUTH_CHANGED := "auth-changed"

  class Window {
    /** The contents of `localStorage`. */
    var storage: map<string, string>
    /** The path the window shows (`window.location.href`, or the router's location). */
    var location: string
    /** The events dispatched on `window`, oldest first. */
    var events: seq<string>

    constructor (storage: map<string, string>, location: string)
      ensures this.storage == storage && this.location == location && events == []
    {
      this.storage := storage;
      this.location := location;
      events := [];
    }

    /** `localStorage.getItem(key)`: the stored string, or `null`. */
    function GetItem(key: string): (r: Option<string>)
      reads this
      ensures r.Some? <==> key in storage
      ensures r.Some? ==> r.value == storage[key]
    {
      if key in storage then Some(storage[key]) else None
    }

    /** `localStorage.setItem(key, value)`. */
    method SetItem(key: string, value: string)
      modifies this`storage
      ensures storage == old(storage)[key := value]
    {
      storage := storage[key := value];
    }

    /** `localStorage.removeItem(key)`; removing an absent key changes nothing. */
    method RemoveItem(key: string)
      modifies this`storage
      ensures storage == old(storage) - {key}
    {
      storage := storage - {key};
    }

    /** `window.dispatchEvent(new Event(name))`. */
    method DispatchEvent(name: string)
      modifies this`events
      ensures events == old(events) + [name]
    {
      events := events + [name];
    }

    /** `window.location.href = path` or the router's `navigate(path)`. */
    method Navigate(path: string)
      modifies this`location
      ensures location == path
    {
      location := path;
    }
  }
}
