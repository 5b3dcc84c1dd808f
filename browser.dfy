/** The browser globals the console writes: `localStorage`, a key/value store
    of strings, and `window.location.href`, whose assignments are kept as a
    log of full-page navigations. */
module Browser {
  import opened JsRuntime

  /** `localStorage.getItem(key)` on the storage contents: the stored
      string, or null when the key is absent. */
  function GetItem(storage: map<string, string>, key: string): (v: Option<string>)
    ensures v.Some? <==> key in storage
    ensures v.Some? ==> v.value == storage[key]
  {
    if key in storage then Some(storage[key]) else None
  }

  class Window {
    /** The contents of `localStorage`. */
    var storage: map<string, string>
    /** Every value assigned to `window.location.href`, oldest first. */
    var navigations: seq<string>

    constructor (storage: map<string, string>)
      ensures this.storage == storage && navigations == []
    {
      this.storage := storage;
      navigations := [];
    }

    /** `localStorage.setItem(key, value)`, with `value` converted by `String`. */
    method SetItem(key: string, value: Option<string>)
      modifies this
      ensures storage == old(storage)[key := Stringify(value)]
      ensures navigations == old(navigations)
    {
      storage := storage[key := Stringify(value)];
    }

    /** `localStorage.clear()`: every key goes, not only the session's. */
    method Clear()
      modifies this
      ensures storage == map[]
      ensures navigations == old(navigations)
    {
      storage := map[];
    }

    /** `window.location.href = href`. */
    method Navigate(href: string)
      modifies this
      ensures navigations == old(navigations) + [href]
      ensures storage == old(storage)
    {
      navigations := navigations + [href];
    }
  }
}
