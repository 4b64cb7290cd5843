/** The browser facilities the pages share: `window.localStorage`, a string
    store that the handlers change in place, and reading the stored CV back
    with `JSON.parse`, which is passed in as a function (`None` when it
    throws). */
module Browser {
  import opened Js

  /** `window.localStorage`: string keys to string values. */
  class LocalStorage {
    var items: map<string, string>

    constructor(items: map<string, string>)
      ensures this.items == items
    {
      this.items := items;
    }

    /** `getItem(key)`: the stored string, or none (`null`). */
    function GetItem(key: string): Option<string>
      reads this
    {
      if key in items then Some(items[key]) else None
    }

    method SetItem(key: string, value: string)
      modifies this
      ensures items == old(items)[key := value]
    {
      items := items[key := value];
    }

    method RemoveItem(key: string)
      modifies this
      ensures items == old(items) - {key}
    {
      items := items - {key};
    }
  }

  /** What `getItem` hands to JavaScript: the string, or `null`. */
  function Item(stored: Option<string>): Json {
    if stored.Some? then Str(stored.value) else Null
  }

  /** `getStoredCv()`: `raw ? JSON.parse(raw) : null`, with a parse error
      caught and turned into `null`. */
  function StoredCv(raw: Option<string>, parse: string -> Option<Json>): Json {
    if raw.None? || raw.value == "" then Null
    else if parse(raw.value).None? then Null
    else parse(raw.value).value
  }

  /** A missing, empty or unparseable stored CV reads as `null`; otherwise
      the CV is what the parser made of the stored text. */
  lemma StoredCvCases(raw: Option<string>, parse: string -> Option<Json>)
    ensures raw.None? || raw == Some("") ==> StoredCv(raw, parse) == Null
    ensures raw.Some? && raw.value != "" && parse(raw.value).None? ==> StoredCv(raw, parse) == Null
    ensures raw.Some? && raw.value != "" && parse(raw.value).Some? ==> StoredCv(raw, parse) == parse(raw.value).value
  {
  }

  /** `Item` is truthy exactly for a stored non-empty string. */
  lemma ItemTruthy(stored: Option<string>)
    ensures Truthy(Item(stored)) <==> stored.Some? && stored.value != ""
    ensures !Nullish(Item(stored)) <==> stored.Some?
  {
  }
}
