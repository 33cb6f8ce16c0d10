/** The browser's `localStorage`: one string map shared by every service that uses it. */
module Storage {
  import opened Wrappers

  class LocalStorage {
    var items: map<string, string>

    constructor (initial: map<string, string>)
      ensures items == initial
    {
      items := initial;
    }

    /** `getItem(k)`: the stored string, or null. */
    function GetItem(k: string): (r: Option<string>)
      reads this
      ensures r.Some? <==> k in items
      ensures r.Some? ==> r.value == items[k]
    {
      if k in items then Some(items[k]) else None
    }

    /** `getItem(k)` is truthy: present and not the empty string. */
    predicate HasValue(k: string)
      reads this
    {
      k in items && items[k] != ""
    }

    method SetItem(k: string, v: string)
      modifies this
      ensures items == old(items)[k := v]
    {
      items := items[k := v];
    }

    method RemoveItem(k: string)
      modifies this
      ensures items == old(items) - {k}
    {
      items := items - {k};
    }
  }
}
