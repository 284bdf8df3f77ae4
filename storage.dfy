/**
 * The browser's localStorage as the page uses it: a string-to-string map
 * read with getItem (null for a missing key) and written with setItem.
 */
module Storage {
  import opened Wrappers

  type Items = map<string, string>

  /** getItem: the stored string, or None where the browser answers null. */
  function Lookup(items: Items, key: string): (r: Option<string>)
    ensures r.Some? <==> key in items
    ensures r.Some? ==> r.value == items[key]
  {
    if key in items then Some(items[key]) else None
  }

  /** setItem: the store after overwriting one key. */
  function Write(items: Items, key: string, value: string): (r: Items)
    ensures Lookup(r, key) == Some(value)
    ensures forall k :: k != key ==> Lookup(r, k) == Lookup(items, k)
    ensures r.Keys == items.Keys + {key}
  {
    items[key := value]
  }

  /**
   * JavaScript's `v || fallback` where v is a string or null: null and
   * the empty string are falsy, every other string is kept.
   */
  function OrElse(v: Option<string>, fallback: string): (r: string)
    ensures v.Some? && v.value != "" ==> r == v.value
    ensures v.None? || v.value == "" ==> r == fallback
  {
    if v.Some? && v.value != "" then v.value else fallback
  }

  /** The one store shared by every component of the page. */
  class LocalStorage {
    var items: Items

    constructor (initial: Items)
      ensures items == initial
    {
      items := initial;
    }

    method GetItem(key: string) returns (r: Option<string>)
      ensures r.Some? <==> key in items
      ensures r.Some? ==> r.value == items[key]
    {
      r := Lookup(items, key);
    }

    method SetItem(key: string, value: string)
      modifies this
      ensures items == Write(old(items), key, value)
    {
      items := items[key := value];
    }
  }
}
