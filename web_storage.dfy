/** The browser's `localStorage`: a string-to-string table updated in place. */
module WebStorage {
  import opened Wrappers

  type Items = map<string, string>

  /** `localStorage.getItem` on a table value. */
  function Lookup(items: Items, key: string): (r: Option<string>) {
    if key in items then Some(items[key]) else None
  }

  class LocalStorage {
    var items: Items

    constructor (items: Items)
      ensures this.items == items
    {
      this.items := items;
    }

    method GetItem(key: string) returns (r: Option<string>)
      ensures r == Lookup(items, key)
    {
      r := if key in items then Some(items[key]) else None;
    }

    method SetItem(key: string, value: string)
      modifies this
      ensures items == old(items)[key := value]
    {
      items := items[key := value];
    }

    method RemoveItem(key: string)
      modifies this
      ensures items == old(items) - {key}
    {
      items := items - {key};
    }
  }
}
