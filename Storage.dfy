/** The browser's `localStorage`, shared by everything that runs in one
    page: a string-to-string map that `setItem` and `removeItem` update in
    place. */
module Storage {
  import opened Common

  /** `getItem` on a snapshot of the storage: `null` when the key is absent. */
  function Lookup(items: map<string, string>, key: string): Option<string> {
    if key in items then Some(items[key]) else None
  }

  class LocalStorage {
    var items: map<string, string>

    constructor (items: map<string, string>)
      ensures this.items == items
    {
      this.items := items;
    }

    function GetItem(key: string): Option<string>
      reads this
    {
      Lookup(items, key)
    }

    method SetItem(key: string, value: string)
      modifies this
      ensures items == old(items)[key := value]
    {
      items := items[key := value];
    }

    method RemoveItem(key: string)
      modifies this
      ensures items == old(items) - {key}
    {
      items := items - {key};
    }
  }
}
