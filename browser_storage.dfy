/**
 * The browser's `localStorage`: one key/value store of strings shared by the content store
 * and the login session. A write the browser refuses (its quota is full) throws instead of
 * storing; whether a write is refused is an input of the model.
 */
module BrowserStorage {
  import opened Wrappers

  class LocalStorage {
    var entries: map<string, string>

    constructor (entries: map<string, string>)
      ensures this.entries == entries
    {
      this.entries := entries;
    }

    /** `getItem`: the stored string, or nothing for a key never set. */
    function GetItem(key: string): Option<string>
      reads this
    {
      Item(entries, key)
    }

    /** `setItem`: stores `value` under `key`, unless the browser refuses the write. */
    method SetItem(key: string, value: string, refused: bool) returns (stored: bool)
      modifies this
      ensures stored == !refused
      ensures entries == if refused then old(entries) else old(entries)[key := value]
    {
      if !refused {
        entries := entries[key := value];
      }
      stored := !refused;
    }

    /** `removeItem`. */
    method RemoveItem(key: string)
      modifies this
      ensures entries == old(entries) - {key}
    {
      entries := entries - {key};
    }
  }
}
