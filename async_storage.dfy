/**
 * The device's key-value store, seen only through the two calls the
 * settings provider makes: `getItem` and `setItem`. Either call may
 * fail (the promise rejects); which one does is the device's choice,
 * so it is modelled as a nondeterministic outcome.
 */
module AsyncStorage {
  import opened Wrappers

  /** What `getItem` settles with: the stored string or `null`, or a rejection. */
  datatype ReadOutcome = Read(stored: Option<string>) | ReadFailed

  /** `null` for a key never written, the stored string otherwise. */
  function Lookup(items: map<string, string>, key: string): (r: Option<string>)
    ensures r.Some? <==> key in items
    ensures r.Some? ==> r.value == items[key]
  {
    if key in items then Some(items[key]) else None
  }

  class DeviceStorage {
    var items: map<string, string>

    constructor (initial: map<string, string>)
      ensures items == initial
    {
      items := initial;
    }

    /** Reads a key; a read that fails reports no value and changes nothing. */
    method GetItem(key: string) returns (r: ReadOutcome)
      ensures r == ReadFailed || r == Read(Lookup(items, key))
    {
      var failed: bool :| true;
      r := if failed then ReadFailed else Read(Lookup(items, key));
    }

    /** Writes a key; on success the key holds the value, on failure the store is as it was. */
    method SetItem(key: string, value: string) returns (ok: bool)
      modifies this
      ensures ok ==> items == old(items)[key := value]
      ensures !ok ==> items == old(items)
    {
      var failed: bool :| true;
      ok := !failed;
      if ok {
        items := items[key := value];
      }
    }
  }
}
