/** The response cache the services share: a key-value store in which every
    entry may carry an expiry time in seconds. Expiry itself happens outside
    the program (the store drops the entry when its time runs out), so the
    model records the requested time-to-live next to each value. */
module KeyValueCache {
  import opened Wrappers

  class Cache<V> {
    var entries: map<string, V>
    var ttl: map<string, nat>

    constructor ()
      ensures entries == map[] && ttl == map[]
    {
      entries := map[];
      ttl := map[];
    }

    /** The value stored under `key`, if any. */
    function Lookup(key: string): (r: Option<V>)
      reads this
      ensures r.Some? <==> key in entries
      ensures r.Some? ==> r.value == entries[key]
    {
      if key in entries then Some(entries[key]) else None
    }

    /** `get_cache`: reads an entry and changes nothing. */
    method Get(key: string) returns (r: Option<V>)
      ensures r == Lookup(key)
    {
      if key in entries {
        r := Some(entries[key]);
      } else {
        r := None;
      }
    }

    /** `set_cache`: stores `value` under `key`. A positive `expire` sets the
        entry's time-to-live; zero stores it without one, which also clears a
        time-to-live the key had before. */
    method Set(key: string, value: V, expire: nat)
      modifies this
      ensures entries == old(entries)[key := value]
      ensures ttl == if expire > 0 then old(ttl)[key := expire] else old(ttl) - {key}
    {
      entries := entries[key := value];
      if expire > 0 {
        ttl := ttl[key := expire];
      } else {
        ttl := ttl - {key};
      }
    }
  }
}
