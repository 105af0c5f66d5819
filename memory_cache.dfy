/** The in-memory cache the handler writes replies into: only the `put`
    operation the gateway performs, as a map from key to value and expiry
    time. */
module MemoryCache {

  /** A stored value and the time (in milliseconds) at which it expires. */
  datatype Entry = Entry(value: string, expire: int)

  class Cache {
    var entries: map<string, Entry>

    constructor ()
      ensures entries == map[]
    {
      entries := map[];
    }

    /** `cache.put(key, value, time)`: stores `value` under `key` until
        `now + time`, replacing any earlier entry for that key and leaving
        every other key as it was. */
    method Put(key: string, value: string, time: nat, now: int)
      modifies this
      ensures entries == old(entries)[key := Entry(value, now + time)]
      ensures key in entries && entries[key] == Entry(value, now + time)
      ensures entries.Keys == old(entries).Keys + {key}
      ensures forall k :: k in old(entries) && k != key ==> entries[k] == old(entries)[k]
    {
      entries := entries[key := Entry(value, now + time)];
    }
  }

  /** Two puts under one key leave only the later value, expiring at the
      later time plus its own time-to-live. */
  method PutTwice(key: string, first: string, second: string, time: nat, t1: int, t2: int) {
    var c := new Cache();
    c.Put(key, first, time, t1);
    c.Put(key, second, time, t2);
    assert c.entries == map[key := Entry(second, t2 + time)];
  }
}
