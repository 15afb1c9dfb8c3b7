/**
 * The expiring key-value store the webhook handler keeps its modes in.
 *
 * Its implementation lives outside the handler file and is not part of
 * this model. What the handler relies on is modelled as an explicit
 * contract: `Set(key, value, ttl)` overwrites the record for `key` with an
 * expiry of `now + ttl`, and `Get(key)` finds the record exactly while the
 * current time is strictly before that expiry. The handler only ever stores
 * `true`, so a record is represented by its expiry alone. Times are integers
 * counted in nanoseconds, like Go's `time.Duration`; the clock is a parameter.
 */
module Store {

  /** One nanosecond-based second, as Go's `time.Second`. */
  const Second: int := 1_000_000_000

  /** Whether `key` holds a record that has not yet expired at time `now`. */
  predicate Found(entries: map<string, int>, key: string, now: int)
  {
    key in entries && now < entries[key]
  }

  /** The store after `Set(key, true, ttl)` at time `now`: last write wins. */
  function Written(entries: map<string, int>, key: string, now: int, ttl: int): (r: map<string, int>)
    ensures r.Keys == entries.Keys + {key}
  {
    entries[key := now + ttl]
  }

  /** A written key is found exactly until its new expiry, whatever it held before. */
  lemma FoundAfterWrite(entries: map<string, int>, key: string, now: int, ttl: int, later: int)
    ensures Found(Written(entries, key, now, ttl), key, later) <==> later < now + ttl
  {
  }

  /** With a positive ttl a key is found right after it is written and not once the ttl has passed. */
  lemma WriteThenRead(entries: map<string, int>, key: string, now: int, ttl: int, wait: int)
    requires ttl > 0 && wait >= 0
    ensures Found(Written(entries, key, now, ttl), key, now)
    ensures wait >= ttl ==> !Found(Written(entries, key, now, ttl), key, now + wait)
  {
  }

  /** Re-writing a key replaces its expiry: the earlier write leaves no trace. */
  lemma RewriteOverwrites(entries: map<string, int>, key: string, now1: int, ttl1: int, now2: int, ttl2: int)
    ensures Written(Written(entries, key, now1, ttl1), key, now2, ttl2) == Written(entries, key, now2, ttl2)
  {
  }

  /** Writing one key does not change whether any other key is found. */
  lemma WriteLeavesOtherKeys(entries: map<string, int>, key: string, other: string, now: int, ttl: int, at: int)
    requires other != key
    ensures Found(Written(entries, key, now, ttl), other, at) == Found(entries, other, at)
  {
  }

  /** The store object shared by every webhook delivery. */
  class Cache {
    /** Each key's absolute expiry time. */
    var entries: map<string, int>

    /** A new, empty store (`service.NewCache()`). */
    constructor ()
      ensures entries == map[]
    {
      entries := map[];
    }

    /** `Set(key, true, ttl)` at time `now`. */
    method Set(key: string, ttl: int, now: int)
      modifies this
      ensures entries == Written(old(entries), key, now, ttl)
    {
      entries := entries[key := now + ttl];
    }

    /** `Get(key)` at time `now`, keeping only the `ok` result. */
    method Get(key: string, now: int) returns (ok: bool)
      ensures ok == Found(entries, key, now)
    {
      ok := key in entries && now < entries[key];
    }
  }
}
