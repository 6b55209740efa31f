/** utils/cache.js: a key-value cache in front of Redis, a caching
    middleware for GET routes, and the key builders. Values are kept as the
    JSON values they serialize, so `JSON.parse(JSON.stringify(v))` is `v`.
    Whether Redis answers is the parameter `up`: when it does not, every
    operation swallows the error, so `set`, `del` and `clear` change nothing
    and `get` gives null. Expiry times are accepted and not modelled:
    entries never expire. */
module Cache {
  import opened Common

  /** What `cache.get` returns for `key` in `entries`: the stored value,
      or null when there is none or Redis is down. */
  function Lookup(entries: map<string, Json>, key: string, up: bool): (r: Json)
    ensures r != JNull ==> up && key in entries && entries[key] == r
    ensures up && key in entries ==> r == entries[key]
  {
    if up && key in entries then entries[key] else JNull
  }

  class CacheStore {
    var entries: map<string, Json>

    constructor ()
      ensures entries == map[]
    {
      entries := map[];
    }

    /** `cache.get(key)`. */
    function Get(key: string, up: bool): Json
      reads this
    {
      Lookup(entries, key, up)
    }

    /** `cache.set(key, value, expireTime)`: afterwards `get(key)` gives
        `value` and every other key gives what it gave before. */
    method Set(key: string, value: Json, up: bool)
      modifies this
      ensures entries == if up then old(entries)[key := value] else old(entries)
      ensures up ==> Get(key, up) == value
      ensures forall k :: k != key ==> Get(k, up) == old(Get(k, up))
    {
      if up {
        entries := entries[key := value];
      }
    }

    /** `cache.del(key)`: afterwards `get(key)` gives null and every other
        key gives what it gave before. */
    method Del(key: string, up: bool)
      modifies this
      ensures entries == if up then old(entries) - {key} else old(entries)
      ensures up ==> Get(key, up) == JNull
      ensures forall k :: k != key ==> Get(k, up) == old(Get(k, up))
    {
      if up {
        entries := entries - {key};
      }
    }

    /** `cache.clear()` (FLUSHALL): afterwards every key gives null. */
    method Clear(up: bool)
      modifies this
      ensures entries == if up then map[] else old(entries)
      ensures up ==> forall k :: Get(k, up) == JNull
    {
      if up {
        entries := map[];
      }
    }
  }

  /** The key the middleware caches a GET response under. */
  function RequestKey(originalUrl: string): string
  {
    "cache:" + originalUrl
  }

  /** `cacheMiddleware(duration)` on one request. `handlerBody` is what the
      route handler passes to `res.json` when `next` runs it. The answer is
      what is sent, and whether `next` was called. */
  method Middleware(cache: CacheStore, verb: string, originalUrl: string, up: bool, handlerBody: Json)
    returns (sent: Json, calledNext: bool)
    modifies cache
    ensures verb != "GET" ==> calledNext && sent == handlerBody && cache.entries == old(cache.entries)
    ensures verb == "GET" && Truthy(old(cache.Get(RequestKey(originalUrl), up))) ==>
      !calledNext && sent == old(cache.Get(RequestKey(originalUrl), up)) && cache.entries == old(cache.entries)
    ensures verb == "GET" && !Truthy(old(cache.Get(RequestKey(originalUrl), up))) ==>
      && calledNext && sent == handlerBody
      && cache.entries == if up then old(cache.entries)[RequestKey(originalUrl) := handlerBody] else old(cache.entries)
  {
    if verb != "GET" {
      return handlerBody, true;
    }
    var key := RequestKey(originalUrl);
    var cached := cache.Get(key, up);
    if Truthy(cached) {
      return cached, false;
    }
    cache.Set(key, handlerBody, up);
    return handlerBody, true;
  }

  /** `CACHE_KEYS`. Identifiers are their string form. */
  const EventsKey: string := "events"

  function EventKey(id: string): string
  {
    "event:" + id
  }

  function UserEventsKey(userId: string): string
  {
    "user_events:" + userId
  }

  function BookingsKey(userId: string): string
  {
    "bookings:" + userId
  }

  function BookingKey(id: string): string
  {
    "booking:" + id
  }

  /** Each builder gives different identifiers different keys. */
  lemma KeysInjective(a: string, b: string)
    ensures EventKey(a) == EventKey(b) ==> a == b
    ensures UserEventsKey(a) == UserEventsKey(b) ==> a == b
    ensures BookingsKey(a) == BookingsKey(b) ==> a == b
    ensures BookingKey(a) == BookingKey(b) ==> a == b
    ensures RequestKey(a) == RequestKey(b) ==> a == b
  {
    assert EventKey(a)[6..] == a && EventKey(b)[6..] == b;
    assert UserEventsKey(a)[12..] == a && UserEventsKey(b)[12..] == b;
    assert BookingsKey(a)[9..] == a && BookingsKey(b)[9..] == b;
    assert BookingKey(a)[8..] == a && BookingKey(b)[8..] == b;
    assert RequestKey(a)[6..] == a && RequestKey(b)[6..] == b;
  }

  /** Keys from different builders never collide, and none of them is a
      key the middleware writes: invalidating a `CACHE_KEYS` entry never
      removes a cached GET response. */
  lemma KeysDisjoint(a: string, b: string, url: string)
    ensures EventKey(a) != EventsKey && EventKey(a) != UserEventsKey(b)
    ensures EventKey(a) != BookingsKey(b) && EventKey(a) != BookingKey(b)
    ensures UserEventsKey(a) != EventsKey && UserEventsKey(a) != BookingsKey(b) && UserEventsKey(a) != BookingKey(b)
    ensures BookingsKey(a) != EventsKey && BookingsKey(a) != BookingKey(b)
    ensures BookingKey(a) != EventsKey
    ensures RequestKey(url) != EventsKey && RequestKey(url) != EventKey(a) && RequestKey(url) != UserEventsKey(a)
    ensures RequestKey(url) != BookingsKey(a) && RequestKey(url) != BookingKey(a)
  {
    assert EventKey(a)[0] == 'e' && EventKey(a)[5] == ':';
    assert UserEventsKey(a)[0] == 'u';
    assert BookingsKey(a)[0] == 'b' && BookingsKey(a)[7] == 's';
    assert BookingKey(b)[0] == 'b' && BookingKey(b)[7] == ':';
    assert RequestKey(url)[0] == 'c';
  }
}
