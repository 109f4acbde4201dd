// internal/metrics: samples, errors, the cache key and the TTL cache as a mutable object.
//
// Instants and durations are integers (nanoseconds). The backend is abstract: an answer is a
// sample together with an error, exactly the pair `Source.Instant` returns.
module Metrics {
  import opened Wrappers

  datatype Sample = Sample(value: real, time: int)

  datatype Error =
    | NoError
    | Missing                 // ErrMissing: the series is absent
    | Canceled                // the context the call ran under was cancelled
    | Failed(reason: string)  // transport failure, non-200, undecodable body

  datatype Answer = Answer(sample: Sample, err: Error)

  datatype Entry = Entry(answer: Answer, expiresAt: int)

  type Backend = (string, string, int) -> Answer

  const NUL: string := "\0"

  // A result worth caching: a value, or the stable fact that the series is absent.
  predicate Cacheable(a: Answer) {
    a.err.NoError? || a.err.Missing?
  }

  /******* The cache key *******/

  function CacheKey(addr: string, query: string): string {
    addr + NUL + query
  }

  predicate HasNul(s: string) {
    '\0' in s
  }

  // Two keys are equal exactly when the pairs are equal, or when the longer address swallowed
  // the shorter one's separator. The second case needs a NUL inside the longer address.
  lemma KeysCollideExactlyWhen(a1: string, q1: string, a2: string, q2: string)
    requires |a1| <= |a2|
    ensures CacheKey(a1, q1) == CacheKey(a2, q2)
       <==> (a1 == a2 && q1 == q2) || (exists mid :: a2 == a1 + NUL + mid && q1 == mid + NUL + q2)
    ensures CacheKey(a1, q1) == CacheKey(a2, q2) && !HasNul(a2) ==> a1 == a2 && q1 == q2
  {
    var k1, k2 := CacheKey(a1, q1), CacheKey(a2, q2);
    forall mid | a2 == a1 + NUL + mid && q1 == mid + NUL + q2 ensures k1 == k2 {
      assert k1 == a1 + NUL + mid + NUL + q2 == k2;
    }
    if k1 == k2 {
      assert a1 == k1[..|a1|] == k2[..|a1|] == a2[..|a1|];
      if |a1| == |a2| {
        assert q1 == k1[|a1| + 1..] == k2[|a2| + 1..] == q2;
      } else {
        assert k1[|a1|] == '\0' == a2[|a1|];
        var mid := a2[|a1| + 1..];
        assert a2 == a1 + NUL + mid;
        assert q1 == k1[|a1| + 1..] == k2[|a1| + 1..] == mid + NUL + q2;
      }
    }
  }

  // `KeyIdentifies(a)`: no query, and no address up to a's length, can be confused with a's keys.
  ghost predicate KeyIdentifies(a: string) {
    forall q, a', q' :: |a'| <= |a| && CacheKey(a', q') == CacheKey(a, q) ==> a' == a && q' == q
  }

  // The key of an address is unambiguous if and only if the address carries no NUL byte.
  lemma KeyIdentifiesIffNoNul(a: string)
    ensures KeyIdentifies(a) <==> !HasNul(a)
  {
    if HasNul(a) {
      var i :| 0 <= i < |a| && a[i] == '\0';
      assert a == a[..i] + NUL + a[i + 1..];
      KeysCollideExactlyWhen(a[..i], a[i + 1..] + NUL, a, "");
      assert a[i + 1..] + NUL == a[i + 1..] + NUL + "";
      assert CacheKey(a[..i], a[i + 1..] + NUL) == CacheKey(a, "");
    } else {
      forall q, a', q' | |a'| <= |a| && CacheKey(a', q') == CacheKey(a, q) ensures a' == a && q' == q {
        KeysCollideExactlyWhen(a', q', a, q);
      }
    }
  }

  // With NUL-free addresses on both sides the key is injective; queries are unrestricted.
  lemma CacheKeyInjective(a1: string, q1: string, a2: string, q2: string)
    requires !HasNul(a1) && !HasNul(a2)
    ensures CacheKey(a1, q1) == CacheKey(a2, q2) <==> a1 == a2 && q1 == q2
  {
    KeyIdentifiesIffNoNul(a1);
    KeyIdentifiesIffNoNul(a2);
  }

  /******* load and store on the map *******/

  // Not `now.After(expiresAt)`: the instant of expiry itself still counts as fresh.
  predicate Live(cache: map<string, Entry>, key: string, now: int) {
    key in cache && now <= cache[key].expiresAt
  }

  // The read half of Get: a TTL of zero or less never looks.
  function Lookup(cache: map<string, Entry>, key: string, ttl: int, now: int): (r: Option<Answer>)
  {
    if ttl > 0 && Live(cache, key, now) then Some(cache[key].answer) else None
  }

  // The write half of Get.
  function Settled(cache: map<string, Entry>, key: string, answer: Answer, ttl: int, now: int): map<string, Entry>
  {
    if ttl > 0 && Cacheable(answer) then cache[key := Entry(answer, now + ttl)] else cache
  }

  // The freshness the documentation promises ("a reading younger than ttl") against the
  // freshness the code gives: an entry stored at `s` under the storer's TTL is served to a reader
  // whose own TTL is `readerTtl` at exactly the ages up to it if and only if the two TTLs agree, and only at
  // ages below it, as promised, if and only if the storer's TTL is the shorter one: with equal TTLs the entry is
  // still served at the age that equals them.
  lemma ReaderTtlHonouredIff(key: string, answer: Answer, s: int, storerTtl: int, readerTtl: int)
    requires storerTtl > 0 && readerTtl > 0 && Cacheable(answer)
    ensures var cache := Settled(map[], key, answer, storerTtl, s);
      (forall now :: now >= s ==> (Lookup(cache, key, readerTtl, now).Some? <==> now - s <= readerTtl))
      <==> storerTtl == readerTtl
    ensures var cache := Settled(map[], key, answer, storerTtl, s);
      (forall now :: now >= s && Lookup(cache, key, readerTtl, now).Some? ==> now - s <= readerTtl)
      <==> storerTtl <= readerTtl
    ensures var cache := Settled(map[], key, answer, storerTtl, s);
      (forall now :: now >= s && Lookup(cache, key, readerTtl, now).Some? ==> now - s < readerTtl)
      <==> storerTtl < readerTtl
  {
    var cache := Settled(map[], key, answer, storerTtl, s);
    assert cache[key] == Entry(answer, s + storerTtl);
    assert Lookup(cache, key, readerTtl, s + storerTtl).Some?;
    assert Lookup(cache, key, readerTtl, s + readerTtl).Some? <==> readerTtl <= storerTtl;
  }

  /******* CachingSource *******/

  // The object itself, for one caller at a time. The clock readings and the backend, which
  // CachingSource takes from time.Now and its Source field, are parameters. Concurrency, including
  // singleflight, is the subject of module Flights.
  class CachingSource {
    var cache: map<string, Entry>

    constructor ()
      ensures cache == map[]
    {
      cache := map[];
    }

    method Load(key: string, now: int) returns (answer: Answer, ok: bool)
      ensures ok <==> key in cache && now <= cache[key].expiresAt
      ensures ok ==> answer == cache[key].answer
      ensures !ok ==> answer == Answer(Sample(0.0, 0), NoError)
    {
      if key !in cache || now > cache[key].expiresAt {
        return Answer(Sample(0.0, 0), NoError), false;
      }
      return cache[key].answer, true;
    }

    method Store(key: string, answer: Answer, ttl: int, now: int)
      modifies this
      ensures cache == old(cache)[key := Entry(answer, now + ttl)]
    {
      cache := cache[key := Entry(answer, now + ttl)];
    }

    // `upstream` reports whether the backend was asked.
    method Get(source: Backend, addr: string, query: string, ttl: int, lookupAt: int, answeredAt: int, storedAt: int)
      returns (answer: Answer, upstream: bool)
      modifies this
      ensures var hit := Lookup(old(cache), CacheKey(addr, query), ttl, lookupAt);
        && (upstream <==> hit.None?)
        && answer == (if hit.Some? then hit.value else source(addr, query, answeredAt))
        && cache == (if hit.Some? then old(cache)
                     else Settled(old(cache), CacheKey(addr, query), answer, ttl, storedAt))
      // Outcome by outcome: a hit, or no caching, leaves the map alone; a value and ErrMissing are kept for ttl
      // from the store; a cancellation and any other failure are not kept.
      ensures var key := addr + "\0" + query;
        upstream <==> ttl <= 0 || key !in old(cache) || old(cache)[key].expiresAt < lookupAt
      ensures !upstream ==> answer == old(cache)[addr + "\0" + query].answer
      ensures upstream ==> answer == source(addr, query, answeredAt)
      ensures !upstream || ttl <= 0 ==> cache == old(cache)
      ensures upstream && ttl > 0 ==>
        match answer.err
        case NoError => cache == old(cache)[addr + "\0" + query := Entry(answer, storedAt + ttl)]
        case Missing => cache == old(cache)[addr + "\0" + query := Entry(answer, storedAt + ttl)]
        case Canceled => cache == old(cache)
        case Failed(_) => cache == old(cache)
    {
      var key := CacheKey(addr, query);
      upstream := false;
      if ttl > 0 {
        var ok: bool;
        answer, ok := Load(key, lookupAt);
        if ok {
          return;
        }
      }
      upstream := true;
      answer := source(addr, query, answeredAt);
      if ttl > 0 && Cacheable(answer) {
        Store(key, answer, ttl, storedAt);
      }
    }
  }
}
