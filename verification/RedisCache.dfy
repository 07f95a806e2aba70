/** The Redis response cache: every entry is stored under the current generation, and a
    clear moves the generation on.  One call at a time; the interleavings of several
    instances are the subject of CacheProtocol. */
module RedisCaching {
  import opened Wrappers
  import opened Model
  import opened ResponseCaching

  const GEN_CACHE_FOR: Time := 300 * 1000
  const MAX_VALUE := 0x10_0000

  /** The shared server: the counter and the values, keyed by generation and key. */
  class Redis {
    var counter: nat
    var values: map<(nat, string), Payload>

    constructor ()
      ensures counter == 0 && values == map[]
    {
      counter, values := 0, map[];
    }
  }

  class RedisResponseCache {
    const rdb: Redis
    const fallback: ResponseCache
    var gen: nat
    var genFetched: Option<Time>
    /** The generation this instance's last successful clear moved to. */
    ghost var cleared: nat

    ghost predicate Valid()
      reads this, rdb, fallback
    {
      && fallback.Valid()
      && cleared <= rdb.counter
      && (forall k :: k in rdb.values ==> k.0 <= rdb.counter)
      && (genFetched.Some? ==> cleared <= gen <= rdb.counter)
    }

    constructor (rdb: Redis, fallback: ResponseCache)
      requires fallback.Valid() && forall k :: k in rdb.values ==> k.0 <= rdb.counter
      ensures Valid() && this.rdb == rdb && this.fallback == fallback && genFetched.None? && cleared == 0
    {
      this.rdb, this.fallback := rdb, fallback;
      gen, genFetched, cleared := 0, None, 0;
    }

    predicate Fresh(now: Time)
      reads this
    {
      genFetched.Some? && now - genFetched.value < GEN_CACHE_FOR
    }

    /** The generation, from the local copy or from the server; None when it is out of reach. */
    method Generation(now: Time, reachable: bool) returns (g: Option<nat>)
      requires Valid()
      modifies this`gen, this`genFetched
      ensures Valid()
      ensures g == if old(Fresh(now)) then Some(old(gen)) else if reachable then Some(rdb.counter) else None
      ensures if old(Fresh(now)) || !reachable then gen == old(gen) && genFetched == old(genFetched)
              else gen == rdb.counter && genFetched == Some(now)
      ensures g.Some? ==> cleared <= g.value <= rdb.counter
    {
      if genFetched.Some? && now - genFetched.value < GEN_CACHE_FOR {
        return Some(gen);
      }
      if !reachable {
        return None;
      }
      var val := rdb.counter;
      gen := val;
      genFetched := Some(now);
      g := Some(val);
    }

    /** The server answers with the value under the generation in use, or with nothing; without
        it the fallback answers.  A hit from the server was stored under a generation no older
        than this instance's own last clear. */
    method Get(key: string, now: Time, reachable: bool, answered: bool) returns (data: Option<Payload>)
      requires Valid()
      modifies this`gen, this`genFetched
      ensures Valid()
      ensures gen == (if old(Fresh(now)) || !reachable then old(gen) else rdb.counter)
      ensures genFetched == (if old(Fresh(now)) || !reachable then old(genFetched) else Some(now))
      ensures (old(Fresh(now)) || reachable) && answered ==>
        data == if (gen, key) in rdb.values then Some(rdb.values[(gen, key)]) else None
      ensures (!old(Fresh(now)) && !reachable) || !answered ==> data == Served(fallback.entries, key, now)
      ensures data.Some? ==>
        || (exists g: nat :: cleared <= g <= rdb.counter && (g, key) in rdb.values && data.value == rdb.values[(g, key)])
        || data == Served(fallback.unbounded, key, now)
      ensures reachable && answered && data.Some? ==>
        exists g: nat :: cleared <= g <= rdb.counter && (g, key) in rdb.values && data.value == rdb.values[(g, key)]
    {
      var g := Generation(now, reachable);
      if g.None? || !answered {
        data := fallback.Get(key, now);
        return;
      }
      if (g.value, key) !in rdb.values {
        return None;
      }
      data := Some(rdb.values[(g.value, key)]);
    }

    method Set(key: string, data: Payload, ttl: Time, now: Time, reachable: bool, answered: bool)
      requires Valid()
      modifies this`gen, this`genFetched, rdb`values, fallback
      ensures Valid() && rdb.counter == old(rdb.counter)
      ensures ttl <= 0 || data == "" || |data| > 0x10_0000 ==>
        && rdb.values == old(rdb.values) && fallback.entries == old(fallback.entries) && fallback.unbounded == old(fallback.unbounded)
        && gen == old(gen) && genFetched == old(genFetched)
      ensures ttl > 0 && 0 < |data| <= 0x10_0000 ==>
        && gen == (if old(Fresh(now)) || !reachable then old(gen) else rdb.counter)
        && genFetched == (if old(Fresh(now)) || !reachable then old(genFetched) else Some(now))
        && (if (old(Fresh(now)) || reachable) && answered
            then rdb.values == old(rdb.values)[(gen, key) := data] && fallback.entries == old(fallback.entries)
            else rdb.values == old(rdb.values) && key in fallback.entries && fallback.entries[key] == Entry(data, now + ttl))
      ensures rdb.values == old(rdb.values)
        || exists g: nat :: cleared <= g <= rdb.counter && rdb.values == old(rdb.values)[(g, key) := data]
      ensures reachable && answered && ttl > 0 && 0 < |data| <= MAX_VALUE ==>
        exists g: nat :: cleared <= g <= rdb.counter && rdb.values == old(rdb.values)[(g, key) := data]
    {
      if ttl <= 0 || |data| == 0 || |data| > MAX_VALUE {
        return;
      }
      var g := Generation(now, reachable);
      if g.None? || !answered {
        fallback.Set(key, data, ttl, now);
        return;
      }
      rdb.values := rdb.values[(g.value, key) := data];
    }

    /** INCR and the local copy.  Without the server the generation stays, and the local
        copy is dropped so that the next call fetches again. */
    method Clear(now: Time, reachable: bool)
      requires Valid()
      modifies this, rdb`counter, fallback
      ensures Valid() && fallback.entries == map[] && fallback.unbounded == map[]
      ensures reachable ==>
        rdb.counter == old(rdb.counter) + 1 && gen == cleared == rdb.counter && genFetched == Some(now)
      ensures reachable ==> forall k :: k in rdb.values ==> k.0 < cleared   // no stored value can be a hit any more
      ensures !reachable ==> rdb.counter == old(rdb.counter) && cleared == old(cleared) && genFetched == None
    {
      fallback.Clear();
      if !reachable {
        genFetched := None;
        return;
      }
      rdb.counter := rdb.counter + 1;
      gen, genFetched := rdb.counter, Some(now);
      cleared := rdb.counter;
    }
  }

  /** Main result: what was stored is what the next lookup gets, with the server answering
      both, unless the local copy of the generation ran out in between and the counter had been
      ahead of it; then the lookup is answered under the counter. */
  method StoreAndAskAgain(c: RedisResponseCache, key: string, data: Payload, ttl: Time, now: Time, later: Time)
    returns (hit: Option<Payload>)
    requires c.Valid() && ttl > 0 && 0 < |data| <= MAX_VALUE
    modifies c`gen, c`genFetched, c.rdb`values, c.fallback
    ensures c.Valid()
    ensures var used := if old(c.Fresh(now)) then old(c.gen) else c.rdb.counter;
            var fetched := if old(c.Fresh(now)) then old(c.genFetched) else Some(now);
      if used == c.rdb.counter || later - fetched.value < 300 * 1000 then hit == Some(data)
      else hit == if (c.rdb.counter, key) in old(c.rdb.values) then Some(old(c.rdb.values)[(c.rdb.counter, key)]) else None
  {
    c.Set(key, data, ttl, now, true, true);
    hit := c.Get(key, later, true, true);
  }

  /** Once the server is back from a clear, nothing stored before it is found. */
  method ClearAndAsk(c: RedisResponseCache, key: string, now: Time, later: Time) returns (hit: Option<Payload>)
    requires c.Valid()
    modifies c, c.rdb`counter, c.fallback
    ensures c.Valid() && hit.None?
  {
    c.Clear(now, true);
    hit := c.Get(key, later, true, true);
  }
}
