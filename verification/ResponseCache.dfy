/** The in-memory response cache: entries with a time to live, at most 4096 of them. */
module ResponseCaching {
  import opened Wrappers
  import opened Model

  type Payload = string

  datatype Entry = Entry(data: Payload, expires: Time)

  const MAX_ENTRIES := 4096

  /** Get's test on a stored entry; an entry is still served at its expiry instant. */
  function Served(entries: map<string, Entry>, key: string, now: Time): Option<Payload> {
    if key in entries && now <= entries[key].expires then Some(entries[key].data) else None
  }

  class ResponseCache {
    var entries: map<string, Entry>
    /** What a cache without a bound would hold: every entry set since the last clear. */
    ghost var unbounded: map<string, Entry>

    ghost predicate Valid()
      reads this
    {
      && |entries| <= MAX_ENTRIES
      && forall key :: key in entries ==> key in unbounded && unbounded[key] == entries[key]
    }

    constructor ()
      ensures Valid() && entries == map[] && unbounded == map[]
    {
      entries, unbounded := map[], map[];
    }

    /** A hit is what the unbounded cache would serve; the bound only adds misses. */
    method Get(key: string, now: Time) returns (data: Option<Payload>)
      requires Valid()
      ensures data == Served(entries, key, now)
      ensures data.Some? ==> data == Served(unbounded, key, now)
    {
      if key !in entries || now > entries[key].expires {
        return None;
      }
      data := Some(entries[key].data);
    }

    /** Blank data and non-positive lifetimes are not stored.  A full cache is emptied
        before the new entry goes in. */
    method Set(key: string, data: Payload, ttl: Time, now: Time)
      requires Valid()
      modifies this
      ensures Valid()
      ensures if ttl <= 0 || data == ""
              then entries == old(entries) && unbounded == old(unbounded)
              else && entries == (if |old(entries)| >= MAX_ENTRIES then map[] else old(entries))[key := Entry(data, now + ttl)]
                   && unbounded == old(unbounded)[key := Entry(data, now + ttl)]
    {
      if ttl <= 0 || |data| == 0 {
        return;
      }
      if |entries| >= MAX_ENTRIES {
        entries := map[];
      }
      SizeAfterInsert(entries, key, Entry(data, now + ttl));
      entries := entries[key := Entry(data, now + ttl)];
      unbounded := unbounded[key := Entry(data, now + ttl)];
    }

    method Clear()
      modifies this
      ensures Valid() && entries == map[] && unbounded == map[]
    {
      entries, unbounded := map[], map[];
    }
  }

  lemma SizeAfterInsert(m: map<string, Entry>, key: string, e: Entry)
    ensures |m[key := e]| <= |m| + 1
  {
    assert m[key := e].Keys == m.Keys + {key};
    assert |m[key := e].Keys| <= |m.Keys| + 1;
  }

  /** What was stored is served up to the end of its lifetime, that instant included, and
      storing one key touches no other. */
  method StoreAndAsk(c: ResponseCache, key: string, data: Payload, ttl: Time, now: Time, asked: string, later: Time)
    returns (hit: Option<Payload>)
    requires c.Valid() && ttl > 0 && data != ""
    modifies c
    ensures c.Valid()
    ensures asked == key ==> hit == if later <= now + ttl then Some(data) else None
    ensures asked != key && |old(c.entries)| < 4096 ==>
      hit == if asked in old(c.entries) && later <= old(c.entries)[asked].expires then Some(old(c.entries)[asked].data) else None
  {
    c.Set(key, data, ttl, now);
    hit := c.Get(asked, later);
  }
}
