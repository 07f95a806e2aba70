/** The login limiter: a counter per key and window, pruned now and then. */
module LoginLimiting {
  import opened Model

  /** resetAt is the instant the bucket's window ends; it still counts at that instant. */
  datatype Bucket = Bucket(count: int, resetAt: Time)

  const PRUNE_FROM := 256

  predicate Expired(b: Bucket, now: Time) { now > b.resetAt }

  /** One attempt without any pruning: the answer, and the buckets afterwards. */
  predicate Admits(limit: int, buckets: map<string, Bucket>, key: string, now: Time) {
    key !in buckets || Expired(buckets[key], now) || buckets[key].count < limit
  }

  function Attempted(limit: int, window: Time, buckets: map<string, Bucket>, key: string, now: Time): map<string, Bucket> {
    if key !in buckets || Expired(buckets[key], now) then buckets[key := Bucket(1, now + window)]
    else if buckets[key].count >= limit then buckets
    else buckets[key := Bucket(buckets[key].count + 1, buckets[key].resetAt)]
  }

  /** The pruned buckets are the unpruned ones, some expired ones missing. */
  ghost predicate Represents(pruned: map<string, Bucket>, full: map<string, Bucket>, now: Time) {
    && (forall key :: key in pruned ==> key in full && full[key] == pruned[key])
    && (forall key :: key in full && key !in pruned ==> Expired(full[key], now))
  }

  class LoginLimiter {
    const limit: int
    const window: Time
    var buckets: map<string, Bucket>
    /** The buckets of a limiter that never prunes, and the time of the last attempt. */
    ghost var unpruned: map<string, Bucket>
    ghost var last: Time

    ghost predicate Valid()
      reads this
    {
      Represents(buckets, unpruned, last)
    }

    constructor (limit: int, window: Time, start: Time)
      ensures Valid() && this.limit == limit && this.window == window && buckets == unpruned == map[] && last == start
    {
      this.limit, this.window, buckets := limit, window, map[];
      unpruned, last := map[], start;
    }

    /** Main result: at non-decreasing times the limiter answers as one that never prunes. */
    method Allow(key: string, now: Time) returns (ok: bool)
      requires Valid() && last <= now
      modifies this
      ensures Valid() && last == now
      ensures ok == Admits(limit, old(unpruned), key, now)
      ensures unpruned == Attempted(limit, window, old(unpruned), key, now)
    {
      Prune(now);
      unpruned := Attempted(limit, window, unpruned, key, now);
      last := now;
      if key !in buckets || now > buckets[key].resetAt {
        buckets := buckets[key := Bucket(1, now + window)];
        return true;
      }
      if buckets[key].count >= limit {
        return false;
      }
      buckets := buckets[key := Bucket(buckets[key].count + 1, buckets[key].resetAt)];
      ok := true;
    }

    /** Expired buckets go, when there are many. */
    method Prune(now: Time)
      requires Valid() && last <= now
      modifies this`buckets
      ensures Represents(buckets, unpruned, now)
      ensures buckets == if |old(buckets)| < 256 then old(buckets)
                         else map k | k in old(buckets) && !Expired(old(buckets)[k], now) :: old(buckets)[k]
    {
      if |buckets| < PRUNE_FROM {
        return;
      }
      var keys := buckets.Keys;
      while keys != {}
        invariant keys <= old(buckets).Keys
        invariant buckets == map k | k in old(buckets) && (k in keys || !Expired(old(buckets)[k], now)) :: old(buckets)[k]
        decreases |keys|
      {
        var k :| k in keys;
        keys := keys - {k};
        if now > buckets[k].resetAt {
          buckets := buckets - {k};
        }
      }
    }
  }

  // ---------------------------------------------------------------- how many attempts get through

  datatype Attempt = Attempt(key: string, at: Time)

  /** The buckets after a sequence of attempts. */
  function BucketsAfter(limit: int, window: Time, attempts: seq<Attempt>): map<string, Bucket> {
    if attempts == [] then map[]
    else
      var a := attempts[|attempts| - 1];
      Attempted(limit, window, BucketsAfter(limit, window, attempts[..|attempts| - 1]), a.key, a.at)
  }

  predicate Allowed(limit: int, window: Time, attempts: seq<Attempt>, i: nat)
    requires i < |attempts|
  {
    Admits(limit, BucketsAfter(limit, window, attempts[..i]), attempts[i].key, attempts[i].at)
  }

  /** The allowed attempts for a key between two instants, among the first n. */
  function AllowedWithin(limit: int, window: Time, attempts: seq<Attempt>, key: string, from: Time, to: Time, n: nat): nat
    requires n <= |attempts|
  {
    if n == 0 then 0
    else
      AllowedWithin(limit, window, attempts, key, from, to, n - 1)
      + if attempts[n - 1].key == key && from <= attempts[n - 1].at <= to && Allowed(limit, window, attempts, n - 1) then 1 else 0
  }

  function AttemptedAt(): Attempt -> Time { (attempt: Attempt) => attempt.at }

  /** What the current bucket says about the count in [from, to]: a bucket opened before the
      interval spent its first attempt outside it, and at most one later bucket opens inside. */
  ghost predicate Bounded(limit: int, window: Time, b: Bucket, n: nat, from: Time, to: Time) {
    var start := b.resetAt - window;
    && 1 <= b.count <= limit
    && (start < from ==> n <= b.count - 1)
    && (from <= start <= to ==> n <= limit - 1 + b.count)
    && n <= 2 * limit - 1
  }

  lemma {:induction false} WindowCount(limit: int, window: Time, attempts: seq<Attempt>, key: string, from: Time, to: Time, n: nat)
    requires limit >= 1 && window >= 0 && TimeSorted(AttemptedAt(), attempts) && to - from <= window && n <= |attempts|
    ensures var buckets := BucketsAfter(limit, window, attempts[..n]);
            var count := AllowedWithin(limit, window, attempts, key, from, to, n);
      && (key !in buckets ==> count == 0)
      && (key in buckets ==>
            && Bounded(limit, window, buckets[key], count, from, to)
            && forall i :: n <= i < |attempts| ==> buckets[key].resetAt - window <= attempts[i].at)
      && (n > 0 && attempts[n - 1].at < from ==> count == 0)
  {
    if n > 0 {
      WindowCount(limit, window, attempts, key, from, to, n - 1);
      assert attempts[..n][..n - 1] == attempts[..n - 1];
      assert n > 1 ==> attempts[n - 2].at <= attempts[n - 1].at;
      assert forall i :: n <= i < |attempts| ==> attempts[n - 1].at <= attempts[i].at;
    }
  }

  /** Main result: an interval no longer than the window lets at most 2 * limit - 1 attempts
      for one key through. */
  lemma AtMostTwoWindows(limit: int, window: Time, attempts: seq<Attempt>, key: string, from: Time, to: Time)
    requires limit >= 1 && window >= 0 && TimeSorted(AttemptedAt(), attempts) && to - from <= window
    ensures AllowedWithin(limit, window, attempts, key, from, to, |attempts|) <= 2 * limit - 1
  {
    WindowCount(limit, window, attempts, key, from, to, |attempts|);
  }

  /** The bucket of a key counts attempts that were allowed since its window began. */
  lemma {:induction false} BucketCounts(limit: int, window: Time, attempts: seq<Attempt>, key: string, from: Time, to: Time, n: nat)
    requires TimeSorted(AttemptedAt(), attempts) && n <= |attempts|
    requires forall i :: 0 <= i < n ==> attempts[i].at <= to
    ensures var buckets := BucketsAfter(limit, window, attempts[..n]);
      key in buckets ==>
        && (from <= buckets[key].resetAt - window ==> buckets[key].count <= AllowedWithin(limit, window, attempts, key, from, to, n))
        && forall i :: n <= i < |attempts| ==> buckets[key].resetAt - window <= attempts[i].at
  {
    if n > 0 {
      BucketCounts(limit, window, attempts, key, from, to, n - 1);
      assert attempts[..n][..n - 1] == attempts[..n - 1];
      assert forall i :: n <= i < |attempts| ==> attempts[n - 1].at <= attempts[i].at;
    }
  }

  /** Main result: an attempt is refused only when `limit` attempts for its key were allowed in
      the window before it. */
  lemma RefusedOnlyAtLimit(limit: int, window: Time, attempts: seq<Attempt>, i: nat)
    requires TimeSorted(AttemptedAt(), attempts) && i < |attempts| && !Allowed(limit, window, attempts, i)
    ensures AllowedWithin(limit, window, attempts, attempts[i].key, attempts[i].at - window, attempts[i].at, i) >= limit
  {
    var a := attempts[i];
    assert forall j :: 0 <= j < i ==> attempts[j].at <= a.at;
    BucketCounts(limit, window, attempts, a.key, a.at - window, a.at, i);
  }
}
