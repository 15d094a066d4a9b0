/** Per-user admission control of the ingestion stage: a counter per user
    that is incremented on every request, given a sixty-second lifetime on
    its first increment, and compared with the configured maximum. */
module RateLimit {
  import opened Wrappers
  import opened CacheStore

  const KeyPrefix: string := "user:txn_count:"
  /** `transaction.rate-limit.max-per-minute` when it is not configured. */
  const DefaultMaxPerMinute: int := 10
  const WindowSeconds: int := 60

  function CounterKey(userId: string): string {
    KeyPrefix + userId
  }

  /** Distinct users never share a counter. */
  lemma CounterKeyInjective(u: string, v: string)
    requires CounterKey(u) == CounterKey(v)
    ensures u == v
  {
    assert u == CounterKey(u)[|KeyPrefix|..];
    assert v == CounterKey(v)[|KeyPrefix|..];
  }

  /** The outcome of a check: admitted, or the rate-limit exception carrying
      the user and the configured maximum. */
  datatype Admission = Admitted | Rejected(userId: string, maxAllowed: int)

  /** The user's current count, an absent key counting as 0. */
  function Count(s: Store, userId: string): int {
    Get(s, CounterKey(userId)).GetOr(0)
  }

  /** One check: increment, attach the window's expiry when the new count
      is 1, then reject when the new count exceeds the maximum. The
      increment happens whether or not the call is admitted. */
  function CheckRateLimit(s: Store, userId: string, maxPerMinute: int): (r: (Store, Admission))
    ensures Get(r.0, CounterKey(userId)) == Some(Count(s, userId) + 1)
    ensures r.1.Rejected? <==> Count(s, userId) + 1 > maxPerMinute
    ensures r.1.Rejected? ==> r.1 == Rejected(userId, maxPerMinute)
    ensures Count(s, userId) + 1 == 1 ==> CounterKey(userId) in r.0.ttl && r.0.ttl[CounterKey(userId)] == WindowSeconds
    ensures Count(s, userId) + 1 != 1 ==> r.0.ttl == s.ttl
    ensures forall k :: k != CounterKey(userId) ==> Get(r.0, k) == Get(s, k)
    ensures forall v :: v != userId ==> Count(r.0, v) == Count(s, v)
    ensures r.0.hashes == s.hashes && r.0.lists == s.lists
  {
    var key := CounterKey(userId);
    assert forall v :: v != userId ==> CounterKey(v) != key by {
      forall v | CounterKey(v) == key
        ensures v == userId
      {
        CounterKeyInjective(v, userId);
      }
    }
    var (s1, count) := Incr(s, key);
    var s2 := if count == 1 then Expire(s1, key, WindowSeconds) else s1;
    if count > maxPerMinute then (s2, Rejected(userId, maxPerMinute)) else (s2, Admitted)
  }

  /** `n` consecutive checks for one user within one window. */
  function Burst(s: Store, userId: string, maxPerMinute: int, n: nat): (Store, seq<Admission>)
  {
    if n == 0 then (s, [])
    else
      var (s1, earlier) := Burst(s, userId, maxPerMinute, n - 1);
      var (s2, last) := CheckRateLimit(s1, userId, maxPerMinute);
      (s2, earlier + [last])
  }

  /** After `n` checks the counter has grown by `n`, and the `i`-th check
      (from 0) was admitted iff the count it produced stayed within the
      maximum. */
  lemma {:induction false} BurstCounts(s: Store, userId: string, maxPerMinute: int, n: nat)
    ensures var r := Burst(s, userId, maxPerMinute, n);
            && Count(r.0, userId) == Count(s, userId) + n
            && |r.1| == n
            && forall i :: 0 <= i < n ==> (r.1[i].Admitted? <==> Count(s, userId) + i + 1 <= maxPerMinute)
  {
    if n > 0 {
      BurstCounts(s, userId, maxPerMinute, n - 1);
      var (s1, earlier) := Burst(s, userId, maxPerMinute, n - 1);
      var (s2, last) := CheckRateLimit(s1, userId, maxPerMinute);
      assert Burst(s, userId, maxPerMinute, n).1 == earlier + [last];
    }
  }

  /** With the default maximum and a fresh window, calls 1 to 10 are
      admitted and the 11th is rejected. */
  lemma DefaultWindow(s: Store, userId: string)
    requires Get(s, CounterKey(userId)).None?
    ensures var r := Burst(s, userId, DefaultMaxPerMinute, 11);
            && |r.1| == 11
            && (forall i :: 0 <= i < 10 ==> r.1[i] == Admitted)
            && r.1[10] == Rejected(userId, 10)
  {
    BurstCounts(s, userId, DefaultMaxPerMinute, 11);
    var r := Burst(s, userId, DefaultMaxPerMinute, 11);
    assert Count(s, userId) == 0;
    assert Burst(s, userId, DefaultMaxPerMinute, 11).1[10] == CheckRateLimit(Burst(s, userId, DefaultMaxPerMinute, 10).0, userId, DefaultMaxPerMinute).1;
  }

  /** Within a window, a rejection is final: the next call is rejected too. */
  lemma RejectionPersists(s: Store, userId: string, maxPerMinute: int)
    requires CheckRateLimit(s, userId, maxPerMinute).1.Rejected?
    ensures var next := CheckRateLimit(s, userId, maxPerMinute).0;
            CheckRateLimit(next, userId, maxPerMinute).1.Rejected?
  {
  }

  /** Once the window's key has expired, the next call starts a new window:
      it counts 1, is admitted whenever the maximum is positive, and
      attaches a fresh expiry. */
  lemma ExpiryStartsNewWindow(s: Store, userId: string, maxPerMinute: int)
    requires maxPerMinute >= 1
    ensures var r := CheckRateLimit(Evict(s, CounterKey(userId)), userId, maxPerMinute);
            && Get(r.0, CounterKey(userId)) == Some(1)
            && r.1 == Admitted
            && CounterKey(userId) in r.0.ttl && r.0.ttl[CounterKey(userId)] == WindowSeconds
  {
  }
}
