/** The scoring stage's view of the cache: a risk hash per user, the shared
    per-user transaction counter, and a bounded newest-first list of
    high-risk transaction ids. Every reader defaults rather than fails. */
module ContextCache {
  import opened Wrappers
  import opened CacheStore

  const RiskKeyPrefix: string := "user:risk:"
  const TxnCountKeyPrefix: string := "user:txn_count:"
  const HotHighRiskListKey: string := "hot:high-risk-transactions"
  const HighRiskListSize: nat := 100
  /** `Duration.ofHours(24)` in seconds. */
  const RiskTtlSeconds: int := 86400

  function RiskKey(userId: string): string {
    RiskKeyPrefix + userId
  }

  function TxnCountKey(userId: string): string {
    TxnCountKeyPrefix + userId
  }

  /** Prefixing a user id with a fixed prefix loses no information, so
      different users never share a key. */
  lemma PrefixedKeyInjective(prefix: string, u: string, v: string)
    requires prefix + u == prefix + v
    ensures u == v
  {
    assert u == (prefix + u)[|prefix|..];
    assert v == (prefix + v)[|prefix|..];
  }

  /** The risk score last cached for the user, or `null` when none is: a
      missing hash or a missing score field reads as absent, never as a
      failure. */
  function GetCachedRiskScore(s: Store, userId: string): (r: Option<real>)
    ensures RiskKey(userId) !in s.hashes ==> r.None?
    ensures r.Some? <==> RiskKey(userId) in s.hashes && s.hashes[RiskKey(userId)].riskScore.Some?
    ensures r.Some? ==> r.value == s.hashes[RiskKey(userId)].riskScore.value
  {
    HashAt(s, RiskKey(userId)).riskScore
  }

  /** Recent fraud incidents; an absent field reads as 0. */
  function GetRecentFraudCount(s: Store, userId: string): (n: int)
    ensures HashAt(s, RiskKey(userId)).fraudCount.None? ==> n == 0
    ensures HashAt(s, RiskKey(userId)).fraudCount.Some? ==> n == HashAt(s, RiskKey(userId)).fraudCount.value
  {
    HashAt(s, RiskKey(userId)).fraudCount.GetOr(0)
  }

  /** Requests in the current window; an absent counter reads as 0. */
  function GetRecentTxnCount(s: Store, userId: string): (n: int)
    ensures Get(s, TxnCountKey(userId)).None? ==> n == 0
    ensures Get(s, TxnCountKey(userId)).Some? ==> n == Get(s, TxnCountKey(userId)).value
  {
    Get(s, TxnCountKey(userId)).GetOr(0)
  }

  /** Writes the score and level fields of the user's hash and gives the
      hash a 24-hour lifetime; the fraud count field is left as it was. */
  function CacheRiskScore(s: Store, userId: string, riskScore: real, riskLevel: string): (r: Store)
    ensures GetCachedRiskScore(r, userId) == Some(riskScore)
    ensures HashAt(r, RiskKey(userId)).riskLevel == Some(riskLevel)
    ensures GetRecentFraudCount(r, userId) == GetRecentFraudCount(s, userId)
    ensures RiskKey(userId) in r.ttl && r.ttl[RiskKey(userId)] == RiskTtlSeconds
    ensures forall v :: v != userId ==> HashAt(r, RiskKey(v)) == HashAt(s, RiskKey(v))
    ensures r.counters == s.counters && r.lists == s.lists
  {
    var key := RiskKey(userId);
    var h := HashAt(s, key);
    var s1 := SetHash(s, key, h.(riskScore := Some(riskScore), riskLevel := Some(riskLevel)));
    forall v | v != userId
      ensures RiskKey(v) != key
    {
      if RiskKey(v) == key {
        PrefixedKeyInjective(RiskKeyPrefix, v, userId);
      }
    }
    Expire(s1, key, RiskTtlSeconds)
  }

  /** HINCRBY on the fraud count field: one more incident, the score and
      level fields intact, and a fresh 24-hour lifetime. */
  function IncrementFraudCount(s: Store, userId: string): (r: Store)
    ensures GetRecentFraudCount(r, userId) == GetRecentFraudCount(s, userId) + 1
    ensures GetCachedRiskScore(r, userId) == GetCachedRiskScore(s, userId)
    ensures HashAt(r, RiskKey(userId)).riskLevel == HashAt(s, RiskKey(userId)).riskLevel
    ensures RiskKey(userId) in r.ttl && r.ttl[RiskKey(userId)] == RiskTtlSeconds
    ensures forall v :: v != userId ==> HashAt(r, RiskKey(v)) == HashAt(s, RiskKey(v))
    ensures r.counters == s.counters && r.lists == s.lists
  {
    var key := RiskKey(userId);
    var h := HashAt(s, key);
    var s1 := SetHash(s, key, h.(fraudCount := Some(h.fraudCount.GetOr(0) + 1)));
    forall v | v != userId
      ensures RiskKey(v) != key
    {
      if RiskKey(v) == key {
        PrefixedKeyInjective(RiskKeyPrefix, v, userId);
      }
    }
    Expire(s1, key, RiskTtlSeconds)
  }

  /** The cached score reads back what was last written for the user, a
      write for another user leaves it alone, and once the hash's lifetime
      elapses it reads as `null` again. */
  lemma CachedRiskScoreLifecycle(s: Store, u: string, v: string, riskScore: real, riskLevel: string)
    requires u != v
    ensures GetCachedRiskScore(CacheRiskScore(s, u, riskScore, riskLevel), u) == Some(riskScore)
    ensures GetCachedRiskScore(CacheRiskScore(s, u, riskScore, riskLevel), v) == GetCachedRiskScore(s, v)
    ensures GetCachedRiskScore(IncrementFraudCount(s, u), u) == GetCachedRiskScore(s, u)
    ensures GetCachedRiskScore(Evict(CacheRiskScore(s, u, riskScore, riskLevel), RiskKey(u)), u).None?
  {
  }

  /** The high-risk list as currently cached. */
  function HotList(s: Store): seq<string> {
    ListAt(s, HotHighRiskListKey)
  }

  /** LPUSH then LTRIM to the bound: the new id is at the head, followed by
      the previous list's first 99 ids in their original order. */
  function AddToHotList(s: Store, transactionId: string): (r: Store)
    ensures |HotList(r)| <= HighRiskListSize
    ensures 1 <= |HotList(r)| && HotList(r)[0] == transactionId
    ensures HotList(r)[1..] == HotList(s)[..if |HotList(s)| < HighRiskListSize - 1 then |HotList(s)| else HighRiskListSize - 1]
    ensures HotHighRiskListKey in r.ttl && r.ttl[HotHighRiskListKey] == RiskTtlSeconds
    ensures r.counters == s.counters && r.hashes == s.hashes
    ensures forall k :: k != HotHighRiskListKey ==> ListAt(r, k) == ListAt(s, k)
    ensures forall k :: k != HotHighRiskListKey ==> (k in r.ttl <==> k in s.ttl) && (k in s.ttl ==> r.ttl[k] == s.ttl[k])
  {
    var s1 := LPush(s, HotHighRiskListKey, transactionId);
    var s2 := LTrimHead(s1, HotHighRiskListKey, HighRiskListSize);
    assert ListAt(s2, HotHighRiskListKey) == ListAt(s1, HotHighRiskListKey)[..if |ListAt(s1, HotHighRiskListKey)| < 100 then |ListAt(s1, HotHighRiskListKey)| else 100];
    Expire(s2, HotHighRiskListKey, RiskTtlSeconds)
  }
}
