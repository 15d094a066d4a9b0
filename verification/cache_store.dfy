/** The key-value cache both the ingestion and the scoring stage talk to,
    reduced to the commands they issue: INCR, GET, HSET/HGET/HINCRBY on one
    hash shape, LPUSH/LTRIM, and EXPIRE. Expiry is not driven by a clock: a
    time-to-live is recorded per key and `Evict` is the step at which it
    elapses. */
module CacheStore {
  import opened Wrappers

  /** The fields of a `user:risk:<userId>` hash. Each field has exactly one
      writer, so each is stored with the type its reader parses it as. */
  datatype RiskHash = RiskHash(riskScore: Option<real>, riskLevel: Option<string>, fraudCount: Option<int>)

  const EmptyHash: RiskHash := RiskHash(None, None, None)

  datatype Store = Store(
    counters: map<string, int>,
    hashes: map<string, RiskHash>,
    lists: map<string, seq<string>>,
    ttl: map<string, int>)

  const Empty: Store := Store(map[], map[], map[], map[])

  predicate Exists(s: Store, key: string) {
    key in s.counters || key in s.hashes || key in s.lists
  }

  /** GET on a counter key; absent is `null`. */
  function Get(s: Store, key: string): Option<int> {
    if key in s.counters then Some(s.counters[key]) else None
  }

  /** INCR: an absent key counts as 0; the post-increment value is returned. */
  function Incr(s: Store, key: string): (r: (Store, int))
    ensures r.1 == Get(s, key).GetOr(0) + 1
    ensures Get(r.0, key) == Some(r.1)
    ensures forall k :: k != key ==> Get(r.0, k) == Get(s, k)
    ensures r.0.hashes == s.hashes && r.0.lists == s.lists && r.0.ttl == s.ttl
  {
    var v := Get(s, key).GetOr(0) + 1;
    (s.(counters := s.counters[key := v]), v)
  }

  /** The hash stored at `key`, or the empty hash when there is none. */
  function HashAt(s: Store, key: string): RiskHash {
    if key in s.hashes then s.hashes[key] else EmptyHash
  }

  /** Replaces the hash at `key`; HSET and HINCRBY are written with it. */
  function SetHash(s: Store, key: string, h: RiskHash): (r: Store)
    ensures key in r.hashes && HashAt(r, key) == h
    ensures forall k :: k != key ==> HashAt(r, k) == HashAt(s, k)
    ensures r.counters == s.counters && r.lists == s.lists && r.ttl == s.ttl
  {
    s.(hashes := s.hashes[key := h])
  }

  /** The list stored at `key`, empty when there is none. */
  function ListAt(s: Store, key: string): seq<string> {
    if key in s.lists then s.lists[key] else []
  }

  /** LPUSH: prepends one element. */
  function LPush(s: Store, key: string, v: string): (r: Store)
    ensures key in r.lists && ListAt(r, key) == [v] + ListAt(s, key)
    ensures forall k :: k != key ==> ListAt(r, k) == ListAt(s, k)
    ensures r.counters == s.counters && r.hashes == s.hashes && r.ttl == s.ttl
  {
    s.(lists := s.lists[key := [v] + ListAt(s, key)])
  }

  /** `LTRIM key 0 (n - 1)`: keeps the first `n` elements. */
  function LTrimHead(s: Store, key: string, n: nat): (r: Store)
    ensures |ListAt(r, key)| <= n
    ensures r.lists.Keys == s.lists.Keys
    ensures ListAt(r, key) == ListAt(s, key)[..if |ListAt(s, key)| < n then |ListAt(s, key)| else n]
    ensures forall k :: k != key ==> ListAt(r, k) == ListAt(s, k)
    ensures r.counters == s.counters && r.hashes == s.hashes && r.ttl == s.ttl
  {
    if key in s.lists && n < |s.lists[key]| then s.(lists := s.lists[key := s.lists[key][..n]]) else s
  }

  /** EXPIRE: attaches a time-to-live in seconds; on a missing key it does
      nothing. */
  function Expire(s: Store, key: string, seconds: int): (r: Store)
    ensures Exists(s, key) ==> key in r.ttl && r.ttl[key] == seconds
    ensures !Exists(s, key) ==> r == s
    ensures forall k :: k != key ==> (k in r.ttl <==> k in s.ttl) && (k in s.ttl ==> r.ttl[k] == s.ttl[k])
    ensures r.counters == s.counters && r.hashes == s.hashes && r.lists == s.lists
  {
    if Exists(s, key) then s.(ttl := s.ttl[key := seconds]) else s
  }

  /** The time-to-live of `key` elapses: the key is gone from the store. */
  function Evict(s: Store, key: string): (r: Store)
    ensures !Exists(r, key) && key !in r.ttl
    ensures Get(r, key) == None && HashAt(r, key) == EmptyHash && ListAt(r, key) == []
    ensures forall k :: k != key ==> Get(r, k) == Get(s, k) && HashAt(r, k) == HashAt(s, k)
    ensures forall k :: k != key ==> ListAt(r, k) == ListAt(s, k)
    ensures forall k :: k != key ==> (k in r.ttl <==> k in s.ttl) && (k in s.ttl ==> r.ttl[k] == s.ttl[k])
  {
    Store(s.counters - {key}, s.hashes - {key}, s.lists - {key}, s.ttl - {key})
  }
}
