/**
 * The key -> timestamp caches of the webhook router (`leadSentCache`, `humanHandoffState`).
 * Two tests of age are in use and they are not complementary: the request path treats an
 * entry as live while its age is strictly BELOW the TTL, the sweep deletes it only once its age
 * is strictly ABOVE the TTL. An entry whose age is exactly the TTL is neither.
 */
module TtlCache {

  /** The sweep's test: `now - ts > ttl`. */
  predicate Expired(ts: int, now: int, ttl: int) {
    now - ts > ttl
  }

  /**
   * The request path's test: `m[k] && now - m[k] < ttl`; a stored 0 is falsy in JavaScript and
   * therefore never live.
   */
  predicate Live<K>(m: map<K, int>, k: K, now: int, ttl: int) {
    k in m && m[k] != 0 && now - m[k] < ttl
  }

  /** The cache as the sweep leaves it. */
  function Swept<K>(m: map<K, int>, now: int, ttl: int): map<K, int> {
    map k | k in m && !Expired(m[k], now, ttl) :: m[k]
  }

  /**
   * One `for (const key in cache)` sweep: deletes each expired entry and counts the deletions.
   */
  method Sweep<K>(m: map<K, int>, now: int, ttl: int) returns (kept: map<K, int>, cleaned: nat)
    ensures forall k :: k in kept <==> k in m && now - m[k] <= ttl
    ensures forall k :: k in kept ==> kept[k] == m[k]
    ensures cleaned == |m| - |kept|
    ensures kept == Swept(m, now, ttl)
  {
    kept := m;
    cleaned := 0;
    var todo := m.Keys;
    while todo != {}
      invariant todo <= m.Keys && kept.Keys <= m.Keys
      invariant forall k :: k in todo ==> k in kept
      invariant forall k :: k in m && k !in todo ==> (k in kept <==> !Expired(m[k], now, ttl))
      invariant forall k :: k in kept ==> kept[k] == m[k]
      invariant cleaned + |kept| == |m|
      decreases todo
    {
      var k :| k in todo;
      if now - kept[k] > ttl {
        assert kept.Keys - {k} == (kept - {k}).Keys;
        kept := kept - {k};
        cleaned := cleaned + 1;
      }
      todo := todo - {k};
    }
    assert kept == Swept(m, now, ttl);
  }

  /** Sweeping never removes an entry the request path still considers live. */
  lemma LiveSurvivesSweep<K>(m: map<K, int>, k: K, now: int, ttl: int)
    requires Live(m, k, now, ttl)
    ensures k in Swept(m, now, ttl) && Swept(m, now, ttl)[k] == m[k]
  {
  }

  /** At age exactly `ttl` an entry is not live, and the sweep keeps it. */
  lemma BoundaryNeitherLiveNorSwept<K>(m: map<K, int>, k: K, now: int, ttl: int)
    requires k in m && now - m[k] == ttl
    ensures !Live(m, k, now, ttl)
    ensures k in Swept(m, now, ttl)
  {
  }

  /** A second sweep at the same instant removes nothing more. */
  lemma SweepIdempotent<K>(m: map<K, int>, now: int, ttl: int)
    ensures Swept(Swept(m, now, ttl), now, ttl) == Swept(m, now, ttl)
  {
  }
}
