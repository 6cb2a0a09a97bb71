/**
 * The cache-cleanup test: a copy of the router's sweep with shortened TTLs that returns how many
 * entries it removed from each cache, and the scenario that exercises it. The waits of the test
 * are the instants at which the three sweeps run.
 */
module CacheCleanupTest {
  import TtlCache

  const TEST_LEAD_CACHE_TTL_MS: int := 3000
  const TEST_HUMAN_HANDOFF_TIMEOUT_MS: int := 5000

  class TestCaches {
    var leadSentCache: map<string, int>
    var humanHandoffState: map<string, int>

    constructor ()
      ensures leadSentCache == map[] && humanHandoffState == map[]
    {
      leadSentCache := map[];
      humanHandoffState := map[];
    }

    method AddLead(key: string, now: int)
      modifies this
      ensures leadSentCache == old(leadSentCache)[key := now]
      ensures humanHandoffState == old(humanHandoffState)
    {
      leadSentCache := leadSentCache[key := now];
    }

    method AddHandoff(key: string, now: int)
      modifies this
      ensures humanHandoffState == old(humanHandoffState)[key := now]
      ensures leadSentCache == old(leadSentCache)
    {
      humanHandoffState := humanHandoffState[key := now];
    }

    /**
     * One sweep of both caches with their own TTLs; the counts are the numbers of deleted entries.
     */
    method CleanupAllCaches(now: int) returns (leadsCleaned: nat, handoffsCleaned: nat)
      modifies this
      ensures leadSentCache == TtlCache.Swept(old(leadSentCache), now, TEST_LEAD_CACHE_TTL_MS)
      ensures humanHandoffState == TtlCache.Swept(old(humanHandoffState), now, TEST_HUMAN_HANDOFF_TIMEOUT_MS)
      ensures leadsCleaned == |old(leadSentCache)| - |leadSentCache|
      ensures handoffsCleaned == |old(humanHandoffState)| - |humanHandoffState|
    {
      leadSentCache, leadsCleaned := TtlCache.Sweep(leadSentCache, now, TEST_LEAD_CACHE_TTL_MS);
      humanHandoffState, handoffsCleaned := TtlCache.Sweep(humanHandoffState, now, TEST_HUMAN_HANDOFF_TIMEOUT_MS);
    }
  }

  /** Every entry of `m` was written at `t`. */
  predicate AllAt(m: map<string, int>, t: int) {
    forall k :: k in m ==> m[k] == t
  }

  /** A sweep removes everything or nothing from a cache whose entries share one timestamp. */
  lemma SweptUniform(m: map<string, int>, t: int, now: int, ttl: int)
    requires AllAt(m, t)
    ensures now - t > ttl ==> TtlCache.Swept(m, now, ttl) == map[]
    ensures now - t <= ttl ==> TtlCache.Swept(m, now, ttl) == m
  {
    if now - t <= ttl {
      assert TtlCache.Swept(m, now, ttl).Keys == m.Keys;
    } else {
      assert TtlCache.Swept(m, now, ttl).Keys == {};
    }
  }

  /** The three lead entries and two handoff entries the scenario writes at `t0`. */
  function LeadSeed(t0: int): map<string, int> {
    map["client1:5551234567" := t0, "client1:5559876543" := t0, "client2:5551111111" := t0]
  }

  function HandoffSeed(t0: int): map<string, int> {
    map["5551234567@c.us" := t0, "5559999999@c.us" := t0]
  }

  lemma LeadSeedSize(t0: int)
    ensures |LeadSeed(t0)| == 3 && AllAt(LeadSeed(t0), t0)
  {
    var a, b, c := "client1:5551234567", "client1:5559876543", "client2:5551111111";
    assert a != b by { assert a[12] != b[12]; }
    assert a != c by { assert a[6] != c[6]; }
    assert b != c by { assert b[6] != c[6]; }
    assert LeadSeed(t0).Keys == {a} + {b} + {c};
    assert |{a} + {b}| == 2;
  }

  lemma HandoffSeedSize(t0: int)
    ensures |HandoffSeed(t0)| == 2 && AllAt(HandoffSeed(t0), t0)
  {
    var x, y := "5551234567@c.us", "5559999999@c.us";
    assert x != y by { assert x[4] != y[4]; }
    assert HandoffSeed(t0).Keys == {x} + {y};
  }

  /**
   * The scenario: three lead entries and two handoff entries written at `t0`; a sweep at `t1`
   * (before either TTL) removes nothing; a sweep at `t2` (past the lead TTL, within the handoff
   * TTL) removes the three leads and no handoff; a sweep at `t3` (past the handoff TTL) removes
   * the two handoffs and leaves both caches empty.
   */
  method TestCacheCleanup(t0: int, t1: int, t2: int, t3: int)
    returns (first: (nat, nat), second: (nat, nat), third: (nat, nat), leadsLeft: nat, handoffsLeft: nat)
    requires t0 <= t1 && t1 - t0 <= TEST_LEAD_CACHE_TTL_MS
    requires TEST_LEAD_CACHE_TTL_MS < t2 - t0 <= TEST_HUMAN_HANDOFF_TIMEOUT_MS
    requires t3 - t0 > TEST_HUMAN_HANDOFF_TIMEOUT_MS
    ensures first == (0, 0)
    ensures second == (3, 0)
    ensures third == (0, 2)
    ensures leadsLeft == 0 && handoffsLeft == 0
  {
    var c := new TestCaches();
    c.AddLead("client1:5551234567", t0);
    c.AddLead("client1:5559876543", t0);
    c.AddLead("client2:5551111111", t0);
    c.AddHandoff("5551234567@c.us", t0);
    c.AddHandoff("5559999999@c.us", t0);
    ghost var leads := LeadSeed(t0);
    ghost var handoffs := HandoffSeed(t0);
    assert c.leadSentCache == leads && c.humanHandoffState == handoffs;
    LeadSeedSize(t0);
    HandoffSeedSize(t0);

    SweptUniform(leads, t0, t1, TEST_LEAD_CACHE_TTL_MS);
    SweptUniform(handoffs, t0, t1, TEST_HUMAN_HANDOFF_TIMEOUT_MS);
    var l1, h1 := c.CleanupAllCaches(t1);
    assert c.leadSentCache == leads && c.humanHandoffState == handoffs;
    assert l1 == 0 && h1 == 0;
    first := (l1, h1);

    SweptUniform(leads, t0, t2, TEST_LEAD_CACHE_TTL_MS);
    SweptUniform(handoffs, t0, t2, TEST_HUMAN_HANDOFF_TIMEOUT_MS);
    var l2, h2 := c.CleanupAllCaches(t2);
    assert c.leadSentCache == map[] && c.humanHandoffState == handoffs;
    assert l2 == 3 && h2 == 0;
    second := (l2, h2);

    SweptUniform(handoffs, t0, t3, TEST_HUMAN_HANDOFF_TIMEOUT_MS);
    var l3, h3 := c.CleanupAllCaches(t3);
    assert c.leadSentCache == map[] && c.humanHandoffState == map[];
    assert l3 == 0 && h3 == 2;
    third := (l3, h3);

    leadsLeft := |c.leadSentCache|;
    handoffsLeft := |c.humanHandoffState|;
  }
}
