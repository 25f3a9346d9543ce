/** Clustering of repeated alerts by entity inside a sliding window. */
module AlertDeduplicator {
  import opened Basics
  import opened SlidingWindow
  import RateLimiter

  function CompositeKey(entityKey: string, alertType: string): string { alertType + ":" + entityKey }

  /** Alerts cluster by entity and type together, as long as types hold no colon. */
  lemma KeysApart(entity: string, alertType: string, entity2: string, alertType2: string)
    requires ':' !in alertType && ':' !in alertType2
    ensures CompositeKey(entity, alertType) == CompositeKey(entity2, alertType2)
            <==> entity == entity2 && alertType == alertType2
  {
    var k, k2 := CompositeKey(entity, alertType), CompositeKey(entity2, alertType2);
    if k == k2 {
      assert k[|alertType|] == ':' && k2[|alertType2|] == ':';
      assert alertType == k[..|alertType|] && alertType2 == k2[..|alertType2|];
      assert entity == k[|alertType| + 1..] && entity2 == k2[|alertType2| + 1..];
    }
  }

  class AlertDeduplicator {
    const window: Time
    const maxAlerts: int
    var history: map<string, seq<Time>>
    ghost var hits: seq<Hit>

    constructor (window: Time, maxAlerts: int)
      ensures this.window == window && this.maxAlerts == maxAlerts && Valid() && hits == []
    {
      this.window, this.maxAlerts := window, maxAlerts;
      history, hits := map[], [];
    }

    ghost predicate Valid()
      reads this
    {
      Monotone(hits) && history == Touched(hits, window)
    }

    /** Forward exactly while the cluster, counted over the whole history, has at most `maxAlerts` alerts in its window;
        otherwise report how many are over. */
    method ShouldAlert(entityKey: string, alertType: string, now: Time) returns (forward: bool, suppressed: int)
      requires Valid() && (hits != [] ==> hits[|hits| - 1].now <= now)
      modifies this
      ensures Valid() && hits == old(hits) + [Hit(CompositeKey(entityKey, alertType), now)]
      ensures var count := |After(TimesOf(old(hits), CompositeKey(entityKey, alertType)), now - window)| + 1;
              forward == (count <= maxAlerts) && suppressed == Max(0, count - maxAlerts)
    {
      hide After, TimesOf, Touched, Monotone;
      var key := CompositeKey(entityKey, alertType);
      var timestamps := if key in history then history[key] else [];
      var active := Purge(timestamps, now - window);
      active := active + [now];
      RateLimiter.Extend(hits, key, now, window);
      history := history[key := active];
      hits := hits + [Hit(key, now)];
      if |active| <= maxAlerts {
        return true, 0;
      }
      suppressed := |active| - maxAlerts;
      forward := false;
    }
  }

  /** How many alerts of a cluster are forwarded in the half-open window that starts at `a`. */
  function ForwardedIn(hits: seq<Hit>, window: Time, maxAlerts: int, key: string, a: Time): nat {
    if hits == [] then 0
    else
      var before, last := hits[..|hits| - 1], hits[|hits| - 1];
      ForwardedIn(before, window, maxAlerts, key, a)
      + if last.key == key && a <= last.now < a + window
        && |After(TimesOf(before, key), last.now - window)| < maxAlerts then 1 else 0
  }

  /** In every run, at most `maxAlerts` alerts of one cluster are forwarded in any half-open window. */
  lemma {:induction false} ForwardedAtMostMax(hits: seq<Hit>, window: Time, maxAlerts: int, key: string, a: Time)
    requires Monotone(hits)
    ensures ForwardedIn(hits, window, maxAlerts, key, a) == PassedIn(hits, window, maxAlerts, key, a, a + window)
    ensures ForwardedIn(hits, window, maxAlerts, key, a) <= Max(0, maxAlerts)
  {
    hide After, Touched, TimesOf, Monotone;
    if hits == [] {
    } else {
      MonotonePrefix(hits);
      ForwardedAtMostMax(hits[..|hits| - 1], window, maxAlerts, key, a);
      HitCountIsExact(hits, window);
    }
    if 0 <= maxAlerts {
      PassedAtMostLimit(hits, window, maxAlerts, key, a);
    }
  }
}
