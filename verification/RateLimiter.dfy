/** The in-memory request counter and the severity it is turned into. */
module RateLimiter {
  import opened Basics
  import opened SlidingWindow

  /** Requests per minute mapped to a severity. */
  function RateScore(count: int): int {
    if count <= 100 then 0
    else if count <= 300 then 25
    else if count <= 600 then 50
    else if count <= 1000 then 75
    else 100
  }

  /** The score only rises with the count, in five grades; the last means exactly that the hard cap was passed. */
  lemma RateScoreGrades(count: int, more: int)
    requires count <= more
    ensures 0 <= RateScore(count) <= RateScore(more) <= 100
    ensures RateScore(count) == 100 <==> count > 1000
    ensures RateScore(count) > 50 <==> count > 600
    ensures RateScore(count) == 0 <==> count <= 100
    ensures RateScore(count) == 25 <==> 100 < count <= 300
    ensures RateScore(count) == 50 <==> 300 < count <= 600
    ensures RateScore(count) == 75 <==> 600 < count <= 1000
  {
  }

  class InMemoryRateLimiter {
    const window: Time
    var records: map<string, seq<Time>>
    ghost var hits: seq<Hit>

    constructor (window: Time)
      ensures this.window == window && Valid() && hits == []
    {
      this.window := window;
      records, hits := map[], [];
    }

    /** The lists are what the run so far makes of them, under a clock that did not go back. */
    ghost predicate Valid()
      reads this
    {
      Monotone(hits) && records == Touched(hits, window)
    }

    /** The answer is the number of hits of `key` in the last `window`, counted over the whole history, this one
        included. */
    method CheckAndIncrement(key: string, now: Time) returns (count: nat)
      requires Valid() && (hits != [] ==> hits[|hits| - 1].now <= now)
      modifies this
      ensures Valid() && hits == old(hits) + [Hit(key, now)]
      ensures records == Touch(old(records), key, window, now) && count == |Get(records, key)|
      ensures count == |After(TimesOf(old(hits), key), now - window)| + 1
    {
      hide After, TimesOf, Touched, Monotone;
      var timestamps := if key in records then records[key] else [];
      var kept := Purge(timestamps, now - window);
      Extend(hits, key, now, window);
      records := records[key := kept + [now]];
      hits := hits + [Hit(key, now)];
      count := |records[key]|;
    }
  }

  /** One more hit: the run stays monotone, its lists follow, and the list of the key holds the window that ends now. */
  lemma {:induction false} Extend(hits: seq<Hit>, key: string, now: Time, window: Time)
    requires Monotone(hits) && (hits != [] ==> hits[|hits| - 1].now <= now)
    ensures var touched := Touch(Touched(hits, window), key, window, now);
            && Monotone(hits + [Hit(key, now)]) && Touched(hits + [Hit(key, now)], window) == touched
            && Get(touched, key) == After(TimesOf(hits, key), now - window) + [now]
  {
    hide After, TimesOf, Monotone, Touch;
    var more := hits + [Hit(key, now)];
    MonotoneGrows(hits, Hit(key, now));
    assert more[..|more| - 1] == hits;
    HitCountIsExact(more, window);
  }

  lemma {:induction false} MonotoneGrows(hits: seq<Hit>, h: Hit)
    requires Monotone(hits) && (hits != [] ==> hits[|hits| - 1].now <= h.now)
    ensures Monotone(hits + [h])
  {
  }
}
