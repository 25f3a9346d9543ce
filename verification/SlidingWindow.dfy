/** Pruned per-key lists of timestamps, against the full history they stand for. */
module SlidingWindow {
  import opened Basics

  /** The times strictly after `cutoff`, in order. */
  function After(times: seq<Time>, cutoff: Time): seq<Time> {
    if times == [] then []
    else After(times[..|times| - 1], cutoff) + if times[|times| - 1] > cutoff then [times[|times| - 1]] else []
  }

  /** The loop that purges a list. */
  method Purge(times: seq<Time>, cutoff: Time) returns (kept: seq<Time>)
    ensures kept == After(times, cutoff)
  {
    kept := [];
    for i := 0 to |times|
      invariant kept == After(times[..i], cutoff)
    {
      assert times[..i + 1][..i] == times[..i];
      if times[i] > cutoff {
        kept := kept + [times[i]];
      }
    }
    assert times[..|times|] == times;
  }

  /** What is kept is exactly what is later than the cutoff, as often as it was there. */
  lemma {:induction false} AfterExactly(times: seq<Time>, cutoff: Time, t: Time)
    ensures multiset(After(times, cutoff))[t] == if t > cutoff then multiset(times)[t] else 0
  {
    if times == [] {
    } else {
      AfterExactly(times[..|times| - 1], cutoff, t);
      assert times == times[..|times| - 1] + [times[|times| - 1]];
    }
  }

  /** And it is kept in order. */
  lemma {:induction false} AfterKeepsOrder(times: seq<Time>, cutoff: Time)
    requires forall i, j | 0 <= i < j < |times| :: times[i] <= times[j]
    ensures forall i, j | 0 <= i < j < |After(times, cutoff)| :: After(times, cutoff)[i] <= After(times, cutoff)[j]
  {
    if times == [] {
    } else {
      var before, last := times[..|times| - 1], times[|times| - 1];
      AfterKeepsOrder(before, cutoff);
      KeptAreOld(before, cutoff);
      assert forall t | t in before :: t <= last;
    }
  }

  lemma {:induction false} KeptAreOld(times: seq<Time>, cutoff: Time)
    ensures forall i | 0 <= i < |After(times, cutoff)| :: After(times, cutoff)[i] in times
  {
    if times == [] {
    } else {
      KeptAreOld(times[..|times| - 1], cutoff);
      assert times == times[..|times| - 1] + [times[|times| - 1]];
    }
  }

  lemma {:induction false} AfterConcat(a: seq<Time>, b: seq<Time>, cutoff: Time)
    ensures After(a + b, cutoff) == After(a, cutoff) + After(b, cutoff)
  {
    if b == [] {
      assert a + b == a;
    } else {
      AfterConcat(a, b[..|b| - 1], cutoff);
      assert (a + b)[..|a + b| - 1] == a + b[..|b| - 1];
    }
  }

  /** Purging early loses nothing that a later purge would keep. */
  lemma {:induction false} AfterAfter(times: seq<Time>, cutoff: Time, later: Time)
    requires cutoff <= later
    ensures After(After(times, cutoff), later) == After(times, later)
  {
    if times == [] {
    } else {
      var before, last := times[..|times| - 1], times[|times| - 1];
      AfterAfter(before, cutoff, later);
      if last > cutoff {
        AfterConcat(After(before, cutoff), [last], later);
        assert [last][..0] == [];
      } else {
        assert After(times, cutoff) == After(before, cutoff);
        assert After(times, later) == After(before, later);
      }
    }
  }

  // ---------------------------------------------------------------- keyed lists

  datatype Hit = Hit(key: string, now: Time)

  function Get(records: map<string, seq<Time>>, key: string): seq<Time> {
    if key in records then records[key] else []
  }

  /** Purge the list of `key`, then add `now`. */
  function Touch(records: map<string, seq<Time>>, key: string, window: Time, now: Time): map<string, seq<Time>> {
    records[key := After(Get(records, key), now - window) + [now]]
  }

  function Touched(hits: seq<Hit>, window: Time): map<string, seq<Time>> {
    if hits == [] then map[]
    else Touch(Touched(hits[..|hits| - 1], window), hits[|hits| - 1].key, window, hits[|hits| - 1].now)
  }

  /** Every time `key` was hit, however long ago. */
  function TimesOf(hits: seq<Hit>, key: string): seq<Time> {
    if hits == [] then []
    else TimesOf(hits[..|hits| - 1], key) + if hits[|hits| - 1].key == key then [hits[|hits| - 1].now] else []
  }

  predicate Monotone(hits: seq<Hit>) {
    forall i, j | 0 <= i < j < |hits| :: hits[i].now <= hits[j].now
  }

  lemma {:induction false} MonotonePrefix(hits: seq<Hit>)
    requires Monotone(hits) && hits != []
    ensures var before, last := hits[..|hits| - 1], hits[|hits| - 1];
            Monotone(before) && (before != [] ==> before[|before| - 1].now <= last.now)
  {
  }

  lemma NoHits(window: Time, key: string)
    ensures Get(Touched([], window), key) == [] && TimesOf([], key) == []
  {
  }

  /** What one more hit does to the purged list and to the full history of a key. */
  lemma {:induction false} HitStep(hits: seq<Hit>, window: Time, key: string)
    requires hits != []
    ensures var before, last := hits[..|hits| - 1], hits[|hits| - 1];
            && Get(Touched(hits, window), key) == (if last.key == key
                 then After(Get(Touched(before, window), key), last.now - window) + [last.now]
                 else Get(Touched(before, window), key))
            && TimesOf(hits, key) == (if last.key == key then TimesOf(before, key) + [last.now]
                 else TimesOf(before, key))
  {
  }

  /** In every run under a clock that does not go back, the purged list of a key
      shows any current or future window exactly what the full history would. */
  lemma {:induction false} WindowIsExact(hits: seq<Hit>, window: Time, key: string, cutoff: Time)
    requires Monotone(hits) && (hits != [] ==> hits[|hits| - 1].now - window <= cutoff)
    ensures After(Get(Touched(hits, window), key), cutoff) == After(TimesOf(hits, key), cutoff)
  {
    hide After, Touched, TimesOf, Monotone;
    if hits == [] {
      NoHits(window, key);
    } else {
      var before, last := hits[..|hits| - 1], hits[|hits| - 1];
      MonotonePrefix(hits);
      WindowIsExact(before, window, key, cutoff);
      HitStep(hits, window, key);
      if last.key == key {
        var kept := Get(Touched(before, window), key);
        AfterConcat(After(kept, last.now - window), [last.now], cutoff);
        AfterAfter(kept, last.now - window, cutoff);
        AfterConcat(TimesOf(before, key), [last.now], cutoff);
      }
    }
  }

  /** The list of the key just hit holds that hit and, before it, every earlier one in the window that ends with it. */
  lemma {:induction false} HitCountIsExact(hits: seq<Hit>, window: Time)
    requires Monotone(hits) && hits != []
    ensures var before, last := hits[..|hits| - 1], hits[|hits| - 1];
            Get(Touched(hits, window), last.key) == After(TimesOf(before, last.key), last.now - window) + [last.now]
  {
    hide After, Touched, TimesOf, Monotone;
    var before, last := hits[..|hits| - 1], hits[|hits| - 1];
    MonotonePrefix(hits);
    WindowIsExact(before, window, last.key, last.now - window);
    HitStep(hits, window, last.key);
  }

  // ---------------------------------------------------------------- rate bounds

  /** How many hits of `key` fall in the half-open interval from `a` to `b`. */
  function CountIn(hits: seq<Hit>, key: string, a: Time, b: Time): nat {
    if hits == [] then 0
    else
      var last := hits[|hits| - 1];
      CountIn(hits[..|hits| - 1], key, a, b) + if last.key == key && a <= last.now < b then 1 else 0
  }

  /** How many of them found at most `limit` hits of the key, themselves included, in the window that ends with them. */
  function PassedIn(hits: seq<Hit>, window: Time, limit: int, key: string, a: Time, b: Time): nat {
    if hits == [] then 0
    else
      var last := hits[|hits| - 1];
      PassedIn(hits[..|hits| - 1], window, limit, key, a, b)
      + if last.key == key && a <= last.now < b && |Get(Touched(hits, window), key)| <= limit then 1 else 0
  }

  lemma {:induction false} CountInAtMostAfter(hits: seq<Hit>, key: string, a: Time, b: Time, cutoff: Time)
    requires cutoff < a
    ensures CountIn(hits, key, a, b) <= |After(TimesOf(hits, key), cutoff)|
  {
    if hits == [] {
    } else {
      var before, last := hits[..|hits| - 1], hits[|hits| - 1];
      CountInAtMostAfter(before, key, a, b, cutoff);
      if last.key == key {
        AfterConcat(TimesOf(before, key), [last.now], cutoff);
        assert [last.now][..0] == [];
      } else {
        assert TimesOf(hits, key) == TimesOf(before, key);
      }
    }
  }

  /** In any half-open interval as long as the window, at most `limit` hits of a key are let through. */
  lemma {:induction false} PassedAtMostLimit(hits: seq<Hit>, window: Time, limit: int, key: string, a: Time)
    requires Monotone(hits) && 0 <= limit
    ensures PassedIn(hits, window, limit, key, a, a + window) <= CountIn(hits, key, a, a + window)
    ensures PassedIn(hits, window, limit, key, a, a + window) <= limit
  {
    hide After, Touched, TimesOf, Monotone;
    if hits == [] {
    } else {
      var before, last := hits[..|hits| - 1], hits[|hits| - 1];
      MonotonePrefix(hits);
      PassedAtMostLimit(before, window, limit, key, a);
      if last.key == key && a <= last.now < a + window {
        HitStep(hits, window, key);
        WindowIsExact(before, window, key, last.now - window);
        CountInAtMostAfter(before, key, a, a + window, last.now - window);
      }
    }
  }
}
