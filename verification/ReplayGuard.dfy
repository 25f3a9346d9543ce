/** Freshness and single use of state-changing requests. */
module ReplayGuard {
  import opened Basics
  import opened StateStore

  /** The timestamp header as Python's `float` reads it. */
  datatype Stamp = Absent | Unreadable | Infinite | NotANumber | At(time: Time)

  datatype Outcome = Accepted | Replay(threat: int)

  /** Nonce, or else idempotency key; empty when the request carries neither. */
  function UniqueKey(nonce: string, idempotencyKey: string): string {
    if nonce != "" then nonce else idempotencyKey
  }

  function Abs(x: int): int { if x < 0 then -x else x }

  /** Every comparison with a NaN is false, so a NaN skew passes the test. */
  predicate TooOld(stamp: Stamp, maxSkew: Time, now: Time) {
    stamp.Infinite? || (stamp.At? && Abs(now - stamp.time) > maxSkew)
  }

  function Validate(nonces: map<string, Time>, maxSkew: Time, key: string, stamp: Stamp, now: Time)
    : (map<string, Time>, Outcome)
  {
    if stamp == Unreadable then (nonces, Replay(80))
    else if TooOld(stamp, maxSkew, now) then (nonces, Replay(85))
    else if key == "" then (nonces, Accepted)
    else
      var (nonces', unique) := ClaimNonce(nonces, key, maxSkew, now);
      (nonces', if unique then Accepted else Replay(95))
  }

  /** A rejected request leaves the store as it found it; an accepted one changes at most its own key. */
  lemma RejectionChangesNothing(nonces: map<string, Time>, maxSkew: Time, key: string, stamp: Stamp, now: Time)
    ensures var (nonces', outcome) := Validate(nonces, maxSkew, key, stamp, now);
            && (outcome.Replay? ==> nonces' == nonces)
            && (forall k | k != key :: (k in nonces' <==> k in nonces) && (k in nonces ==> nonces'[k] == nonces[k]))
            && (outcome.Accepted? && key != "" ==> key in nonces' && nonces'[key] == now + maxSkew)
  {
  }

  /** Why a request is refused, and how grave that is: 80 for a timestamp that is no number, 85 for one that is
      infinite or further from the clock than the skew in either direction, 95 for a key still remembered; nothing
      else is refused. The key is the nonce, or the idempotency key if there is none. */
  lemma ThreatsInFigures(nonces: map<string, Time>, maxSkew: Time, nonce: string, other: string, stamp: Stamp,
                         now: Time)
    ensures var key := if nonce != "" then nonce else other;
            var outcome := Validate(nonces, maxSkew, UniqueKey(nonce, other), stamp, now).1;
            outcome == if stamp == Unreadable then Replay(80)
                       else if stamp == Infinite then Replay(85)
                       else if stamp.At? && (now > stamp.time + maxSkew || stamp.time > now + maxSkew) then Replay(85)
                       else if key != "" && key in nonces && now <= nonces[key] then Replay(95) else Accepted
  {
  }

  // ---------------------------------------------------------------- runs

  datatype Attempt = Attempt(key: string, stamp: Stamp, now: Time)

  predicate Monotone(run: seq<Attempt>) {
    forall i, j | 0 <= i < j < |run| :: run[i].now <= run[j].now
  }

  function Nonces(run: seq<Attempt>, maxSkew: Time): map<string, Time> {
    if run == [] then map[] else
    var last := run[|run| - 1];
    Validate(Nonces(run[..|run| - 1], maxSkew), maxSkew, last.key, last.stamp, last.now).0
  }

  /** Attempt `i` of the run is let through. */
  predicate Passes(run: seq<Attempt>, maxSkew: Time, i: int) {
    && 0 <= i < |run|
    && Validate(Nonces(run[..i], maxSkew), maxSkew, run[i].key, run[i].stamp, run[i].now).1 == Accepted
  }

  /** An accepted key is remembered for at least `maxSkew` after its acceptance. */
  lemma {:induction false} Remembered(run: seq<Attempt>, maxSkew: Time, n: nat, i: nat)
    requires Monotone(run) && i < n <= |run| && run[i].key != "" && Passes(run, maxSkew, i)
    ensures run[i].key in Nonces(run[..n], maxSkew)
    ensures Nonces(run[..n], maxSkew)[run[i].key] >= run[i].now + maxSkew
  {
    var last := run[n - 1];
    assert run[..n][..n - 1] == run[..n - 1];
    RejectionChangesNothing(Nonces(run[..n - 1], maxSkew), maxSkew, last.key, last.stamp, last.now);
    if i < n - 1 {
      Remembered(run, maxSkew, n - 1, i);
    }
  }

  /** Two acceptances of one key are more than `maxSkew` apart, whatever else the run contains. */
  lemma {:induction false} AcceptancesSpaced(run: seq<Attempt>, maxSkew: Time, i: int, j: int)
    requires Monotone(run) && i < j && Passes(run, maxSkew, i) && Passes(run, maxSkew, j)
    requires run[i].key == run[j].key != ""
    ensures run[i].now + maxSkew < run[j].now
  {
    Remembered(run, maxSkew, j, i);
  }

  /** A request with a readable, finite timestamp that was not ahead of the clock when first accepted is accepted only
      once. */
  lemma {:induction false} AcceptedOnceIfNotAhead(run: seq<Attempt>, maxSkew: Time, i: int, j: int)
    requires Monotone(run) && i < j < |run| && Passes(run, maxSkew, i)
    requires run[i].key == run[j].key != "" && run[i].stamp == run[j].stamp && run[i].stamp.At?
            && run[i].stamp.time <= run[i].now
    ensures !Passes(run, maxSkew, j)
  {
    if Passes(run, maxSkew, j) {
      AcceptancesSpaced(run, maxSkew, i, j);
    }
  }

  /** The run accepts the same key and timestamp three times. */
  predicate Thrice(run: seq<Attempt>, maxSkew: Time, key: string, stamp: Stamp, i: int, j: int, k: int) {
    && i < j < k && Passes(run, maxSkew, i) && Passes(run, maxSkew, j) && Passes(run, maxSkew, k)
    && run[i].key == run[j].key == run[k].key == key && run[i].stamp == run[j].stamp == run[k].stamp == stamp
  }

  /** Attempts at `times` that only repeat one request. */
  function Repeat(key: string, stamp: Stamp, times: seq<Time>): seq<Attempt> {
    seq(|times|, i requires 0 <= i < |times| => Attempt(key, stamp, times[i]))
  }

  /** Repeats further apart than `maxSkew`, or without a key, all pass if the timestamp test lets them. */
  lemma {:induction false} RepeatsPass(key: string, stamp: Stamp, times: seq<Time>, maxSkew: Time, i: nat)
    requires i < |times| && stamp != Unreadable
    requires forall k | 0 <= k < |times| :: !TooOld(stamp, maxSkew, times[k])
    requires key == "" || forall k | 0 < k < |times| :: times[k - 1] + maxSkew < times[k]
    ensures Passes(Repeat(key, stamp, times), maxSkew, i)
    ensures key != "" ==> var nonces := Nonces(Repeat(key, stamp, times)[..i + 1], maxSkew);
                          key in nonces && nonces[key] == times[i] + maxSkew
  {
    var run := Repeat(key, stamp, times);
    assert run[..i + 1][..i] == run[..i];
    if i == 0 {
      assert run[..0] == [];
    } else {
      RepeatsPass(key, stamp, times, maxSkew, i - 1);
    }
  }

  /** The request is one that repeats without end: no limit on its age, or no key to remember it by. */
  predicate Unlimited(key: string, stamp: Stamp, maxSkew: Time) {
    stamp.Absent? || stamp.NotANumber? || (key == "" && stamp.At? && 0 <= maxSkew)
  }

  /** `n` attempts of one request, far enough apart, or all at the time of its stamp. */
  function Patient(key: string, stamp: Stamp, maxSkew: Time, n: nat): seq<Attempt> {
    Repeat(key, stamp, seq(n, k requires 0 <= k < n => if stamp.At? then stamp.time else k * (Abs(maxSkew) + 1)))
  }

  lemma PatientPass(key: string, stamp: Stamp, maxSkew: Time, n: nat)
    requires Unlimited(key, stamp, maxSkew)
    ensures Monotone(Patient(key, stamp, maxSkew, n))
    ensures forall i | 0 <= i < n :: Passes(Patient(key, stamp, maxSkew, n), maxSkew, i)
  {
    var gap := Abs(maxSkew) + 1;
    var times := seq(n, k requires 0 <= k < n => if stamp.At? then stamp.time else k * gap);
    forall i, j | 0 <= i < j < n
      ensures times[i] <= times[j]
    {
      assert i * gap <= j * gap;
    }
    forall i: nat | i < n
      ensures Passes(Patient(key, stamp, maxSkew, n), maxSkew, i)
    {
      assert forall k | 0 < k < n :: k * gap == (k - 1) * gap + gap;
      RepeatsPass(key, stamp, times, maxSkew, i);
    }
  }

  /** A request can be accepted three times in some run exactly when its timestamp is absent or a NaN,
      or when it carries no key at all and its timestamp is readable. It can then be accepted any number of times. */
  lemma AtMostTwiceExactly(key: string, stamp: Stamp, maxSkew: Time)
    ensures (exists run, i, j, k :: Monotone(run) && Thrice(run, maxSkew, key, stamp, i, j, k))
            <==> Unlimited(key, stamp, maxSkew)
    ensures Unlimited(key, stamp, maxSkew) ==>
              forall n: nat :: && Monotone(Patient(key, stamp, maxSkew, n))
                               && forall i | 0 <= i < n :: Passes(Patient(key, stamp, maxSkew, n), maxSkew, i)
  {
    if run, i, j, k :| Monotone(run) && Thrice(run, maxSkew, key, stamp, i, j, k) {
      if key != "" {
        AcceptancesSpaced(run, maxSkew, i, j);
        AcceptancesSpaced(run, maxSkew, j, k);
      }
    }
    if Unlimited(key, stamp, maxSkew) {
      forall n: nat {
        PatientPass(key, stamp, maxSkew, n);
      }
      assert Thrice(Patient(key, stamp, maxSkew, 3), maxSkew, key, stamp, 0, 1, 2);
    }
  }

  /** The run accepts the same key and timestamp at `first` and again later. */
  predicate Again(run: seq<Attempt>, maxSkew: Time, key: string, stamp: Stamp, first: Time, i: int, j: int) {
    && i < j && Passes(run, maxSkew, i) && Passes(run, maxSkew, j) && run[i].now == first
    && run[i].key == run[j].key == key && run[i].stamp == run[j].stamp == stamp
  }

  /** A request with a key that is accepted at `first` can be accepted again in some run
      exactly when its timestamp was ahead of the clock at `first`. */
  lemma TwiceExactly(key: string, time: Time, maxSkew: Time, first: Time)
    requires key != "" && !TooOld(At(time), maxSkew, first)
    ensures (exists run, i, j :: Monotone(run) && Again(run, maxSkew, key, At(time), first, i, j)) <==> first < time
  {
    if run, i, j :| Monotone(run) && Again(run, maxSkew, key, At(time), first, i, j) {
      AcceptancesSpaced(run, maxSkew, i, j);
    }
    if first < time {
      var times := [first, first + maxSkew + 1];
      RepeatsPass(key, At(time), times, maxSkew, 0);
      RepeatsPass(key, At(time), times, maxSkew, 1);
      assert Again(Repeat(key, At(time), times), maxSkew, key, At(time), first, 0, 1);
    }
  }

  // ---------------------------------------------------------------- the guard object

  class ReplayGuard {
    const maxSkew: Time
    const store: InMemoryStateStore

    constructor (maxSkew: Time, store: InMemoryStateStore)
      ensures this.maxSkew == maxSkew && this.store == store
    {
      this.maxSkew, this.store := maxSkew, store;
    }

    method ValidateRequest(nonce: string, idempotencyKey: string, stamp: Stamp, now: Time) returns (outcome: Outcome)
      modifies store`nonces
      ensures (store.nonces, outcome)
              == Validate(old(store.nonces), maxSkew, UniqueKey(nonce, idempotencyKey), stamp, now)
    {
      match stamp {
        case Absent =>
        case NotANumber =>
        case Unreadable => return Replay(80);
        case Infinite => return Replay(85);
        case At(time) =>
          if Abs(now - time) > maxSkew {
            return Replay(85);
          }
      }
      var key := if nonce != "" then nonce else idempotencyKey;
      if key != "" {
        var unique := store.SetNonceNx(key, maxSkew, now);
        if !unique {
          return Replay(95);
        }
      }
      outcome := Accepted;
    }
  }
}
