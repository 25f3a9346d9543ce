/** The circuit breaker in front of the upstream ERP, refined against the history of what it was told. */
module CircuitBreaker {
  import opened Basics

  datatype Phase = Closed | Open | HalfOpen

  datatype Settings = Settings(failureThreshold: int, recoveryTimeout: Time, halfOpenSuccessThreshold: int)

  datatype State = State(phase: Phase, failures: nat, successes: nat, changed: Time)

  datatype Call = Allow(now: Time) | Success(now: Time) | Failure(now: Time)

  /** What a call amounted to. `Trip` is a failure that opened the breaker, `Trial` a request that half-opened it,
      `Heal` a success that closed it. */
  datatype Event = Admit(now: Time) | Refuse(now: Time) | Trial(now: Time) | Succeed(now: Time) | Heal(now: Time)
    | Fail(now: Time) | Trip(now: Time)

  function Next(cfg: Settings, s: State, c: Call): (State, Event) {
    match c
    case Allow(now) =>
      if s.phase != Open then (s, Admit(now))
      else if now - s.changed >= cfg.recoveryTimeout then (State(HalfOpen, s.failures, 0, now), Trial(now))
      else (s, Refuse(now))
    case Success(now) =>
      (match s.phase
       case HalfOpen =>
         if s.successes + 1 >= cfg.halfOpenSuccessThreshold then (State(Closed, 0, s.successes + 1, now), Heal(now))
         else (s.(successes := s.successes + 1), Succeed(now))
       case Closed => (s.(failures := 0), Succeed(now))
       case Open => (s, Succeed(now)))
    case Failure(now) =>
      var s' := s.(failures := s.failures + 1);
      if s.phase == HalfOpen || (s.phase == Closed && s'.failures >= cfg.failureThreshold) then
        (s'.(phase := Open, changed := now), Trip(now))
      else (s', Fail(now))
  }

  predicate Admitted(e: Event) { e.Admit? || e.Trial? }

  function RunState(cfg: Settings, start: Time, calls: seq<Call>): State {
    if calls == [] then State(Closed, 0, 0, start)
    else Next(cfg, RunState(cfg, start, calls[..|calls| - 1]), calls[|calls| - 1]).0
  }

  /** The history of a run. */
  function History(cfg: Settings, start: Time, calls: seq<Call>): (h: seq<Event>)
    ensures |h| == |calls|
  {
    if calls == [] then []
    else
      var before := calls[..|calls| - 1];
      History(cfg, start, before) + [Next(cfg, RunState(cfg, start, before), calls[|calls| - 1]).1]
  }

  // ---------------------------------------------------------------- what the history says

  /** Failures since the last success. */
  function TrailingFailures(h: seq<Event>): nat {
    if h == [] then 0 else
    match h[|h| - 1]
    case Fail(_) => 1 + TrailingFailures(h[..|h| - 1])
    case Trip(_) => 1 + TrailingFailures(h[..|h| - 1])
    case Succeed(_) => 0
    case Heal(_) => 0
    case _ => TrailingFailures(h[..|h| - 1])
  }

  /** The phase the history leaves the breaker in, from its last turning point. */
  function PhaseOf(h: seq<Event>): Phase {
    if h == [] then Closed else
    match h[|h| - 1]
    case Trip(_) => Open
    case Trial(_) => HalfOpen
    case Heal(_) => Closed
    case _ => PhaseOf(h[..|h| - 1])
  }

  /** Successes since the last turning point. */
  function TrialSuccesses(h: seq<Event>): nat {
    if h == [] then 0 else
    match h[|h| - 1]
    case Trip(_) => 0
    case Trial(_) => 0
    case Heal(_) => 0
    case Succeed(_) => 1 + TrialSuccesses(h[..|h| - 1])
    case _ => TrialSuccesses(h[..|h| - 1])
  }

  /** The moment of the last turning point. */
  function TurnedAt(h: seq<Event>, start: Time): Time {
    if h == [] then start else
    match h[|h| - 1]
    case Trip(now) => now
    case Trial(now) => now
    case Heal(now) => now
    case _ => TurnedAt(h[..|h| - 1], start)
  }

  /** The breaker's counters are what its history says: while closed, the failure count is the trailing run of failures
      and, unless zero, below the threshold; otherwise it has reached it; while half open, the success count is the
      successes since the trial began, and short of what is required to close. */
  lemma {:induction false} CountersRefineHistory(cfg: Settings, start: Time, calls: seq<Call>)
    ensures var s, h := RunState(cfg, start, calls), History(cfg, start, calls);
            && s.phase == PhaseOf(h) && s.changed == TurnedAt(h, start)
            && (s.phase == Closed ==>
                  s.failures == TrailingFailures(h) && (s.failures == 0 || s.failures < cfg.failureThreshold))
            && (s.phase != Closed ==> s.failures >= 1 && s.failures >= cfg.failureThreshold)
            && (s.phase == HalfOpen ==>
                  && s.successes == TrialSuccesses(h)
                  && (s.successes == 0 || s.successes < cfg.halfOpenSuccessThreshold))
  {
    if calls == [] {
    } else {
      var before := calls[..|calls| - 1];
      CountersRefineHistory(cfg, start, before);
      var h := History(cfg, start, calls);
      assert h[..|h| - 1] == History(cfg, start, before);
    }
  }

  /** When the breaker opens and closes, said of the history alone: a failure opens it exactly if it was half open,
      or closed with the failure completing a run of `failureThreshold`; a success closes it exactly if it was half open
      and completes the required successes; a request starts a trial exactly if it was open for the recovery timeout. */
  lemma {:induction false} TurnsExactly(cfg: Settings, start: Time, calls: seq<Call>, c: Call)
    ensures var h, e := History(cfg, start, calls), Next(cfg, RunState(cfg, start, calls), c).1;
            && (e.Trip? <==> c.Failure? && (PhaseOf(h) == HalfOpen
                                            || (PhaseOf(h) == Closed
                                                && TrailingFailures(h) + 1 >= cfg.failureThreshold)))
            && (e.Heal? <==>
                  && c.Success? && PhaseOf(h) == HalfOpen
                  && TrialSuccesses(h) + 1 >= cfg.halfOpenSuccessThreshold)
            && (e.Trial? <==> c.Allow? && PhaseOf(h) == Open && c.now - TurnedAt(h, start) >= cfg.recoveryTimeout)
            && (e.Refuse? <==> c.Allow? && PhaseOf(h) == Open && c.now - TurnedAt(h, start) < cfg.recoveryTimeout)
  {
    CountersRefineHistory(cfg, start, calls);
  }

  predicate Monotone(calls: seq<Call>) {
    forall i, j | 0 <= i < j < |calls| :: calls[i].now <= calls[j].now
  }

  lemma {:induction false} HistoryAt(cfg: Settings, start: Time, calls: seq<Call>, n: nat)
    requires n <= |calls|
    ensures History(cfg, start, calls)[..n] == History(cfg, start, calls[..n])
    ensures n < |calls| ==> History(cfg, start, calls)[n] == Next(cfg, RunState(cfg, start, calls[..n]), calls[n]).1
  {
    if n < |calls| {
      HistoryAt(cfg, start, calls[..|calls| - 1], n);
      assert calls[..|calls| - 1][..n] == calls[..n];
      if n == |calls| - 1 {
        assert calls[..n] == calls[..|calls| - 1];
      }
    } else {
      assert calls[..n] == calls;
    }
  }

  /** After a trip, the breaker stays open with the trip's clock, or has been through a trial after the timeout. */
  lemma {:induction false} OpenSinceTrip(cfg: Settings, start: Time, calls: seq<Call>, i: nat)
    requires Monotone(calls) && i < |calls| && History(cfg, start, calls)[i].Trip?
    ensures var s := RunState(cfg, start, calls);
            || (s.phase == Open && calls[i].now <= s.changed)
            || (s.phase != Open && s.changed <= calls[|calls| - 1].now
                 && calls[|calls| - 1].now - calls[i].now >= cfg.recoveryTimeout)
  {
    var n := |calls| - 1;
    HistoryAt(cfg, start, calls, n);
    if i < n {
      assert History(cfg, start, calls[..n])[i] == History(cfg, start, calls)[i];
      OpenSinceTrip(cfg, start, calls[..n], i);
    }
  }

  /** In every run under a clock that does not go back, no request is admitted
      less than the recovery timeout after a trip. */
  lemma {:induction false} NoAdmissionWithinTimeout(cfg: Settings, start: Time, calls: seq<Call>, i: nat, j: nat)
    requires Monotone(calls) && i < j < |calls|
    requires History(cfg, start, calls)[i].Trip? && Admitted(History(cfg, start, calls)[j])
    ensures calls[j].now - calls[i].now >= cfg.recoveryTimeout
  {
    HistoryAt(cfg, start, calls, j);
    assert History(cfg, start, calls[..j])[i] == History(cfg, start, calls)[i];
    OpenSinceTrip(cfg, start, calls[..j], i);
  }

  /** While half open the breaker admits every request, however many come before the first answer. */
  lemma {:induction false} HalfOpenAdmitsAll(cfg: Settings, start: Time, calls: seq<Call>, more: seq<Call>)
    requires RunState(cfg, start, calls).phase == HalfOpen && forall i | 0 <= i < |more| :: more[i].Allow?
    ensures RunState(cfg, start, calls + more) == RunState(cfg, start, calls)
    ensures forall i | |calls| <= i < |calls + more| :: History(cfg, start, calls + more)[i].Admit?
  {
    if more == [] {
      assert calls + more == calls;
    } else {
      var before := more[..|more| - 1];
      HalfOpenAdmitsAll(cfg, start, calls, before);
      assert (calls + more)[..|calls + more| - 1] == calls + before;
    }
  }

  /** From a fresh breaker that opens at its first failure: one trial request and any number of others reach the
      upstream at the moment the recovery timeout has passed. */
  lemma HalfOpenFloods(timeout: Time, needed: int, n: nat)
    ensures var cfg := Settings(1, timeout, needed);
            var calls := [Failure(0), Allow(timeout)] + seq(n, _ => Allow(timeout));
            forall i | 1 <= i < |calls| :: Admitted(History(cfg, 0, calls)[i])
  {
    var cfg, first, more := Settings(1, timeout, needed), [Failure(0), Allow(timeout)], seq(n, _ => Allow(timeout));
    assert first[..1] == [Failure(0)] && first[..1][..0] == [];
    assert RunState(cfg, 0, first[..1]).phase == Open && RunState(cfg, 0, first).phase == HalfOpen;
    HalfOpenAdmitsAll(cfg, 0, first, more);
    HistoryAt(cfg, 0, first + more, 1);
    assert (first + more)[..1] == first[..1];
  }

  // ---------------------------------------------------------------- the breaker object

  class CircuitBreaker {
    const settings: Settings
    var phase: Phase
    var failureCount: nat
    var successCount: nat
    var lastStateChange: Time

    constructor (settings: Settings, now: Time)
      ensures this.settings == settings && View() == State(Closed, 0, 0, now)
    {
      this.settings := settings;
      phase, failureCount, successCount, lastStateChange := Closed, 0, 0, now;
    }

    function View(): State
      reads this
    {
      State(phase, failureCount, successCount, lastStateChange)
    }

    method AllowRequest(now: Time) returns (allowed: bool)
      modifies this
      ensures View() == Next(settings, old(View()), Allow(now)).0
      ensures allowed == Admitted(Next(settings, old(View()), Allow(now)).1)
    {
      if phase == Open {
        if now - lastStateChange >= settings.recoveryTimeout {
          phase, lastStateChange, successCount := HalfOpen, now, 0;
          return true;
        }
        return false;
      }
      allowed := true;
    }

    method RecordSuccess(now: Time)
      modifies this
      ensures View() == Next(settings, old(View()), Success(now)).0
    {
      if phase == HalfOpen {
        successCount := successCount + 1;
        if successCount >= settings.halfOpenSuccessThreshold {
          phase, failureCount, lastStateChange := Closed, 0, now;
        }
      } else if phase == Closed {
        failureCount := 0;
      }
    }

    method RecordFailure(now: Time)
      modifies this
      ensures View() == Next(settings, old(View()), Failure(now)).0
    {
      failureCount := failureCount + 1;
      if phase == HalfOpen {
        phase, lastStateChange := Open, now;
      } else if phase == Closed {
        if failureCount >= settings.failureThreshold {
          phase, lastStateChange := Open, now;
        }
      }
    }
  }
}
