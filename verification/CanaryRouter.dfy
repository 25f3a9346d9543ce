/** Canary rollout: weights and stages, sticky routing, and automatic rollback on a service-level breach. */
module CanaryRouter {
  import opened Basics
  import opened TrafficMetrics
  import Text
  import Risk = RiskEngine

  datatype Stage = Disabled | Canary1 | Canary10 | Canary50 | FullRollout | RolledBack

  /** A route budget; a missing key is `None`. Latencies are in hundredths of a millisecond. */
  datatype Budget = Budget(maxP95: Option<int>, maxErrorRate: Option<real>)

  /** `routeSlos` keeps the order of the source's dictionary. */
  datatype Settings = Settings(
    maxErrorRate: real, maxP95: int, minEvalSamples: int, autoRollback: bool, routeSlos: seq<(string, Budget)>)

  datatype State = State(stage: Stage, weight: real, stable: Metrics, canary: Metrics, routes: map<string, Metrics>)

  const WINDOW: nat := 500

  function StageWeight(stage: Stage): real {
    match stage
    case Canary1 => 0.01
    case Canary10 => 0.10
    case Canary50 => 0.50
    case FullRollout => 1.00
    case _ => 0.0
  }

  // ---------------------------------------------------------------- budgets and route keys

  predicate Prefixes(entry: (string, Budget), path: string) { StartsWith(entry.0, "/") && StartsWith(path, entry.0) }

  /** The budget of the first route prefix from entry `i` on that the path extends. */
  function PrefixBudget(slos: seq<(string, Budget)>, i: nat, path: string): Option<Budget>
    decreases |slos| - i
  {
    if i >= |slos| then None else if Prefixes(slos[i], path) then Some(slos[i].1) else PrefixBudget(slos, i + 1, path)
  }

  /** The entry under a name, empty when there is none. */
  function NamedBudget(slos: seq<(string, Budget)>, name: string): Budget {
    if slos == [] then Budget(None, None) else if slos[0].0 == name then slos[0].1 else NamedBudget(slos[1..], name)
  }

  function OrElse<T>(o: Option<T>, default: T): T { if o.Some? then o.value else default }

  /** The latency and error limits of a request. An empty path is an absent one. */
  function RouteBudget(cfg: Settings, path: string, verb: string): (int, real) {
    var prefixed := if path == "" then None else PrefixBudget(cfg.routeSlos, 0, path);
    if prefixed.Some? then
      (OrElse(prefixed.value.maxP95, cfg.maxP95), OrElse(prefixed.value.maxErrorRate, cfg.maxErrorRate))
    else if verb == "POST" || verb == "PUT" || verb == "PATCH" || verb == "DELETE" then
      var b := NamedBudget(cfg.routeSlos, "mutation_default");
      (OrElse(b.maxP95, 25000), OrElse(b.maxErrorRate, 0.01))
    else
      var b := NamedBudget(cfg.routeSlos, "read_default");
      (OrElse(b.maxP95, cfg.maxP95), OrElse(b.maxErrorRate, cfg.maxErrorRate))
  }

  function RouteKey(path: string, verb: string): string {
    var prefix := Text.TrimRight(Text.Before(path, '?'), '/');
    var parts := Text.Split(prefix, '/');
    if |parts| > 3 && parts[2] == "orders" then verb + " /api/orders"
    else if |parts| > 3 && parts[2] == "users" then verb + " /api/users"
    else verb + " " + prefix
  }

  // ---------------------------------------------------------------- the service-level check

  /** Too much data to ignore, and over a limit. */
  predicate Breaches(m: Metrics, minSamples: int, maxErrorRate: real, maxP95: int) {
    var stats := StatsOf(m);
    stats.samples >= minSamples && (stats.errorRate > maxErrorRate || stats.p95 > maxP95)
  }

  /** The same by counting: the rounded error rate is over its limit, or at most 95% of the window met the latency
      limit. */
  predicate OverBudget(m: Metrics, minSamples: int, maxErrorRate: real, maxP95: int) {
    && |m.window| >= minSamples && m.window != []
    && (ErrorRate(m) > maxErrorRate || CountLe(m.window, maxP95) <= 95 * (|m.window| - 1) / 100)
  }

  lemma BreachByCounting(m: Metrics, minSamples: int, maxErrorRate: real, maxP95: int)
    requires m.window != []
    ensures Breaches(m, minSamples, maxErrorRate, maxP95) <==> OverBudget(m, minSamples, maxErrorRate, maxP95)
  {
    PercentileExceeds(m.window, 95, maxP95);
  }

  /** Whether `_evaluate_canary_slo` decides to roll back. */
  function ShouldRollBack(cfg: Settings, st: State, path: string, verb: string): bool {
    var (p95, err) := if path != "" then RouteBudget(cfg, path, verb) else (cfg.maxP95, cfg.maxErrorRate);
    var key := RouteKey(path, verb);
    || (path != "" && key in st.routes && Breaches(st.routes[key], Min(cfg.minEvalSamples, 15), err, p95))
    || (if path != "" then Breaches(st.canary, cfg.minEvalSamples, MaxR(cfg.maxErrorRate, err), Max(cfg.maxP95, p95))
        else Breaches(st.canary, cfg.minEvalSamples, cfg.maxErrorRate, cfg.maxP95))
  }

  function RollBack(st: State): State { st.(stage := RolledBack, weight := 0.0) }

  function RouteAfter(routes: map<string, Metrics>, key: string, latency: int, isError: bool): Metrics {
    Observe(if key in routes then routes[key] else NO_METRICS, WINDOW, latency, isError)
  }

  /** The metrics after one more request. */
  function Recorded(st: State, isCanary: bool, latency: int, status: int, path: string, verb: string): State {
    if !isCanary then st.(stable := Observe(st.stable, WINDOW, latency, status >= 500))
    else
      var canary := Observe(st.canary, WINDOW, latency, status >= 500);
      if path == "" then st.(canary := canary)
      else
        var key := RouteKey(path, verb);
        st.(canary := canary, routes := st.routes[key := RouteAfter(st.routes, key, latency, status >= 500)])
  }

  function RecordMetric(cfg: Settings, st: State, isCanary: bool, latency: int, status: int, path: string,
                        verb: string): State {
    var st1 := Recorded(st, isCanary, latency, status, path, verb);
    if isCanary && cfg.autoRollback && ShouldRollBack(cfg, st1, path, verb) then RollBack(st1) else st1
  }

  /** After a canary request with automatic rollback on, the canary is rolled back if and only if its metrics, or
      those of the request's route, are over budget by count; otherwise stage and weight are untouched. */
  lemma RollsBackExactly(cfg: Settings, st: State, latency: int, status: int, path: string, verb: string)
    requires cfg.autoRollback
    ensures var st' := RecordMetric(cfg, st, true, latency, status, path, verb);
            var (p95, err) := if path != "" then RouteBudget(cfg, path, verb) else (cfg.maxP95, cfg.maxErrorRate);
            var over := || OverBudget(st'.canary, cfg.minEvalSamples, MaxR(cfg.maxErrorRate, err), Max(cfg.maxP95, p95))
                        || (path != "" && RouteKey(path, verb) in st'.routes
                            && OverBudget(st'.routes[RouteKey(path, verb)], Min(cfg.minEvalSamples, 15), err, p95));
            (st'.stage, st'.weight) == if over then (RolledBack, 0.0) else (st.stage, st.weight)
  {
    hide RouteBudget, RouteKey, Breaches, OverBudget, CountLe, ErrorRate, StatsOf;
    var (p95, err) := if path != "" then RouteBudget(cfg, path, verb) else (cfg.maxP95, cfg.maxErrorRate);
    var st1 := Recorded(st, true, latency, status, path, verb);
    BreachByCounting(st1.canary, cfg.minEvalSamples, MaxR(cfg.maxErrorRate, err), Max(cfg.maxP95, p95));
    if path != "" {
      BreachByCounting(st1.routes[RouteKey(path, verb)], Min(cfg.minEvalSamples, 15), err, p95);
    }
  }

  // ---------------------------------------------------------------- stages and weights

  datatype Step =
    | SetWeight(w: real)
    | Promote(stage: Stage)
    | Rollback
    | RecordStep(isCanary: bool, latency: int, status: int, path: string, verb: string)

  function Weigh(st: State, w: real): State {
    var clamped := if w < 0.0 then 0.0 else if w > 1.0 then 1.0 else w;
    st.(weight := clamped,
        stage := if clamped == 0.0 then Disabled
                 else if clamped <= 0.01 then Canary1
                 else if clamped <= 0.10 then Canary10
                 else if clamped <= 0.50 then Canary50
                 else FullRollout)
  }

  function StepState(cfg: Settings, st: State, s: Step): State {
    match s
    case SetWeight(w) => Weigh(st, w)
    case Promote(stage) => st.(stage := stage, weight := StageWeight(stage), canary := NO_METRICS, routes := map[])
    case Rollback => RollBack(st)
    case RecordStep(isCanary, latency, status, path, verb) =>
      RecordMetric(cfg, st, isCanary, latency, status, path, verb)
  }

  function Run(cfg: Settings, initial: Stage, steps: seq<Step>): State {
    if steps == [] then State(initial, StageWeight(initial), NO_METRICS, NO_METRICS, map[])
    else StepState(cfg, Run(cfg, initial, steps[..|steps| - 1]), steps[|steps| - 1])
  }

  /** The weight lies in the band its stage names. */
  predicate InBand(st: State) {
    match st.stage
    case Canary1 => 0.0 < st.weight <= 0.01
    case Canary10 => 0.01 < st.weight <= 0.10
    case Canary50 => 0.10 < st.weight <= 0.50
    case FullRollout => 0.50 < st.weight <= 1.0
    case _ => st.weight == 0.0
  }

  /** In every run the weight stays in the band of its stage; in particular it is zero exactly when the canary
      is disabled or rolled back. */
  lemma {:induction false} WeightMatchesStage(cfg: Settings, initial: Stage, steps: seq<Step>)
    ensures var st := Run(cfg, initial, steps);
            InBand(st) && (st.weight == 0.0 <==> st.stage == Disabled || st.stage == RolledBack)
  {
    hide Recorded, ShouldRollBack;
    if steps == [] {
    } else {
      WeightMatchesStage(cfg, initial, steps[..|steps| - 1]);
      var last := steps[|steps| - 1];
      if last.RecordStep? {
        RecordedKeepsWeight(Run(cfg, initial, steps[..|steps| - 1]), last.isCanary, last.latency, last.status,
                            last.path, last.verb);
      }
    }
  }

  lemma RecordedKeepsWeight(st: State, isCanary: bool, latency: int, status: int, path: string, verb: string)
    ensures var st' := Recorded(st, isCanary, latency, status, path, verb);
            st'.stage == st.stage && st'.weight == st.weight
  {
  }

  // ---------------------------------------------------------------- what the metrics of a run count

  /** The canary requests since the last promotion. */
  function CanarySamples(steps: seq<Step>): seq<Sample> {
    if steps == [] then []
    else
      var before, last := CanarySamples(steps[..|steps| - 1]), steps[|steps| - 1];
      if last.Promote? then []
      else before + if last.RecordStep? && last.isCanary then [Sample(last.latency, last.status >= 500)] else []
  }

  /** Those of them that went to one route. */
  function RouteSamples(steps: seq<Step>, key: string): seq<Sample> {
    if steps == [] then []
    else
      var before, last := RouteSamples(steps[..|steps| - 1], key), steps[|steps| - 1];
      if last.Promote? then []
      else
        before + if last.RecordStep? && last.isCanary && last.path != "" && RouteKey(last.path, last.verb) == key
                 then [Sample(last.latency, last.status >= 500)] else []
  }

  /** All requests to the stable deployment. */
  function StableSamples(steps: seq<Step>): seq<Sample> {
    if steps == [] then []
    else
      var last := steps[|steps| - 1];
      StableSamples(steps[..|steps| - 1])
      + if last.RecordStep? && !last.isCanary then [Sample(last.latency, last.status >= 500)] else []
  }

  /** In every run the recorders count exactly these requests: the last 500 latencies, every request, every status of
      500 or more; a route has a recorder exactly if it had a request. */
  lemma {:induction false} MetricsAreExact(cfg: Settings, initial: Stage, steps: seq<Step>, key: string)
    ensures var st := Run(cfg, initial, steps);
            && st.canary == MetricsOf(CanarySamples(steps), 500) && st.stable == MetricsOf(StableSamples(steps), 500)
            && (key in st.routes <==> RouteSamples(steps, key) != [])
            && (key in st.routes ==> st.routes[key] == MetricsOf(RouteSamples(steps, key), 500))
  {
    hide RouteKey, Observe, MetricsOf, RecordMetric;
    EmptyMetrics();
    if steps == [] {
    } else {
      var before, last := steps[..|steps| - 1], steps[|steps| - 1];
      MetricsAreExact(cfg, initial, before, key);
      assert CanarySamples(before) + [] == CanarySamples(before) && StableSamples(before) + [] == StableSamples(before);
      assert RouteSamples(before, key) + [] == RouteSamples(before, key);
      if last.RecordStep? {
        RecordIsExact(cfg, Run(cfg, initial, before), last, CanarySamples(before), StableSamples(before),
                      RouteSamples(before, key), key);
      }
    }
  }

  lemma {:induction false} RecordIsExact(cfg: Settings, st: State, s: Step, canary: seq<Sample>, stable: seq<Sample>,
                                         route: seq<Sample>, key: string)
    requires s.RecordStep? && st.canary == MetricsOf(canary, 500) && st.stable == MetricsOf(stable, 500)
    requires (key in st.routes <==> route != []) && (key in st.routes ==> st.routes[key] == MetricsOf(route, 500))
    ensures var st' := StepState(cfg, st, s);
            var more := [Sample(s.latency, s.status >= 500)];
            var onRoute := s.isCanary && s.path != "" && RouteKey(s.path, s.verb) == key;
            && st'.canary == MetricsOf(if s.isCanary then canary + more else canary, 500)
            && st'.stable == MetricsOf(if s.isCanary then stable else stable + more, 500)
            && (key in st'.routes <==> route != [] || onRoute)
            && (key in st'.routes ==> st'.routes[key] == MetricsOf(if onRoute then route + more else route, 500))
  {
    hide RouteKey, Observe, MetricsOf, ShouldRollBack;
    EmptyMetrics();
    ObserveIsExact(canary, 500, s.latency, s.status >= 500);
    ObserveIsExact(stable, 500, s.latency, s.status >= 500);
    ObserveIsExact(route, 500, s.latency, s.status >= 500);
  }

  lemma EmptyMetrics()
    ensures MetricsOf([], 500) == NO_METRICS
  {
  }

  /** Some requests are enough to judge by, and over a limit: their rounded share of errors, or by the last 500
      latencies, of which at most 95% respect it. */
  predicate OverByCount(history: seq<Sample>, minSamples: int, maxErrorRate: real, maxP95: int) {
    var w := LastN(Latencies(history), 500);
    && history != [] && |w| >= minSamples
    && (|| Risk.RoundEven(Errors(history) as real / |history| as real * 10000.0) as real / 10000.0 > maxErrorRate
        || CountLe(w, maxP95) <= 95 * (|w| - 1) / 100)
  }

  lemma {:induction false} BudgetByCount(history: seq<Sample>, minSamples: int, maxErrorRate: real, maxP95: int)
    requires history != []
    ensures OverBudget(MetricsOf(history, 500), minSamples, maxErrorRate, maxP95)
            <==> OverByCount(history, minSamples, maxErrorRate, maxP95)
  {
  }

  /** In every run, with automatic rollback on, a canary request rolls the canary back if and only if the requests
      counted since the last promotion, all or those to its route, are over budget; else stage and weight stay as they
      were. */
  lemma {:induction false} RunRollsBackExactly(cfg: Settings, initial: Stage, steps: seq<Step>)
    requires cfg.autoRollback && steps != [] && steps[|steps| - 1].RecordStep? && steps[|steps| - 1].isCanary
    ensures var last := steps[|steps| - 1];
            var before, after := Run(cfg, initial, steps[..|steps| - 1]), Run(cfg, initial, steps);
            var named := last.path != "";
            var (p95, err) := if named then RouteBudget(cfg, last.path, last.verb) else (cfg.maxP95, cfg.maxErrorRate);
            var over := || OverByCount(CanarySamples(steps), cfg.minEvalSamples, MaxR(cfg.maxErrorRate, err),
                Max(cfg.maxP95, p95))
                        || (named && OverByCount(RouteSamples(steps, RouteKey(last.path, last.verb)),
                                                 Min(cfg.minEvalSamples, 15), err, p95));
            (after.stage, after.weight) == if over then (RolledBack, 0.0) else (before.stage, before.weight)
  {
    hide RouteBudget, RouteKey, OverBudget, OverByCount, MetricsOf, RecordMetric;
    var last := steps[|steps| - 1];
    var (p95, err) := if last.path != "" then RouteBudget(cfg, last.path, last.verb)
        else (cfg.maxP95, cfg.maxErrorRate);
    MetricsAreExact(cfg, initial, steps, RouteKey(last.path, last.verb));
    RollsBackExactly(cfg, Run(cfg, initial, steps[..|steps| - 1]), last.latency, last.status, last.path, last.verb);
    BudgetByCount(CanarySamples(steps), cfg.minEvalSamples, MaxR(cfg.maxErrorRate, err), Max(cfg.maxP95, p95));
    if last.path != "" {
      BudgetByCount(RouteSamples(steps, RouteKey(last.path, last.verb)), Min(cfg.minEvalSamples, 15), err, p95);
    }
  }

  // ---------------------------------------------------------------- weights and budgets in figures

  /** A weight between 0 and 1 is taken as it is, others at the nearer end; a promotion sets the weight of its stage,
      clears the canary's metrics and leaves those of the stable deployment. */
  lemma WeightsInFigures(cfg: Settings, st: State, w: real, stage: Stage)
    ensures var st' := StepState(cfg, st, SetWeight(w));
            && (0.0 <= w <= 1.0 ==> st'.weight == w) && (w < 0.0 ==> st'.weight == 0.0)
            && (w > 1.0 ==> st'.weight == 1.0)
            && (st'.stage == Disabled <==> w <= 0.0) && (st'.stage == Canary1 <==> 0.0 < w <= 0.01)
            && (st'.stage == Canary10 <==> 0.01 < w <= 0.1) && (st'.stage == Canary50 <==> 0.1 < w <= 0.5)
            && (st'.stage == FullRollout <==> 0.5 < w)
            && st'.canary == st.canary && st'.routes == st.routes && st'.stable == st.stable
    ensures var st' := StepState(cfg, st, Promote(stage));
            && st'.stage == stage && st'.canary == Metrics([], 0, 0) && st'.routes == map[] && st'.stable == st.stable
            && st'.weight == (if stage == Canary1 then 0.01 else if stage == Canary10 then 0.1
                              else if stage == Canary50 then 0.5 else if stage == FullRollout then 1.0 else 0.0)
    ensures StepState(cfg, st, Rollback) == st.(stage := RolledBack, weight := 0.0)
  {
  }

  /** The route budgets the router starts with. */
  const DEFAULT_ROUTE_SLOS: seq<(string, Budget)> :=
    [("read_default", Budget(Some(5000), Some(0.02))), ("mutation_default", Budget(Some(25000), Some(0.01))),
     ("/api/orders", Budget(Some(25000), Some(0.01))), ("/api/inventory/replenish", Budget(Some(25000), Some(0.01))),
     ("/api/inventory", Budget(Some(5000), Some(0.02))), ("/api/users", Budget(Some(5000), Some(0.02)))]

  /** The first entry that is a path and begins the request's path decides. */
  lemma {:induction false} FirstPrefixDecides(slos: seq<(string, Budget)>, i: nat, n: nat, path: string)
    requires i <= n < |slos| && StartsWith(slos[n].0, "/") && StartsWith(path, slos[n].0)
    requires forall k | i <= k < n :: !(StartsWith(slos[k].0, "/") && StartsWith(path, slos[k].0))
    ensures PrefixBudget(slos, i, path) == Some(slos[n].1)
    decreases n - i
  {
    if i == n {
    } else {
      FirstPrefixDecides(slos, i + 1, n, path);
    }
  }

  lemma {:induction false} NoPrefixDecides(slos: seq<(string, Budget)>, i: nat, path: string)
    requires forall k | i <= k < |slos| :: !(StartsWith(slos[k].0, "/") && StartsWith(path, slos[k].0))
    ensures PrefixBudget(slos, i, path) == None
    decreases |slos| - i
  {
    if i >= |slos| {
    } else {
      NoPrefixDecides(slos, i + 1, path);
    }
  }

  /** Budgets with any configuration: the first path entry, its gaps filled by the router's limits; without one the
      default for the method, 250 ms and one per cent for changes, the router's limits for reads. */
  lemma {:induction false} BudgetsTell(cfg: Settings, path: string, verb: string, n: nat)
    ensures path != "" && n < |cfg.routeSlos| && StartsWith(cfg.routeSlos[n].0, "/")
            && StartsWith(path, cfg.routeSlos[n].0)
            && (forall k | 0 <= k < n ::
                 !(StartsWith(cfg.routeSlos[k].0, "/") && StartsWith(path, cfg.routeSlos[k].0))) ==>
              var b := cfg.routeSlos[n].1;
              RouteBudget(cfg, path, verb) == (if b.maxP95.Some? then b.maxP95.value else cfg.maxP95,
                                               if b.maxErrorRate.Some? then b.maxErrorRate.value else cfg.maxErrorRate)
    ensures path == "" || (forall k | 0 <= k < |cfg.routeSlos| ::
                             !(StartsWith(cfg.routeSlos[k].0, "/") && StartsWith(path, cfg.routeSlos[k].0))) ==>
              var mutates := verb in {"POST", "PUT", "PATCH", "DELETE"};
              var b := NamedBudget(cfg.routeSlos, if mutates then "mutation_default" else "read_default");
              RouteBudget(cfg, path, verb)
              == (if b.maxP95.Some? then b.maxP95.value else if mutates then 25000 else cfg.maxP95,
                  if b.maxErrorRate.Some? then b.maxErrorRate.value else if mutates then 0.01 else cfg.maxErrorRate)
  {
    if path != "" && n < |cfg.routeSlos| && StartsWith(cfg.routeSlos[n].0, "/") && StartsWith(path, cfg.routeSlos[n].0)
       && (forall k | 0 <= k < n :: !(StartsWith(cfg.routeSlos[k].0, "/") && StartsWith(path, cfg.routeSlos[k].0))) {
      FirstPrefixDecides(cfg.routeSlos, 0, n, path);
    }
    if forall k | 0 <= k < |cfg.routeSlos| ::
        !(StartsWith(cfg.routeSlos[k].0, "/") && StartsWith(path, cfg.routeSlos[k].0)) {
      NoPrefixDecides(cfg.routeSlos, 0, path);
    }
  }

  /** The budgets a router without configuration gives. */
  lemma DefaultBudgets(cfg: Settings, path: string, verb: string)
    requires cfg.routeSlos == DEFAULT_ROUTE_SLOS && cfg.maxP95 == 5000 && cfg.maxErrorRate == 0.02
    ensures RouteBudget(cfg, path, verb)
            == if StartsWith(path, "/api/orders") || StartsWith(path, "/api/inventory/replenish") then (25000, 0.01)
               else if StartsWith(path, "/api/inventory") || StartsWith(path, "/api/users") then (5000, 0.02)
               else if verb in {"POST", "PUT", "PATCH", "DELETE"} then (25000, 0.01)
               else (5000, 0.02)
  {
    var slos := cfg.routeSlos;
    assert slos[0].0[0] == 'r' && slos[1].0[0] == 'm';
    assert forall k | 2 <= k < 6 :: StartsWith(slos[k].0, "/");
    if StartsWith(path, "/api/orders") {
      FirstPrefixDecides(slos, 0, 2, path);
    } else if StartsWith(path, "/api/inventory/replenish") {
      assert path[5] == 'i';
      FirstPrefixDecides(slos, 0, 3, path);
    } else if StartsWith(path, "/api/inventory") {
      FirstPrefixDecides(slos, 0, 4, path);
    } else if StartsWith(path, "/api/users") {
      FirstPrefixDecides(slos, 0, 5, path);
    } else {
      NoPrefixDecides(slos, 0, path);
      assert "read_default" != "mutation_default" by { assert "read_default"[0] != "mutation_default"[0]; }
    }
  }

  /** Requests to the pieces of an order or a user count as one route. */
  lemma PiecesShareKey(a: string, x: string, verb: string)
    requires '/' !in a && '?' !in a + x && x != "" && x[|x| - 1] != '/'
    ensures RouteKey("/" + a + "/" + "orders" + "/" + x, verb) == verb + " /api/orders"
    ensures RouteKey("/" + a + "/" + "users" + "/" + x, verb) == verb + " /api/users"
  {
    assert "users"[0] != "orders"[0];
    hide RouteKey;
    PieceKey(a, "orders", x, verb);
    PieceKey(a, "users", x, verb);
  }

  /** A query and a final slash do not matter to the route. */
  lemma RouteKeyIgnores(p: string, q: string, verb: string)
    requires '?' !in p
    ensures RouteKey(p + ['?'] + q, verb) == RouteKey(p, verb) && RouteKey(p + ['/'], verb) == RouteKey(p, verb)
  {
    hide Text.Split;
    Text.BeforeAll(p, '?');
    Text.BeforeAll(p + ['/'], '?');
    Text.TrimRightMore(p, '/');
  }

  /** Any other path is its own route. */
  lemma PathIsKey(p: string, verb: string)
    requires '?' !in p && (p == "" || p[|p| - 1] != '/')
    requires |Text.Split(p, '/')| > 3 ==> Text.Split(p, '/')[2] != "orders" && Text.Split(p, '/')[2] != "users"
    ensures RouteKey(p, verb) == verb + " " + p
  {
    hide Text.Split;
    Text.BeforeAll(p, '?');
  }

  lemma PieceKey(a: string, kind: string, x: string, verb: string)
    requires '/' !in a && '/' !in kind && '?' !in a + kind + x && x != "" && x[|x| - 1] != '/'
    ensures var path := "/" + a + "/" + kind + "/" + x;
            RouteKey(path, verb) == if kind == "orders" then verb + " /api/orders"
                                    else if kind == "users" then verb + " /api/users" else verb + " " + path
  {
    var path := "/" + a + "/" + kind + "/" + x;
    PieceParts(a, kind, x);
    hide Text.Split;
    Text.BeforeAll(path, '?');
    assert path[|path| - 1] == x[|x| - 1];
  }

  lemma PieceParts(a: string, kind: string, x: string)
    requires '/' !in a && '/' !in kind
    ensures var parts := Text.Split("/" + a + "/" + kind + "/" + x, '/'); |parts| > 3 && parts[2] == kind
  {
    hide Text.Split;
    var rest := kind + ['/'] + x;
    assert "/" + a + "/" + kind + "/" + x == "" + ['/'] + (a + ['/'] + rest);
    Text.SplitCut("", a + ['/'] + rest, '/');
    Text.SplitCut(a, rest, '/');
    Text.SplitCut(kind, x, '/');
  }

  /** A named entry is the first under its name. */
  lemma {:induction false} NamedBudgetTells(slos: seq<(string, Budget)>, name: string, n: nat)
    ensures n < |slos| && slos[n].0 == name && (forall k | 0 <= k < n :: slos[k].0 != name) ==>
              NamedBudget(slos, name) == slos[n].1
    ensures (forall k | 0 <= k < |slos| :: slos[k].0 != name) ==> NamedBudget(slos, name) == Budget(None, None)
  {
    if slos == [] {
    } else {
      assert forall k | 0 <= k < |slos| - 1 :: slos[1..][k] == slos[k + 1];
      NamedBudgetTells(slos[1..], name, if n == 0 then 0 else n - 1);
    }
  }

  // ---------------------------------------------------------------- routing

  /** `header` is the lower-cased override header, `bucket` the identifier's hash bucket, `draw` the random number. */
  function RoutesToCanary(weight: real, userId: string, clientIp: string, header: string, bucket: string -> nat,
                          draw: real): bool {
    if header == "canary" then true
    else if header == "stable" then false
    else if weight <= 0.0 then false
    else if weight >= 1.0 then true
    else
      var identifier := if userId != "" then userId else clientIp;
      if identifier != "" then (bucket(identifier) % 10000) as real / 10000.0 < weight else draw < weight
  }

  /** Who is routed to the canary: whom the header sends there; otherwise nobody at weight 0 and everybody at weight 1
      but whom the header keeps away; in between the share `weight` of the ten thousand buckets, by user before
      address, and the same share of the draws for requests that carry neither. */
  lemma RoutesExactly(weight: real, userId: string, clientIp: string, header: string, bucket: string -> nat, draw: real)
    ensures RoutesToCanary(weight, userId, clientIp, header, bucket, draw) <==>
              || header == "canary"
              || (&& header != "stable" && weight > 0.0
                  && (|| weight >= 1.0
                      || (userId != "" && (bucket(userId) % 10000) as real < 10000.0 * weight)
                      || (userId == "" && clientIp != "" && (bucket(clientIp) % 10000) as real < 10000.0 * weight)
                      || (userId == "" && clientIp == "" && draw < weight)))
  {
  }

  /** Routing is sticky: what goes to the canary at one weight goes there at every larger one,
      and an identified request goes there whatever the random draw. */
  lemma StickyAndMonotone(weight: real, larger: real, userId: string, clientIp: string, header: string,
                          bucket: string -> nat, draw: real, draw2: real)
    requires weight <= larger && 0.0 <= draw < 1.0
    requires userId != "" || clientIp != "" || draw2 == draw
    ensures RoutesToCanary(weight, userId, clientIp, header, bucket, draw) ==>
              RoutesToCanary(larger, userId, clientIp, header, bucket, draw2)
  {
  }

  /** After a rollback, and until someone promotes or sets a weight, only the override header reaches the canary. */
  lemma {:induction false} RolledBackStays(cfg: Settings, initial: Stage, before: seq<Step>, after: seq<Step>,
                                           userId: string, clientIp: string, header: string, bucket: string -> nat,
                                           draw: real)
    requires Run(cfg, initial, before).stage == RolledBack
    requires forall i | 0 <= i < |after| :: after[i].Rollback? || after[i].RecordStep?
    ensures var st := Run(cfg, initial, before + after);
            && st.stage == RolledBack && st.weight == 0.0
            && (RoutesToCanary(st.weight, userId, clientIp, header, bucket, draw) <==> header == "canary")
  {
    hide Recorded, ShouldRollBack;
    if after == [] {
      assert before + after == before;
      WeightMatchesStage(cfg, initial, before);
    } else {
      var last := after[|after| - 1];
      assert (before + after)[..|before + after| - 1] == before + after[..|after| - 1];
      RolledBackStays(cfg, initial, before, after[..|after| - 1], userId, clientIp, header, bucket, draw);
      if last.RecordStep? {
        RecordedKeepsWeight(Run(cfg, initial, before + after[..|after| - 1]), last.isCanary, last.latency, last.status,
                            last.path, last.verb);
      }
    }
  }

  // ---------------------------------------------------------------- the router object

  class CanaryRouter {
    const settings: Settings
    const stableMetrics: TrafficMetrics
    const canaryMetrics: TrafficMetrics
    var stage: Stage
    var weight: real
    var canaryRouteMetrics: map<string, TrafficMetrics>

    constructor (settings: Settings, initial: Stage)
      ensures this.settings == settings && Valid()
      ensures View() == Run(settings, initial, [])
      ensures fresh(stableMetrics) && fresh(canaryMetrics) && canaryRouteMetrics == map[]
    {
      this.settings := settings;
      stage, weight, canaryRouteMetrics := initial, StageWeight(initial), map[];
      stableMetrics := new TrafficMetrics(WINDOW);
      canaryMetrics := new TrafficMetrics(WINDOW);
    }

    /** Every recorder is its own object with a window of 500. */
    ghost predicate Valid()
      reads this, stableMetrics, canaryMetrics, canaryRouteMetrics.Values
    {
      && stableMetrics != canaryMetrics
      && stableMetrics.Valid() && stableMetrics.windowSize == WINDOW
      && canaryMetrics.Valid() && canaryMetrics.windowSize == WINDOW
      && (forall k | k in canaryRouteMetrics ::
            && canaryRouteMetrics[k].Valid() && canaryRouteMetrics[k].windowSize == WINDOW
            && canaryRouteMetrics[k] != stableMetrics && canaryRouteMetrics[k] != canaryMetrics)
      && (forall k, l | k in canaryRouteMetrics && l in canaryRouteMetrics && k != l ::
           canaryRouteMetrics[k] != canaryRouteMetrics[l])
    }

    function Routes(): map<string, Metrics>
      reads this`canaryRouteMetrics, canaryRouteMetrics.Values
    {
      map k | k in canaryRouteMetrics :: canaryRouteMetrics[k].View()
    }

    function View(): State
      reads this, stableMetrics, canaryMetrics, canaryRouteMetrics.Values
    {
      State(stage, weight, stableMetrics.View(), canaryMetrics.View(), Routes())
    }

    method GetRouteBudget(path: string, verb: string) returns (maxP95: int, maxErrorRate: real)
      ensures (maxP95, maxErrorRate) == RouteBudget(settings, path, verb)
    {
      if path != "" {
        for i := 0 to |settings.routeSlos|
          invariant PrefixBudget(settings.routeSlos, 0, path) == PrefixBudget(settings.routeSlos, i, path)
        {
          var (prefix, budget) := settings.routeSlos[i];
          if StartsWith(prefix, "/") && StartsWith(path, prefix) {
            return OrElse(budget.maxP95, settings.maxP95), OrElse(budget.maxErrorRate, settings.maxErrorRate);
          }
        }
      }
      if verb == "POST" || verb == "PUT" || verb == "PATCH" || verb == "DELETE" {
        var budget := NamedBudget(settings.routeSlos, "mutation_default");
        return OrElse(budget.maxP95, 25000), OrElse(budget.maxErrorRate, 0.01);
      }
      var budget := NamedBudget(settings.routeSlos, "read_default");
      maxP95, maxErrorRate := OrElse(budget.maxP95, settings.maxP95),
        OrElse(budget.maxErrorRate, settings.maxErrorRate);
    }

    method SetCanaryWeight(w: real)
      requires Valid()
      modifies this`stage, this`weight
      ensures Valid() && View() == StepState(settings, old(View()), SetWeight(w))
    {
      hide TrafficMetrics.Valid, TrafficMetrics.View;
      var clamped := if w < 0.0 then 0.0 else if w > 1.0 then 1.0 else w;
      var band := FullRollout;
      if clamped == 0.0 {
        band := Disabled;
      } else if clamped <= 0.01 {
        band := Canary1;
      } else if clamped <= 0.10 {
        band := Canary10;
      } else if clamped <= 0.50 {
        band := Canary50;
      }
      weight, stage := clamped, band;
    }

    method PromoteTo(stage: Stage)
      requires Valid()
      modifies this, canaryMetrics
      ensures Valid() && View() == StepState(settings, old(View()), Promote(stage))
    {
      this.stage := stage;
      weight := StageWeight(stage);
      canaryMetrics.Reset();
      canaryRouteMetrics := map[];
    }

    method RollBackNow()
      requires Valid()
      modifies this`stage, this`weight
      ensures Valid() && View() == StepState(settings, old(View()), Rollback)
    {
      hide TrafficMetrics.Valid, TrafficMetrics.View;
      stage, weight := RolledBack, 0.0;
    }

    /** The recorder of a route, a new one if need be. */
    method RouteRecorder(key: string) returns (metrics: TrafficMetrics)
      requires Valid()
      modifies this`canaryRouteMetrics
      ensures Valid() && key in canaryRouteMetrics && canaryRouteMetrics[key] == metrics
      ensures Routes() == old(Routes())[key := if key in old(Routes()) then old(Routes())[key] else NO_METRICS]
      ensures forall k | k in canaryRouteMetrics ::
              canaryRouteMetrics[k] in old(canaryRouteMetrics.Values) || fresh(canaryRouteMetrics[k])
    {
      hide TrafficMetrics.Valid, TrafficMetrics.View;
      if key in canaryRouteMetrics {
        assert Routes()[key := Routes()[key]] == Routes();
        return canaryRouteMetrics[key];
      }
      metrics := new TrafficMetrics(WINDOW);
      canaryRouteMetrics := canaryRouteMetrics[key := metrics];
    }

    /** Note the request in the recorder of its route. */
    method ObserveRoute(key: string, latency: int, isError: bool)
      requires Valid()
      modifies this`canaryRouteMetrics, canaryRouteMetrics.Values
      ensures Valid()
      ensures Routes() == old(Routes())[key := RouteAfter(old(Routes()), key, latency, isError)]
      ensures forall k | k in canaryRouteMetrics ::
              canaryRouteMetrics[k] in old(canaryRouteMetrics.Values) || fresh(canaryRouteMetrics[k])
    {
      hide Push, LastN, Observe, TrafficMetrics.Valid, TrafficMetrics.View;
      var route := RouteRecorder(key);
      route.Record(latency, isError);
    }

    /** Note the request in the recorders it belongs to. */
    method ObserveRequest(isCanary: bool, latency: int, status: int, path: string, verb: string)
      requires Valid()
      modifies this`canaryRouteMetrics, stableMetrics, canaryMetrics, canaryRouteMetrics.Values
      ensures Valid() && View() == Recorded(old(View()), isCanary, latency, status, path, verb)
    {
      hide RouteKey, Push, LastN, MetricsOf, Observe;
      if !isCanary {
        stableMetrics.Record(latency, status >= 500);
        return;
      }
      canaryMetrics.Record(latency, status >= 500);
      if path != "" {
        ObserveRoute(RouteKey(path, verb), latency, status >= 500);
      }
    }

    /** The test applied to one recorder. */
    method OverLimit(metrics: TrafficMetrics, minSamples: int, maxErrorRate: real, maxP95: int) returns (over: bool)
      ensures over == Breaches(metrics.View(), minSamples, maxErrorRate, maxP95)
    {
      hide StatsOf;
      var stats := metrics.GetStats();
      if stats.samples < minSamples {
        return false;
      }
      if stats.errorRate > maxErrorRate {
        return true;
      }
      over := stats.p95 > maxP95;
    }

    method EvaluateCanarySlo(path: string, verb: string)
      requires Valid()
      modifies this`stage, this`weight
      ensures Valid() && View() == if ShouldRollBack(settings, old(View()), path, verb) then RollBack(old(View()))
              else old(View())
    {
      hide RouteBudget, RouteKey, Breaches, TrafficMetrics.Valid, TrafficMetrics.View;
      var over := false;
      if path == "" {
        over := OverLimit(canaryMetrics, settings.minEvalSamples, settings.maxErrorRate, settings.maxP95);
      } else {
        var budgetP95, budgetErr := GetRouteBudget(path, verb);
        var key := RouteKey(path, verb);
        if key in canaryRouteMetrics {
          over := OverLimit(canaryRouteMetrics[key], Min(settings.minEvalSamples, 15), budgetErr, budgetP95);
        }
        if !over {
          over := OverLimit(canaryMetrics, settings.minEvalSamples, MaxR(settings.maxErrorRate, budgetErr),
                            Max(settings.maxP95, budgetP95));
        }
      }
      if over {
        RollBackNow();
      }
    }

    method RecordRequest(isCanary: bool, latency: int, status: int, path: string, verb: string)
      requires Valid()
      modifies this, stableMetrics, canaryMetrics, canaryRouteMetrics.Values
      ensures Valid() && View() == StepState(settings, old(View()), RecordStep(isCanary, latency, status, path, verb))
    {
      hide Recorded, ShouldRollBack;
      ObserveRequest(isCanary, latency, status, path, verb);
      if isCanary && settings.autoRollback {
        EvaluateCanarySlo(path, verb);
      }
    }

    method ShouldRouteToCanary(userId: string, clientIp: string, header: string, bucket: string -> nat, draw: real)
      returns (canary: bool)
      ensures canary == RoutesToCanary(weight, userId, clientIp, header, bucket, draw)
    {
      if header == "canary" {
        return true;
      }
      if header == "stable" {
        return false;
      }
      if weight <= 0.0 {
        return false;
      }
      if weight >= 1.0 {
        return true;
      }
      var identifier := if userId != "" then userId else clientIp;
      if identifier != "" {
        var normalized := (bucket(identifier) % 10000) as real / 10000.0;
        return normalized < weight;
      }
      canary := draw < weight;
    }
  }
}
