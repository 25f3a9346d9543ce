/** The request pipeline: the order of the gates, and what their composition lets through to the ERP. */
module Pipeline {
  import opened Basics
  import StateStore
  import Actions
  import Mitigation
  import CredentialDefense
  import ReplayGuard
  import Rules = RulesEngine
  import RuleChecks
  import opened JsonValues
  import Text
  import Waf
  import Routes = RouteAllowlist
  import Limiter = RateLimiter
  import Window = SlidingWindow
  import Risk = RiskEngine
  import Breaker = CircuitBreaker

  /** One request as it arrives, and what token verification, object-level authorisation and the anomaly detector
      make of it. `verb` is the method as sent and `text` the decoded body, empty when there is none. */
  datatype Request = Request(
    path: string, verb: string, url: string, text: string, declaredLength: Option<int>,
    clientIp: string, authHeader: string, nonce: string, idempotencyKey: string, stamp: ReplayGuard.Stamp,
    tokenValid: bool, principal: string, role: string, authorized: bool, authAnomaly: real, trust: real, anomaly: real)

  /** The configuration of every component. `parse` is the JSON parser, `canonical` the JSON text with sorted keys. */
  datatype Settings = Settings(
    maxBody: int, detectors: Waf.Detectors, parse: string -> Option<Json>, canonical: Json -> string,
    routes: seq<Routes.Rule>, loginSchema: Json -> bool, orderSchema: Json -> bool,
    rules: seq<Rules.Rule>, digest: string -> string,
    failureThreshold: int, failureWindow: Time, maxSkew: Time, rateWindow: Time, breaker: Breaker.Settings)

  /** The stateful components, and five history variables: the events that reached the credential defense, the requests
      that reached the replay guard, those entered in the two rule histories, and those counted by the rate limiter. */
  datatype State = State(
    mitigation: Mitigation.Engine,
    credentials: CredentialDefense.State,
    nonces: map<string, Time>,
    rules: Rules.State,
    rates: map<string, seq<Time>>,
    breaker: Breaker.State,
    logins: seq<CredentialDefense.Event>,
    attempts: seq<ReplayGuard.Attempt>,
    orderHits: seq<Window.Hit>,
    accessHits: seq<Window.Hit>,
    rateHits: seq<Window.Hit>)

  datatype Outcome = Bypassed | Denied(status: int) | Forwarded

  /** Paths the gateway answers itself. */
  predicate Managed(path: string) {
    || path in {"/docs", "/openapi.json", "/redoc", "/health", "/health/live", "/health/ready",
                "/api/ml/health", "/api/ml/rollback", "/api/ml/recover", "/api/mitigations/status", "/api/ml/retrain"}
    || StartsWith(path, "/api/agents") || StartsWith(path, "/api/soc") || StartsWith(path, "/api/metrics")
    || StartsWith(path, "/api/compliance") || StartsWith(path, "/api/ha") || StartsWith(path, "/api/canary")
  }

  // ---------------------------------------------------------------- what the gates read off a request

  predicate Oversized(cfg: Settings, r: Request) { r.declaredLength.Some? && r.declaredLength.value > cfg.maxBody }

  predicate LooksJson(s: string) { StartsWith(Text.Strip(s), "{") || StartsWith(Text.Strip(s), "[") }

  /** What the scanner finds inside a text that looks like JSON. */
  function Embedded(cfg: Settings, s: string): Option<Json> { if LooksJson(s) then cfg.parse(Text.Strip(s)) else None }

  /** The body, parsed. */
  function Payload(cfg: Settings, r: Request): Option<Json> { if r.text == "" then None else cfg.parse(r.text) }

  predicate UrlAttacks(cfg: Settings, r: Request) { Waf.ContentThreat(cfg.detectors, r.url, Embedded(cfg, r.url)) > 0 }

  predicate TextAttacks(cfg: Settings, r: Request) {
    Waf.ContentThreat(cfg.detectors, r.text, Embedded(cfg, r.text)) > 0
  }

  predicate PayloadAttacks(cfg: Settings, r: Request) {
    Payload(cfg, r).Some? && Truthy(Payload(cfg, r).value)
    && Waf.MaxThreat(cfg.detectors, Waf.Texts(Payload(cfg, r).value)) > 0
  }

  predicate Attacks(cfg: Settings, r: Request) { UrlAttacks(cfg, r) || TextAttacks(cfg, r) || PayloadAttacks(cfg, r) }

  /** The schema gate looks at the bodies of POST and PUT requests. */
  function SchemaVerdict(cfg: Settings, r: Request): Option<int> {
    if !(r.verb == "POST" || r.verb == "PUT") || r.text == "" then None
    else match Payload(cfg, r)
      case None => Some(400)
      case Some(body) =>
        if r.path == "/api/auth/login" then (if cfg.loginSchema(body) then None else Some(422))
        else if r.path == "/api/orders" then (if cfg.orderSchema(body) then None else Some(422))
        else None
  }

  predicate Mutates(r: Request) { r.verb == "POST" || r.verb == "PUT" || r.verb == "DELETE" || r.verb == "PATCH" }

  /** Nonce, or else idempotency key. */
  function KeyOf(r: Request): string { ReplayGuard.UniqueKey(r.nonce, r.idempotencyKey) }

  predicate FreshnessExempt(path: string) {
    || path in {"/api/auth/login", "/health", "/health/live", "/health/ready"}
    || StartsWith(path, "/api/compliance") || StartsWith(path, "/api/canary")
    || StartsWith(path, "/api/agents") || StartsWith(path, "/api/soc")
  }

  function RouteOf(cfg: Settings, r: Request): Option<Routes.Rule> { Routes.Selected(cfg.routes, r.path) }

  predicate AuthExempt(cfg: Settings, r: Request) {
    || (RouteOf(cfg, r).Some? && !RouteOf(cfg, r).value.authRequired)
    || r.path == "/health" || r.path == "/api/auth/login"
  }

  /** The body as the rules see it: empty unless the text looks like JSON and parses. */
  function BodyOf(cfg: Settings, r: Request): Json {
    if r.text != "" && LooksJson(r.text) && cfg.parse(r.text).Some? then cfg.parse(r.text).value else Obj([])
  }

  /** The request as the rules see it: under its principal, or failing that its address. */
  function RuleView(cfg: Settings, r: Request): Rules.Request {
    var principal := if AuthExempt(cfg, r) then "" else r.principal;
    Rules.Request(r.path, Text.Upper(r.verb), BodyOf(cfg, r), cfg.canonical(BodyOf(cfg, r)),
                  if principal != "" then principal else r.clientIp, r.clientIp,
                  if AuthExempt(cfg, r) then "" else r.role, principal != "")
  }

  // ---------------------------------------------------------------- the gates

  /** Gates 1 to 6, up to the schema check: `None` means the request goes on. */
  function Screen(st: State, cfg: Settings, r: Request, now: Time): (State, Option<int>) {
    var (mitigation, verdict) := Mitigation.Evaluate(st.mitigation, r.clientIp, "", r.authHeader, now);
    var st1 := st.(mitigation := mitigation);
    if verdict.Deny? then (st1, Some(verdict.status))
    else if Oversized(cfg, r) then (st1, Some(413))
    else
      var check := CredentialDefense.Check(r.clientIp, "", now);
      var credentials := CredentialDefense.Step(st.credentials, check, cfg.failureWindow);
      var st2 := st1.(credentials := credentials, logins := st.logins + [check]);
      if CredentialDefense.Flag(credentials, r.clientIp, "", cfg.failureThreshold) then (st2, Some(403))
      else if Attacks(cfg, r) then (st2, Some(403))
      else match RouteOf(cfg, r)
        case None => (st2, Some(404))
        case Some(rule) => (st2, if Text.Upper(r.verb) !in rule.methods then Some(405) else SchemaVerdict(cfg, r))
  }

  /** Gate 7, freshness and replay. */
  function Freshness(st: State, cfg: Settings, r: Request, now: Time): (State, Option<int>) {
    if !Mutates(r) then (st, None)
    else if !FreshnessExempt(r.path) && r.nonce == "" && r.idempotencyKey == "" && r.stamp == ReplayGuard.Absent then
      (st, Some(400))
    else
      var key := KeyOf(r);
      var (nonces, outcome) := ReplayGuard.Validate(st.nonces, cfg.maxSkew, key, r.stamp, now);
      (st.(nonces := nonces, attempts := st.attempts + [ReplayGuard.Attempt(key, r.stamp, now)]),
       if outcome.Replay? then Some(403) else None)
  }

  /** Gate 8, token and principal. */
  function Identity(st: State, cfg: Settings, r: Request, now: Time): (State, Option<int>) {
    if AuthExempt(cfg, r) then (st, None)
    else if !r.tokenValid then (st, Some(401))
    else
      var (mitigation, verdict) := Mitigation.Evaluate(st.mitigation, r.clientIp, r.principal, r.authHeader, now);
      (st.(mitigation := mitigation), if verdict.Deny? then Some(verdict.status) else None)
  }

  /** What a request adds to the two rule histories. */
  function OrderEntry(cfg: Settings, r: Request, now: Time): seq<Window.Hit> {
    if Rules.IsOrder(RuleView(cfg, r)) then [Window.Hit(Rules.OrderKey(RuleView(cfg, r), cfg.digest), now)] else []
  }

  function AccessEntry(cfg: Settings, r: Request, now: Time): seq<Window.Hit> {
    if Rules.IsSensitive(RuleView(cfg, r)) then [Window.Hit(Rules.ClientRef(RuleView(cfg, r)), now)] else []
  }

  function RateKey(r: Request): string { "rate:" + r.clientIp }

  /** What the risk engine is given once the rules and the rate limiter have spoken. */
  function SignalsOf(cfg: Settings, r: Request, severity: int, count: int): Risk.Signals {
    var exempt := AuthExempt(cfg, r);
    Risk.Signals(
      if !exempt && !r.authorized then 95.0 else 0.0,
      if exempt then 0.0 else r.authAnomaly,
      Limiter.RateScore(count) as real,
      severity as real,
      r.anomaly,
      if exempt then 0.85 else r.trust,
      0.0,
      r.path)
  }

  /** Gates 9 to 11: rules and rate. The new state, the rule severity and the request count. */
  function Consult(st: State, cfg: Settings, r: Request, now: Time): (State, int, int) {
    var view := RuleView(cfg, r);
    var (rules, severity, fired) := Rules.Evaluate(st.rules, cfg.rules, view, cfg.digest, now);
    var rates := Window.Touch(st.rates, RateKey(r), cfg.rateWindow, now);
    (st.(rules := rules, rates := rates,
         orderHits := st.orderHits + OrderEntry(cfg, r, now), accessHits := st.accessHits + AccessEntry(cfg, r, now),
         rateHits := st.rateHits + [Window.Hit(RateKey(r), now)]),
     severity, |Window.Get(rates, RateKey(r))|)
  }

  /** Gates 9 to 12: rules, rate, risk, and the breaker in front of the ERP. */
  function Decide(st: State, cfg: Settings, r: Request, now: Time): (State, Outcome) {
    var (st1, severity, count) := Consult(st, cfg, r, now);
    var decision := Risk.Judge(SignalsOf(cfg, r, severity, count));
    if decision == Risk.Block then (st1, Denied(403))
    else if decision == Risk.Challenge then (st1, Denied(401))
    else if count > 1000 then (st1, Denied(429))
    else
      var (breaker, event) := Breaker.Next(cfg.breaker, st1.breaker, Breaker.Allow(now));
      (st1.(breaker := breaker), if Breaker.Admitted(event) then Forwarded else Denied(503))
  }

  /** The whole pipeline for one request. */
  function Handle(st: State, cfg: Settings, r: Request, now: Time): (State, Outcome) {
    if Managed(r.path) then (st, Bypassed) else
    var (st1, denied1) := Screen(st, cfg, r, now);
    if denied1.Some? then (st1, Denied(denied1.value)) else
    var (st2, denied2) := Freshness(st1, cfg, r, now);
    if denied2.Some? then (st2, Denied(denied2.value)) else
    var (st3, denied3) := Identity(st2, cfg, r, now);
    if denied3.Some? then (st3, Denied(denied3.value)) else
    Decide(st3, cfg, r, now)
  }

  /** Everything that can happen to the gateway: a request, the upstream's answer to one, or a containment order. */
  datatype Step =
    | Arrive(request: Request, now: Time)
    | Reply(ip: string, user: string, failedLogin: bool, now: Time)
    | Unreachable(now: Time)
    | Contain(action: Actions.Action, whitelisted: bool, now: Time)
    | Release(id: string, now: Time)

  function StepState(st: State, cfg: Settings, s: Step): State {
    match s
    case Arrive(r, now) => Handle(st, cfg, r, now).0
    case Reply(ip, user, failedLogin, now) =>
      st.(breaker := Breaker.Next(cfg.breaker, st.breaker, Breaker.Success(now)).0,
          credentials := if !failedLogin then st.credentials
                         else CredentialDefense.Step(st.credentials, CredentialDefense.Failure(ip, user, now),
                             cfg.failureWindow),
          logins := st.logins + if failedLogin then [CredentialDefense.Failure(ip, user, now)] else [])
    case Unreachable(now) => st.(breaker := Breaker.Next(cfg.breaker, st.breaker, Breaker.Failure(now)).0)
    case Contain(a, whitelisted, now) => st.(mitigation := Mitigation.Apply(st.mitigation, a, whitelisted, now))
    case Release(id, now) => st.(mitigation := Mitigation.Rollback(st.mitigation, id))
  }

  function Start(now: Time): State {
    State(Mitigation.Engine(Mitigation.EMPTY_LOCAL, StateStore.Shared(map[], map[], map[], {})),
          CredentialDefense.State(map[], map[]), map[], Rules.State(map[], map[]), map[],
          Breaker.State(Breaker.Closed, 0, 0, now), [], [], [], [], [])
  }

  function Run(cfg: Settings, start: Time, steps: seq<Step>): State {
    if steps == [] then Start(start) else StepState(Run(cfg, start, steps[..|steps| - 1]), cfg, steps[|steps| - 1])
  }

  predicate Monotone(steps: seq<Step>) {
    forall i, j | 0 <= i < j < |steps| :: steps[i].now <= steps[j].now
  }

  /** Step `i` of the run is a request that reaches the ERP. */
  predicate ForwardedAt(cfg: Settings, start: Time, steps: seq<Step>, i: int) {
    0 <= i < |steps| && steps[i].Arrive?
    && Handle(Run(cfg, start, steps[..i]), cfg, steps[i].request, steps[i].now).1 == Forwarded
  }

  // ---------------------------------------------------------------- one request

  lemma ScreenEffect(st: State, cfg: Settings, r: Request, now: Time)
    ensures var (st1, denied) := Screen(st, cfg, r, now);
            && st1 == st.(mitigation := st1.mitigation, credentials := st1.credentials, logins := st1.logins)
            && st1.mitigation == Mitigation.Evaluate(st.mitigation, r.clientIp, "", r.authHeader, now).0
            && (denied.None? ==>
                  Mitigation.Evaluate(st.mitigation, r.clientIp, "", r.authHeader, now).1 == Mitigation.Pass)
            && (denied.None? ==> !Oversized(cfg, r) && !Attacks(cfg, r) && SchemaVerdict(cfg, r).None?)
            && (denied.None? ==> RouteOf(cfg, r).Some? && Text.Upper(r.verb) in RouteOf(cfg, r).value.methods)
  {
    hide Mitigation.Evaluate, CredentialDefense.Step, CredentialDefense.Flag, Attacks, RouteOf, SchemaVerdict,
      Oversized;
  }

  /** What the screen does with the credential defense, in step with its history. */
  lemma ScreenLogins(st: State, cfg: Settings, r: Request, now: Time)
    ensures var (st1, denied) := Screen(st, cfg, r, now);
            var check := CredentialDefense.Check(r.clientIp, "", now);
            || (denied.Some? && st1.credentials == st.credentials && st1.logins == st.logins)
            || (&& st1.logins == st.logins + [check]
                && st1.credentials == CredentialDefense.Step(st.credentials, check, cfg.failureWindow)
                && (denied.None? ==> !CredentialDefense.Flag(st1.credentials, r.clientIp, "", cfg.failureThreshold)))
  {
    hide Mitigation.Evaluate, CredentialDefense.Step, CredentialDefense.Flag, Attacks, RouteOf, SchemaVerdict,
      Oversized;
  }

  lemma FreshnessEffect(st: State, cfg: Settings, r: Request, now: Time)
    ensures var (st1, denied) := Freshness(st, cfg, r, now);
            var key := KeyOf(r);
            && st1 == st.(nonces := st1.nonces, attempts := st1.attempts)
            && (st1.attempts == st.attempts ==> st1.nonces == st.nonces)
            && (st1.attempts != st.attempts ==>
                  && st1.attempts == st.attempts + [ReplayGuard.Attempt(key, r.stamp, now)]
                  && st1.nonces == ReplayGuard.Validate(st.nonces, cfg.maxSkew, key, r.stamp, now).0)
            && (denied.None? && Mutates(r) ==>
                  st1.attempts != st.attempts
                    && ReplayGuard.Validate(st.nonces, cfg.maxSkew, key, r.stamp, now).1 == ReplayGuard.Accepted)
  {
    hide ReplayGuard.Validate;
    assert |st.attempts + [ReplayGuard.Attempt(KeyOf(r), r.stamp, now)]| != |st.attempts|;
  }

  lemma IdentityEffect(st: State, cfg: Settings, r: Request, now: Time)
    ensures var (st1, denied) := Identity(st, cfg, r, now);
            && st1 == st.(mitigation := st1.mitigation)
            && (denied.None? && !AuthExempt(cfg, r) ==>
                  r.tokenValid && Mitigation.Evaluate(st.mitigation, r.clientIp, r.principal, r.authHeader, now).1
                    == Mitigation.Pass)
  {
    hide Mitigation.Evaluate;
  }

  /** The rules are the shipped ones, with any stateless checks. */
  ghost predicate UsesShipped(cfg: Settings) {
    && |cfg.rules| == 6
    && cfg.rules[0].check.Stateless? && cfg.rules[2].check.Stateless? && cfg.rules[3].check.Stateless?
    && cfg.rules[4].check.Stateless?
    && cfg.rules == Rules.Shipped(cfg.rules[0].check.test, cfg.rules[2].check.test, cfg.rules[3].check.test,
         cfg.rules[4].check.test)
  }

  /** The configured rules with their own checks are an instance. */
  lemma ConfiguredRulesAreShipped(cfg: Settings, inventory: map<string, int>, parseInt: string -> Option<int>)
    requires cfg.rules == RuleChecks.AllRules(inventory, parseInt)
    ensures UsesShipped(cfg)
  {
    var rules := RuleChecks.AllRules(inventory, parseInt);
    assert rules[0].check.test == RuleChecks.NegativePrice && rules[3].check.test == RuleChecks.Escalation;
  }

  /** A risk decision that lets a request through had no rule of 60 or more behind it, nor an object-level violation. */
  lemma PassingDecision(cfg: Settings, r: Request, severity: int, count: int)
    requires var d := Risk.Judge(SignalsOf(cfg, r, severity, count)); d != Risk.Block && d != Risk.Challenge
    ensures severity < 60 && (AuthExempt(cfg, r) || r.authorized)
  {
    Risk.Floors(SignalsOf(cfg, r, severity, count));
    hide Risk.Judge;
  }

  /** The last gates enter the request in the histories that cover it, and forward it only if no rule fired. */
  lemma DecideEffect(st: State, cfg: Settings, r: Request, now: Time)
    requires UsesShipped(cfg)
    ensures var (st1, outcome) := Decide(st, cfg, r, now);
            var (order, access) := (OrderEntry(cfg, r, now), AccessEntry(cfg, r, now));
            && st1 == st.(rules := st1.rules, rates := st1.rates, breaker := st1.breaker, orderHits := st1.orderHits,
                 accessHits := st1.accessHits, rateHits := st1.rateHits)
            && st1.orderHits == st.orderHits + order && st1.accessHits == st.accessHits + access
            && st1.rules.orders == (if order == [] then st.rules.orders
                 else Window.Touch(st.rules.orders, order[0].key, Rules.ORDER_TTL, now))
            && st1.rules.accesses == (if access == [] then st.rules.accesses
                 else Window.Touch(st.rules.accesses, access[0].key, Rules.ACCESS_WINDOW, now))
            && (outcome == Forwarded ==>
                  && Rules.Evaluate(st.rules, cfg.rules, RuleView(cfg, r), cfg.digest, now).2 == []
                  && (order != [] ==> |Window.Get(st1.rules.orders, order[0].key)| <= 1)
                  && (access != [] ==> |Window.Get(st1.rules.accesses, access[0].key)| <= Rules.ACCESS_THRESHOLD)
                  && (AuthExempt(cfg, r) || r.authorized))
  {
    var severity := Rules.Evaluate(st.rules, cfg.rules, RuleView(cfg, r), cfg.digest, now).1;
    var count := |Window.Get(Window.Touch(st.rates, RateKey(r), cfg.rateWindow, now), RateKey(r))|;
    Rules.ShippedEffect(st.rules, RuleView(cfg, r), cfg.digest, now,
                        cfg.rules[0].check.test, cfg.rules[2].check.test, cfg.rules[3].check.test,
                          cfg.rules[4].check.test);
    var decision := Risk.Judge(SignalsOf(cfg, r, severity, count));
    if decision != Risk.Block && decision != Risk.Challenge {
      PassingDecision(cfg, r, severity, count);
    }
    hide Rules.Evaluate, Rules.IsOrder, Rules.IsSensitive, Rules.OrderKey, Rules.ClientRef, Risk.Judge, SignalsOf,
      RuleView, Window.Touch, Window.Get, RateKey, Breaker.Next, AuthExempt;
  }

  /** A history either stays as it is or takes one entry, the record and its history variable together. */
  predicate Recorded(records: map<string, seq<Time>>, hits: seq<Window.Hit>, records': map<string, seq<Time>>,
                     hits': seq<Window.Hit>,
                     entry: seq<Window.Hit>, window: Time) {
    || (records' == records && hits' == hits)
    || (|entry| == 1 && hits' == hits + entry && records' == Window.Touch(records, entry[0].key, window, entry[0].now))
  }

  predicate Claimed(nonces: map<string, Time>, attempts: seq<ReplayGuard.Attempt>, nonces': map<string, Time>,
                    attempts': seq<ReplayGuard.Attempt>, a: ReplayGuard.Attempt, maxSkew: Time) {
    || (nonces' == nonces && attempts' == attempts)
    || (attempts' == attempts + [a] && nonces' == ReplayGuard.Validate(nonces, maxSkew, a.key, a.stamp, a.now).0)
  }

  function AttemptOf(r: Request, now: Time): ReplayGuard.Attempt {
    ReplayGuard.Attempt(KeyOf(r), r.stamp, now)
  }

  /** What one request does to the histories, and what is true of it if it reaches the ERP. */
  lemma HandleEffect(st: State, cfg: Settings, r: Request, now: Time)
    requires UsesShipped(cfg)
    ensures var (st', outcome) := Handle(st, cfg, r, now);
            && Recorded(st.rules.orders, st.orderHits, st'.rules.orders, st'.orderHits, OrderEntry(cfg, r, now),
                 Rules.ORDER_TTL)
            && Recorded(st.rules.accesses, st.accessHits, st'.rules.accesses, st'.accessHits, AccessEntry(cfg, r, now),
                 Rules.ACCESS_WINDOW)
            && Claimed(st.nonces, st.attempts, st'.nonces, st'.attempts, AttemptOf(r, now), cfg.maxSkew)
            && (outcome == Forwarded ==>
                  && st'.orderHits == st.orderHits + OrderEntry(cfg, r, now)
                  && st'.accessHits == st.accessHits + AccessEntry(cfg, r, now)
                  && (OrderEntry(cfg, r, now) != [] ==>
                        |Window.Get(st'.rules.orders, OrderEntry(cfg, r, now)[0].key)| <= 1)
                  && (AccessEntry(cfg, r, now) != [] ==>
                        |Window.Get(st'.rules.accesses, AccessEntry(cfg, r, now)[0].key)| <= Rules.ACCESS_THRESHOLD)
                  && (Mutates(r) ==>
                        && st'.attempts == st.attempts + [AttemptOf(r, now)]
                        && ReplayGuard.Validate(st.nonces, cfg.maxSkew, AttemptOf(r, now).key, r.stamp, now).1
                             == ReplayGuard.Accepted))
  {
    ScreenEffect(st, cfg, r, now);
    var (st1, denied1) := Screen(st, cfg, r, now);
    FreshnessEffect(st1, cfg, r, now);
    var (st2, denied2) := Freshness(st1, cfg, r, now);
    IdentityEffect(st2, cfg, r, now);
    var (st3, denied3) := Identity(st2, cfg, r, now);
    assert |OrderEntry(cfg, r, now)| <= 1 && |AccessEntry(cfg, r, now)| <= 1;
    hide Managed, Screen, Freshness, Identity, Decide, Mutates, AuthExempt, OrderEntry, AccessEntry, Attacks, RouteOf,
      SchemaVerdict, Oversized, RuleView, Window.Touch, Window.Get, ReplayGuard.Validate, Rules.Evaluate,
      Mitigation.Evaluate, UsesShipped, Text.Upper;
    if Managed(r.path) || denied1.Some? || denied2.Some? || denied3.Some? {
      assert Handle(st, cfg, r, now).1 != Forwarded;
    } else {
      assert Handle(st, cfg, r, now) == Decide(st3, cfg, r, now);
      DecideEffect(st3, cfg, r, now);
    }
  }

  // ---------------------------------------------------------------- runs

  /** The records are what their history variables make of them, and no history is ahead of `now`. */
  ghost predicate Faithful(st: State, cfg: Settings, now: Time) {
    && st.nonces == ReplayGuard.Nonces(st.attempts, cfg.maxSkew)
    && st.rules.orders == Window.Touched(st.orderHits, Rules.ORDER_TTL)
    && st.rules.accesses == Window.Touched(st.accessHits, Rules.ACCESS_WINDOW)
    && ReplayGuard.Monotone(st.attempts) && Window.Monotone(st.orderHits) && Window.Monotone(st.accessHits)
    && (forall i | 0 <= i < |st.attempts| :: st.attempts[i].now <= now)
    && (forall i | 0 <= i < |st.orderHits| :: st.orderHits[i].now <= now)
    && (forall i | 0 <= i < |st.accessHits| :: st.accessHits[i].now <= now)
  }

  lemma {:induction false} TouchedGrows(hits: seq<Window.Hit>, h: Window.Hit, window: Time)
    ensures Window.Touched(hits + [h], window) == Window.Touch(Window.Touched(hits, window), h.key, window, h.now)
  {
    assert (hits + [h])[..|hits|] == hits;
  }

  lemma {:induction false} NoncesGrow(attempts: seq<ReplayGuard.Attempt>, a: ReplayGuard.Attempt, maxSkew: Time)
    ensures ReplayGuard.Nonces(attempts + [a], maxSkew)
            == ReplayGuard.Validate(ReplayGuard.Nonces(attempts, maxSkew), maxSkew, a.key, a.stamp, a.now).0
  {
    assert (attempts + [a])[..|attempts|] == attempts;
  }

  lemma FaithfulStep(st: State, st': State, cfg: Settings, r: Request, past: Time, now: Time)
    requires Faithful(st, cfg, past) && past <= now
    requires Recorded(st.rules.orders, st.orderHits, st'.rules.orders, st'.orderHits, OrderEntry(cfg, r, now),
            Rules.ORDER_TTL)
    requires Recorded(st.rules.accesses, st.accessHits, st'.rules.accesses, st'.accessHits, AccessEntry(cfg, r, now),
            Rules.ACCESS_WINDOW)
    requires Claimed(st.nonces, st.attempts, st'.nonces, st'.attempts, AttemptOf(r, now), cfg.maxSkew)
    ensures Faithful(st', cfg, now)
  {
    hide Window.Touch, Window.Touched, ReplayGuard.Nonces, ReplayGuard.Validate, RuleView, Rules.IsOrder,
      Rules.IsSensitive, Rules.OrderKey, Rules.ClientRef;
    NoncesGrow(st.attempts, AttemptOf(r, now), cfg.maxSkew);
    if |OrderEntry(cfg, r, now)| == 1 {
      TouchedGrows(st.orderHits, OrderEntry(cfg, r, now)[0], Rules.ORDER_TTL);
      assert OrderEntry(cfg, r, now) == [OrderEntry(cfg, r, now)[0]];
    }
    if |AccessEntry(cfg, r, now)| == 1 {
      TouchedGrows(st.accessHits, AccessEntry(cfg, r, now)[0], Rules.ACCESS_WINDOW);
      assert AccessEntry(cfg, r, now) == [AccessEntry(cfg, r, now)[0]];
    }
  }

  lemma {:induction false} MonotonePrefix(steps: seq<Step>)
    requires Monotone(steps) && steps != []
    ensures var before, last := steps[..|steps| - 1], steps[|steps| - 1];
            Monotone(before) && (before != [] ==> before[|before| - 1].now <= last.now)
  {
  }

  lemma StepIsFaithful(st: State, cfg: Settings, s: Step, past: Time)
    requires UsesShipped(cfg) && Faithful(st, cfg, past) && past <= s.now
    ensures Faithful(StepState(st, cfg, s), cfg, s.now)
  {
    hide Handle, UsesShipped, Mitigation.Apply, Mitigation.Rollback, Breaker.Next, CredentialDefense.Step, OrderEntry,
      AccessEntry, AttemptOf, Recorded, Claimed, ReplayGuard.Nonces, Window.Touched, ReplayGuard.Monotone,
      Window.Monotone;
    if s.Arrive? {
      HandleEffect(st, cfg, s.request, s.now);
      FaithfulStep(st, Handle(st, cfg, s.request, s.now).0, cfg, s.request, past, s.now);
    }
  }

  lemma FaithfulLater(st: State, cfg: Settings, past: Time, now: Time)
    requires Faithful(st, cfg, past) && past <= now
    ensures Faithful(st, cfg, now)
  {
  }

  /** Over every run the nonce table and both rule histories are what the recorded hits make of them. */
  lemma {:induction false} RunIsFaithful(cfg: Settings, start: Time, steps: seq<Step>, now: Time)
    requires UsesShipped(cfg) && Monotone(steps) && (steps != [] ==> steps[|steps| - 1].now <= now)
    ensures Faithful(Run(cfg, start, steps), cfg, now)
  {
    if steps == [] {
    } else {
      hide UsesShipped, StepState, Monotone, Faithful;
      var before, last := steps[..|steps| - 1], steps[|steps| - 1];
      MonotonePrefix(steps);
      RunIsFaithful(cfg, start, before, last.now);
      StepIsFaithful(Run(cfg, start, before), cfg, last, last.now);
      FaithfulLater(Run(cfg, start, steps), cfg, last.now, now);
    }
  }

  // ---------------------------------------------------------------- rate bounds on what reaches the ERP

  /** The histories that bound what is forwarded. */
  datatype Ledger = Orders | Accesses | Rates

  function EntryOf(ledger: Ledger, cfg: Settings, r: Request, now: Time): seq<Window.Hit> {
    match ledger
    case Orders => OrderEntry(cfg, r, now)
    case Accesses => AccessEntry(cfg, r, now)
    case Rates => [Window.Hit(RateKey(r), now)]
  }

  function HitsOf(ledger: Ledger, st: State): seq<Window.Hit> {
    match ledger case Orders => st.orderHits case Accesses => st.accessHits case Rates => st.rateHits
  }

  function SpanOf(cfg: Settings, ledger: Ledger): Time {
    match ledger case Orders => Rules.ORDER_TTL case Accesses => Rules.ACCESS_WINDOW case Rates => cfg.rateWindow
  }

  function LimitOf(ledger: Ledger): int {
    match ledger case Orders => 1 case Accesses => Rules.ACCESS_THRESHOLD case Rates => 1000
  }

  /** The rate limiter's lists are what its history makes of them. */
  ghost predicate RatesFaithful(st: State, cfg: Settings, now: Time) {
    && st.rates == Window.Touched(st.rateHits, cfg.rateWindow) && Window.Monotone(st.rateHits)
    && forall i | 0 <= i < |st.rateHits| :: st.rateHits[i].now <= now
  }

  lemma DecideRates(st: State, cfg: Settings, r: Request, now: Time)
    ensures var (st1, outcome) := Decide(st, cfg, r, now);
            && st1.rateHits == st.rateHits + [Window.Hit(RateKey(r), now)]
            && st1.rates == Window.Touch(st.rates, RateKey(r), cfg.rateWindow, now)
            && (outcome == Forwarded ==> |Window.Get(st1.rates, RateKey(r))| <= 1000)
  {
    hide Rules.Evaluate, RuleView, RateKey, OrderEntry, AccessEntry, Window.Touch, Window.Get, Risk.Judge, SignalsOf,
      Breaker.Next;
  }

  /** A request is counted once, or not at all; it is forwarded only if the count is within the hard cap. */
  lemma HandleRates(st: State, cfg: Settings, r: Request, now: Time)
    ensures var (st', outcome) := Handle(st, cfg, r, now);
            || (outcome != Forwarded && st'.rates == st.rates && st'.rateHits == st.rateHits)
            || (&& st'.rateHits == st.rateHits + [Window.Hit(RateKey(r), now)]
                && st'.rates == Window.Touch(st.rates, RateKey(r), cfg.rateWindow, now)
                && (outcome == Forwarded ==> |Window.Get(st'.rates, RateKey(r))| <= 1000))
  {
    ScreenEffect(st, cfg, r, now);
    var st1 := Screen(st, cfg, r, now).0;
    FreshnessEffect(st1, cfg, r, now);
    var st2 := Freshness(st1, cfg, r, now).0;
    IdentityEffect(st2, cfg, r, now);
    DecideRates(Identity(st2, cfg, r, now).0, cfg, r, now);
    hide Managed, Screen, Freshness, Identity, Decide, Mutates, AuthExempt, Mitigation.Evaluate, RateKey, Window.Touch,
      Window.Get, ReplayGuard.Validate, Attacks, RouteOf, SchemaVerdict, Oversized;
  }

  lemma {:induction false} RunRates(cfg: Settings, start: Time, steps: seq<Step>, now: Time)
    requires Monotone(steps) && (steps != [] ==> steps[|steps| - 1].now <= now)
    ensures RatesFaithful(Run(cfg, start, steps), cfg, now)
  {
    hide Handle, Monotone, Window.Touched, Window.Touch, RateKey, Mitigation.Apply, Mitigation.Rollback, Breaker.Next,
      CredentialDefense.Step;
    if steps == [] {
      NothingTouched(cfg);
    } else {
      var before, last := steps[..|steps| - 1], steps[|steps| - 1];
      MonotonePrefix(steps);
      RunRates(cfg, start, before, last.now);
      if last.Arrive? {
        var st := Run(cfg, start, before);
        HandleRates(st, cfg, last.request, last.now);
        TouchedGrows(st.rateHits, Window.Hit(RateKey(last.request), last.now), cfg.rateWindow);
      }
    }
  }

  lemma NothingTouched(cfg: Settings)
    ensures Window.Touched([], cfg.rateWindow) == map[]
  {
  }

  /** Step `i` forwards a request entered under `key`, at a time from `a` up to `b`. */
  predicate ForwardsUnder(cfg: Settings, start: Time, steps: seq<Step>, i: int, ledger: Ledger, key: string, a: Time,
                          b: Time) {
    && ForwardedAt(cfg, start, steps, i) && a <= steps[i].now < b
    && EntryOf(ledger, cfg, steps[i].request, steps[i].now) == [Window.Hit(key, steps[i].now)]
  }

  /** How many requests entered under `key` are forwarded from `a` up to `b`. */
  function ForwardedIn(cfg: Settings, start: Time, steps: seq<Step>, ledger: Ledger, key: string, a: Time,
                       b: Time): nat {
    if steps == [] then 0
    else
      ForwardedIn(cfg, start, steps[..|steps| - 1], ledger, key, a, b)
      + if ForwardsUnder(cfg, start, steps, |steps| - 1, ledger, key, a, b) then 1 else 0
  }

  lemma {:induction false} PassedGrows(hits: seq<Window.Hit>, h: Window.Hit, window: Time, limit: int, key: string,
                                       a: Time, b: Time)
    ensures Window.PassedIn(hits + [h], window, limit, key, a, b)
            == Window.PassedIn(hits, window, limit, key, a, b)
               + if h.key == key && a <= h.now < b && |Window.Get(Window.Touched(hits + [h], window), key)| <= limit
                 then 1 else 0
  {
    assert (hits + [h])[..|hits|] == hits;
  }

  /** A step that forwards a request under a key enters it in the history of that key, within the limit. */
  lemma {:induction false} StepPasses(cfg: Settings, start: Time, steps: seq<Step>, ledger: Ledger, key: string,
                                      a: Time, b: Time)
    requires UsesShipped(cfg) && Monotone(steps) && steps != []
    ensures var n := |steps| - 1;
            Window.PassedIn(HitsOf(ledger, Run(cfg, start, steps)), SpanOf(cfg, ledger), LimitOf(ledger), key, a, b)
            >= Window.PassedIn(HitsOf(ledger, Run(cfg, start, steps[..n])), SpanOf(cfg, ledger), LimitOf(ledger), key,
                               a, b)
               + if ForwardsUnder(cfg, start, steps, n, ledger, key, a, b) then 1 else 0
  {
    hide Handle, UsesShipped, Mitigation.Apply, Mitigation.Rollback, Breaker.Next, CredentialDefense.Step, OrderEntry,
      AccessEntry, Claimed, Monotone, Window.Touch, Window.Touched, Window.Get, Window.PassedIn, ReplayGuard.Nonces,
      ReplayGuard.Validate, Mutates;
    var before, last := steps[..|steps| - 1], steps[|steps| - 1];
    if last.Arrive? {
      var st, entry := Run(cfg, start, before), EntryOf(ledger, cfg, last.request, last.now);
      HandleEffect(st, cfg, last.request, last.now);
      HandleRates(st, cfg, last.request, last.now);
      RunIsFaithful(cfg, start, steps, last.now);
      RunRates(cfg, start, steps, last.now);
      if |entry| == 1 {
        assert entry == [entry[0]];
        PassedGrows(HitsOf(ledger, st), entry[0], SpanOf(cfg, ledger), LimitOf(ledger), key, a, b);
      }
    }
  }

  /** Each request forwarded under a key is one the history of that key found within its limit. */
  lemma {:induction false} ForwardedAmongPassed(cfg: Settings, start: Time, steps: seq<Step>, ledger: Ledger,
                                                key: string, a: Time, b: Time)
    requires UsesShipped(cfg) && Monotone(steps)
    ensures ForwardedIn(cfg, start, steps, ledger, key, a, b)
            <= Window.PassedIn(HitsOf(ledger, Run(cfg, start, steps)), SpanOf(cfg, ledger), LimitOf(ledger), key, a, b)
  {
    hide UsesShipped, Run, Monotone, Window.PassedIn, ForwardsUnder;
    if steps == [] {
    } else {
      MonotonePrefix(steps);
      ForwardedAmongPassed(cfg, start, steps[..|steps| - 1], ledger, key, a, b);
      StepPasses(cfg, start, steps, ledger, key, a, b);
    }
  }

  /** In every run with the shipped rules and a clock that does not go back: per client at most a hundred sensitive
      requests reach the ERP in any half-open minute, and per client and order at most one in any half-open five
      seconds. */
  lemma {:induction false} ForwardedAtMostLimit(cfg: Settings, start: Time, steps: seq<Step>, ledger: Ledger,
                                                key: string, a: Time)
    requires UsesShipped(cfg) && Monotone(steps)
    ensures ForwardedIn(cfg, start, steps, ledger, key, a, a + SpanOf(cfg, ledger)) <= LimitOf(ledger)
  {
    hide Run, ForwardedIn, Window.PassedIn, Window.Touched, UsesShipped, Window.Monotone, ReplayGuard.Nonces,
      ReplayGuard.Monotone;
    ForwardedAmongPassed(cfg, start, steps, ledger, key, a, a + SpanOf(cfg, ledger));
    RunIsFaithful(cfg, start, steps, if steps == [] then 0 else steps[|steps| - 1].now);
    RunRates(cfg, start, steps, if steps == [] then 0 else steps[|steps| - 1].now);
    Window.PassedAtMostLimit(HitsOf(ledger, Run(cfg, start, steps)), SpanOf(cfg, ledger), LimitOf(ledger), key, a);
  }

  /** The bounds in figures: of the requests of one client for orders or users, at most a hundred reach the ERP in any
      half-open minute; of identical orders with a body, one in any five seconds; of all requests from one address, a
      thousand in any window of the rate limiter. */
  lemma {:induction false} BoundsInFigures(cfg: Settings, start: Time, steps: seq<Step>, key: string, a: Time)
    requires UsesShipped(cfg) && Monotone(steps)
    ensures ForwardedIn(cfg, start, steps, Accesses, key, a, a + 60 * SECOND) <= 100
    ensures ForwardedIn(cfg, start, steps, Orders, key, a, a + 5 * SECOND) <= 1
    ensures ForwardedIn(cfg, start, steps, Rates, key, a, a + cfg.rateWindow) <= 1000
  {
    hide UsesShipped, Monotone, ForwardedIn;
    ForwardedAtMostLimit(cfg, start, steps, Accesses, key, a);
    ForwardedAtMostLimit(cfg, start, steps, Orders, key, a);
    ForwardedAtMostLimit(cfg, start, steps, Rates, key, a);
  }

  /** One worker process of a deployment: when it started, and what happened to it. */
  datatype Worker = Worker(start: Time, steps: seq<Step>)

  function ForwardedByAll(cfg: Settings, workers: seq<Worker>, ledger: Ledger, key: string, a: Time, b: Time): nat {
    if workers == [] then 0
    else
      var last := workers[|workers| - 1];
      ForwardedByAll(cfg, workers[..|workers| - 1], ledger, key, a, b)
      + ForwardedIn(cfg, last.start, last.steps, ledger, key, a, b)
  }

  /** Each worker keeps histories of its own, so the bounds of a deployment are those of one worker times their
      number. */
  lemma {:induction false} WorkersForwardAtMost(cfg: Settings, workers: seq<Worker>, ledger: Ledger, key: string,
                                                a: Time)
    requires UsesShipped(cfg) && forall i | 0 <= i < |workers| :: Monotone(workers[i].steps)
    ensures ForwardedByAll(cfg, workers, ledger, key, a, a + SpanOf(cfg, ledger)) <= |workers| * LimitOf(ledger)
  {
    hide UsesShipped, ForwardedIn, Monotone;
    if workers == [] {
    } else {
      var last := workers[|workers| - 1];
      WorkersForwardAtMost(cfg, workers[..|workers| - 1], ledger, key, a);
      ForwardedAtMostLimit(cfg, last.start, last.steps, ledger, key, a);
      assert |workers| * LimitOf(ledger) == (|workers| - 1) * LimitOf(ledger) + LimitOf(ledger);
    }
  }

  lemma {:induction false} ForwardedInGrows(cfg: Settings, start: Time, steps: seq<Step>, n: nat, ledger: Ledger,
                                            key: string, a: Time, b: Time)
    requires n <= |steps|
    ensures ForwardedIn(cfg, start, steps[..n], ledger, key, a, b) <= ForwardedIn(cfg, start, steps, ledger, key, a, b)
  {
    hide ForwardsUnder;
    if n < |steps| {
      ForwardedInGrows(cfg, start, steps[..|steps| - 1], n, ledger, key, a, b);
      assert steps[..|steps| - 1][..n] == steps[..n];
    } else {
      assert steps[..n] == steps;
    }
  }

  lemma {:induction false} ForwardsUnderPrefix(cfg: Settings, start: Time, steps: seq<Step>, n: nat, i: int,
                                               ledger: Ledger, key: string, a: Time, b: Time)
    requires i < n <= |steps|
    ensures ForwardsUnder(cfg, start, steps[..n], i, ledger, key, a, b)
            == ForwardsUnder(cfg, start, steps, i, ledger, key, a, b)
  {
    hide Handle, EntryOf;
    if 0 <= i {
      assert steps[..n][..i] == steps[..i];
    }
  }

  /** Two orders with one client and one body never reach the ERP less than five seconds apart. */
  lemma {:induction false} IdenticalOrdersApart(cfg: Settings, start: Time, steps: seq<Step>, i: int, j: int)
    requires UsesShipped(cfg) && Monotone(steps) && i < j
    requires ForwardedAt(cfg, start, steps, i) && ForwardedAt(cfg, start, steps, j)
    requires var v, w := RuleView(cfg, steps[i].request), RuleView(cfg, steps[j].request);
             Rules.IsOrder(v) && Rules.IsOrder(w) && Rules.ClientRef(v) == Rules.ClientRef(w)
               && v.bodyText == w.bodyText
    ensures steps[j].now - steps[i].now >= 5 * SECOND
  {
    hide Handle, Rules.IsOrder, Rules.ClientRef, RuleView, UsesShipped, Run, Rules.Evaluate, Mutates, AuthExempt;
    var key, a := Rules.OrderKey(RuleView(cfg, steps[i].request), cfg.digest), steps[i].now;
    var b := a + SpanOf(cfg, Orders);
    if steps[j].now < b {
      assert steps[i].now <= steps[j].now;
      assert ForwardsUnder(cfg, start, steps, i, Orders, key, a, b)
          && ForwardsUnder(cfg, start, steps, j, Orders, key, a, b);
      ForwardsUnderPrefix(cfg, start, steps, i + 1, i, Orders, key, a, b);
      ForwardsUnderPrefix(cfg, start, steps, j + 1, j, Orders, key, a, b);
      ForwardedInGrows(cfg, start, steps[..j], i + 1, Orders, key, a, b);
      assert steps[..j][..i + 1] == steps[..i + 1] && steps[..j + 1][..j] == steps[..j];
      assert ForwardedIn(cfg, start, steps[..i + 1], Orders, key, a, b) >= 1;
      assert ForwardedIn(cfg, start, steps[..j + 1], Orders, key, a, b) >= 2;
      ForwardedInGrows(cfg, start, steps, j + 1, Orders, key, a, b);
      ForwardedAtMostLimit(cfg, start, steps, Orders, key, a);
    }
  }

  // ---------------------------------------------------------------- replays and containments

  lemma {:induction false} AttemptsGrow(cfg: Settings, start: Time, steps: seq<Step>, n: nat)
    requires UsesShipped(cfg) && n <= |steps|
    ensures Run(cfg, start, steps[..n]).attempts <= Run(cfg, start, steps).attempts
  {
    hide Handle, UsesShipped, Mitigation.Apply, Mitigation.Rollback, Breaker.Next, CredentialDefense.Step, Recorded,
      Mutates, OrderEntry, AccessEntry, AttemptOf, ReplayGuard.Validate, Window.Get;
    if n < |steps| {
      var before, last := steps[..|steps| - 1], steps[|steps| - 1];
      AttemptsGrow(cfg, start, before, n);
      assert before[..n] == steps[..n];
      if last.Arrive? {
        HandleEffect(Run(cfg, start, before), cfg, last.request, last.now);
      }
    } else {
      assert steps[..n] == steps;
    }
  }

  /** A forwarded state-changing request was accepted by the replay guard, at its place among all attempts of the
      run. */
  lemma {:induction false} ForwardedWasAccepted(cfg: Settings, start: Time, steps: seq<Step>, i: int)
    requires UsesShipped(cfg) && Monotone(steps) && ForwardedAt(cfg, start, steps, i) && Mutates(steps[i].request)
    ensures var attempts, at := Run(cfg, start, steps).attempts, |Run(cfg, start, steps[..i]).attempts|;
            && at < |Run(cfg, start, steps[..i + 1]).attempts|
            && ReplayGuard.Passes(attempts, cfg.maxSkew, at)
            && attempts[at] == AttemptOf(steps[i].request, steps[i].now)
  {
    hide Handle, UsesShipped, Mutates, Recorded, OrderEntry, AccessEntry, ReplayGuard.UniqueKey, Window.Get,
      ReplayGuard.Validate, ReplayGuard.Nonces, Window.Touched, Mitigation.Apply, Mitigation.Rollback, Breaker.Next,
      CredentialDefense.Step;
    var st, r := Run(cfg, start, steps[..i]), steps[i].request;
    HandleEffect(st, cfg, r, steps[i].now);
    assert steps[..i + 1][..i] == steps[..i];
    AttemptsGrow(cfg, start, steps, i + 1);
    assert Monotone(steps[..i]);
    RunIsFaithful(cfg, start, steps[..i], steps[i].now);
    assert Run(cfg, start, steps).attempts[..|st.attempts|] == st.attempts;
  }

  /** Two forwarded state-changing requests with one nonce or idempotency key are more than the permitted skew apart,
      whatever else happens to the gateway in between. */
  lemma {:induction false} ForwardedNoncesApart(cfg: Settings, start: Time, steps: seq<Step>, i: int, j: int)
    requires UsesShipped(cfg) && Monotone(steps) && i < j
    requires ForwardedAt(cfg, start, steps, i) && Mutates(steps[i].request)
    requires ForwardedAt(cfg, start, steps, j) && Mutates(steps[j].request)
    requires AttemptOf(steps[i].request, steps[i].now).key == AttemptOf(steps[j].request, steps[j].now).key != ""
    ensures steps[j].now - steps[i].now > cfg.maxSkew
  {
    ForwardedWasAccepted(cfg, start, steps, i);
    ForwardedWasAccepted(cfg, start, steps, j);
    AttemptsGrow(cfg, start, steps[..j], i + 1);
    assert steps[..j][..i + 1] == steps[..i + 1];
    RunIsFaithful(cfg, start, steps, steps[|steps| - 1].now);
    var attempts := Run(cfg, start, steps).attempts;
    var at, bt := |Run(cfg, start, steps[..i]).attempts|, |Run(cfg, start, steps[..j]).attempts|;
    hide Run, Handle, ForwardedAt, UsesShipped, Mutates, ReplayGuard.Passes, ReplayGuard.Monotone;
    ReplayGuard.AcceptancesSpaced(attempts, cfg.maxSkew, at, bt);
  }

  /** Every text of the request that the scanner looks at. */
  function Inspected(cfg: Settings, r: Request): seq<string> {
    [r.url, r.text]
    + (if Embedded(cfg, r.url).Some? then Waf.Texts(Embedded(cfg, r.url).value) else [])
    + (if Embedded(cfg, r.text).Some? then Waf.Texts(Embedded(cfg, r.text).value) else [])
    + (if Payload(cfg, r).Some? && Truthy(Payload(cfg, r).value) then Waf.Texts(Payload(cfg, r).value) else [])
  }

  /** The scanner lets a request pass exactly when no family of patterns finds anything in any variant of its URL,
      of its body, or of any key or string inside its JSON. */
  lemma NoAttackExactly(cfg: Settings, r: Request)
    ensures !Attacks(cfg, r) <==> forall i | 0 <= i < |Inspected(cfg, r)| ::
            Waf.Harmless(cfg.detectors, Inspected(cfg, r)[i])
  {
    hide Attacks, Inspected;
    AttacksByMaximum(cfg, r);
    Waf.NoneThreatens(cfg.detectors, Inspected(cfg, r));
  }

  /** The three scans amount to the maximum over all inspected texts. */
  lemma AttacksByMaximum(cfg: Settings, r: Request)
    ensures Attacks(cfg, r) <==> Waf.MaxThreat(cfg.detectors, Inspected(cfg, r)) > 0
  {
    var d := cfg.detectors;
    var inUrl := if Embedded(cfg, r.url).Some? then Waf.Texts(Embedded(cfg, r.url).value) else [];
    var inText := if Embedded(cfg, r.text).Some? then Waf.Texts(Embedded(cfg, r.text).value) else [];
    var inPayload := if Payload(cfg, r).Some? && Truthy(Payload(cfg, r).value) then Waf.Texts(Payload(cfg, r).value)
        else [];
    hide Embedded, Payload, Waf.TextThreat, Waf.Texts, Waf.MaxThreat, Truthy;
    Waf.MaxThreatConcat(d, [r.url, r.text] + inUrl + inText, inPayload);
    Waf.MaxThreatConcat(d, [r.url, r.text] + inUrl, inText);
    Waf.MaxThreatConcat(d, [r.url, r.text], inUrl);
    PairThreat(cfg, r.url, r.text);
    NothingThreatens(cfg);
  }

  lemma PairThreat(cfg: Settings, a: string, b: string)
    ensures Waf.MaxThreat(cfg.detectors, [a, b])
            == Max(Waf.TextThreat(cfg.detectors, a), Max(Waf.TextThreat(cfg.detectors, b), 0))
  {
    hide Waf.TextThreat;
    assert [a, b][1..] == [b] && [b][1..] == [];
    assert Waf.MaxThreat(cfg.detectors, [b]) == Max(Waf.TextThreat(cfg.detectors, b), 0);
  }

  lemma NothingThreatens(cfg: Settings)
    ensures Waf.MaxThreat(cfg.detectors, []) == 0 && Waf.TextThreat(cfg.detectors, "") == 0 && Embedded(cfg, "") == None
  {
  }

  /** No request reaches the ERP under a suspended principal or a revoked token, none fires a rule or reaches for an
      object it may not touch, none shows an attack in any variant of any text, and each is permitted by the best
      matching route. */
  lemma {:induction false} ForwardedIsClean(cfg: Settings, start: Time, steps: seq<Step>, i: int)
    requires UsesShipped(cfg) && ForwardedAt(cfg, start, steps, i)
    ensures var e, r := Run(cfg, start, steps[..i]).mitigation, steps[i].request;
            && (!AuthExempt(cfg, r) ==> r.authorized && !Mitigation.NamedSuspended(e, r.principal))
            && (r.authHeader != "" ==>
                  && Mitigation.CleanToken(r.authHeader) !in e.local.revokedTokens
                  && Mitigation.CleanToken(r.authHeader) !in e.shared.revokedTokens)
            && Rules.Evaluate(Run(cfg, start, steps[..i]).rules, cfg.rules, RuleView(cfg, r), cfg.digest,
                 steps[i].now).2 == []
    ensures forall k | 0 <= k < |Inspected(cfg, steps[i].request)| ::
              Waf.Harmless(cfg.detectors, Inspected(cfg, steps[i].request)[k])
    ensures exists k | 0 <= k < |cfg.routes| ::
              && Routes.Chosen(cfg.routes, steps[i].request.path, k)
              && Text.Upper(steps[i].request.verb) in cfg.routes[k].methods
  {
    var st, r, now := Run(cfg, start, steps[..i]), steps[i].request, steps[i].now;
    ForwardedEffect(st, cfg, r, now);
    NoAttackExactly(cfg, r);
    Routes.SelectsBest(cfg.routes, r.path);
    hide Run, Handle, Attacks, Inspected, AuthExempt, RuleView, Rules.Evaluate, UsesShipped, Mitigation.CleanToken,
      Routes.Select, Routes.Chosen;
  }

  /** What the gates together imply about a request they let through. */
  lemma ForwardedEffect(st: State, cfg: Settings, r: Request, now: Time)
    requires UsesShipped(cfg) && Handle(st, cfg, r, now).1 == Forwarded
    ensures var e := st.mitigation;
            && (!AuthExempt(cfg, r) ==> r.authorized && !Mitigation.NamedSuspended(e, r.principal))
            && (r.authHeader != "" ==>
                  && Mitigation.CleanToken(r.authHeader) !in e.local.revokedTokens
                  && Mitigation.CleanToken(r.authHeader) !in e.shared.revokedTokens)
            && Rules.Evaluate(st.rules, cfg.rules, RuleView(cfg, r), cfg.digest, now).2 == []
            && !Attacks(cfg, r) && RouteOf(cfg, r).Some? && Text.Upper(r.verb) in RouteOf(cfg, r).value.methods
  {
    ScreenEffect(st, cfg, r, now);
    var st1 := Screen(st, cfg, r, now).0;
    FreshnessEffect(st1, cfg, r, now);
    var st2 := Freshness(st1, cfg, r, now).0;
    IdentityEffect(st2, cfg, r, now);
    var st3 := Identity(st2, cfg, r, now).0;
    DecideEffect(st3, cfg, r, now);
    Mitigation.EvaluateByPriority(st.mitigation, r.clientIp, "", r.authHeader, now);
    Mitigation.EvaluateFrame(st.mitigation, r.clientIp, "", r.authHeader, now);
    Mitigation.EvaluateByPriority(st2.mitigation, r.clientIp, r.principal, r.authHeader, now);
    hide Managed, Screen, Freshness, Identity, Decide, Mutates, AuthExempt, RuleView, Rules.Evaluate,
      Mitigation.Evaluate, UsesShipped, Mitigation.CleanToken, Mitigation.PickQuarantine, Mitigation.PickThrottle,
      OrderEntry, AccessEntry, ReplayGuard.Validate, Window.Touch, Window.Get, Attacks, RouteOf, SchemaVerdict,
      Oversized;
  }

  // ---------------------------------------------------------------- the gates in figures

  /** The gateway answers these paths itself, and no others. */
  lemma BypassExactly(st: State, cfg: Settings, r: Request, now: Time)
    ensures Handle(st, cfg, r, now).1 == Bypassed <==>
              || r.path in {"/docs", "/openapi.json", "/redoc", "/health", "/health/live", "/health/ready",
                            "/api/ml/health", "/api/ml/rollback", "/api/ml/recover", "/api/mitigations/status",
                            "/api/ml/retrain"}
              || StartsWith(r.path, "/api/agents") || StartsWith(r.path, "/api/soc")
              || StartsWith(r.path, "/api/metrics") || StartsWith(r.path, "/api/compliance")
              || StartsWith(r.path, "/api/ha") || StartsWith(r.path, "/api/canary")
  {
    hide Screen, Freshness, Identity, Consult, Risk.Judge, SignalsOf, Breaker.Next;
  }

  /** The first gates in order, each with its status: containment, size, brute force, attack, unknown route, method,
      malformed JSON, schema of a login or an order. */
  lemma ScreenInFigures(st: State, cfg: Settings, r: Request, now: Time)
    ensures var denied := Screen(st, cfg, r, now).1;
            var verdict := Mitigation.Evaluate(st.mitigation, r.clientIp, "", r.authHeader, now).1;
            var check := CredentialDefense.Check(r.clientIp, "", now);
            var counted := CredentialDefense.Step(st.credentials, check, cfg.failureWindow);
            var rule := Routes.Selected(cfg.routes, r.path);
            var body := cfg.parse(r.text);
            if verdict.Deny? then denied == Some(verdict.status)
            else if r.declaredLength.Some? && r.declaredLength.value > cfg.maxBody then denied == Some(413)
            else if |Window.Get(counted.byIp, r.clientIp)| >= cfg.failureThreshold || 0 >= cfg.failureThreshold then
              denied == Some(403)
            else if Attacks(cfg, r) then denied == Some(403)
            else if rule.None? then denied == Some(404)
            else if Text.Upper(r.verb) !in rule.value.methods then denied == Some(405)
            else if r.verb !in {"POST", "PUT"} || r.text == "" then denied == None
            else if body.None? then denied == Some(400)
            else if (r.path == "/api/auth/login" && !cfg.loginSchema(body.value))
                    || (r.path == "/api/orders" && !cfg.orderSchema(body.value)) then denied == Some(422)
            else denied == None
  {
    hide Mitigation.Evaluate, Attacks, Routes.Select, Text.Upper, CredentialDefense.Step, Window.Get;
    assert "/api/auth/login" != "/api/orders" by { assert "/api/auth/login"[5] != "/api/orders"[5]; }
  }

  /** A state-changing request carries a nonce, an idempotency key or a timestamp, unless it is a login or belongs to
      the management paths; else it is refused with 400 before the replay guard sees it. */
  lemma FreshnessInFigures(st: State, cfg: Settings, r: Request, now: Time)
    ensures var (st', denied) := Freshness(st, cfg, r, now);
            var changes := r.verb in {"POST", "PUT", "DELETE", "PATCH"};
            var bare := r.nonce == "" && r.idempotencyKey == "" && r.stamp == ReplayGuard.Absent;
            var exempt := || r.path in {"/api/auth/login", "/health", "/health/live", "/health/ready"}
                          || StartsWith(r.path, "/api/compliance") || StartsWith(r.path, "/api/canary")
                          || StartsWith(r.path, "/api/agents") || StartsWith(r.path, "/api/soc");
            && (!changes ==> denied == None && st' == st)
            && (changes && bare && !exempt ==> denied == Some(400) && st' == st)
            && (changes && bare && exempt ==> denied == None)
            && (changes && !bare ==> denied == None || denied == Some(403))
  {
  }

  /** In every run no request reaches the ERP that changes state, is no login, and carries neither nonce nor
      idempotency key nor timestamp. */
  lemma {:induction false} ForwardedIsFresh(cfg: Settings, start: Time, steps: seq<Step>, i: int)
    requires ForwardedAt(cfg, start, steps, i)
    requires steps[i].request.verb in {"POST", "PUT", "DELETE", "PATCH"} && steps[i].request.path != "/api/auth/login"
    ensures var r := steps[i].request;
            r.nonce != "" || r.idempotencyKey != "" || r.stamp != ReplayGuard.Absent
  {
    var st, r, now := Run(cfg, start, steps[..i]), steps[i].request, steps[i].now;
    BypassExactly(st, cfg, r, now);
    FreshnessInFigures(Screen(st, cfg, r, now).0, cfg, r, now);
    hide Run, Managed, Screen, Freshness, Identity, Decide;
  }

  /** Such a request, if it passes the screen, is refused with 400, and nothing but the screen has seen it. */
  lemma BareChangeIsRefused(st: State, cfg: Settings, r: Request, now: Time)
    requires r.verb in {"POST", "PUT", "DELETE", "PATCH"} && r.path != "/api/auth/login"
    requires r.nonce == "" && r.idempotencyKey == "" && r.stamp == ReplayGuard.Absent
    requires Handle(st, cfg, r, now).1 != Bypassed && Screen(st, cfg, r, now).1 == None
    ensures Handle(st, cfg, r, now) == (Screen(st, cfg, r, now).0, Denied(400))
  {
    BypassExactly(st, cfg, r, now);
    FreshnessInFigures(Screen(st, cfg, r, now).0, cfg, r, now);
    hide Screen, Freshness, Identity, Decide;
  }

  /** Who needs no token, and what those who do are refused with. */
  lemma IdentityInFigures(st: State, cfg: Settings, r: Request, now: Time)
    ensures var denied := Identity(st, cfg, r, now).1;
            var rule := Routes.Selected(cfg.routes, r.path);
            var exempt := || (rule.Some? && !rule.value.authRequired)
                          || r.path == "/health" || r.path == "/api/auth/login";
            var verdict := Mitigation.Evaluate(st.mitigation, r.clientIp, r.principal, r.authHeader, now).1;
            denied == if exempt then None else if !r.tokenValid then Some(401)
                      else if verdict.Deny? then Some(verdict.status) else None
  {
    hide Mitigation.Evaluate, Routes.Selected;
  }

  /** What the rules are shown: the path, the method in upper case, the parsed body if it is a JSON object or array, the
      principal or else the address, the role, and whether there is a principal; an exempt request shows neither
      principal nor role. */
  lemma ViewInFigures(cfg: Settings, r: Request)
    ensures var v := RuleView(cfg, r);
            var rule := Routes.Selected(cfg.routes, r.path);
            var exempt := || (rule.Some? && !rule.value.authRequired)
                          || r.path == "/health" || r.path == "/api/auth/login";
            var t := Text.Strip(r.text);
            && v.path == r.path && v.verb == Text.Upper(r.verb) && v.clientIp == r.clientIp
            && v.userId == (if exempt || r.principal == "" then r.clientIp else r.principal)
            && v.role == (if exempt then "" else r.role) && v.authenticated == (!exempt && r.principal != "")
            && v.body == (if t != "" && t[0] in {'{', '['} && cfg.parse(r.text).Some? then cfg.parse(r.text).value
                 else Obj([]))
            && v.bodyText == cfg.canonical(v.body)
  {
    hide Routes.Selected;
    var t := Text.Strip(r.text);
    assert LooksJson(r.text) <==> t != "" && t[0] in {'{', '['};
  }

  /** What the scanner looks for inside a text: its JSON, if without blanks around it begins like an object or an
      array. */
  lemma EmbeddedInFigures(cfg: Settings, s: string)
    ensures var t := Text.Strip(s);
            Embedded(cfg, s) == if t != "" && t[0] in {'{', '['} then cfg.parse(t) else None
  {
    var t := Text.Strip(s);
    assert LooksJson(s) <==> t != "" && t[0] in {'{', '['};
  }

  /** The last gates in order, each with its status: blocked, challenged, over a thousand requests of the address in the
      window, upstream unavailable. */
  lemma DecideInFigures(st: State, cfg: Settings, r: Request, now: Time)
    ensures var outcome := Decide(st, cfg, r, now).1;
            var severity := Rules.Evaluate(st.rules, cfg.rules, RuleView(cfg, r), cfg.digest, now).1;
            var count := |Window.After(Window.Get(st.rates, "rate:" + r.clientIp), now - cfg.rateWindow)| + 1;
            var decision := Risk.Judge(SignalsOf(cfg, r, severity, count));
            var event := Breaker.Next(cfg.breaker, st.breaker, Breaker.Allow(now)).1;
            outcome == if decision == Risk.Block then Denied(403) else if decision == Risk.Challenge then Denied(401)
                       else if count > 1000 then Denied(429)
                       else if event.Admit? || event.Trial? then Forwarded else Denied(503)
  {
    hide Rules.Evaluate, RuleView, Risk.Judge, SignalsOf, Breaker.Next, Window.After, OrderEntry, AccessEntry;
    assert RateKey(r) == "rate:" + r.clientIp;
  }

  /** What the risk engine is told: 95 for a refused object; for an exempt request no authentication anomaly and a
      trust of 0.85; the grade of the request count, the rule severity and the anomaly as they are. */
  lemma SignalsInFigures(cfg: Settings, r: Request, severity: int, count: int)
    ensures var s := SignalsOf(cfg, r, severity, count);
            var rule := Routes.Selected(cfg.routes, r.path);
            var exempt := || (rule.Some? && !rule.value.authRequired)
                          || r.path == "/health" || r.path == "/api/auth/login";
            && s.waf == (if exempt || r.authorized then 0.0 else 95.0) && s.context == 0.0 && s.path == r.path
            && s.auth == (if exempt then 0.0 else r.authAnomaly) && s.trust == (if exempt then 0.85 else r.trust)
            && s.rate == Limiter.RateScore(count) as real && s.rule == severity as real && s.anomaly == r.anomaly
  {
    hide Routes.Selected;
  }

  /** What the other steps do: an answer of the ERP is a success to the breaker and, if it refused a login, a failure
      to the credential defense; no answer is a failure to the breaker; containment orders reach the engine and
      nothing else. */
  lemma StepsInFigures(st: State, cfg: Settings, s: Step)
    ensures s.Reply? ==>
              var st' := StepState(st, cfg, s);
              && st'.breaker == Breaker.Next(cfg.breaker, st.breaker, Breaker.Success(s.now)).0
              && st' == st.(breaker := st'.breaker, credentials := st'.credentials, logins := st'.logins)
              && (s.failedLogin ==>
                    |Window.Get(st'.credentials.byIp, s.ip)| == |Window.Get(st.credentials.byIp, s.ip)| + 1)
              && (!s.failedLogin ==> st'.credentials == st.credentials)
    ensures s.Unreachable? ==>
              StepState(st, cfg, s) == st.(breaker := Breaker.Next(cfg.breaker, st.breaker, Breaker.Failure(s.now)).0)
    ensures s.Contain? || s.Release? ==> StepState(st, cfg, s) == st.(mitigation := StepState(st, cfg, s).mitigation)
    ensures s.Contain? && Mitigation.Outcome(s.action, s.whitelisted) == Mitigation.Applied ==>
              s.action.id in StepState(st, cfg, s).mitigation.local.registry
    ensures s.Release? ==> s.id !in StepState(st, cfg, s).mitigation.local.registry
  {
    hide Handle, Breaker.Next, Mitigation.Enforce, Mitigation.Release, Mitigation.Outcome;
  }

  // ---------------------------------------------------------------- brute force

  /** The times of all failed logins from an address, however long ago. */
  function FailedLogins(steps: seq<Step>, ip: string): seq<Time> {
    if steps == [] then []
    else
      var last := steps[|steps| - 1];
      FailedLogins(steps[..|steps| - 1], ip) + if last.Reply? && last.failedLogin && last.ip == ip then [last.now]
        else []
  }

  /** The credential defense is what its history makes of it, and the history is that of the run. */
  ghost predicate LoginsFaithful(st: State, cfg: Settings, steps: seq<Step>, now: Time) {
    && st.credentials == CredentialDefense.Run(st.logins, cfg.failureWindow)
    && CredentialDefense.Monotone(st.logins) && (forall i | 0 <= i < |st.logins| :: st.logins[i].now <= now)
    && (forall ip :: CredentialDefense.IpFailures(st.logins, ip) == FailedLogins(steps, ip))
  }

  lemma {:induction false} LoginsGrow(logins: seq<CredentialDefense.Event>, e: CredentialDefense.Event, window: Time,
                                      now: Time)
    requires CredentialDefense.Monotone(logins) && (forall i | 0 <= i < |logins| :: logins[i].now <= now)
            && now <= e.now
    ensures CredentialDefense.Run(logins + [e], window)
            == CredentialDefense.Step(CredentialDefense.Run(logins, window), e, window)
    ensures CredentialDefense.Monotone(logins + [e]) && forall i | 0 <= i <= |logins| :: (logins + [e])[i].now <= e.now
    ensures forall ip :: CredentialDefense.IpFailures(logins + [e], ip)
                         == CredentialDefense.IpFailures(logins, ip) + if e.Failure? && e.ip == ip then [e.now] else []
  {
    assert (logins + [e])[..|logins|] == logins;
  }

  /** A request touches the credential defense only in the screen. */
  lemma HandleLogins(st: State, cfg: Settings, r: Request, now: Time)
    ensures var (st', outcome) := Handle(st, cfg, r, now);
            var check := CredentialDefense.Check(r.clientIp, "", now);
            || (outcome != Forwarded && st'.credentials == st.credentials && st'.logins == st.logins)
            || (&& st'.logins == st.logins + [check]
                && st'.credentials == CredentialDefense.Step(st.credentials, check, cfg.failureWindow)
                && (outcome == Forwarded ==> !CredentialDefense.Flag(st'.credentials, r.clientIp, "",
                     cfg.failureThreshold)))
  {
    ScreenEffect(st, cfg, r, now);
    ScreenLogins(st, cfg, r, now);
    var st1 := Screen(st, cfg, r, now).0;
    FreshnessEffect(st1, cfg, r, now);
    var st2 := Freshness(st1, cfg, r, now).0;
    IdentityEffect(st2, cfg, r, now);
    DecideFrame(Identity(st2, cfg, r, now).0, cfg, r, now);
    hide Managed, Screen, Freshness, Identity, Decide, Mutates, AuthExempt, Mitigation.Evaluate,
      CredentialDefense.Step, CredentialDefense.Flag, ReplayGuard.Validate, Attacks, RouteOf, SchemaVerdict, Oversized;
  }

  lemma {:induction false} FailedLoginsGrow(steps: seq<Step>, s: Step, ip: string)
    ensures FailedLogins(steps + [s], ip)
            == FailedLogins(steps, ip) + if s.Reply? && s.failedLogin && s.ip == ip then [s.now] else []
  {
    assert (steps + [s])[..|steps|] == steps;
  }

  /** The event that a step adds to the history of the credential defense, if any. */
  ghost predicate LoginsMove(st: State, st': State, cfg: Settings, s: Step) {
    || (st'.logins == st.logins && st'.credentials == st.credentials && !(s.Reply? && s.failedLogin))
    || exists e ::
         && st'.logins == st.logins + [e] && e.now == s.now
         && st'.credentials == CredentialDefense.Step(st.credentials, e, cfg.failureWindow)
         && (if s.Reply? && s.failedLogin then e.Failure? && e.ip == s.ip else e.Check?)
  }

  lemma StepMovesLogins(st: State, cfg: Settings, s: Step)
    ensures LoginsMove(st, StepState(st, cfg, s), cfg, s)
  {
    if s.Arrive? {
      HandleLogins(st, cfg, s.request, s.now);
    }
    assert st.logins + [] == st.logins;
    hide Handle, CredentialDefense.Step, CredentialDefense.Flag, Mitigation.Apply, Mitigation.Rollback, Breaker.Next;
  }

  lemma {:induction false} StepLogins(st: State, cfg: Settings, steps: seq<Step>, s: Step, past: Time)
    requires LoginsFaithful(st, cfg, steps, past) && past <= s.now
    ensures LoginsFaithful(StepState(st, cfg, s), cfg, steps + [s], s.now)
  {
    StepMovesLogins(st, cfg, s);
    var st' := StepState(st, cfg, s);
    hide StepState, CredentialDefense.Run, CredentialDefense.Step, CredentialDefense.IpFailures, FailedLogins;
    if e :| && st'.logins == st.logins + [e] && e.now == s.now
            && st'.credentials == CredentialDefense.Step(st.credentials, e, cfg.failureWindow)
            && (if s.Reply? && s.failedLogin then e.Failure? && e.ip == s.ip else e.Check?) {
      LoginsGrow(st.logins, e, cfg.failureWindow, past);
    }
    forall ip
      ensures CredentialDefense.IpFailures(st'.logins, ip) == FailedLogins(steps + [s], ip)
    {
      FailedLoginsGrow(steps, s, ip);
    }
  }

  lemma {:induction false} RunLogins(cfg: Settings, start: Time, steps: seq<Step>, now: Time)
    requires Monotone(steps) && (steps != [] ==> steps[|steps| - 1].now <= now)
    ensures LoginsFaithful(Run(cfg, start, steps), cfg, steps, now)
  {
    if steps == [] {
    } else {
      hide StepState, Monotone, CredentialDefense.Run, CredentialDefense.Monotone, CredentialDefense.IpFailures,
        FailedLogins;
      var before, last := steps[..|steps| - 1], steps[|steps| - 1];
      MonotonePrefix(steps);
      RunLogins(cfg, start, before, last.now);
      assert steps == before + [last];
      StepLogins(Run(cfg, start, before), cfg, before, last, last.now);
    }
  }

  /** In every run, no request is forwarded from an address with as many failed logins in the window that ends with the
      request as the threshold allows, counted over the whole history of the run. */
  lemma {:induction false} ForwardedBelowThreshold(cfg: Settings, start: Time, steps: seq<Step>, i: int)
    requires Monotone(steps) && ForwardedAt(cfg, start, steps, i)
    ensures var ip, now := steps[i].request.clientIp, steps[i].now;
            |Window.After(FailedLogins(steps[..i], ip), now - cfg.failureWindow)| < cfg.failureThreshold
  {
    hide Handle, Run, Window.After, CredentialDefense.Run, CredentialDefense.IpFailures, CredentialDefense.Flag,
      CredentialDefense.Step, FailedLogins;
    var st, r, now := Run(cfg, start, steps[..i]), steps[i].request, steps[i].now;
    var check := CredentialDefense.Check(r.clientIp, "", now);
    assert Monotone(steps[..i]);
    RunLogins(cfg, start, steps[..i], now);
    HandleLogins(st, cfg, r, now);
    LoginsGrow(st.logins, check, cfg.failureWindow, now);
    assert (st.logins + [check])[|st.logins|] == check;
    CredentialDefense.CheckIsExact(st.logins + [check], cfg.failureWindow, cfg.failureThreshold);
    assert CredentialDefense.IpFailures(st.logins + [check], r.clientIp) == FailedLogins(steps[..i], r.clientIp);
  }

  // ---------------------------------------------------------------- the breaker

  lemma DecideFrame(st: State, cfg: Settings, r: Request, now: Time)
    ensures var (st1, outcome) := Decide(st, cfg, r, now);
            var (breaker, event) := Breaker.Next(cfg.breaker, st.breaker, Breaker.Allow(now));
            && st1.credentials == st.credentials && st1.logins == st.logins
            && (st1.breaker == st.breaker || st1.breaker == breaker)
            && (outcome == Forwarded ==> Breaker.Admitted(event))
  {
    hide Rules.Evaluate, RuleView, RateKey, OrderEntry, AccessEntry, Window.Touch, Window.Get, Risk.Judge, SignalsOf,
      Breaker.Next;
  }

  /** A request moves the breaker at most by asking it for admission, and is forwarded only if admitted. */
  lemma HandleBreaker(st: State, cfg: Settings, r: Request, now: Time)
    ensures var (st', outcome) := Handle(st, cfg, r, now);
            var (breaker, event) := Breaker.Next(cfg.breaker, st.breaker, Breaker.Allow(now));
            && (st'.breaker == st.breaker || st'.breaker == breaker)
            && (outcome == Forwarded ==> Breaker.Admitted(event))
  {
    ScreenEffect(st, cfg, r, now);
    var st1 := Screen(st, cfg, r, now).0;
    FreshnessEffect(st1, cfg, r, now);
    var st2 := Freshness(st1, cfg, r, now).0;
    IdentityEffect(st2, cfg, r, now);
    DecideFrame(Identity(st2, cfg, r, now).0, cfg, r, now);
    hide Managed, Screen, Freshness, Identity, Decide, Mutates, AuthExempt, Mitigation.Evaluate, Breaker.Next,
      ReplayGuard.Validate, Attacks, RouteOf, SchemaVerdict, Oversized;
  }

  /** Step `i` opens the breaker. */
  predicate TripsAt(cfg: Settings, start: Time, steps: seq<Step>, i: int) {
    0 <= i < |steps| && Run(cfg, start, steps[..i]).breaker.phase != Breaker.Open
    && Run(cfg, start, steps[..i + 1]).breaker.phase == Breaker.Open
  }

  /** Within the timeout an open breaker stays as it is, whatever the step. */
  lemma StaysOpen(st: State, cfg: Settings, s: Step)
    requires st.breaker.phase == Breaker.Open && s.now - st.breaker.changed < cfg.breaker.recoveryTimeout
    ensures var b := StepState(st, cfg, s).breaker; b.phase == Breaker.Open && b.changed == st.breaker.changed
  {
    if s.Arrive? {
      HandleBreaker(st, cfg, s.request, s.now);
    }
    hide Handle, Mitigation.Apply, Mitigation.Rollback, CredentialDefense.Step;
  }

  /** Only a step that opens the breaker dates its opening. */
  lemma OpensNow(st: State, cfg: Settings, s: Step)
    requires st.breaker.phase != Breaker.Open && StepState(st, cfg, s).breaker.phase == Breaker.Open
    ensures StepState(st, cfg, s).breaker.changed == s.now
  {
    if s.Arrive? {
      HandleBreaker(st, cfg, s.request, s.now);
    }
    hide Handle, Mitigation.Apply, Mitigation.Rollback, CredentialDefense.Step;
  }

  lemma {:induction false} RunNext(cfg: Settings, start: Time, steps: seq<Step>, n: nat)
    requires n < |steps|
    ensures Run(cfg, start, steps[..n + 1]) == StepState(Run(cfg, start, steps[..n]), cfg, steps[n])
  {
    assert steps[..n + 1][..n] == steps[..n];
  }

  lemma {:induction false} OpenUntilTimeout(cfg: Settings, start: Time, steps: seq<Step>, i: nat, n: nat)
    requires TripsAt(cfg, start, steps, i) && i < n <= |steps|
    requires forall k | i < k < n :: steps[k].now - steps[i].now < cfg.breaker.recoveryTimeout
    ensures var b := Run(cfg, start, steps[..n]).breaker; b.phase == Breaker.Open && b.changed == steps[i].now
  {
    hide StepState, Run;
    RunNext(cfg, start, steps, n - 1);
    if n == i + 1 {
      OpensNow(Run(cfg, start, steps[..i]), cfg, steps[i]);
    } else {
      OpenUntilTimeout(cfg, start, steps, i, n - 1);
      StaysOpen(Run(cfg, start, steps[..n - 1]), cfg, steps[n - 1]);
    }
  }

  /** In every run, nothing is forwarded less than the recovery timeout after the breaker opened. */
  lemma {:induction false} NothingForwardedWhileOpen(cfg: Settings, start: Time, steps: seq<Step>, i: nat, j: nat)
    requires Monotone(steps) && i < j && TripsAt(cfg, start, steps, i) && ForwardedAt(cfg, start, steps, j)
    ensures steps[j].now - steps[i].now >= cfg.breaker.recoveryTimeout
  {
    hide Run, Handle;
    if steps[j].now - steps[i].now < cfg.breaker.recoveryTimeout {
      assert forall k | i < k < j :: steps[k].now <= steps[j].now;
      OpenUntilTimeout(cfg, start, steps, i, j);
      HandleBreaker(Run(cfg, start, steps[..j]), cfg, steps[j].request, steps[j].now);
    }
  }

  // ---------------------------------------------------------------- availability

  /** The request meets every gate that looks at nothing but the request. */
  ghost predicate Blameless(cfg: Settings, r: Request, now: Time) {
    && !Managed(r.path) && !Oversized(cfg, r) && !Attacks(cfg, r)
    && RouteOf(cfg, r).Some? && Text.Upper(r.verb) in RouteOf(cfg, r).value.methods && SchemaVerdict(cfg, r).None?
    && (Mutates(r) ==> KeyOf(r) != ""
                       && r.stamp != ReplayGuard.Unreadable && !ReplayGuard.TooOld(r.stamp, cfg.maxSkew, now))
    && r.tokenValid && r.authorized && r.authAnomaly == 0.0 && r.trust >= 0.5 && r.anomaly <= 50.0
    && (forall i | 0 <= i < |cfg.rules| && cfg.rules[i].check.Stateless? ::
          cfg.rules[i].check.test(RuleView(cfg, r)) != Rules.Fires)
  }

  /** The histories leave room for the request: nothing contained, no failed login, an unused key, a closed breaker,
      rules that have seen neither the order nor too much of the client, and few requests from the address. */
  ghost predicate Welcomes(st: State, cfg: Settings, r: Request, now: Time) {
    && st.mitigation == Start(now).mitigation
    && Window.Get(st.credentials.byIp, r.clientIp) == []
    && KeyOf(r) !in st.nonces
    && Roomy(st, cfg, r)
  }

  ghost predicate Roomy(st: State, cfg: Settings, r: Request) {
    && st.breaker.phase == Breaker.Closed
    && (Rules.IsOrder(RuleView(cfg, r)) ==>
          Window.Get(st.rules.orders, Rules.OrderKey(RuleView(cfg, r), cfg.digest)) == [])
    && |Window.Get(st.rules.accesses, Rules.ClientRef(RuleView(cfg, r)))| < Rules.ACCESS_THRESHOLD
    && |Window.Get(st.rates, RateKey(r))| < 100
  }

  lemma NothingContained(e: Mitigation.Engine, ip: string, principal: string, token: string, now: Time)
    requires e == Start(now).mitigation
    ensures Mitigation.Evaluate(e, ip, principal, token, now) == (e, Mitigation.Pass)
  {
    hide Mitigation.CleanToken;
  }

  lemma {:induction false} AfterShorter(times: seq<Time>, cutoff: Time)
    ensures |Window.After(times, cutoff)| <= |times|
  {
    if times == [] {
    } else {
      AfterShorter(times[..|times| - 1], cutoff);
    }
  }

  /** None of the four stateless checks fires on a blameless request. */
  lemma StatelessQuiet(cfg: Settings, r: Request, now: Time)
    requires UsesShipped(cfg) && Blameless(cfg, r, now)
    ensures forall i | i == 0 || 2 <= i <= 4 :: cfg.rules[i].check.test(RuleView(cfg, r)) != Rules.Fires
  {
    hide RuleView, Attacks, RouteOf, SchemaVerdict, Oversized, Managed, Mutates;
  }

  lemma ConsultQuiet(st: State, cfg: Settings, r: Request, now: Time)
    requires UsesShipped(cfg) && Blameless(cfg, r, now) && Roomy(st, cfg, r)
    ensures Consult(st, cfg, r, now).1 == 0 && Consult(st, cfg, r, now).2 <= 100
  {
    StatelessQuiet(cfg, r, now);
    hide Blameless, RuleView, RateKey, Rules.Evaluate, Rules.IsOrder, Rules.IsSensitive, Rules.OrderKey,
      Rules.ClientRef, OrderEntry, AccessEntry;
    RulesQuiet(st, cfg, RuleView(cfg, r), now);
    AfterShorter(Window.Get(st.rates, RateKey(r)), now - cfg.rateWindow);
    hide UsesShipped;
  }

  lemma RulesQuiet(st: State, cfg: Settings, view: Rules.Request, now: Time)
    requires UsesShipped(cfg) && forall i | i == 0 || 2 <= i <= 4 :: cfg.rules[i].check.test(view) != Rules.Fires
    requires Rules.IsOrder(view) ==> Window.Get(st.rules.orders, Rules.OrderKey(view, cfg.digest)) == []
    requires |Window.Get(st.rules.accesses, Rules.ClientRef(view))| < Rules.ACCESS_THRESHOLD
    ensures Rules.Evaluate(st.rules, cfg.rules, view, cfg.digest, now).1 == 0
  {
    var t1, t2, t3, t4 :=
      cfg.rules[0].check.test, cfg.rules[2].check.test, cfg.rules[3].check.test, cfg.rules[4].check.test;
    assert cfg.rules == Rules.Shipped(t1, t2, t3, t4);
    hide UsesShipped, Rules.Shipped, Rules.Evaluate, Rules.IsOrder, Rules.IsSensitive, Rules.OrderKey, Rules.ClientRef;
    Rules.ShippedSilentExactly(st.rules, view, cfg.digest, now, t1, t2, t3, t4);
    AfterShorter(Window.Get(st.rules.accesses, Rules.ClientRef(view)), now - Rules.ACCESS_WINDOW);
  }

  lemma DecideQuiet(st: State, cfg: Settings, r: Request, now: Time)
    requires UsesShipped(cfg) && Blameless(cfg, r, now) && Roomy(st, cfg, r)
    ensures var (st1, outcome) := Decide(st, cfg, r, now);
            && outcome == Forwarded && st1.breaker == st.breaker
            && st1 == Consult(st, cfg, r, now).0
  {
    ConsultQuiet(st, cfg, r, now);
    var count := Consult(st, cfg, r, now).2;
    Risk.QuietIsTolerated(SignalsOf(cfg, r, 0, count));
    hide Consult, UsesShipped, Rules.IsOrder, Rules.IsSensitive, Rules.OrderKey, Rules.ClientRef, Risk.Judge, RuleView,
      Window.Touch, Window.Get, RateKey, Managed, Mutates, AuthExempt, Attacks, RouteOf, SchemaVerdict, Oversized;
  }

  /** The state after a blameless and welcome request, up to the last gates. */
  function Admitted(st: State, cfg: Settings, r: Request, now: Time): State {
    var check := CredentialDefense.Check(r.clientIp, "", now);
    var key := KeyOf(r);
    var st1 := st.(credentials := CredentialDefense.Step(st.credentials, check, cfg.failureWindow),
        logins := st.logins + [check]);
    if !Mutates(r) then st1
    else st1.(nonces := st.nonces[key := now + cfg.maxSkew], attempts := st.attempts
        + [ReplayGuard.Attempt(key, r.stamp, now)])
  }

  lemma BlamelessPasses(st: State, cfg: Settings, r: Request, now: Time)
    requires UsesShipped(cfg) && Blameless(cfg, r, now) && Welcomes(st, cfg, r, now) && cfg.failureThreshold > 0
    ensures Handle(st, cfg, r, now) == (Consult(Admitted(st, cfg, r, now), cfg, r, now).0, Forwarded)
  {
    hide Managed, Mutates, AuthExempt, RuleView, Mitigation.Evaluate, UsesShipped, Decide, Consult, FreshnessExempt,
      Attacks, RouteOf, SchemaVerdict, Oversized, Rules.IsOrder, Rules.OrderKey, Rules.ClientRef, RateKey;
    NothingContained(st.mitigation, r.clientIp, "", r.authHeader, now);
    NothingContained(st.mitigation, r.clientIp, r.principal, r.authHeader, now);
    var st1 := Screen(st, cfg, r, now).0;
    assert Screen(st, cfg, r, now).1 == None;
    var st2 := Freshness(st1, cfg, r, now).0;
    assert Freshness(st1, cfg, r, now).1 == None && st2 == Admitted(st, cfg, r, now);
    assert Identity(st2, cfg, r, now) == (st2, None);
    hide Screen, Freshness, Identity;
    DecideQuiet(st2, cfg, r, now);
  }

  /** The gates are not satisfied by refusing everything: a blameless first request reaches the ERP. */
  lemma BlamelessReaches(cfg: Settings, r: Request, now: Time)
    requires UsesShipped(cfg) && Blameless(cfg, r, now) && cfg.failureThreshold > 0
    ensures ForwardedAt(cfg, now, [Arrive(r, now)], 0)
  {
    hide Handle, Blameless, UsesShipped, RuleView;
    BlamelessPasses(Start(now), cfg, r, now);
    assert [Arrive(r, now)][..0] == [];
  }

  // ---------------------------------------------------------------- orders without a body

  /** The request posts an order, as the rules see it, for the client and with the body of `q`. */
  predicate SameOrder(cfg: Settings, q: Request, r: Request) {
    && RuleChecks.PostsOrder(RuleView(cfg, r)) && Rules.ClientRef(RuleView(cfg, r)) == Rules.ClientRef(RuleView(cfg, q))
    && BodyOf(cfg, r) == BodyOf(cfg, q)
  }

  /** Steps `i` and `j` forward the order of `q` twice within five seconds. */
  predicate RepeatsAt(cfg: Settings, start: Time, steps: seq<Step>, q: Request, i: int, j: int) {
    && i < j && ForwardedAt(cfg, start, steps, i) && ForwardedAt(cfg, start, steps, j)
    && SameOrder(cfg, q, steps[i].request) && SameOrder(cfg, q, steps[j].request)
    && steps[j].now - steps[i].now < 5 * SECOND
  }

  /** The same request under another nonce. */
  function Renewed(r: Request): Request { r.(nonce := r.nonce + r.idempotencyKey + "'") }

  lemma RenewedIsBlameless(cfg: Settings, r: Request, now: Time)
    requires Blameless(cfg, r, now)
    ensures Blameless(cfg, Renewed(r), now) && RuleView(cfg, Renewed(r)) == RuleView(cfg, r)
    ensures KeyOf(Renewed(r)) != KeyOf(r)
  {
    hide Managed, Waf.ContentThreat, Waf.MaxThreat, Waf.Texts, LooksJson, Routes.Selected, Text.Upper;
    var a, b := KeyOf(Renewed(r)), KeyOf(r);
    assert |a| > |b|;
  }

  /** A blameless request whose order the rules do not keep leaves room for its renewal. */
  lemma WelcomesRenewed(cfg: Settings, r: Request, now: Time)
    requires UsesShipped(cfg) && Blameless(cfg, r, now) && cfg.failureThreshold > 0 && !Rules.IsOrder(RuleView(cfg, r))
    ensures Welcomes(Handle(Start(now), cfg, r, now).0, cfg, Renewed(r), now)
  {
    RenewedIsBlameless(cfg, r, now);
    RenewedKeepsAddress(r);
    hide Blameless, UsesShipped, RuleView, Handle, Consult, Rules.IsOrder, Rules.OrderKey, Rules.ClientRef,
      Rules.IsSensitive, Mutates, ReplayGuard.UniqueKey, Renewed, RateKey, CredentialDefense.Step, Admitted, Start,
      Window.Get, Welcomes;
    WelcomesAnyone(cfg, r, now);
    BlamelessPasses(Start(now), cfg, r, now);
    AdmittedFirst(cfg, r, now);
    ConsultWelcomes(Admitted(Start(now), cfg, r, now), cfg, r, now);
    RoomAgain(Handle(Start(now), cfg, r, now).0, cfg, r, Renewed(r), now);
  }

  /** A state that has seen `r` once has room for another request of the same view. */
  lemma RoomAgain(st: State, cfg: Settings, r: Request, again: Request, now: Time)
    requires RuleView(cfg, again) == RuleView(cfg, r) && RateKey(again) == RateKey(r) && again.clientIp == r.clientIp
    requires KeyOf(again) != KeyOf(r)
    requires st.mitigation == Start(now).mitigation && st.breaker.phase == Breaker.Closed
    requires Window.Get(st.credentials.byIp, r.clientIp) == []
    requires st.nonces.Keys <= {KeyOf(r)}
    requires !Rules.IsOrder(RuleView(cfg, r))
    requires |Window.Get(st.rules.accesses, Rules.ClientRef(RuleView(cfg, r)))| <= 1
            && |Window.Get(st.rates, RateKey(r))| <= 1
    ensures Welcomes(st, cfg, again, now)
  {
    hide RuleView, Rules.IsOrder, Rules.OrderKey, Rules.ClientRef, RateKey, ReplayGuard.UniqueKey, Start, Window.Get;
  }

  /** What the first gates leave of the empty state. */
  lemma AdmittedFirst(cfg: Settings, r: Request, now: Time)
    ensures var st := Admitted(Start(now), cfg, r, now);
            && st.mitigation == Start(now).mitigation && st.breaker.phase == Breaker.Closed
            && Window.Get(st.credentials.byIp, r.clientIp) == []
            && st.nonces.Keys <= {KeyOf(r)}
            && st.rules == Rules.State(map[], map[]) && st.rates == map[]
  {
    hide Mutates, ReplayGuard.UniqueKey;
    CheckFindsNothing(cfg, r.clientIp, now);
  }

  lemma WelcomesAnyone(cfg: Settings, r: Request, now: Time)
    ensures Welcomes(Start(now), cfg, r, now)
  {
    hide RuleView, Rules.IsOrder, Rules.OrderKey, Rules.ClientRef, RateKey;
  }

  lemma CheckFindsNothing(cfg: Settings, ip: string, now: Time)
    ensures var check := CredentialDefense.Check(ip, "", now);
            Window.Get(CredentialDefense.Step(Start(now).credentials, check, cfg.failureWindow).byIp, ip) == []
  {
  }

  lemma RenewedKeepsAddress(r: Request)
    ensures RateKey(Renewed(r)) == RateKey(r) && Renewed(r).clientIp == r.clientIp
  {
  }

  lemma ConsultWelcomes(st: State, cfg: Settings, r: Request, now: Time)
    requires UsesShipped(cfg) && Blameless(cfg, r, now) && !Rules.IsOrder(RuleView(cfg, r))
    requires st.rules == Rules.State(map[], map[]) && st.rates == map[]
    ensures var st1 := Consult(st, cfg, r, now).0;
            && st1.mitigation == st.mitigation && st1.breaker == st.breaker && st1.credentials == st.credentials
            && st1.nonces == st.nonces
            && |Window.Get(st1.rules.accesses, Rules.ClientRef(RuleView(cfg, r)))| <= 1
            && |Window.Get(st1.rates, RateKey(r))| <= 1
  {
    var t1, t2, t3, t4 :=
      cfg.rules[0].check.test, cfg.rules[2].check.test, cfg.rules[3].check.test, cfg.rules[4].check.test;
    Rules.ShippedEffect(st.rules, RuleView(cfg, r), cfg.digest, now, t1, t2, t3, t4);
    hide Rules.Evaluate, Rules.IsOrder, Rules.IsSensitive, Rules.OrderKey, Rules.ClientRef, RuleView, RateKey,
      Blameless;
  }

  /** Two requests at the same instant that differ only in their nonce post the same order twice, if it has no body. */
  lemma BodilessOrderRepeats(cfg: Settings, start: Time, q: Request)
    requires UsesShipped(cfg) && Blameless(cfg, q, start) && cfg.failureThreshold > 0
    requires RuleChecks.PostsOrder(RuleView(cfg, q)) && !Truthy(BodyOf(cfg, q))
    ensures RepeatsAt(cfg, start, [Arrive(q, start), Arrive(Renewed(q), start)], q, 0, 1)
  {
    var r := Renewed(q);
    assert !Rules.IsOrder(RuleView(cfg, q)) && BodyOf(cfg, r) == BodyOf(cfg, q);
    RenewedIsBlameless(cfg, q, start);
    assert SameOrder(cfg, q, q) && SameOrder(cfg, q, r);
    hide Blameless, UsesShipped, Handle, SameOrder, RuleChecks.PostsOrder, RuleView, Welcomes, Renewed, Consult,
      Admitted, Start;
    WelcomesAnyone(cfg, q, start);
    WelcomesRenewed(cfg, q, start);
    BlamelessPasses(Start(start), cfg, q, start);
    BlamelessPasses(Handle(Start(start), cfg, q, start).0, cfg, r, start);
    TwoForwarded(cfg, start, q, r);
    hide ForwardedAt;
  }

  lemma TwoForwarded(cfg: Settings, start: Time, q: Request, r: Request)
    requires Handle(Start(start), cfg, q, start).1 == Forwarded
    requires Handle(Handle(Start(start), cfg, q, start).0, cfg, r, start).1 == Forwarded
    ensures var steps := [Arrive(q, start), Arrive(r, start)];
            ForwardedAt(cfg, start, steps, 0) && ForwardedAt(cfg, start, steps, 1)
  {
    hide Handle, Run, Start;
    var steps := [Arrive(q, start), Arrive(r, start)];
    RunNext(cfg, start, steps, 0);
    RunNothing(cfg, start, steps);
  }

  lemma {:induction false} RunNothing(cfg: Settings, start: Time, steps: seq<Step>)
    ensures Run(cfg, start, steps[..0]) == Start(start)
  {
  }

  /** With the configured rules, a posted order without a body is one that no check sees, and the schema gate lets
      pass. */
  lemma EmptyOrderIsQuiet(cfg: Settings, inventory: map<string, int>, parseInt: string -> Option<int>, q: Request)
    requires cfg.rules == RuleChecks.AllRules(inventory, parseInt)
    requires q.verb == "POST" && StartsWith(q.path, "/api/orders") && q.text == "" && !AuthExempt(cfg, q)
            && q.principal != ""
    ensures UsesShipped(cfg) && RuleChecks.PostsOrder(RuleView(cfg, q)) && !Truthy(BodyOf(cfg, q))
            && SchemaVerdict(cfg, q).None?
    ensures forall i | 0 <= i < |cfg.rules| && cfg.rules[i].check.Stateless? ::
              cfg.rules[i].check.test(RuleView(cfg, q)) != Rules.Fires
  {
    ConfiguredRulesAreShipped(cfg, inventory, parseInt);
    assert Text.Upper(q.verb) == "POST";
    hide AuthExempt, UsesShipped, Rules.Evaluate;
    var view := RuleView(cfg, q);
    assert RuleChecks.ItemsOf(view.body) == [];
    assert RuleChecks.NegativePrice(view) == RuleChecks.Depletes(inventory, parseInt, view) == Rules.Quiet;
    assert RuleChecks.Escalation(view) == RuleChecks.OutOfSequence(view) == Rules.Quiet;
  }

  /** A blameless order, whoever posts it, can reach the ERP twice within five seconds exactly when its parsed body is
      empty or otherwise false: the duplicate check looks only at orders with a body. */
  lemma OrdersRepeatExactly(cfg: Settings, start: Time, q: Request)
    requires UsesShipped(cfg) && Blameless(cfg, q, start) && cfg.failureThreshold > 0
            && RuleChecks.PostsOrder(RuleView(cfg, q))
    ensures (exists steps, i, j :: Monotone(steps) && RepeatsAt(cfg, start, steps, q, i, j))
            <==> !Truthy(BodyOf(cfg, q))
  {
    hide Blameless, UsesShipped, Handle, Run, RuleView, Rules.ClientRef, Rules.IsOrder, BodyOf, Truthy;
    if steps: seq<Step>, i, j :| Monotone(steps) && RepeatsAt(cfg, start, steps, q, i, j) {
      assert i < |steps| && j < |steps| && steps[i].Arrive? && steps[j].Arrive?;
      if Truthy(BodyOf(cfg, q)) {
        SameOrderIsOrder(cfg, q, steps[i].request);
        SameOrderIsOrder(cfg, q, steps[j].request);
        IdenticalOrdersApart(cfg, start, steps, i, j);
      }
    }
    if !Truthy(BodyOf(cfg, q)) {
      BodilessOrderRepeats(cfg, start, q);
    }
  }

  lemma SameOrderIsOrder(cfg: Settings, q: Request, r: Request)
    requires SameOrder(cfg, q, r) && Truthy(BodyOf(cfg, q))
    ensures Rules.IsOrder(RuleView(cfg, r)) && RuleView(cfg, r).bodyText == cfg.canonical(BodyOf(cfg, q))
  {
  }

  // ---------------------------------------------------------------- the middleware object

  class Gateway {
    const cfg: Settings
    const engine: Mitigation.MitigationEngine
    const credentialDefense: CredentialDefense.CredentialDefense
    const routeAllowlist: Routes.RouteAllowlist
    const replayGuard: ReplayGuard.ReplayGuard
    const rulesEngine: Rules.RulesEngine
    const rateLimiter: Limiter.InMemoryRateLimiter
    const circuitBreaker: Breaker.CircuitBreaker
    ghost var logins: seq<CredentialDefense.Event>
    ghost var attempts: seq<ReplayGuard.Attempt>
    ghost var orderHits: seq<Window.Hit>
    ghost var accessHits: seq<Window.Hit>

    constructor (cfg: Settings, store: StateStore.InMemoryStateStore, isWhitelisted: string -> bool, now: Time)
      requires Routes.DistinctPatterns(cfg.routes)
      requires store.nonces == map[] && store.View() == StateStore.Shared(map[], map[], map[], {})
      ensures this.cfg == cfg && Valid() && View() == Start(now)
    {
      this.cfg := cfg;
      engine := new Mitigation.MitigationEngine(store, isWhitelisted);
      credentialDefense := new CredentialDefense.CredentialDefense(cfg.failureThreshold, cfg.failureWindow);
      routeAllowlist := new Routes.RouteAllowlist(cfg.routes);
      replayGuard := new ReplayGuard.ReplayGuard(cfg.maxSkew, store);
      rulesEngine := new Rules.RulesEngine(cfg.rules, cfg.digest);
      rateLimiter := new Limiter.InMemoryRateLimiter(cfg.rateWindow);
      circuitBreaker := new Breaker.CircuitBreaker(cfg.breaker, now);
      logins, attempts, orderHits, accessHits := [], [], [], [];
    }

    /** The components are configured as `cfg` says and share one store. */
    ghost predicate Valid()
      reads this, rateLimiter, routeAllowlist
    {
      && replayGuard.store == engine.store && replayGuard.maxSkew == cfg.maxSkew
      && credentialDefense.failureThreshold == cfg.failureThreshold && credentialDefense.window == cfg.failureWindow
      && routeAllowlist.routes == cfg.routes
      && rulesEngine.rules == cfg.rules && rulesEngine.digest == cfg.digest
      && rateLimiter.window == cfg.rateWindow && rateLimiter.Valid()
      && circuitBreaker.settings == cfg.breaker
    }

    ghost function View(): State
      reads this, engine, engine.store, credentialDefense, rulesEngine, rateLimiter, circuitBreaker
    {
      State(engine.View(), credentialDefense.View(), engine.store.nonces, rulesEngine.View(), rateLimiter.records,
            circuitBreaker.View(), logins, attempts, orderHits, accessHits, rateLimiter.hits)
    }

    /** The scanner over URL, body text and parsed body. */
    method ScanRequest(r: Request) returns (attack: bool)
      ensures attack == Attacks(cfg, r)
    {
      hide Waf.ContentThreat, Waf.MaxThreat, Waf.Texts, LooksJson;
      var payload := if r.text == "" then None else cfg.parse(r.text);
      var pathAttack, pathReasons, pathScore := Waf.InspectContent(cfg.detectors, r.url, Embedded(cfg, r.url));
      var bodyAttack := false;
      if r.text != "" {
        var bodyReasons, bodyScore;
        bodyAttack, bodyReasons, bodyScore := Waf.InspectContent(cfg.detectors, r.text, Embedded(cfg, r.text));
      } else {
        EmptyIsHarmless(cfg, r);
      }
      var payloadAttack := false;
      if payload.Some? && Truthy(payload.value) {
        var payloadReasons, payloadScore;
        payloadAttack, payloadReasons, payloadScore := Waf.InspectPayload(cfg.detectors, payload.value);
      }
      attack := pathAttack || bodyAttack || payloadAttack;
    }

    /** `None` lets the request go on. */
    method ScreenRequest(r: Request, now: Time) returns (denied: Option<int>)
      requires Valid()
      modifies this`logins, engine, engine.store, credentialDefense
      ensures Valid() && (View(), denied) == Screen(old(View()), cfg, r, now)
    {
      hide Mitigation.Evaluate, CredentialDefense.Step, CredentialDefense.Flag, Attacks, Routes.Select,
        Routes.SortedOrder, Routes.FirstMatch, Text.Upper;
      var verdict := engine.EvaluateRequest(r.clientIp, "", r.authHeader, now);
      if verdict.Deny? {
        return Some(verdict.status);
      }
      if r.declaredLength.Some? && r.declaredLength.value > cfg.maxBody {
        return Some(413);
      }
      var flagged, threat := credentialDefense.CheckStatus(r.clientIp, "", now);
      logins := logins + [CredentialDefense.Check(r.clientIp, "", now)];
      if flagged {
        return Some(403);
      }
      var attack := ScanRequest(r);
      if attack {
        return Some(403);
      }
      var answer := routeAllowlist.ValidateRoute(r.path, r.verb);
      match answer {
        case Unknown => return Some(404);
        case MethodRefused(_) => return Some(405);
        case Permitted(_) =>
      }
      denied := CheckSchema(r);
    }

    method CheckSchema(r: Request) returns (denied: Option<int>)
      ensures denied == SchemaVerdict(cfg, r)
    {
      if (r.verb == "POST" || r.verb == "PUT") && r.text != "" {
        var payload := cfg.parse(r.text);
        if payload.None? {
          return Some(400);
        }
        if r.path == "/api/auth/login" {
          return if cfg.loginSchema(payload.value) then None else Some(422);
        } else if r.path == "/api/orders" {
          return if cfg.orderSchema(payload.value) then None else Some(422);
        }
      }
      denied := None;
    }

    method CheckFreshness(r: Request, now: Time) returns (denied: Option<int>)
      requires Valid()
      modifies this, engine.store`nonces
      ensures Valid() && (View(), denied) == Freshness(old(View()), cfg, r, now)
    {
      hide ReplayGuard.Validate, FreshnessExempt;
      if !Mutates(r) {
        return None;
      }
      if !FreshnessExempt(r.path) && r.nonce == "" && r.idempotencyKey == "" && r.stamp == ReplayGuard.Absent {
        return Some(400);
      }
      var outcome := replayGuard.ValidateRequest(r.nonce, r.idempotencyKey, r.stamp, now);
      attempts := attempts + [AttemptOf(r, now)];
      denied := if outcome.Replay? then Some(403) else None;
    }

    method CheckIdentity(r: Request, now: Time) returns (denied: Option<int>)
      requires Valid()
      modifies engine, engine.store
      ensures Valid() && (View(), denied) == Identity(old(View()), cfg, r, now)
    {
      hide Mitigation.Evaluate, AuthExempt;
      if AuthExempt(cfg, r) {
        return None;
      }
      if !r.tokenValid {
        return Some(401);
      }
      var verdict := engine.EvaluateRequest(r.clientIp, r.principal, r.authHeader, now);
      denied := if verdict.Deny? then Some(verdict.status) else None;
    }

    method ConsultHistories(r: Request, now: Time) returns (severity: int, count: int)
      requires Valid() && (rateLimiter.hits != [] ==> rateLimiter.hits[|rateLimiter.hits| - 1].now <= now)
      modifies this, rulesEngine, rateLimiter
      ensures Valid() && (View(), severity, count) == Consult(old(View()), cfg, r, now)
    {
      hide Rules.Evaluate, RuleView, RateKey, OrderEntry, AccessEntry, Window.Touch, Window.Get, Window.Touched,
        Window.After, Window.TimesOf;
      severity := rulesEngine.EvaluateRules(RuleView(cfg, r), now);
      count := rateLimiter.CheckAndIncrement(RateKey(r), now);
      orderHits := orderHits + OrderEntry(cfg, r, now);
      accessHits := accessHits + AccessEntry(cfg, r, now);
    }

    method DecideRequest(r: Request, now: Time) returns (outcome: Outcome)
      requires Valid() && (rateLimiter.hits != [] ==> rateLimiter.hits[|rateLimiter.hits| - 1].now <= now)
      modifies this, rulesEngine, rateLimiter, circuitBreaker
      ensures Valid() && (View(), outcome) == Decide(old(View()), cfg, r, now)
    {
      hide Consult, Risk.Judge, SignalsOf, Breaker.Next;
      var severity, count := ConsultHistories(r, now);
      var decision := Risk.Judge(SignalsOf(cfg, r, severity, count));
      if decision == Risk.Block {
        return Denied(403);
      }
      if decision == Risk.Challenge {
        return Denied(401);
      }
      if count > 1000 {
        return Denied(429);
      }
      var allowed := circuitBreaker.AllowRequest(now);
      outcome := if allowed then Forwarded else Denied(503);
    }

    method HandleRequest(r: Request, now: Time) returns (outcome: Outcome)
      requires Valid() && (rateLimiter.hits != [] ==> rateLimiter.hits[|rateLimiter.hits| - 1].now <= now)
      modifies this, engine, engine.store, credentialDefense, rulesEngine, rateLimiter, circuitBreaker
      ensures Valid() && (View(), outcome) == Handle(old(View()), cfg, r, now)
    {
      hide Managed, Screen, Freshness, Identity, Decide;
      if Managed(r.path) {
        return Bypassed;
      }
      var denied := ScreenRequest(r, now);
      if denied.Some? {
        return Denied(denied.value);
      }
      denied := CheckFreshness(r, now);
      if denied.Some? {
        return Denied(denied.value);
      }
      denied := CheckIdentity(r, now);
      if denied.Some? {
        return Denied(denied.value);
      }
      outcome := DecideRequest(r, now);
    }
  }

  lemma EmptyIsHarmless(cfg: Settings, r: Request)
    requires r.text == ""
    ensures !TextAttacks(cfg, r)
  {
  }
}
