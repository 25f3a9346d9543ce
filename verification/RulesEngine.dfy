/** Deterministic business rules: a list of checks, two of which keep a sliding-window history. */
module RulesEngine {
  import opened Basics
  import opened JsonValues
  import opened SlidingWindow

  /** What the checks look at. `verb` is the upper-cased method and `bodyText` the canonical JSON of the body. */
  datatype Request = Request(
    path: string, verb: string, body: Json, bodyText: string,
    userId: string, clientIp: string, role: string, authenticated: bool)

  /** A stateless check fires, stays quiet, or raises an exception, which the engine swallows. */
  datatype Finding = Fires | Quiet | Raises

  datatype Check = Stateless(test: Request -> Finding) | DuplicateOrder | MassAccess

  datatype Rule = Rule(id: string, severity: int, check: Check)

  /** The two histories, the orders under the digest of client and body, the accesses under the client. */
  datatype State = State(orders: map<string, seq<Time>>, accesses: map<string, seq<Time>>)

  const ORDER_TTL: Time := 5 * SECOND
  const ACCESS_WINDOW: Time := 60 * SECOND
  const ACCESS_THRESHOLD := 100

  /** The rules of config/rules.yaml; the stateless checks are parameters. */
  function Shipped(negativePrice: Request -> Finding, depletion: Request -> Finding,
                   escalation: Request -> Finding, sequence: Request -> Finding): seq<Rule> {
    [Rule("R001", 100, Stateless(negativePrice)), Rule("R002", 60, DuplicateOrder),
     Rule("R003", 80, Stateless(depletion)),
     Rule("R004", 100, Stateless(escalation)), Rule("R005", 75, Stateless(sequence)), Rule("R006", 65, MassAccess)]
  }

  function ClientRef(r: Request): string {
    if r.userId != "" then r.userId else if r.clientIp != "" then r.clientIp else "anon"
  }

  /** The duplicate check keeps a history of this request. */
  predicate IsOrder(r: Request) { r.verb == "POST" && StartsWith(r.path, "/api/orders") && Truthy(r.body) }

  /** The mass-access check keeps a history of this request. */
  predicate IsSensitive(r: Request) { StartsWith(r.path, "/api/orders") || StartsWith(r.path, "/api/users") }

  function OrderKey(r: Request, digest: string -> string): string { digest(ClientRef(r) + ":" + r.bodyText) }

  /** One rule: the histories it leaves and whether it fires. */
  function Try(s: State, rule: Rule, r: Request, digest: string -> string, now: Time): (State, bool) {
    match rule.check
    case Stateless(test) => (s, test(r) == Fires)
    case DuplicateOrder =>
      if !IsOrder(r) then (s, false) else
      var orders := Touch(s.orders, OrderKey(r, digest), ORDER_TTL, now);
      (s.(orders := orders), |Get(orders, OrderKey(r, digest))| >= 2)
    case MassAccess =>
      if !IsSensitive(r) then (s, false) else
      var accesses := Touch(s.accesses, ClientRef(r), ACCESS_WINDOW, now);
      (s.(accesses := accesses), |Get(accesses, ClientRef(r))| > ACCESS_THRESHOLD)
  }

  /** All rules in order: the histories, the highest severity fired (0 if none) and the rules fired. */
  function Evaluate(s: State, rules: seq<Rule>, r: Request, digest: string -> string, now: Time)
    : (State, int, seq<string>)
  {
    if rules == [] then (s, 0, []) else
    var last := rules[|rules| - 1];
    var (s', severity, fired) := Evaluate(s, rules[..|rules| - 1], r, digest, now);
    var (s'', fires) := Try(s', last, r, digest, now);
    (s'', if fires then Max(severity, last.severity) else severity, if fires then fired + [last.id] else fired)
  }

  /** The severity is that of some fired rule: no rule fires unnoticed and nothing else raises it. */
  lemma {:induction false} SeverityTells(s: State, rules: seq<Rule>, r: Request, digest: string -> string, now: Time,
                                         least: int)
    requires 0 < least && forall i | 0 <= i < |rules| :: rules[i].severity >= least
    ensures var (s', severity, fired) := Evaluate(s, rules, r, digest, now);
            (fired == [] ==> severity == 0) && (fired != [] ==> severity >= least)
  {
    if rules == [] {
    } else {
      SeverityTells(s, rules[..|rules| - 1], r, digest, now, least);
    }
  }

  /** With the shipped rules each history takes one entry per request it covers. If nothing fires, the order was not
      seen in the last five seconds and the client is within its hundred accesses; if anything fires, the severity is
      at least 60. */
  lemma ShippedEffect(s: State, r: Request, digest: string -> string, now: Time, negativePrice: Request -> Finding,
                      depletion: Request -> Finding, escalation: Request -> Finding, sequence: Request -> Finding)
    ensures var (s', severity, fired) :=
            Evaluate(s, Shipped(negativePrice, depletion, escalation, sequence), r, digest, now);
            && s'.orders == (if IsOrder(r) then Touch(s.orders, OrderKey(r, digest), ORDER_TTL, now) else s.orders)
            && s'.accesses == (if IsSensitive(r) then Touch(s.accesses, ClientRef(r), ACCESS_WINDOW, now)
                 else s.accesses)
            && (severity < 60 ==> severity == 0 && fired == [])
            && (severity < 60 && IsOrder(r) ==> |Get(s'.orders, OrderKey(r, digest))| <= 1)
            && (severity < 60 && IsSensitive(r) ==> |Get(s'.accesses, ClientRef(r))| <= ACCESS_THRESHOLD)
  {
    var rules := Shipped(negativePrice, depletion, escalation, sequence);
    SeverityTells(s, rules, r, digest, now, 60);
    hide Touch, IsOrder, IsSensitive, OrderKey, ClientRef;
    assert rules[..6] == rules;
    assert forall n | 0 < n <= 6 :: rules[..n][..n - 1] == rules[..n - 1];
    assert Evaluate(s, rules[..0], r, digest, now) == (s, 0, []);
    assert Evaluate(s, rules[..1], r, digest, now).0 == s;
    var second := Evaluate(s, rules[..2], r, digest, now).0;
    assert second == Try(s, rules[1], r, digest, now).0;
    assert Evaluate(s, rules[..3], r, digest, now).0 == second;
    assert Evaluate(s, rules[..4], r, digest, now).0 == second;
    assert Evaluate(s, rules[..5], r, digest, now).0 == second;
    assert Evaluate(s, rules[..6], r, digest, now).0 == Try(second, rules[5], r, digest, now).0;
  }

  /** With the shipped rules nothing fires exactly when every stateless check is silent, the order is the only one of
      its five seconds, and the client is within its hundred accesses of the minute. */
  lemma ShippedSilentExactly(s: State, r: Request, digest: string -> string, now: Time,
                             negativePrice: Request -> Finding, depletion: Request -> Finding,
                             escalation: Request -> Finding, sequence: Request -> Finding)
    ensures Evaluate(s, Shipped(negativePrice, depletion, escalation, sequence), r, digest, now).1 == 0
            <==> && negativePrice(r) != Fires && depletion(r) != Fires && escalation(r) != Fires && sequence(r) != Fires
                 && (IsOrder(r) ==> |After(Get(s.orders, OrderKey(r, digest)), now - ORDER_TTL)| == 0)
                 && (IsSensitive(r) ==> |After(Get(s.accesses, ClientRef(r)), now - ACCESS_WINDOW)| < ACCESS_THRESHOLD)
  {
    hide IsOrder, IsSensitive, OrderKey, ClientRef, After;
    var rules := Shipped(negativePrice, depletion, escalation, sequence);
    assert rules[..6] == rules;
    assert forall n | 0 < n <= 6 :: rules[..n][..n - 1] == rules[..n - 1];
    assert Evaluate(s, rules[..0], r, digest, now) == (s, 0, []);
    assert Evaluate(s, rules[..1], r, digest, now).0 == s;
    var second := Evaluate(s, rules[..2], r, digest, now).0;
    assert second.accesses == s.accesses;
    assert Evaluate(s, rules[..3], r, digest, now).0 == second;
    assert Evaluate(s, rules[..4], r, digest, now).0 == second;
    assert Evaluate(s, rules[..5], r, digest, now).0 == second;
  }

  // ---------------------------------------------------------------- the verdict of the rules

  /** Rule `i` fires, given what the rules before it left. */
  predicate FiresAt(s: State, rules: seq<Rule>, r: Request, digest: string -> string, now: Time, i: nat)
    requires i < |rules|
  {
    Try(Evaluate(s, rules[..i], r, digest, now).0, rules[i], r, digest, now).1
  }

  /** Adding a rule at the end changes nothing for those before it. */
  lemma {:induction false} FiresAtPrefix(s: State, rules: seq<Rule>, r: Request, digest: string -> string, now: Time,
                                         n: nat, i: nat)
    requires i < n <= |rules|
    ensures FiresAt(s, rules[..n], r, digest, now, i) == FiresAt(s, rules, r, digest, now, i)
  {
    hide Try, Evaluate;
    assert rules[..n][..i] == rules[..i];
  }

  ghost predicate FiresSome(s: State, rules: seq<Rule>, r: Request, digest: string -> string, now: Time, id: string,
                            severity: int)
  {
    exists i | 0 <= i < |rules| ::
      FiresAt(s, rules, r, digest, now, i) && rules[i].id == id && rules[i].severity == severity
  }

  /** Whatever is reported fires: each identifier, and the severity unless nothing is reported. */
  lemma {:induction false} ReportedFires(s: State, rules: seq<Rule>, r: Request, digest: string -> string, now: Time)
    requires forall i | 0 <= i < |rules| :: 0 < rules[i].severity
    ensures var v := Evaluate(s, rules, r, digest, now);
            && (forall id | id in v.2 :: exists severity :: FiresSome(s, rules, r, digest, now, id, severity))
            && (if v.2 == [] then v.1 == 0 else exists id :: FiresSome(s, rules, r, digest, now, id, v.1))
  {
    if rules == [] {
    } else {
      var n := |rules| - 1;
      ReportedFires(s, rules[..n], r, digest, now);
      assert rules[..n + 1] == rules;
      EvaluateNext(s, rules, r, digest, now, n);
      hide Evaluate, Try;
      forall id, severity | FiresSome(s, rules[..n], r, digest, now, id, severity)
        ensures FiresSome(s, rules, r, digest, now, id, severity)
      {
        var i :| 0 <= i < n && FiresAt(s, rules[..n], r, digest, now, i) && rules[i].id == id
            && rules[i].severity == severity;
        FiresAtPrefix(s, rules, r, digest, now, n, i);
      }
      if FiresAt(s, rules, r, digest, now, n) {
        assert FiresSome(s, rules, r, digest, now, rules[n].id, rules[n].severity);
      }
    }
  }

  /** Whatever fires is reported, and nothing that fires is more severe than the severity. */
  lemma {:induction false} SeverityIsHighest(s: State, rules: seq<Rule>, r: Request, digest: string -> string,
                                             now: Time, i: nat)
    requires i < |rules| && FiresAt(s, rules, r, digest, now, i)
    ensures var v := Evaluate(s, rules, r, digest, now);
            rules[i].id in v.2 && rules[i].severity <= v.1
  {
    var n := |rules| - 1;
    assert rules[..n + 1] == rules;
    EvaluateNext(s, rules, r, digest, now, n);
    hide Evaluate, Try;
    if i < n {
      FiresAtPrefix(s, rules, r, digest, now, n, i);
      SeverityIsHighest(s, rules[..n], r, digest, now, i);
    }
  }

  /** With the configured rules: which identifiers are reported, in which order, at which severity. A duplicate is an
      order with a body that client and body already placed in the last five seconds; mass access is more than a
      hundred requests of the client for orders or users in the last minute, this one included. */
  lemma ShippedVerdict(s: State, r: Request, digest: string -> string, now: Time, negativePrice: Request -> Finding,
                       depletion: Request -> Finding, escalation: Request -> Finding, sequence: Request -> Finding)
    ensures var client := if r.userId != "" then r.userId else if r.clientIp != "" then r.clientIp else "anon";
            var orders := r.verb == "POST" && StartsWith(r.path, "/api/orders") && Truthy(r.body);
            var covered := StartsWith(r.path, "/api/orders") || StartsWith(r.path, "/api/users");
            var duplicate := orders && |After(Get(s.orders, digest(client + ":" + r.bodyText)), now - 5 * SECOND)| >= 1;
            var mass := covered && |After(Get(s.accesses, client), now - 60 * SECOND)| >= 100;
            var (n, d, e, q) := (negativePrice(r) == Fires, depletion(r) == Fires, escalation(r) == Fires, sequence(r)
                == Fires);
            var verdict := Evaluate(s, Shipped(negativePrice, depletion, escalation, sequence), r, digest, now);
            && verdict.1 == (if n || e then 100 else if d then 80 else if q then 75 else if mass then 65
                             else if duplicate then 60 else 0)
            && verdict.2 == (if n then ["R001"] else []) + (if duplicate then ["R002"] else [])
                 + (if d then ["R003"] else [])
                            + (if e then ["R004"] else []) + (if q then ["R005"] else [])
                              + (if mass then ["R006"] else [])
  {
    var rules := Shipped(negativePrice, depletion, escalation, sequence);
    var second := Try(s, rules[1], r, digest, now).0;
    ShippedByTries(s, rules, r, digest, now);
    DuplicateTry(s, rules[1], r, digest, now);
    MassTry(second, rules[5], r, digest, now);
    HighestOfSix(negativePrice(r) == Fires, Try(s, rules[1], r, digest, now).1, depletion(r) == Fires,
                 escalation(r) == Fires, sequence(r) == Fires, Try(second, rules[5], r, digest, now).1);
    hide Evaluate, Try, After, Worse;
  }

  predicate SixRules(rules: seq<Rule>) {
    && |rules| == 6 && rules[1].check.DuplicateOrder? && rules[5].check.MassAccess?
    && rules[0].check.Stateless? && rules[2].check.Stateless? && rules[3].check.Stateless? && rules[4].check.Stateless?
  }

  function Report(fires: bool, id: string): seq<string> { if fires then [id] else [] }

  /** Six rules of these kinds, one after the other. */
  lemma {:induction false} ShippedByTries(s: State, rules: seq<Rule>, r: Request, digest: string -> string, now: Time)
    requires SixRules(rules)
    ensures var duplicate := Try(s, rules[1], r, digest, now);
            var mass := Try(duplicate.0, rules[5], r, digest, now);
            var (n, d) := (rules[0].check.test(r) == Fires, rules[2].check.test(r) == Fires);
            var (e, q) := (rules[3].check.test(r) == Fires, rules[4].check.test(r) == Fires);
            Evaluate(s, rules, r, digest, now)
            == (mass.0,
                Worse(mass.1, rules[5].severity, Worse(q, rules[4].severity, Worse(e, rules[3].severity,
                  Worse(d, rules[2].severity, Worse(duplicate.1, rules[1].severity, Worse(n, rules[0].severity, 0)))))),
                Report(n, rules[0].id) + Report(duplicate.1, rules[1].id) + Report(d, rules[2].id)
                  + Report(e, rules[3].id)
                + Report(q, rules[4].id) + Report(mass.1, rules[5].id))
  {
    FirstThree(s, rules, r, digest, now);
    assert rules[..6] == rules;
    var second := Try(s, rules[1], r, digest, now).0;
    StatelessTry(second, rules[3], r, digest, now);
    StatelessTry(second, rules[4], r, digest, now);
    hide Evaluate, Try, Worse, Report;
    EvaluateNext(s, rules, r, digest, now, 3);
    EvaluateNext(s, rules, r, digest, now, 4);
    EvaluateNext(s, rules, r, digest, now, 5);
  }

  lemma {:induction false} FirstThree(s: State, rules: seq<Rule>, r: Request, digest: string -> string, now: Time)
    requires SixRules(rules)
    ensures var duplicate := Try(s, rules[1], r, digest, now);
            var (n, d) := (rules[0].check.test(r) == Fires, rules[2].check.test(r) == Fires);
            Evaluate(s, rules[..3], r, digest, now)
            == (duplicate.0,
                Worse(d, rules[2].severity, Worse(duplicate.1, rules[1].severity, Worse(n, rules[0].severity, 0))),
                Report(n, rules[0].id) + Report(duplicate.1, rules[1].id) + Report(d, rules[2].id))
  {
    assert rules[..0] == [];
    assert Evaluate(s, [], r, digest, now) == (s, 0, []);
    StatelessTry(s, rules[0], r, digest, now);
    StatelessTry(Try(s, rules[1], r, digest, now).0, rules[2], r, digest, now);
    hide Evaluate, Try, Worse, Report;
    EvaluateNext(s, rules, r, digest, now, 0);
    EvaluateNext(s, rules, r, digest, now, 1);
    EvaluateNext(s, rules, r, digest, now, 2);
    assert [] + Report(rules[0].check.test(r) == Fires, rules[0].id)
        == Report(rules[0].check.test(r) == Fires, rules[0].id);
  }

  function Worse(fires: bool, severity: int, worst: int): int { if fires then Max(worst, severity) else worst }

  lemma HighestOfSix(n: bool, duplicate: bool, d: bool, e: bool, q: bool, mass: bool)
    ensures Worse(mass, 65, Worse(q, 75, Worse(e, 100, Worse(d, 80, Worse(duplicate, 60, Worse(n, 100, 0))))))
            == if n || e then 100 else if d then 80 else if q then 75 else if mass then 65 else if duplicate then 60
              else 0
  {
  }

  lemma {:induction false} EvaluateNext(s: State, rules: seq<Rule>, r: Request, digest: string -> string, now: Time,
                                        n: nat)
    requires n < |rules|
    ensures var (s1, severity, fired) := Evaluate(s, rules[..n], r, digest, now);
            var (s2, fires) := Try(s1, rules[n], r, digest, now);
            Evaluate(s, rules[..n + 1], r, digest, now)
            == (s2, Worse(fires, rules[n].severity, severity),
                fired + Report(fires, rules[n].id))
  {
    hide Try;
    assert rules[..n + 1][..n] == rules[..n];
    var fired := Evaluate(s, rules[..n], r, digest, now).2;
    assert fired + [] == fired;
  }

  lemma StatelessTry(s: State, rule: Rule, r: Request, digest: string -> string, now: Time)
    requires rule.check.Stateless?
    ensures Try(s, rule, r, digest, now) == (s, rule.check.test(r) == Fires)
  {
  }

  lemma DuplicateTry(s: State, rule: Rule, r: Request, digest: string -> string, now: Time)
    requires rule.check.DuplicateOrder?
    ensures var client := if r.userId != "" then r.userId else if r.clientIp != "" then r.clientIp else "anon";
            var (s', fires) := Try(s, rule, r, digest, now);
            && s'.accesses == s.accesses
            && (fires <==> && r.verb == "POST" && StartsWith(r.path, "/api/orders") && Truthy(r.body)
                           && |After(Get(s.orders, digest(client + ":" + r.bodyText)), now - 5 * SECOND)| >= 1)
  {
    hide After;
  }

  lemma MassTry(s: State, rule: Rule, r: Request, digest: string -> string, now: Time)
    requires rule.check.MassAccess?
    ensures var client := if r.userId != "" then r.userId else if r.clientIp != "" then r.clientIp else "anon";
            Try(s, rule, r, digest, now).1 <==>
              && (StartsWith(r.path, "/api/orders") || StartsWith(r.path, "/api/users"))
              && |After(Get(s.accesses, client), now - 60 * SECOND)| >= 100
  {
    hide After;
  }

  // ---------------------------------------------------------------- the engine object

  class RulesEngine {
    const rules: seq<Rule>
    const digest: string -> string
    var orderHashHistory: map<string, seq<Time>>
    var massAccessHistory: map<string, seq<Time>>
    var firedRules: seq<string>

    constructor (rules: seq<Rule>, digest: string -> string)
      ensures this.rules == rules && this.digest == digest && View() == State(map[], map[])
    {
      this.rules, this.digest := rules, digest;
      orderHashHistory, massAccessHistory, firedRules := map[], map[], [];
    }

    function View(): State
      reads this
    {
      State(orderHashHistory, massAccessHistory)
    }

    method CheckDuplicateOrder(r: Request, now: Time) returns (fires: bool)
      modifies this`orderHashHistory
      ensures (View(), fires) == Try(old(View()), Rule("", 0, DuplicateOrder), r, digest, now)
    {
      if !IsOrder(r) {
        return false;
      }
      var key := OrderKey(r, digest);
      var history := Purge(if key in orderHashHistory then orderHashHistory[key] else [], now - ORDER_TTL);
      history := history + [now];
      orderHashHistory := orderHashHistory[key := history];
      fires := |history| >= 2;
    }

    method CheckMassAccess(r: Request, now: Time) returns (fires: bool)
      modifies this`massAccessHistory
      ensures (View(), fires) == Try(old(View()), Rule("", 0, MassAccess), r, digest, now)
    {
      if !IsSensitive(r) {
        return false;
      }
      var client := ClientRef(r);
      var history := Purge(if client in massAccessHistory then massAccessHistory[client] else [], now - ACCESS_WINDOW);
      history := history + [now];
      massAccessHistory := massAccessHistory[client := history];
      fires := |history| > ACCESS_THRESHOLD;
    }

    method EvaluateRules(r: Request, now: Time) returns (severity: int)
      modifies this
      ensures (View(), severity, firedRules) == Evaluate(old(View()), rules, r, digest, now)
    {
      hide IsOrder, IsSensitive, OrderKey, ClientRef, Touch;
      firedRules, severity := [], 0;
      for i := 0 to |rules|
        invariant (View(), severity, firedRules) == Evaluate(old(View()), rules[..i], r, digest, now)
      {
        assert rules[..i + 1][..i] == rules[..i];
        var fires := false;
        match rules[i].check {
          case Stateless(test) => fires := test(r) == Fires;
          case DuplicateOrder => fires := CheckDuplicateOrder(r, now);
          case MassAccess => fires := CheckMassAccess(r, now);
        }
        if fires {
          firedRules := firedRules + [rules[i].id];
          severity := Max(severity, rules[i].severity);
        }
      }
      assert rules[..|rules|] == rules;
    }
  }
}
