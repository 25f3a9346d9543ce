/** The bounded risk score and the policy decision drawn from it, over exact reals. */
module RiskEngine {
  import opened Basics

  datatype Decision = Allow | Limit | Challenge | Block

  /** The inputs of one scoring; severities and scores are nominally 0 to 100, trust and context 0 to 1. */
  datatype Signals = Signals(waf: real, auth: real, rate: real, rule: real, anomaly: real, trust: real, context: real,
                             path: string)

  function Level(d: Decision): nat {
    match d case Allow => 0 case Limit => 1 case Challenge => 2 case Block => 3
  }

  function Clamp(x: real): real { MaxR(0.0, MinR(100.0, x)) }

  /** Rounding to the nearest integer, ties to even. */
  function RoundEven(x: real): int {
    var below := x.Floor;
    var rest := x - below as real;
    if rest < 0.5 || (rest == 0.5 && below % 2 == 0) then below else below + 1
  }

  /** `round(x, 2)`. */
  function Round2(x: real): real { RoundEven(x * 100.0) as real / 100.0 }

  lemma RoundMonotone(x: real, y: real)
    requires x <= y
    ensures RoundEven(x) <= RoundEven(y) && Round2(x) <= Round2(y)
  {
    assert forall u: real, v: real | u <= v :: RoundEven(u) <= RoundEven(v) by {
      forall u: real, v: real | u <= v
        ensures RoundEven(u) <= RoundEven(v)
      {
        if u.Floor == v.Floor {
        } else {
          assert u.Floor + 1 <= v.Floor;
        }
      }
    }
    assert x * 100.0 <= y * 100.0;
  }

  /** Whole numbers of hundredths, such as every threshold of the policy, are fixed points. */
  lemma RoundFixes(cents: int)
    ensures Round2(cents as real / 100.0) == cents as real / 100.0
  {
    assert cents as real / 100.0 * 100.0 == cents as real;
  }

  // ---------------------------------------------------------------- endpoint sensitivity

  const SENSITIVITIES: seq<(string, real)> :=
    [("/health", 0.0), ("/api/auth/login", 0.9), ("/api/orders", 0.8), ("/api/users", 0.85), ("/api/inventory", 0.5)]

  predicate Covers(prefix: string, path: string) { path == prefix || StartsWith(path, prefix + "/") }

  /** The rating of the first prefix from entry `i` on that covers the path, or the default. */
  function SensitivityFrom(i: nat, path: string): real
    decreases |SENSITIVITIES| - i
  {
    if i >= |SENSITIVITIES| then 0.5
    else if Covers(SENSITIVITIES[i].0, path) then SENSITIVITIES[i].1
    else SensitivityFrom(i + 1, path)
  }

  method GetEndpointSensitivity(path: string) returns (rating: real)
    ensures rating == SensitivityFrom(0, path)
  {
    for i := 0 to |SENSITIVITIES|
      invariant SensitivityFrom(0, path) == SensitivityFrom(i, path)
    {
      if Covers(SENSITIVITIES[i].0, path) {
        return SENSITIVITIES[i].1;
      }
    }
    rating := 0.5;
  }

  lemma {:induction false} SensitivityBounds(i: nat, path: string)
    ensures 0.0 <= SensitivityFrom(i, path) <= 0.9
    decreases |SENSITIVITIES| - i
  {
    if i < |SENSITIVITIES| {
      SensitivityBounds(i + 1, path);
    }
  }

  // ---------------------------------------------------------------- the score

  function Average(s: Signals): real { (s.waf + s.auth + s.rate + s.rule) / 4.0 }

  function Threat(s: Signals): real {
    var average := Average(s);
    Clamp(if s.waf >= 90.0 then MaxR(s.waf, average)
          else if s.rule >= 80.0 then MaxR(s.rule, average)
          else if s.auth >= 90.0 then MaxR(s.auth, average)
          else MinR(100.0, MaxR(average, s.rule * 0.5)))
  }

  function Composite(s: Signals): real {
    Threat(s) * 0.40
    + Clamp(SensitivityFrom(0, s.path) * 100.0) * 0.25
    + (100.0 - Clamp(s.trust * 100.0)) * 0.20
    + Clamp(MaxR(s.context * 100.0, s.anomaly)) * 0.15
  }

  predicate GuardedApi(path: string) { StartsWith(path, "/api/") && path != "/api/auth/login" }

  /** The hard floors and the ceiling laid on a composite. */
  function Bounded(s: Signals, composite: real): real {
    if s.waf >= 80.0 || s.rule >= 80.0 then MaxR(composite, 85.0)
    else if s.rule >= 60.0 then MaxR(composite, 65.0)
    else if s.auth >= 80.0 && GuardedApi(s.path) then
      if s.waf < 75.0 && s.rule < 75.0 then MinR(74.0, MaxR(composite, 60.0)) else MaxR(composite, 85.0)
    else composite
  }

  function Score(s: Signals): real { Clamp(Round2(Bounded(s, Composite(s)))) }

  function Decide(score: real): Decision {
    if score <= 20.0 then Allow else if score <= 50.0 then Limit else if score <= 75.0 then Challenge else Block
  }

  function Judge(s: Signals): Decision { Decide(Score(s)) }

  /** A bound on the composite carries over to the final score. */
  lemma ScoreFrom(s: Signals, t: Signals)
    requires Bounded(s, Composite(s)) <= Bounded(t, Composite(t))
    ensures Score(s) <= Score(t) && Level(Judge(s)) <= Level(Judge(t))
  {
    RoundMonotone(Bounded(s, Composite(s)), Bounded(t, Composite(t)));
  }

  lemma ScoreAtLeast(s: Signals, cents: int)
    requires 0 <= cents <= 10000
    ensures Bounded(s, Composite(s)) >= cents as real / 100.0 ==> Score(s) >= cents as real / 100.0
    ensures Bounded(s, Composite(s)) <= cents as real / 100.0 ==> Score(s) <= cents as real / 100.0
  {
    RoundFixes(cents);
    if Bounded(s, Composite(s)) >= cents as real / 100.0 {
      RoundMonotone(cents as real / 100.0, Bounded(s, Composite(s)));
    }
    if Bounded(s, Composite(s)) <= cents as real / 100.0 {
      RoundMonotone(Bounded(s, Composite(s)), cents as real / 100.0);
    }
  }

  /** More request pressure, more anomaly and less trust never lower the score, whatever the other signals. */
  lemma ScoreMonotone(s: Signals, t: Signals)
    requires s.waf == t.waf && s.auth == t.auth && s.rule == t.rule && s.path == t.path && s.context == t.context
    requires s.rate <= t.rate && s.anomaly <= t.anomaly && s.trust >= t.trust
    ensures 0.0 <= Score(s) <= Score(t) <= 100.0
    ensures Level(Judge(s)) <= Level(Judge(t))
  {
    hide SensitivityFrom, RoundEven;
    assert Threat(s) <= Threat(t);
    assert Composite(s) <= Composite(t);
    ScoreFrom(s, t);
  }

  /** A critical WAF finding or rule is blocked; a rule of 60 or more is at least challenged; an authentication
      anomaly of 80 or more on a guarded path, with nothing else serious, is challenged and not blocked. */
  lemma Floors(s: Signals)
    ensures s.waf >= 80.0 || s.rule >= 80.0 ==> Judge(s) == Block
    ensures s.rule >= 60.0 ==> Judge(s) == Challenge || Judge(s) == Block
    ensures s.auth >= 80.0 && GuardedApi(s.path) && s.waf < 75.0 && s.rule < 60.0 ==> Judge(s) == Challenge
  {
    hide SensitivityFrom, RoundEven, Composite;
    ScoreAtLeast(s, 8500);
    ScoreAtLeast(s, 6500);
    ScoreAtLeast(s, 6000);
    ScoreAtLeast(s, 7400);
  }

  /** Without a finding of any kind, half the trust and half the anomaly scale are never enough to challenge. */
  lemma QuietIsTolerated(s: Signals)
    requires s.waf == s.auth == s.rate == s.rule == s.context == 0.0
    requires s.trust >= 0.5 && s.anomaly <= 50.0
    ensures Judge(s) == Allow || Judge(s) == Limit
  {
    hide SensitivityFrom, RoundEven;
    SensitivityBounds(0, s.path);
    assert Composite(s) <= 50.0;
    ScoreAtLeast(s, 5000);
  }

  /** The worse WAF finding crosses 90 and so takes the place of a worse rule or authentication finding. */
  predicate Displaces(s: Signals, t: Signals) {
    var displaced := if s.rule >= 80.0 then s.rule else s.auth;
    && s.waf < 90.0 <= t.waf < 100.0 && (s.rule >= 80.0 || s.auth >= 90.0)
    && t.waf < displaced && Average(t) < displaced && Average(t) < 100.0
  }

  /** The ceiling for a lone authentication anomaly applies. */
  predicate Capped(s: Signals) { s.waf < 75.0 && s.rule < 60.0 && s.auth >= 80.0 && GuardedApi(s.path) }

  /** A worse WAF finding lowers the composite exactly when it displaces a finding that is worse still. */
  lemma CompositeFallsExactly(s: Signals, t: Signals)
    requires t == s.(waf := t.waf) && s.waf <= t.waf
    ensures Threat(t) < Threat(s) <==> Displaces(s, t)
    ensures Composite(t) < Composite(s) <==> Displaces(s, t)
  {
    hide SensitivityFrom;
    assert Average(s) <= Average(t);
  }

  lemma RoundAbove(x: real, cents: int)
    ensures Round2(x) > cents as real / 100.0 ==> x > cents as real / 100.0
    ensures x <= cents as real / 100.0 ==> Round2(x) <= cents as real / 100.0
    ensures x >= cents as real / 100.0 ==> Round2(x) >= cents as real / 100.0
  {
    RoundFixes(cents);
    hide Round2;
    if x <= cents as real / 100.0 {
      RoundMonotone(x, cents as real / 100.0);
    } else {
      RoundMonotone(cents as real / 100.0, x);
    }
  }

  /** The floor and the ceilings, after rounding. */
  lemma ScoreOf(s: Signals)
    ensures s.waf >= 80.0 || s.rule >= 80.0 ==> Score(s) == MaxR(85.0, Clamp(Round2(Composite(s))))
    ensures Capped(s) ==> Score(s) <= 74.0
    ensures !Capped(s) && Round2(Composite(s)) > 85.0 ==> Score(s) == Clamp(Round2(Composite(s)))
    ensures Round2(Composite(s)) <= 85.0 ==> Score(s) <= 85.0
  {
    hide SensitivityFrom, Composite, Round2;
    var c := Composite(s);
    RoundFixes(8500);
    RoundAbove(c, 8500);
    RoundAbove(c, 6500);
    RoundAbove(c, 7400);
    RoundAbove(c, 6000);
    RoundFixes(6500);
    RoundFixes(7400);
    RoundFixes(6000);
  }

  lemma CompositeRange(s: Signals)
    ensures 0.0 <= Composite(s) <= 100.0 && 0.0 <= Round2(Composite(s)) <= 100.0
  {
    hide SensitivityFrom, Threat, Round2;
    ThreatRange(s);
    RoundAbove(Composite(s), 0);
    RoundAbove(Composite(s), 10000);
  }

  lemma ThreatRange(s: Signals)
    ensures 0.0 <= Threat(s) <= 100.0
  {
  }

  /** Without such a displacement a worse WAF finding never lowers the score. With it, the score falls exactly when the
      displaced finding had put it above the block floor, uncapped, and the fall survives rounding. */
  lemma ScoreFallsExactly(s: Signals, t: Signals)
    requires t == s.(waf := t.waf) && s.waf <= t.waf
    ensures Score(t) < Score(s) <==>
              && Displaces(s, t) && !Capped(s)
              && 85.0 < Round2(Composite(s)) && Round2(Composite(t)) < Round2(Composite(s))
  {
    CompositeFallsExactly(s, t);
    CompositeRange(s);
    CompositeRange(t);
    ScoreOf(s);
    ScoreOf(t);
    hide SensitivityFrom, RoundEven, Composite, Threat, Round2;
    if Displaces(s, t) {
      hide Score;
      assert t.waf >= 80.0;
    } else {
      BoundedGrows(s, t);
      ScoreFrom(s, t);
    }
  }

  /** The floors and ceilings never undo what the composite says. */
  lemma BoundedGrows(s: Signals, t: Signals)
    requires t == s.(waf := t.waf) && s.waf <= t.waf && Composite(s) <= Composite(t)
    ensures Bounded(s, Composite(s)) <= Bounded(t, Composite(t))
  {
    hide SensitivityFrom, Composite;
  }

  lemma RoundKeepsGap(x: real, y: real)
    requires x + 0.01 < y
    ensures Round2(x) < Round2(y)
  {
    var u, v := x * 100.0, y * 100.0;
    assert u + 1.0 < v;
    assert RoundEven(u) as real <= u + 0.5 && v - 0.5 <= RoundEven(v) as real;
  }

  /** On the inputs: a displacement that costs more than a fortieth of a point of threat, of an uncapped finding that
      puts the composite above the block floor, does lower the score. */
  lemma WideFallSurvives(s: Signals, t: Signals)
    requires t == s.(waf := t.waf) && Displaces(s, t) && !Capped(s)
    requires Threat(t) + 0.025 < Threat(s) && 85.01 < Composite(s)
    ensures Score(t) < Score(s)
  {
    ScoreFallsExactly(s, t);
    RoundAbove(Composite(s), 8501);
    hide SensitivityFrom, RoundEven, Round2, Threat, Score;
    assert Composite(t) + 0.01 < Composite(s);
    RoundKeepsGap(Composite(t), Composite(s));
  }

  /** A more severe WAF finding never relaxes the decision; on either side of 90 it never lowers the score either. */
  lemma DecisionMonotoneInWaf(s: Signals, t: Signals)
    requires t == s.(waf := t.waf) && s.waf <= t.waf
    ensures Level(Judge(s)) <= Level(Judge(t))
    ensures t.waf < 90.0 || s.waf >= 90.0 ==> Score(s) <= Score(t)
  {
    hide SensitivityFrom, RoundEven, Composite, Threat, Round2;
    ScoreFallsExactly(s, t);
    if t.waf >= 80.0 {
      Floors(t);
    }
  }

  /** The branch for an authentication anomaly on a guarded path that comes with a WAF finding just below critical. */
  predicate Combined(s: Signals) { s.auth >= 80.0 && GuardedApi(s.path) && 75.0 <= s.waf < 80.0 && s.rule < 60.0 }

  /** A more severe rule relaxes the decision exactly when it takes the branch away from such a combination, which is
      blocked, and its own floor of 65 is all that holds the composite up. */
  lemma DecisionFallsInRuleExactly(s: Signals, t: Signals)
    requires t == s.(rule := t.rule) && s.rule <= t.rule
    ensures Level(Judge(t)) < Level(Judge(s)) <==> Combined(s) && 60.0 <= t.rule < 80.0 && Round2(Composite(t)) <= 75.0
  {
    DecisionOf(s);
    DecisionOf(t);
    hide SensitivityFrom, RoundEven, Round2, Judge, Bounded;
    if t.rule < 80.0 {
      RuleLiftsComposite(s, t);
      RoundMonotone(Composite(s), Composite(t));
    }
  }

  lemma CompositeFollows(s: Signals, t: Signals)
    requires Threat(s) <= Threat(t)
    requires s.path == t.path && s.trust == t.trust && s.context == t.context && s.anomaly == t.anomaly
    ensures Composite(s) <= Composite(t)
  {
    hide SensitivityFrom, Threat;
  }

  lemma RuleLiftsComposite(s: Signals, t: Signals)
    requires t == s.(rule := t.rule) && s.rule <= t.rule < 80.0
    ensures Composite(s) <= Composite(t)
  {
    hide Composite;
    assert Average(s) <= Average(t);
    assert Threat(s) <= Threat(t);
    CompositeFollows(s, t);
  }

  /** A more severe authentication anomaly relaxes the decision exactly when it brings in the ceiling for a lone
      anomaly on a request that would have been blocked without it. */
  lemma DecisionFallsInAuthExactly(s: Signals, t: Signals)
    requires t == s.(auth := t.auth) && s.auth <= t.auth
    ensures Level(Judge(t)) < Level(Judge(s)) <==> s.auth < 80.0 && Capped(t) && Round2(Composite(s)) > 75.0
  {
    DecisionOf(s);
    DecisionOf(t);
    AuthLiftsComposite(s, t);
    RoundMonotone(Composite(s), Composite(t));
    hide SensitivityFrom, RoundEven, Round2, Judge, Bounded, Composite;
  }

  lemma AuthLiftsComposite(s: Signals, t: Signals)
    requires t == s.(auth := t.auth) && s.auth <= t.auth
    ensures Composite(s) <= Composite(t)
  {
    hide Composite;
    assert Average(s) <= Average(t);
    assert Threat(s) <= Threat(t);
    CompositeFollows(s, t);
  }

  /** The decision by branch. */
  lemma DecisionOf(s: Signals)
    ensures s.waf >= 80.0 || s.rule >= 80.0 ==> Judge(s) == Block
    ensures s.waf < 80.0 && 60.0 <= s.rule < 80.0 ==>
              Judge(s) == if Round2(Composite(s)) > 75.0 then Block else Challenge
    ensures s.waf < 80.0 && s.rule < 60.0 && s.auth >= 80.0 && GuardedApi(s.path) ==>
              Judge(s) == if s.waf < 75.0 then Challenge else Block
    ensures s.waf < 80.0 && s.rule < 60.0 && !(s.auth >= 80.0 && GuardedApi(s.path))
            ==> Judge(s) == Decide(Round2(Composite(s)))
  {
    Floors(s);
    CompositeRange(s);
    RoundAbove(Composite(s), 6500);
    RoundFixes(6500);
    RoundFixes(8500);
    hide SensitivityFrom, Composite, RoundEven;
    if s.waf < 80.0 && s.rule < 60.0 && s.auth >= 80.0 && GuardedApi(s.path) && s.waf >= 75.0 {
      ScoreAtLeast(s, 8500);
    }
  }

  /** Such a fall is within reach: a rule of 60 turns a block into a challenge. */
  lemma RuleCanRelax(path: string)
    requires GuardedApi(path) && SensitivityFrom(0, path) == 0.5
    ensures var s := Signals(75.0, 80.0, 0.0, 0.0, 0.0, 1.0, 0.0, path);
            Judge(s) == Block && Judge(s.(rule := 60.0)) == Challenge
  {
    var s := Signals(75.0, 80.0, 0.0, 0.0, 0.0, 1.0, 0.0, path);
    var t := s.(rule := 60.0);
    DecisionOf(s);
    DecisionOf(t);
    assert Composite(t) <= 75.0;
    RoundAbove(Composite(t), 7500);
  }

  // ---------------------------------------------------------------- the score in figures

  /** The ratings of the catalogue: a prefix covers itself and what follows a slash. */
  lemma SensitivityInFigures(path: string)
    ensures SensitivityFrom(0, path)
            == if path == "/health" || StartsWith(path, "/health/") then 0.0
               else if path == "/api/auth/login" || StartsWith(path, "/api/auth/login/") then 0.9
               else if path == "/api/orders" || StartsWith(path, "/api/orders/") then 0.8
               else if path == "/api/users" || StartsWith(path, "/api/users/") then 0.85
               else 0.5
  {
    assert "/health" + "/" == "/health/" && "/api/auth/login" + "/" == "/api/auth/login/";
    assert "/api/orders" + "/" == "/api/orders/" && "/api/users" + "/" == "/api/users/";
    assert SensitivityFrom(5, path) == 0.5;
    assert SensitivityFrom(4, path) == 0.5;
    assert SensitivityFrom(3, path) == if Covers("/api/users", path) then 0.85 else SensitivityFrom(4, path);
    assert SensitivityFrom(2, path) == if Covers("/api/orders", path) then 0.8 else SensitivityFrom(3, path);
    assert SensitivityFrom(1, path) == if Covers("/api/auth/login", path) then 0.9 else SensitivityFrom(2, path);
  }

  /** Every signal within its nominal range. */
  predicate Nominal(s: Signals) {
    && 0.0 <= s.waf <= 100.0 && 0.0 <= s.auth <= 100.0 && 0.0 <= s.rate <= 100.0 && 0.0 <= s.rule <= 100.0
    && 0.0 <= s.anomaly <= 100.0 && 0.0 <= s.trust <= 1.0 && 0.0 <= s.context <= 1.0
  }

  /** For nominal signals the threat is the greatest of the average of the four severities and of one more figure: a
      WAF finding of 90 or more, else a rule of 80 or more, else an authentication anomaly of 90 or more, else half
      the rule. The composite takes 40 parts of a hundred from the threat, 25 from the endpoint, 20 from missing trust
      and 15 from the greater of context and anomaly. */
  lemma CompositeInFigures(s: Signals)
    requires Nominal(s)
    ensures var figure := if s.waf >= 90.0 then s.waf else if s.rule >= 80.0 then s.rule
                          else if s.auth >= 90.0 then s.auth else s.rule / 2.0;
            && Threat(s) >= figure && 4.0 * Threat(s) >= s.waf + s.auth + s.rate + s.rule
            && (Threat(s) == figure || 4.0 * Threat(s) == s.waf + s.auth + s.rate + s.rule)
    ensures 100.0 * Composite(s)
            == 40.0 * Threat(s) + 2500.0 * SensitivityFrom(0, s.path) + 2000.0 * (1.0 - s.trust)
               + 15.0 * (if 100.0 * s.context > s.anomaly then 100.0 * s.context else s.anomaly)
  {
    SensitivityBounds(0, s.path);
    hide SensitivityFrom;
  }

  /** The decision by the score: up to 20 allowed, up to 50 limited, up to 75 challenged, above that blocked. */
  lemma DecisionInFigures(s: Signals)
    ensures Judge(s) == Allow <==> Score(s) <= 20.0
    ensures Judge(s) == Limit <==> 20.0 < Score(s) <= 50.0
    ensures Judge(s) == Challenge <==> 50.0 < Score(s) <= 75.0
    ensures Judge(s) == Block <==> 75.0 < Score(s)
  {
    hide Score;
  }

  lemma RoundEvenIsNear(u: real)
    ensures u - 0.5 <= RoundEven(u) as real <= u + 0.5
  {
  }

  /** Rounding moves a figure by half a hundredth at most, to a whole number of hundredths. */
  lemma RoundIsNear(x: real)
    ensures Round2(x) * 100.0 == RoundEven(x * 100.0) as real
    ensures x - 0.005 <= Round2(x) <= x + 0.005
  {
    RoundEvenIsNear(x * 100.0);
    hide RoundEven;
  }

  /** The score by branch: at least 85 for a critical finding, at least 65 for a rule of 60, between 60 and 74 for a
      lone authentication anomaly, at least 85 for one combined with a WAF finding of 75, and else the rounded
      composite. */
  lemma ScoreInFigures(s: Signals)
    ensures var c := Round2(Composite(s));
            var lone := s.auth >= 80.0 && StartsWith(s.path, "/api/") && s.path != "/api/auth/login";
            Score(s) == if s.waf >= 80.0 || s.rule >= 80.0 then MaxR(85.0, c)
                        else if s.rule >= 60.0 then MaxR(65.0, c)
                        else if lone && s.waf < 75.0 then MinR(74.0, MaxR(60.0, c))
                        else if lone then MaxR(85.0, c)
                        else c
  {
    CompositeRange(s);
    var c := Composite(s);
    hide SensitivityFrom, Composite, Round2;
    RoundFixes(8500);
    RoundFixes(6500);
    RoundFixes(7400);
    RoundFixes(6000);
    RoundAbove(c, 8500);
    RoundAbove(c, 6500);
    RoundAbove(c, 7400);
    RoundAbove(c, 6000);
  }

  lemma UsersSensitivity()
    ensures SensitivityFrom(0, "/api/users") == 0.85
  {
    var p := "/api/users";
    assert p[1] == 'a' && p[5] == 'u';
    assert forall k | 0 <= k < 3 :: !Covers(SENSITIVITIES[k].0, p) by {
      assert !Covers("/health", p);
      assert !StartsWith(p, "/api/auth/login/");
      assert "/api/orders/"[5] == 'o';
    }
    assert SensitivityFrom(0, p) == SensitivityFrom(1, p) == SensitivityFrom(2, p) == SensitivityFrom(3, p);
  }

  /** Such a fall is within reach: at 90 a WAF finding displaces a rule of 100. */
  lemma ScoreDipsInWaf()
    ensures var s := Signals(89.0, 0.0, 0.0, 100.0, 100.0, 0.0, 0.0, "/api/users");
            Score(s.(waf := 90.0)) < Score(s)
  {
    var s := Signals(89.0, 0.0, 0.0, 100.0, 100.0, 0.0, 0.0, "/api/users");
    UsersSensitivity();
    assert Bounded(s, Composite(s)) == 9625.0 / 100.0;
    assert Bounded(s.(waf := 90.0), Composite(s.(waf := 90.0))) == 9225.0 / 100.0;
    RoundFixes(9625);
    RoundFixes(9225);
  }
}
