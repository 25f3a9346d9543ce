/** Gateway replicas that share one state store, under any interleaving of actions, rollbacks and requests. */
module Replicas {
  import opened Basics
  import opened Actions
  import opened StateStore
  import opened Mitigation

  datatype Cluster = Cluster(locals: seq<Local>, shared: Shared)

  datatype Step =
    | ApplyAt(r: nat, action: Action, now: Time)
    | RollbackAt(r: nat, id: string)
    | RequestAt(r: nat, ip: string, principal: string, token: string, now: Time)

  predicate Routed(steps: seq<Step>, replicas: nat) {
    forall i | 0 <= i < |steps| :: steps[i].r < replicas
  }

  function EngineAt(c: Cluster, r: nat): Engine
    requires r < |c.locals|
  {
    Engine(c.locals[r], c.shared)
  }

  function StepEngine(e: Engine, s: Step, isWhitelisted: string -> bool): Engine {
    match s
    case ApplyAt(_, a, now) => Apply(e, a, isWhitelisted(a.target), now)
    case RollbackAt(_, id) => Rollback(e, id)
    case RequestAt(_, ip, principal, token, now) => Evaluate(e, ip, principal, token, now).0
  }

  function StepCluster(c: Cluster, s: Step, isWhitelisted: string -> bool): Cluster
    requires s.r < |c.locals|
  {
    var e := StepEngine(EngineAt(c, s.r), s, isWhitelisted);
    Cluster(c.locals[s.r := e.local], e.shared)
  }

  function Run(c: Cluster, steps: seq<Step>, isWhitelisted: string -> bool): (end: Cluster)
    requires Routed(steps, |c.locals|)
    ensures |end.locals| == |c.locals|
  {
    if steps == [] then c
    else StepCluster(Run(c, steps[..|steps| - 1], isWhitelisted), steps[|steps| - 1], isWhitelisted)
  }

  // ---------------------------------------------------------------- suspensions

  /** The step rolls back a suspension of `p` that its replica registered. */
  predicate LiftsSuspension(c: Cluster, s: Step, p: string)
    requires s.r < |c.locals|
  {
    s.RollbackAt? && s.id in c.locals[s.r].registry && c.locals[s.r].registry[s.id] == (SuspendAccount, p)
  }

  /** The step puts a suspension of `p` in force. */
  predicate Suspends(s: Step, p: string) {
    s.ApplyAt? && s.action.kind == SuspendAccount && s.action.target == p && Outcome(s.action, false) == Applied
  }

  /** One step changes who is suspended exactly as its kind says, in the store and on the replica that ran it. */
  lemma StepSuspension(e: Engine, s: Step, isWhitelisted: string -> bool, p: string)
    ensures var e' := StepEngine(e, s, isWhitelisted);
            var lifts := s.RollbackAt? && s.id in e.local.registry && e.local.registry[s.id] == (SuspendAccount, p);
            && (p in e'.shared.suspended <==> Suspends(s, p) || (p in e.shared.suspended && !lifts))
            && (p in e'.local.suspended <==> Suspends(s, p) || (p in e.local.suspended && !lifts))
  {
    match s
    case ApplyAt(_, a, now) => ApplyEffects(e, a, isWhitelisted(a.target), now);
    case RollbackAt(_, id) => RollbackEffects(e, id);
    case RequestAt(_, ip, principal, token, now) => EvaluateFrame(e, ip, principal, token, now);
  }

  /** Every replica refuses `p`, whatever the address, the token and the time. */
  ghost predicate RefusedEverywhere(c: Cluster, p: string) {
    forall r: nat, ip, token, now | r < |c.locals| ::
      var v := Evaluate(EngineAt(c, r), ip, p, token, now).1;
      v.Deny? && v.kind == SuspendAccount
  }

  /** A suspension in the store keeps every replica refusing the account until some replica rolls back a suspension of
      it. */
  lemma {:induction false} SuspensionHolds(c: Cluster, steps: seq<Step>, isWhitelisted: string -> bool, p: string)
    requires Routed(steps, |c.locals|)
    requires p != "" && p in c.shared.suspended
    requires forall i | 0 <= i < |steps| :: !LiftsSuspension(Run(c, steps[..i], isWhitelisted), steps[i], p)
    ensures p in Run(c, steps, isWhitelisted).shared.suspended
    ensures RefusedEverywhere(Run(c, steps, isWhitelisted), p)
  {
    if steps == [] {
    } else {
      var before, last := steps[..|steps| - 1], steps[|steps| - 1];
      forall i | 0 <= i < |before|
        ensures !LiftsSuspension(Run(c, before[..i], isWhitelisted), before[i], p)
      {
        assert before[..i] == steps[..i];
      }
      SuspensionHolds(c, before, isWhitelisted, p);
      StepSuspension(EngineAt(Run(c, before, isWhitelisted), last.r), last, isWhitelisted, p);
    }
    var end := Run(c, steps, isWhitelisted);
    forall r: nat, ip, token, now | r < |end.locals|
      ensures var v := Evaluate(EngineAt(end, r), ip, p, token, now).1; v.Deny? && v.kind == SuspendAccount
    {
      EvaluateByPriority(EngineAt(end, r), ip, p, token, now);
    }
  }

  /** An approved suspension applied on any one replica is enforced by all of them at once. */
  lemma SuspensionReachesEveryReplica(c: Cluster, s: Step, isWhitelisted: string -> bool, p: string)
    requires s.r < |c.locals| && p != "" && Suspends(s, p)
    ensures RefusedEverywhere(StepCluster(c, s, isWhitelisted), p)
  {
    StepSuspension(EngineAt(c, s.r), s, isWhitelisted, p);
    SuspensionHolds(StepCluster(c, s, isWhitelisted), [], isWhitelisted, p);
  }

  /** After the rollback, for as long as nobody suspends `p` again, the only replicas that can still refuse it
      as suspended are those that had an entry of their own before the rollback. */
  lemma {:induction false} SuspensionReleased(c: Cluster, s: Step, steps: seq<Step>, isWhitelisted: string -> bool,
                                              p: string, r: nat)
    requires s.r < |c.locals| && LiftsSuspension(c, s, p) && r < |c.locals|
    requires Routed(steps, |c.locals|) && forall i | 0 <= i < |steps| :: !Suspends(steps[i], p)
    ensures var end := Run(StepCluster(c, s, isWhitelisted), steps, isWhitelisted);
            && p !in end.shared.suspended
            && (p in end.locals[r].suspended ==> r != s.r && p in c.locals[r].suspended)
            && forall ip, token, now ::
                 var v := Evaluate(EngineAt(end, r), ip, p, token, now).1;
                 v.Deny? && v.kind == SuspendAccount ==> r != s.r && p in c.locals[r].suspended
  {
    var start := StepCluster(c, s, isWhitelisted);
    if steps == [] {
      StepSuspension(EngineAt(c, s.r), s, isWhitelisted, p);
    } else {
      var before, last := steps[..|steps| - 1], steps[|steps| - 1];
      SuspensionReleased(c, s, before, isWhitelisted, p, r);
      StepSuspension(EngineAt(Run(start, before, isWhitelisted), last.r), last, isWhitelisted, p);
    }
    var end := Run(start, steps, isWhitelisted);
    forall ip, token, now
      ensures var v := Evaluate(EngineAt(end, r), ip, p, token, now).1;
              v.Deny? && v.kind == SuspendAccount ==> r != s.r && p in c.locals[r].suspended
    {
      EvaluateByPriority(EngineAt(end, r), ip, p, token, now);
    }
  }

  // ---------------------------------------------------------------- revoked tokens

  predicate LiftsToken(c: Cluster, s: Step, clean: string)
    requires s.r < |c.locals|
  {
    && s.RollbackAt? && s.id in c.locals[s.r].registry
    && c.locals[s.r].registry[s.id].0 == RevokeSession && CleanToken(c.locals[s.r].registry[s.id].1) == clean
  }

  /** The step revokes the token whose clean form is `clean`. */
  predicate RevokesToken(s: Step, clean: string) {
    && s.ApplyAt? && s.action.kind == RevokeSession
    && IsTokenTarget(s.action.target) && CleanToken(s.action.target) == clean
  }

  /** One step changes which tokens are revoked exactly as its kind says, in the store and on the replica that ran
      it. */
  lemma StepToken(e: Engine, s: Step, isWhitelisted: string -> bool, clean: string)
    ensures var e' := StepEngine(e, s, isWhitelisted);
            var lifts := && s.RollbackAt? && s.id in e.local.registry
                         && e.local.registry[s.id].0 == RevokeSession && CleanToken(e.local.registry[s.id].1) == clean;
            && (clean in e'.shared.revokedTokens <==>
                  RevokesToken(s, clean) || (clean in e.shared.revokedTokens && !lifts))
            && (clean in e'.local.revokedTokens <==>
                  RevokesToken(s, clean) || (clean in e.local.revokedTokens && !lifts))
  {
    hide CleanToken, IsTokenTarget, Apply, Rollback, Evaluate;
    match s
    case ApplyAt(_, a, now) => ApplyTokens(e, a, isWhitelisted(a.target), now);
    case RollbackAt(_, id) => RollbackTokens(e, id);
    case RequestAt(_, ip, principal, token, now) => EvaluateFrame(e, ip, principal, token, now);
  }

  /** A revoked token is refused by every replica until some replica rolls back a revocation with the same clean
      token. */
  lemma {:induction false} RevocationHolds(c: Cluster, steps: seq<Step>, isWhitelisted: string -> bool, clean: string,
                                           r: nat, ip: string, principal: string, token: string, now: Time)
    requires Routed(steps, |c.locals|) && r < |c.locals|
    requires clean in c.shared.revokedTokens && token != "" && CleanToken(token) == clean
    requires forall i | 0 <= i < |steps| :: !LiftsToken(Run(c, steps[..i], isWhitelisted), steps[i], clean)
    ensures var end := Run(c, steps, isWhitelisted);
            clean in end.shared.revokedTokens && Evaluate(EngineAt(end, r), ip, principal, token, now).1.Deny?
  {
    if steps == [] {
    } else {
      var before, last := steps[..|steps| - 1], steps[|steps| - 1];
      forall i | 0 <= i < |before|
        ensures !LiftsToken(Run(c, before[..i], isWhitelisted), before[i], clean)
      {
        assert before[..i] == steps[..i];
      }
      RevocationHolds(c, before, isWhitelisted, clean, r, ip, principal, token, now);
      StepToken(EngineAt(Run(c, before, isWhitelisted), last.r), last, isWhitelisted, clean);
    }
    EvaluateByPriority(EngineAt(Run(c, steps, isWhitelisted), r), ip, principal, token, now);
  }

  /** The replica refuses the principal for a revocation of its own, whatever the token. */
  predicate PrincipalRevoked(e: Engine, principal: string, now: Time) {
    principal != "" && principal in e.local.revokedPrincipals && LiveAt(e.local.revokedPrincipals[principal], now)
  }

  /** Only a replica that holds the token itself refuses requests as revoked for it. */
  ghost predicate RefusesToken(e: Engine, clean: string) {
    exists ip, principal, token, now ::
      && token != "" && CleanToken(token) == clean && !PrincipalRevoked(e, principal, now)
      && var v := Evaluate(e, ip, principal, token, now).1; v.Deny? && v.kind == RevokeSession
  }

  lemma RefusesTokenTells(e: Engine, clean: string)
    requires RefusesToken(e, clean)
    ensures clean in e.local.revokedTokens || clean in e.shared.revokedTokens
  {
    var ip, principal, token, now :|
      && token != "" && CleanToken(token) == clean && !PrincipalRevoked(e, principal, now)
      && var v := Evaluate(e, ip, principal, token, now).1; v.Deny? && v.kind == RevokeSession;
    EvaluateByPriority(e, ip, principal, token, now);
  }

  /** After the rollback, for as long as nobody revokes the token again, the store does not hold it, and the only
      replicas that still refuse a request for it are those that had it in their own memory before. */
  lemma {:induction false} RevocationReleased(c: Cluster, s: Step, steps: seq<Step>, isWhitelisted: string -> bool,
                                              clean: string, r: nat)
    requires s.r < |c.locals| && LiftsToken(c, s, clean) && r < |c.locals|
    requires Routed(steps, |c.locals|) && forall i | 0 <= i < |steps| :: !RevokesToken(steps[i], clean)
    ensures var end := Run(StepCluster(c, s, isWhitelisted), steps, isWhitelisted);
            && clean !in end.shared.revokedTokens
            && (clean in end.locals[r].revokedTokens ==> r != s.r && clean in c.locals[r].revokedTokens)
            && (RefusesToken(EngineAt(end, r), clean) ==> r != s.r && clean in c.locals[r].revokedTokens)
  {
    hide CleanToken, StepEngine, RevokesToken, RefusesToken;
    var start := StepCluster(c, s, isWhitelisted);
    if steps == [] {
      StepToken(EngineAt(c, s.r), s, isWhitelisted, clean);
      RollbackRevokesNothing(s, clean);
    } else {
      var before, last := steps[..|steps| - 1], steps[|steps| - 1];
      RevocationReleased(c, s, before, isWhitelisted, clean, r);
      StepToken(EngineAt(Run(start, before, isWhitelisted), last.r), last, isWhitelisted, clean);
    }
    var end := Run(start, steps, isWhitelisted);
    if RefusesToken(EngineAt(end, r), clean) {
      RefusesTokenTells(EngineAt(end, r), clean);
    }
  }

  lemma RollbackRevokesNothing(s: Step, clean: string)
    requires s.RollbackAt?
    ensures !RevokesToken(s, clean)
  {
  }

  // ---------------------------------------------------------------- quarantines

  /** Step `i` quarantined `target`, which is not whitelisted, and `record` runs out within an hour of it. */
  predicate QuarantinedBy(steps: seq<Step>, i: int, target: string, record: Record, isWhitelisted: string -> bool) {
    && 0 <= i < |steps| && steps[i].ApplyAt?
    && steps[i].action.kind == QuarantineIpTemp && steps[i].action.target == target && !isWhitelisted(target)
    && record.until != None && record.until.value <= steps[i].now + MAX_AUTO_QUARANTINE_SECONDS * SECOND
  }

  ghost predicate Backed(steps: seq<Step>, m: map<string, Record>, isWhitelisted: string -> bool) {
    forall k | k in m :: exists i :: QuarantinedBy(steps, i, k, m[k], isWhitelisted)
  }

  lemma {:induction false} BackedAfter(before: seq<Step>, last: Step, m: map<string, Record>, m': map<string, Record>,
                                       isWhitelisted: string -> bool)
    requires Backed(before, m, isWhitelisted)
    requires forall k | k in m' ::
               (k in m && m'[k] == m[k]) || QuarantinedBy(before + [last], |before|, k, m'[k], isWhitelisted)
    ensures Backed(before + [last], m', isWhitelisted)
  {
    forall k | k in m'
      ensures exists i :: QuarantinedBy(before + [last], i, k, m'[k], isWhitelisted)
    {
      if k in m && m'[k] == m[k] {
        var i :| QuarantinedBy(before, i, k, m[k], isWhitelisted);
        assert QuarantinedBy(before + [last], i, k, m'[k], isWhitelisted);
      }
    }
  }

  /** One step only adds quarantines that it orders itself, on a target that is not whitelisted, for an hour at most. */
  lemma {:induction false} StepQuarantine(e: Engine, before: seq<Step>, s: Step, isWhitelisted: string -> bool,
                                          k: string)
    ensures var e' := StepEngine(e, s, isWhitelisted);
            && (k in e'.local.quarantined ==>
                  || (k in e.local.quarantined && e'.local.quarantined[k] == e.local.quarantined[k])
                  || QuarantinedBy(before + [s], |before|, k, e'.local.quarantined[k], isWhitelisted))
            && (k in e'.shared.quarantined ==>
                  || (k in e.shared.quarantined && e'.shared.quarantined[k] == e.shared.quarantined[k])
                  || QuarantinedBy(before + [s], |before|, k, e'.shared.quarantined[k], isWhitelisted))
  {
    match s
    case ApplyAt(_, a, now) => ApplyEffects(e, a, isWhitelisted(a.target), now);
    case RollbackAt(_, id) => RollbackEffects(e, id);
    case RequestAt(_, ip, principal, token, now) => EvaluateFrame(e, ip, principal, token, now);
  }

  lemma {:induction false} QuarantinesBacked(replicas: nat, steps: seq<Step>, isWhitelisted: string -> bool, r: nat)
    requires Routed(steps, replicas) && r < replicas
    ensures var end := Run(Fresh(replicas), steps, isWhitelisted);
            Backed(steps, end.locals[r].quarantined, isWhitelisted)
              && Backed(steps, end.shared.quarantined, isWhitelisted)
  {
    var start := Fresh(replicas);
    if steps == [] {
    } else {
      var before, last := steps[..|steps| - 1], steps[|steps| - 1];
      var c := Run(start, before, isWhitelisted);
      var c' := Run(start, steps, isWhitelisted);
      QuarantinesBacked(replicas, before, isWhitelisted, r);
      QuarantinesBacked(replicas, before, isWhitelisted, last.r);
      assert steps == before + [last];
      forall k {
        StepQuarantine(EngineAt(c, last.r), before, last, isWhitelisted, k);
      }
      BackedAfter(before, last, c.locals[r].quarantined, c'.locals[r].quarantined, isWhitelisted);
      BackedAfter(before, last, c.shared.quarantined, c'.shared.quarantined, isWhitelisted);
    }
  }

  /** In every run of the cluster, a quarantine denial names an address or principal that is not whitelisted
      and that some replica quarantined at most an hour earlier. */
  lemma {:induction false} QuarantineDenialIsRecent(replicas: nat, steps: seq<Step>, isWhitelisted: string -> bool,
                                                    r: nat, ip: string, principal: string, token: string, now: Time)
    requires Routed(steps, replicas) && r < replicas
    ensures var end := Run(Fresh(replicas), steps, isWhitelisted);
            var v := Evaluate(EngineAt(end, r), ip, principal, token, now).1;
            v.Deny? && v.kind == QuarantineIpTemp ==>
              exists i | 0 <= i < |steps| ::
                && steps[i].ApplyAt? && steps[i].action.kind == QuarantineIpTemp
                && steps[i].action.target in {ip, principal}
                && !isWhitelisted(steps[i].action.target) && now <= steps[i].now + MAX_AUTO_QUARANTINE_SECONDS * SECOND
  {
    var end := Run(Fresh(replicas), steps, isWhitelisted);
    var e := EngineAt(end, r);
    var v := Evaluate(e, ip, principal, token, now).1;
    if v.Deny? && v.kind == QuarantineIpTemp {
      EvaluateByPriority(e, ip, principal, token, now);
      QuarantinesBacked(replicas, steps, isWhitelisted, r);
      var key := if LiveQuarantine(e, ip, now) then ip else principal;
      var m := if key in e.local.quarantined && LiveAt(e.local.quarantined[key], now) then e.local.quarantined
          else e.shared.quarantined;
      assert key in m && LiveAt(m[key], now);
      var i :| QuarantinedBy(steps, i, key, m[key], isWhitelisted);
      assert steps[i].ApplyAt?;
    }
  }

  /** A quarantine applied on one replica is enforced, until its last moment, by every replica that has no entry of
      its own for the request. */
  lemma QuarantineReachesEveryReplica(c: Cluster, s: Step, isWhitelisted: string -> bool, r: nat, principal: string,
                                      token: string, t: Time)
    requires s.r < |c.locals| && r < |c.locals| && s.ApplyAt? && s.action.kind == QuarantineIpTemp
    requires !isWhitelisted(s.action.target) && s.action.target != ""
    requires r != s.r ==> s.action.target !in c.locals[r].quarantined && principal !in c.locals[r].quarantined
    ensures t <= LastMoment(s.action, s.now) ==>
              Evaluate(EngineAt(StepCluster(c, s, isWhitelisted), r), s.action.target, principal, token, t).1.Deny?
  {
    var e := EngineAt(StepCluster(c, s, isWhitelisted), r);
    QuarantineEffect(EngineAt(c, s.r), s.action, false, s.now);
    EvaluateByPriority(e, s.action.target, principal, token, t);
    hide Evaluate, Apply, LastMoment;
    assert t <= LastMoment(s.action, s.now) ==> LiveQuarantine(e, s.action.target, t);
  }

  // ---------------------------------------------------------------- runs in which replicas disagree

  function Fresh(replicas: nat): Cluster { Cluster(seq(replicas, _ => EMPTY_LOCAL), Shared(map[], map[], map[], {})) }

  lemma RunOfThree(c: Cluster, a: Step, b: Step, d: Step, isWhitelisted: string -> bool)
    requires Routed([a, b, d], |c.locals|)
    ensures Routed([a], |c.locals|) && Run(c, [a], isWhitelisted) == StepCluster(c, a, isWhitelisted)
    ensures Routed([a, b], |c.locals|)
            && Run(c, [a, b], isWhitelisted) == StepCluster(StepCluster(c, a, isWhitelisted), b, isWhitelisted)
    ensures Run(c, [a, b, d], isWhitelisted)
            == StepCluster(StepCluster(StepCluster(c, a, isWhitelisted), b, isWhitelisted), d, isWhitelisted)
  {
    hide StepCluster;
    assert [a][..0] == [] && [a, b][..1] == [a] && [a, b, d][..2] == [a, b];
    assert a == [a, b, d][0] && b == [a, b, d][1];
  }

  /** One replica quarantines an address, a second renews it a minute later. When the first has let its own copy
      expire and sees the address again, the renewed quarantine is gone from the store, and a third replica lets the
      address pass. */
  lemma SweepUndoesRenewal(ip: string, isWhitelisted: string -> bool)
    requires ip != "" && !isWhitelisted(ip)
    ensures var first := ApplyAt(0, NewAction("a", QuarantineIpTemp, ip, "", Some(3600)), 0);
            var second := ApplyAt(1, NewAction("b", QuarantineIpTemp, ip, "", Some(3600)), 60 * SECOND);
            var third, now := RequestAt(0, ip, "", "", 3601 * SECOND), 3601 * SECOND;
            Routed([first, second, third], 3) &&
            var before, after := Run(Fresh(3), [first, second], isWhitelisted),
                Run(Fresh(3), [first, second, third], isWhitelisted);
            && ip in before.shared.quarantined && LiveAt(before.shared.quarantined[ip], now)
            && ip !in after.shared.quarantined
            && Evaluate(EngineAt(before, 2), ip, "", "", now).1.Deny?
            && Evaluate(EngineAt(after, 2), ip, "", "", now).1 == Pass
  {
    var a, b := NewAction("a", QuarantineIpTemp, ip, "", Some(3600)),
        NewAction("b", QuarantineIpTemp, ip, "", Some(3600));
    var first, second, now := ApplyAt(0, a, 0), ApplyAt(1, b, 60 * SECOND), 3601 * SECOND;
    var third := RequestAt(0, ip, "", "", now);
    RunOfThree(Fresh(3), first, second, third, isWhitelisted);
    hide Run, Evaluate, Apply;
    var c1 := StepCluster(Fresh(3), first, isWhitelisted);
    var c2 := StepCluster(c1, second, isWhitelisted);
    var c3 := StepCluster(c2, third, isWhitelisted);
    ApplyEffects(EngineAt(Fresh(3), 0), a, false, 0);
    ApplyEffects(EngineAt(c1, 1), b, false, 60 * SECOND);
    SweepLosesLiveRecord(EngineAt(c2, 0), ip, "", "", now, ip);
    EvaluateByPriority(EngineAt(c2, 2), ip, "", "", now);
    EvaluateByPriority(EngineAt(c3, 2), ip, "", "", now);
  }

  /** A principal whose sessions one replica revokes is refused there and admitted by every other replica. */
  lemma PrincipalRevokedOnOneReplica(principal: string, ip: string, now: Time, isWhitelisted: string -> bool)
    requires principal != "" && !IsTokenTarget(principal)
    ensures var s := ApplyAt(0, NewAction("a", RevokeSession, principal, "", Some(3600)), now);
            Routed([s], 2) &&
            var c := Run(Fresh(2), [s], isWhitelisted);
            && principal in c.shared.revokedPrincipals
            && Evaluate(EngineAt(c, 0), ip, principal, "", now).1.Deny?
            && Evaluate(EngineAt(c, 1), ip, principal, "", now).1 == Pass
  {
    var s := ApplyAt(0, NewAction("a", RevokeSession, principal, "", Some(3600)), now);
    assert [s][..0] == [];
    var c := StepCluster(Fresh(2), s, isWhitelisted);
    assert Run(Fresh(2), [s], isWhitelisted) == c;
    hide Run, Evaluate;
    EvaluateByPriority(EngineAt(c, 0), ip, principal, "", now);
    EvaluateByPriority(EngineAt(c, 1), ip, principal, "", now);
  }

  /** A token is revoked, then the sessions of a principal of the same text; rolling back the second lets the token pass
      again on every replica, although its own revocation was never rolled back. */
  lemma PrincipalRollbackRestoresToken(a: Action, b: Action, ip: string, now: Time, isWhitelisted: string -> bool)
    requires a.kind == b.kind == RevokeSession && a.id != b.id
    requires a.target == "Bearer " + b.target && !IsTokenTarget(b.target)
    ensures var first, second, third := ApplyAt(0, a, now), ApplyAt(0, b, now), RollbackAt(0, b.id);
            Routed([first, second, third], 2) &&
            var before, after := Run(Fresh(2), [first, second], isWhitelisted),
                Run(Fresh(2), [first, second, third], isWhitelisted);
            && a.id in after.locals[0].registry
            && forall r: nat | r < 2 ::
                 && Evaluate(EngineAt(before, r), ip, "", a.target, now).1.Deny?
                 && Evaluate(EngineAt(after, r), ip, "", a.target, now).1 == Pass
  {
    var first, second, third := ApplyAt(0, a, now), ApplyAt(0, b, now), RollbackAt(0, b.id);
    RunOfThree(Fresh(2), first, second, third, isWhitelisted);
    hide Run, Evaluate, CleanToken, IsTokenTarget, Apply, Rollback;
    var c1 := StepCluster(Fresh(2), first, isWhitelisted);
    var c2 := StepCluster(c1, second, isWhitelisted);
    var c3 := StepCluster(c2, third, isWhitelisted);
    TokenCycle(EngineAt(Fresh(2), 0), a, b, b.target, isWhitelisted, now);
    forall r: nat | r < 2
      ensures Evaluate(EngineAt(c2, r), ip, "", a.target, now).1.Deny?
      ensures Evaluate(EngineAt(c3, r), ip, "", a.target, now).1 == Pass
    {
      TokenVerdict(EngineAt(c2, r), ip, a.target, now);
      TokenVerdict(EngineAt(c3, r), ip, a.target, now);
    }
  }

  /** Revoking a token and a principal of the same text, then rolling back the principal. */
  lemma TokenCycle(e: Engine, a: Action, b: Action, principal: string, isWhitelisted: string -> bool, now: Time)
    requires Unquarantined(e) && e.local.revokedTokens == e.shared.revokedTokens == {}
    requires a.kind == b.kind == RevokeSession && a.id != b.id
    requires a.target == "Bearer " + principal && b.target == principal && !IsTokenTarget(principal)
    ensures var e2 := Apply(Apply(e, a, isWhitelisted(a.target), now), b, isWhitelisted(b.target), now);
            var e3 := Rollback(e2, b.id);
            && Unquarantined(e2) && Unquarantined(e3) && a.id in e3.local.registry
            && CleanToken(a.target) in e2.local.revokedTokens && CleanToken(a.target) in e2.shared.revokedTokens
            && CleanToken(a.target) !in e3.local.revokedTokens && CleanToken(a.target) !in e3.shared.revokedTokens
  {
    assert a.target[..7] == "Bearer " && a.target[7..] == principal;
    assert IsTokenTarget(a.target) && CleanToken(a.target) == CleanToken(principal);
    hide Apply, Rollback, CleanToken, IsTokenTarget;
    var e1 := Apply(e, a, isWhitelisted(a.target), now);
    var e2 := Apply(e1, b, isWhitelisted(b.target), now);
    RevocationOnly(e, a, isWhitelisted(a.target), now);
    RevocationOnly(e1, b, isWhitelisted(b.target), now);
    ApplyTokens(e, a, isWhitelisted(a.target), now);
    ApplyTokens(e1, b, isWhitelisted(b.target), now);
    RollbackTokens(e2, b.id);
    RollbackEffects(e2, b.id);
    ReleaseKeepsThrottles(e2, b.id);
  }

  /** Nothing but tokens and principals is contained. */
  predicate Unquarantined(e: Engine) {
    e.local.quarantined == e.shared.quarantined == map[] && e.local.throttles == map[]
  }

  lemma RevocationOnly(e: Engine, a: Action, whitelisted: bool, now: Time)
    requires Unquarantined(e) && a.kind == RevokeSession
    ensures var e' := Apply(e, a, whitelisted, now);
            Unquarantined(e') && e'.local.registry == e.local.registry[a.id := (RevokeSession, a.target)]
  {
    hide CleanToken, IsTokenTarget;
  }

  lemma ReleaseKeepsThrottles(e: Engine, id: string)
    requires Unquarantined(e)
    ensures Unquarantined(Rollback(e, id))
  {
    hide CleanToken;
  }

  lemma TokenVerdict(e: Engine, ip: string, token: string, now: Time)
    requires Unquarantined(e) && token != ""
    ensures Evaluate(e, ip, "", token, now).1
            == if CleanToken(token) in e.local.revokedTokens || CleanToken(token) in e.shared.revokedTokens
               then Deny(RevokeSession, 401, "", 0) else Pass
  {
    hide CleanToken;
  }
}
