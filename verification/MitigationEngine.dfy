/** The containment registry: what it enforces, how it is rolled back and how a request is judged against it. */
module Mitigation {
  import opened Basics
  import opened Actions
  import opened StateStore
  import Text

  const MAX_AUTO_QUARANTINE_SECONDS := 3600
  const DEFAULT_DURATION_SECONDS := 900

  datatype Throttle = Throttle(limit: int, windowSeconds: int, until: Time, actionId: string)

  /** What one replica keeps in its own memory. */
  datatype Local = Local(
    quarantined: map<string, Record>,
    revokedTokens: set<string>,
    revokedPrincipals: map<string, Record>,
    mfaEnforced: map<string, Record>,
    throttles: map<string, Throttle>,
    suspended: map<string, Record>,
    registry: map<string, (ActionType, string)>)

  const EMPTY_LOCAL := Local(map[], {}, map[], map[], map[], map[], map[])

  /** A replica together with the store it shares. */
  datatype Engine = Engine(local: Local, shared: Shared)

  datatype ApplyOutcome = Applied | Declined | Unauthorized

  datatype Verdict = Pass | Deny(kind: ActionType, status: int, actionId: string, retryAfter: int)

  // ---------------------------------------------------------------- tokens

  /** `s.replace("Bearer ", "")`. */
  function DropBearer(s: string): string {
    if s == "" then s
    else if StartsWith(s, "Bearer ") then DropBearer(s[7..])
    else [s[0]] + DropBearer(s[1..])
  }

  function CleanToken(s: string): string { Text.Strip(DropBearer(s)) }

  /** A revocation target is read as a raw token rather than a principal. */
  predicate IsTokenTarget(target: string) { StartsWith(target, "Bearer ") || |target| > 32 }

  lemma {:induction false} DropBearerKeeps(s: string)
    requires !Text.Contains(s, "Bearer ")
    ensures DropBearer(s) == s
  {
    if s == "" {
    } else {
      assert s[0..] == s;
      assert forall i | 0 <= i <= |s[1..]| :: s[1..][i..] == s[1 + i..];
      DropBearerKeeps(s[1..]);
    }
  }

  /** The scheme in front of a token does not matter, and a clean text has no blanks at its ends. */
  lemma CleanTokenTells(s: string)
    ensures CleanToken("Bearer " + s) == CleanToken(s)
    ensures var clean := CleanToken(s); clean != "" ==> !Text.IsSpace(clean[0]) && !Text.IsSpace(clean[|clean| - 1])
  {
    hide Text.IsSpace, Text.Strip;
    assert ("Bearer " + s)[7..] == s;
    var left, right := Text.StripExactly(DropBearer(s));
  }

  /** A token without the scheme and without blanks at its ends is its own clean text. */
  lemma CleanTokenStands(s: string)
    requires !Text.Contains(s, "Bearer ") && (s == "" || (!Text.IsSpace(s[0]) && !Text.IsSpace(s[|s| - 1])))
    ensures CleanToken(s) == s
  {
    hide Text.IsSpace, DropBearer, Text.Contains;
    DropBearerKeeps(s);
  }

  // ---------------------------------------------------------------- applying and rolling back

  function Until(a: Action, now: Time): Time {
    var requested := if a.duration == None || a.duration == Some(0) then DEFAULT_DURATION_SECONDS else a.duration.value;
    now + SECOND * if a.kind == QuarantineIpTemp then Min(requested, MAX_AUTO_QUARANTINE_SECONDS) else requested
  }

  function Outcome(a: Action, whitelisted: bool): ApplyOutcome {
    if (a.kind.SuspendAccount? || a.kind.BlockCidrOrganization?) && !(a.status.Approved? || a.status.Executed?) then
      Unauthorized
    else if (a.kind.QuarantineIpTemp? || a.kind.BlockCidrOrganization?) && whitelisted then Declined
    else if a.kind.BlockCidrOrganization? || a.kind.RollbackData? || a.kind.ChangePrivileges? then Declined
    else Applied
  }

  function Approver(a: Action): string {
    if a.approvedBy == None || a.approvedBy == Some("") then "HUMAN_ANALYST" else a.approvedBy.value
  }

  /** The containment an applied action puts in force. */
  function Enforce(e: Engine, a: Action, now: Time): Engine {
    var timed := Record(a.id, a.justification, Some(Until(a, now)), "");
    var l, s := e.local, e.shared;
    match a.kind
    case QuarantineIpTemp =>
      Engine(l.(quarantined := l.quarantined[a.target := timed]), s.(quarantined := s.quarantined[a.target := timed]))
    case RevokeSession =>
      if IsTokenTarget(a.target) then
        Engine(l.(revokedTokens := l.revokedTokens + {CleanToken(a.target)}),
               s.(revokedTokens := s.revokedTokens + {CleanToken(a.target)}))
      else
        Engine(l.(revokedPrincipals := l.revokedPrincipals[a.target := timed]),
               s.(revokedPrincipals := s.revokedPrincipals[a.target := timed]))
    case ChallengeMfa => Engine(l.(mfaEnforced := l.mfaEnforced[a.target := timed]), s)
    case RateLimit => Engine(l.(throttles := l.throttles[a.target := Throttle(5, 60, Until(a, now), a.id)]), s)
    case SuspendAccount =>
      var r := Record(a.id, a.justification, None, Approver(a));
      Engine(l.(suspended := l.suspended[a.target := r]), s.(suspended := s.suspended[a.target := r]))
    case _ => e
  }

  function WithRegistry(e: Engine, registry: map<string, (ActionType, string)>): Engine {
    e.(local := e.local.(registry := registry))
  }

  function Apply(e: Engine, a: Action, whitelisted: bool, now: Time): Engine {
    if Outcome(a, whitelisted) != Applied then e
    else WithRegistry(Enforce(e, a, now), e.local.registry[a.id := (a.kind, a.target)])
  }

  /** Every containment of `kind` on `target` removed, locally and in the store. */
  function Release(e: Engine, kind: ActionType, target: string): Engine {
    var l, s := e.local, e.shared;
    match kind
    case QuarantineIpTemp =>
      Engine(l.(quarantined := l.quarantined - {target}), s.(quarantined := s.quarantined - {target}))
    case RevokeSession =>
      Engine(l.(revokedTokens := l.revokedTokens - {CleanToken(target)},
                revokedPrincipals := l.revokedPrincipals - {target}),
             s.(revokedTokens := s.revokedTokens - {CleanToken(target)},
                revokedPrincipals := s.revokedPrincipals - {target}))
    case ChallengeMfa => Engine(l.(mfaEnforced := l.mfaEnforced - {target}), s)
    case RateLimit => Engine(l.(throttles := l.throttles - {target}), s)
    case SuspendAccount =>
      Engine(l.(suspended := l.suspended - {target}), s.(suspended := s.suspended - {target}))
    case _ => e
  }

  function Rollback(e: Engine, id: string): Engine {
    if id !in e.local.registry then e
    else WithRegistry(Release(e, e.local.registry[id].0, e.local.registry[id].1), e.local.registry - {id})
  }

  /** Some containment of `kind` names `target`, in this replica's memory or in the store. */
  predicate Contained(e: Engine, kind: ActionType, target: string) {
    match kind
    case QuarantineIpTemp => target in e.local.quarantined || target in e.shared.quarantined
    case RevokeSession =>
      || CleanToken(target) in e.local.revokedTokens || CleanToken(target) in e.shared.revokedTokens
      || target in e.local.revokedPrincipals || target in e.shared.revokedPrincipals
    case ChallengeMfa => target in e.local.mfaEnforced
    case RateLimit => target in e.local.throttles
    case SuspendAccount => target in e.local.suspended || target in e.shared.suspended
    case _ => false
  }

  /** `kind` on `target` and `kind2` on `target2` are recorded apart from each other. */
  predicate Apart(kind: ActionType, target: string, kind2: ActionType, target2: string) {
    kind != kind2 || (target != target2 && (kind == RevokeSession ==> CleanToken(target) != CleanToken(target2)))
  }

  /** Releasing lifts the named containment everywhere this replica can see and touches nothing recorded apart from
      it. */
  lemma ReleaseLifts(e: Engine, kind: ActionType, target: string, kind2: ActionType, target2: string)
    ensures !Contained(Release(e, kind, target), kind, target)
    ensures Apart(kind, target, kind2, target2) ==>
              Contained(Release(e, kind, target), kind2, target2) == Contained(e, kind2, target2)
  {
    match kind2
    case QuarantineIpTemp =>
    case RevokeSession =>
    case ChallengeMfa =>
    case RateLimit =>
    case SuspendAccount =>
    case _ =>
  }

  /** Releasing changes the state exactly when there was something to release. */
  lemma ReleaseChanges(e: Engine, kind: ActionType, target: string)
    ensures Release(e, kind, target) == e <==> !Contained(e, kind, target)
  {
    ReleaseLifts(e, kind, target, kind, target);
    if !Contained(e, kind, target) {
      var e' := Release(e, kind, target);
      match kind
      case QuarantineIpTemp =>
        assert e'.local.quarantined == e.local.quarantined && e'.shared.quarantined == e.shared.quarantined;
      case RevokeSession =>
        assert e'.local.revokedTokens == e.local.revokedTokens && e'.shared.revokedTokens == e.shared.revokedTokens;
        assert e'.local.revokedPrincipals == e.local.revokedPrincipals;
        assert e'.shared.revokedPrincipals == e.shared.revokedPrincipals;
      case ChallengeMfa => assert e'.local.mfaEnforced == e.local.mfaEnforced;
      case RateLimit => assert e'.local.throttles == e.local.throttles;
      case SuspendAccount =>
        assert e'.local.suspended == e.local.suspended && e'.shared.suspended == e.shared.suspended;
      case _ =>
    }
  }

  /** Rolling an action back lifts its containment, forgets the action, and lifts nothing recorded apart from it. */
  lemma RollbackLifts(e: Engine, id: string, kind: ActionType, target: string)
    requires id in e.local.registry
    ensures var (k, t) := e.local.registry[id];
            var after := Rollback(e, id);
            && !Contained(after, k, t)
            && after.local.registry == e.local.registry - {id}
            && (Apart(k, t, kind, target) ==> Contained(after, kind, target) == Contained(e, kind, target))
  {
    var (k, t) := e.local.registry[id];
    ReleaseLifts(e, k, t, kind, target);
  }

  lemma ReleaseAfterEnforce(e: Engine, a: Action, now: Time)
    ensures Release(Enforce(e, a, now), a.kind, a.target) == Release(e, a.kind, a.target)
  {
    var back, want := Release(Enforce(e, a, now), a.kind, a.target), Release(e, a.kind, a.target);
    match a.kind
    case QuarantineIpTemp =>
      assert back.local.quarantined == want.local.quarantined && back.shared.quarantined == want.shared.quarantined;
    case RevokeSession =>
      assert back.local.revokedTokens == want.local.revokedTokens
          && back.shared.revokedTokens == want.shared.revokedTokens;
      assert back.local.revokedPrincipals == want.local.revokedPrincipals;
      assert back.shared.revokedPrincipals == want.shared.revokedPrincipals;
    case ChallengeMfa => assert back.local.mfaEnforced == want.local.mfaEnforced;
    case RateLimit => assert back.local.throttles == want.local.throttles;
    case SuspendAccount =>
      assert back.local.suspended == want.local.suspended && back.shared.suspended == want.shared.suspended;
    case _ =>
  }

  lemma ReleaseKeepsRegistry(e: Engine, kind: ActionType, target: string, registry: map<string, (ActionType, string)>)
    ensures Release(e, kind, target).local.registry == e.local.registry
    ensures Release(WithRegistry(e, registry), kind, target) == WithRegistry(Release(e, kind, target), registry)
  {
  }

  /** Applying a fresh action and rolling it back amounts to releasing its target. */
  lemma ApplyRollback(e: Engine, a: Action, whitelisted: bool, now: Time)
    requires a.id !in e.local.registry && Outcome(a, whitelisted) == Applied
    ensures Rollback(Apply(e, a, whitelisted, now), a.id) == Release(e, a.kind, a.target)
  {
    var registry := e.local.registry[a.id := (a.kind, a.target)];
    ReleaseKeepsRegistry(Enforce(e, a, now), a.kind, a.target, registry);
    ReleaseAfterEnforce(e, a, now);
    ReleaseKeepsRegistry(e, a.kind, a.target, e.local.registry);
    assert registry - {a.id} == e.local.registry;
  }

  /** Applying an action and rolling it back restores the exact prior state if and only if
      the target was under no containment of that kind before. */
  lemma ApplyThenRollback(e: Engine, a: Action, whitelisted: bool, now: Time)
    requires a.id !in e.local.registry
    ensures Outcome(a, whitelisted) == Applied ==>
              (Rollback(Apply(e, a, whitelisted, now), a.id) == e <==> !Contained(e, a.kind, a.target))
    ensures Outcome(a, whitelisted) != Applied ==> Rollback(Apply(e, a, whitelisted, now), a.id) == e
  {
    if Outcome(a, whitelisted) == Applied {
      ApplyRollback(e, a, whitelisted, now);
      ReleaseChanges(e, a.kind, a.target);
    }
  }

  /** Which suspensions, quarantines and registry entries an action puts in place. */
  lemma ApplyEffects(e: Engine, a: Action, whitelisted: bool, now: Time)
    ensures var e' := Apply(e, a, whitelisted, now);
            var applied := Outcome(a, whitelisted) == Applied;
            var timed := Record(a.id, a.justification, Some(Until(a, now)), "");
            var lasting := Record(a.id, a.justification, None, Approver(a));
            && e'.local.registry == (if applied then e.local.registry[a.id := (a.kind, a.target)] else e.local.registry)
            && (if applied && a.kind.SuspendAccount? then
                  && e'.local.suspended == e.local.suspended[a.target := lasting]
                  && e'.shared.suspended == e.shared.suspended[a.target := lasting]
                else e'.local.suspended == e.local.suspended && e'.shared.suspended == e.shared.suspended)
            && (if applied && a.kind.QuarantineIpTemp? then
                  && e'.local.quarantined == e.local.quarantined[a.target := timed]
                  && e'.shared.quarantined == e.shared.quarantined[a.target := timed]
                else e'.local.quarantined == e.local.quarantined && e'.shared.quarantined == e.shared.quarantined)
  {
    match a.kind
    case SuspendAccount =>
    case QuarantineIpTemp =>
    case _ =>
  }

  /** Which suspensions, quarantines and registry entries a rollback takes away. */
  lemma RollbackEffects(e: Engine, id: string)
    ensures var e' := Rollback(e, id);
            var (k, t) := if id in e.local.registry then e.local.registry[id] else (RollbackData, "");
            && e'.local.registry == e.local.registry - {id}
            && e'.local.suspended == (if k.SuspendAccount? then e.local.suspended - {t} else e.local.suspended)
            && e'.shared.suspended == (if k.SuspendAccount? then e.shared.suspended - {t} else e.shared.suspended)
            && e'.local.quarantined == (if k.QuarantineIpTemp? then e.local.quarantined - {t} else e.local.quarantined)
            && e'.shared.quarantined == (if k.QuarantineIpTemp? then e.shared.quarantined - {t}
                 else e.shared.quarantined)
  {
    if id !in e.local.registry {
      assert e.local.registry - {id} == e.local.registry;
    } else {
      match e.local.registry[id].0
      case SuspendAccount =>
      case QuarantineIpTemp =>
      case _ =>
    }
  }

  /** Which tokens an action revokes. */
  lemma ApplyTokens(e: Engine, a: Action, whitelisted: bool, now: Time)
    ensures var e' := Apply(e, a, whitelisted, now);
            var added := if a.kind == RevokeSession && IsTokenTarget(a.target) then {CleanToken(a.target)} else {};
            && e'.local.revokedTokens == e.local.revokedTokens + added
            && e'.shared.revokedTokens == e.shared.revokedTokens + added
  {
    hide CleanToken, IsTokenTarget;
    match a.kind
    case RevokeSession =>
    case _ =>
  }

  /** Which tokens a rollback restores: whatever revocation is rolled back, of a token or of a principal,
      takes the clean form of its target out of the revoked tokens. */
  lemma RollbackTokens(e: Engine, id: string)
    ensures var e' := Rollback(e, id);
            var dropped := if id in e.local.registry && e.local.registry[id].0 == RevokeSession
                           then {CleanToken(e.local.registry[id].1)} else {};
            && e'.local.revokedTokens == e.local.revokedTokens - dropped
            && e'.shared.revokedTokens == e.shared.revokedTokens - dropped
  {
    hide CleanToken;
    if id in e.local.registry {
      match e.local.registry[id].0
      case RevokeSession =>
      case _ =>
    }
  }

  // ---------------------------------------------------------------- judging a request

  predicate LiveAt(r: Record, now: Time) { r.until == None || now <= r.until.value }

  /** The one quarantine record a call looks at. Absent identifiers are written as the empty string. */
  function PickQuarantine(e: Engine, ip: string, principal: string): Option<(string, Record)> {
    var key := if ip in e.local.quarantined then ip
               else if principal != "" && principal in e.local.quarantined then principal else "";
    if key != "" then Some((key, e.local.quarantined[key]))
    else if ip != "" && ip in e.shared.quarantined then Some((ip, e.shared.quarantined[ip]))
    else if principal != "" && principal in e.shared.quarantined then Some((principal, e.shared.quarantined[principal]))
    else None
  }

  /** The one dynamic rate limit a call looks at. */
  function PickThrottle(e: Engine, ip: string, principal: string): Option<(string, Throttle)> {
    if ip in e.local.throttles then Some((ip, e.local.throttles[ip]))
    else if principal != "" && principal in e.local.throttles then Some((principal, e.local.throttles[principal]))
    else None
  }

  function SweepQuarantine(e: Engine, key: string): Engine {
    Engine(e.local.(quarantined := e.local.quarantined - {key}), e.shared.(quarantined := e.shared.quarantined - {key}))
  }

  function JudgeThrottle(e: Engine, ip: string, principal: string, now: Time): (Engine, Verdict) {
    match PickThrottle(e, ip, principal)
    case None => (e, Pass)
    case Some((key, t)) =>
      if now <= t.until then (e, Deny(RateLimit, 429, t.actionId, 60))
      else (e.(local := e.local.(throttles := e.local.throttles - {key})), Pass)
  }

  function JudgeMfa(e: Engine, ip: string, principal: string, now: Time): (Engine, Verdict) {
    if principal == "" || principal !in e.local.mfaEnforced then JudgeThrottle(e, ip, principal, now)
    else if LiveAt(e.local.mfaEnforced[principal], now) then
      (e, Deny(ChallengeMfa, 403, e.local.mfaEnforced[principal].actionId, 0))
    else JudgeThrottle(e.(local := e.local.(mfaEnforced := e.local.mfaEnforced - {principal})), ip, principal, now)
  }

  function JudgeSession(e: Engine, ip: string, principal: string, token: string, now: Time): (Engine, Verdict) {
    if token != "" && (CleanToken(token) in e.local.revokedTokens || CleanToken(token) in e.shared.revokedTokens) then
      (e, Deny(RevokeSession, 401, "", 0))
    else if principal == "" || principal !in e.local.revokedPrincipals then JudgeMfa(e, ip, principal, now)
    else if LiveAt(e.local.revokedPrincipals[principal], now) then
      (e, Deny(RevokeSession, 401, e.local.revokedPrincipals[principal].actionId, 0))
    else
      JudgeMfa(e.(local := e.local.(revokedPrincipals := e.local.revokedPrincipals - {principal})), ip, principal, now)
  }

  function JudgeQuarantine(e: Engine, ip: string, principal: string, token: string, now: Time): (Engine, Verdict) {
    match PickQuarantine(e, ip, principal)
    case None => JudgeSession(e, ip, principal, token, now)
    case Some((key, r)) =>
      if LiveAt(r, now) then
        (e, Deny(QuarantineIpTemp, 403, r.actionId,
                 if r.until == None then 1 else Max(1, (r.until.value - now) / SECOND)))
      else JudgeSession(SweepQuarantine(e, key), ip, principal, token, now)
  }

  /** `evaluate_request`: the state it leaves (expired entries it met are swept) and its verdict. */
  function Evaluate(e: Engine, ip: string, principal: string, token: string, now: Time): (Engine, Verdict) {
    if principal != "" && principal in e.local.suspended then
      (e, Deny(SuspendAccount, 403, e.local.suspended[principal].actionId, 0))
    else if principal != "" && principal in e.shared.suspended then
      (e, Deny(SuspendAccount, 403, e.shared.suspended[principal].actionId, 0))
    else JudgeQuarantine(e, ip, principal, token, now)
  }

  // What a replica consults: its own memory, and the store for suspensions, quarantines and tokens.

  predicate NamedSuspended(e: Engine, principal: string) {
    principal != "" && (principal in e.local.suspended || principal in e.shared.suspended)
  }

  predicate LiveQuarantine(e: Engine, key: string, now: Time) {
    key != "" && ((key in e.local.quarantined && LiveAt(e.local.quarantined[key], now))
                  || (key in e.shared.quarantined && LiveAt(e.shared.quarantined[key], now)))
  }

  predicate NamedQuarantined(e: Engine, ip: string, principal: string, now: Time) {
    LiveQuarantine(e, ip, now) || LiveQuarantine(e, principal, now)
  }

  predicate NamedRevoked(e: Engine, principal: string, token: string, now: Time) {
    || (token != "" && (CleanToken(token) in e.local.revokedTokens || CleanToken(token) in e.shared.revokedTokens))
    || (principal != "" && principal in e.local.revokedPrincipals && LiveAt(e.local.revokedPrincipals[principal], now))
  }

  predicate NamedMfa(e: Engine, principal: string, now: Time) {
    principal != "" && principal in e.local.mfaEnforced && LiveAt(e.local.mfaEnforced[principal], now)
  }

  predicate NamedThrottled(e: Engine, ip: string, principal: string, now: Time) {
    || (ip in e.local.throttles && now <= e.local.throttles[ip].until)
    || (principal != "" && principal in e.local.throttles && now <= e.local.throttles[principal].until)
  }

  /** The record the call picks has expired, or the empty address shadows the principal: other records stay unread. */
  predicate QuarantineHidden(e: Engine, ip: string, principal: string, now: Time) {
    match PickQuarantine(e, ip, principal)
    case None => ip == "" && ip in e.local.quarantined
    case Some((_, r)) => !LiveAt(r, now)
  }

  predicate ThrottleHidden(e: Engine, ip: string, principal: string, now: Time) {
    var pick := PickThrottle(e, ip, principal);
    pick != None && pick.value.1.until < now
  }

  lemma ThrottleVerdict(e: Engine, ip: string, principal: string, now: Time)
    ensures var v := JudgeThrottle(e, ip, principal, now).1;
            && (v.Deny? ==> v.kind == RateLimit)
            && (v.Deny? <==> NamedThrottled(e, ip, principal, now) && !ThrottleHidden(e, ip, principal, now))
  {
  }

  lemma MfaVerdict(e: Engine, ip: string, principal: string, now: Time)
    ensures var v := JudgeMfa(e, ip, principal, now).1;
            && (v.Deny? ==> v.kind == ChallengeMfa || v.kind == RateLimit)
            && (v.Deny? && v.kind == ChallengeMfa <==> NamedMfa(e, principal, now))
            && (v.Deny? && v.kind == RateLimit <==>
                && !NamedMfa(e, principal, now)
                && NamedThrottled(e, ip, principal, now) && !ThrottleHidden(e, ip, principal, now))
  {
    ThrottleVerdict(e, ip, principal, now);
    ThrottleVerdict(e.(local := e.local.(mfaEnforced := e.local.mfaEnforced - {principal})), ip, principal, now);
  }

  lemma SessionVerdict(e: Engine, ip: string, principal: string, token: string, now: Time)
    ensures var v := JudgeSession(e, ip, principal, token, now).1;
            && (v.Deny? ==> v.kind == RevokeSession || v.kind == ChallengeMfa || v.kind == RateLimit)
            && (v.Deny? && v.kind == RevokeSession <==> NamedRevoked(e, principal, token, now))
            && (v.Deny? && v.kind == ChallengeMfa <==>
                  !NamedRevoked(e, principal, token, now) && NamedMfa(e, principal, now))
            && (v.Deny? && v.kind == RateLimit <==>
                && !NamedRevoked(e, principal, token, now) && !NamedMfa(e, principal, now)
                && NamedThrottled(e, ip, principal, now) && !ThrottleHidden(e, ip, principal, now))
  {
    MfaVerdict(e, ip, principal, now);
    MfaVerdict(e.(local := e.local.(revokedPrincipals := e.local.revokedPrincipals - {principal})), ip, principal, now);
  }

  lemma QuarantineVisible(e: Engine, ip: string, principal: string, now: Time)
    ensures var pick := PickQuarantine(e, ip, principal);
            pick != None && LiveAt(pick.value.1, now)
            <==> NamedQuarantined(e, ip, principal, now) && !QuarantineHidden(e, ip, principal, now)
  {
  }

  /** The verdict is the first live containment in the order suspension, quarantine, revocation, MFA, rate limit,
      whatever the sweeps in between removed. Suspensions, revocations and MFA challenges are never missed;
      a quarantine or a rate limit is missed exactly when it is hidden behind the one record the call picked. */
  lemma EvaluateByPriority(e: Engine, ip: string, principal: string, token: string, now: Time)
    ensures var v := Evaluate(e, ip, principal, token, now).1;
            var s := NamedSuspended(e, principal);
            var q := NamedQuarantined(e, ip, principal, now) && !QuarantineHidden(e, ip, principal, now);
            var r, m := NamedRevoked(e, principal, token, now), NamedMfa(e, principal, now);
            var t := NamedThrottled(e, ip, principal, now) && !ThrottleHidden(e, ip, principal, now);
            && (v.Deny? <==> s || q || r || m || t)
            && (v.Deny? ==> v.kind == if s then SuspendAccount else if q then QuarantineIpTemp
                                      else if r then RevokeSession else if m then ChallengeMfa else RateLimit)
  {
    QuarantineVisible(e, ip, principal, now);
    var pick := PickQuarantine(e, ip, principal);
    var swept := if pick == None then e else SweepQuarantine(e, pick.value.0);
    SessionVerdict(swept, ip, principal, token, now);
    assert NamedRevoked(swept, principal, token, now) == NamedRevoked(e, principal, token, now);
    assert NamedMfa(swept, principal, now) == NamedMfa(e, principal, now);
    assert NamedThrottled(swept, ip, principal, now) == NamedThrottled(e, ip, principal, now);
    assert ThrottleHidden(swept, ip, principal, now) == ThrottleHidden(e, ip, principal, now);
  }

  lemma MfaFrame(e: Engine, ip: string, principal: string, now: Time)
    ensures var e' := JudgeMfa(e, ip, principal, now).0;
            && e'.shared == e.shared && e'.local.registry == e.local.registry && e'.local.suspended == e.local.suspended
            && e'.local.quarantined == e.local.quarantined && e'.local.revokedTokens == e.local.revokedTokens
  {
  }

  /** Past the quarantine stage nothing touches the store, the registry, the suspensions or the quarantines. */
  lemma SessionFrame(e: Engine, ip: string, principal: string, token: string, now: Time)
    ensures var e' := JudgeSession(e, ip, principal, token, now).0;
            && e'.shared == e.shared && e'.local.registry == e.local.registry && e'.local.suspended == e.local.suspended
            && e'.local.quarantined == e.local.quarantined && e'.local.revokedTokens == e.local.revokedTokens
  {
    MfaFrame(e, ip, principal, now);
    MfaFrame(e.(local := e.local.(revokedPrincipals := e.local.revokedPrincipals - {principal})), ip, principal, now);
  }

  /** A request evaluation keeps suspensions, revoked tokens and the registry, and adds no quarantine. */
  lemma EvaluateFrame(e: Engine, ip: string, principal: string, token: string, now: Time)
    ensures var e' := Evaluate(e, ip, principal, token, now).0;
            && e'.local.registry == e.local.registry && e'.local.suspended == e.local.suspended
            && e'.local.revokedTokens == e.local.revokedTokens
            && e'.shared.suspended == e.shared.suspended && e'.shared.revokedTokens == e.shared.revokedTokens
            && (forall k | k in e'.local.quarantined ::
                 k in e.local.quarantined && e'.local.quarantined[k] == e.local.quarantined[k])
            && (forall k | k in e'.shared.quarantined ::
                 k in e.shared.quarantined && e'.shared.quarantined[k] == e.shared.quarantined[k])
  {
    SessionFrame(e, ip, principal, token, now);
    var pick := PickQuarantine(e, ip, principal);
    if pick != None {
      SessionFrame(SweepQuarantine(e, pick.value.0), ip, principal, token, now);
    }
  }

  /** The store loses a quarantine that is still live exactly when the evaluating replica picked
      its own expired copy for that key (and the request was not already denied as suspended). */
  lemma SweepLosesLiveRecord(e: Engine, ip: string, principal: string, token: string, now: Time, key: string)
    requires key in e.shared.quarantined && LiveAt(e.shared.quarantined[key], now)
    ensures key !in Evaluate(e, ip, principal, token, now).0.shared.quarantined
            <==> (&& !NamedSuspended(e, principal)
                  && key in e.local.quarantined && key != "" && !LiveAt(e.local.quarantined[key], now)
                  && (key == ip || (key == principal && ip !in e.local.quarantined)))
  {
    SessionFrame(e, ip, principal, token, now);
    var pick := PickQuarantine(e, ip, principal);
    if pick != None {
      SessionFrame(SweepQuarantine(e, pick.value.0), ip, principal, token, now);
    }
  }

  /** A principal revocation that only the store holds denies nothing: the store's copies are written but never read. */
  lemma SharedPrincipalRevocationsUnread(e: Engine, other: map<string, Record>, ip: string, principal: string,
                                         token: string, now: Time)
    ensures var e2 := e.(shared := e.shared.(revokedPrincipals := other));
            var v, v2 := Evaluate(e, ip, principal, token, now).1, Evaluate(e2, ip, principal, token, now).1;
            v.Deny? == v2.Deny? && (v.Deny? ==> v.kind == v2.kind)
  {
    var e2 := e.(shared := e.shared.(revokedPrincipals := other));
    EvaluateByPriority(e, ip, principal, token, now);
    EvaluateByPriority(e2, ip, principal, token, now);
    assert PickQuarantine(e, ip, principal) == PickQuarantine(e2, ip, principal);
  }

  /** A request that passes leaves behind none of the records it consulted: they had expired, and are swept. */
  lemma PassSweeps(e: Engine, ip: string, principal: string, token: string, now: Time)
    requires Evaluate(e, ip, principal, token, now).1 == Pass
    ensures var e', pick := Evaluate(e, ip, principal, token, now).0, PickQuarantine(e, ip, principal);
            && (pick.Some? ==> pick.value.0 !in e'.local.quarantined && pick.value.0 !in e'.shared.quarantined)
            && (principal != "" ==> principal !in e'.local.revokedPrincipals && principal !in e'.local.mfaEnforced)
            && (ip in e.local.throttles ==> ip !in e'.local.throttles)
            && (ip !in e.local.throttles && principal != "" ==> principal !in e'.local.throttles)
  {
    hide CleanToken;
    var pick := PickQuarantine(e, ip, principal);
    SessionSweeps(if pick == None then e else SweepQuarantine(e, pick.value.0), ip, principal, token, now);
    hide JudgeSession;
  }

  lemma SessionSweeps(e: Engine, ip: string, principal: string, token: string, now: Time)
    requires JudgeSession(e, ip, principal, token, now).1 == Pass
    ensures var e' := JudgeSession(e, ip, principal, token, now).0;
            && e'.local.quarantined == e.local.quarantined && e'.shared.quarantined == e.shared.quarantined
            && (principal != "" ==> principal !in e'.local.revokedPrincipals && principal !in e'.local.mfaEnforced)
            && (ip in e.local.throttles ==> ip !in e'.local.throttles)
            && (ip !in e.local.throttles && principal != "" ==> principal !in e'.local.throttles)
  {
    hide CleanToken, JudgeMfa;
    var dropped := e.(local := e.local.(revokedPrincipals := e.local.revokedPrincipals - {principal}));
    StepUpSweeps(e, ip, principal, now);
    StepUpSweeps(dropped, ip, principal, now);
  }

  lemma StepUpSweeps(e: Engine, ip: string, principal: string, now: Time)
    ensures var (e', v) := JudgeMfa(e, ip, principal, now);
            && e'.local.quarantined == e.local.quarantined && e'.shared.quarantined == e.shared.quarantined
            && e'.local.revokedPrincipals == e.local.revokedPrincipals
            && (v == Pass && principal != "" ==> principal !in e'.local.mfaEnforced)
            && (v == Pass && ip in e.local.throttles ==> ip !in e'.local.throttles)
            && (v == Pass && ip !in e.local.throttles && principal != "" ==> principal !in e'.local.throttles)
  {
  }

  // ---------------------------------------------------------------- what an applied action does to requests

  /** An action is carried out exactly when its kind is supported, a suspension comes approved or executed, and a
      quarantine is not on a whitelisted target. An unapproved suspension or organisation block is an error, anything
      else declined. */
  lemma OutcomeExactly(a: Action, whitelisted: bool)
    ensures Outcome(a, whitelisted) == Applied <==>
              || a.kind in {RevokeSession, ChallengeMfa, RateLimit}
              || (a.kind == QuarantineIpTemp && !whitelisted)
              || (a.kind == SuspendAccount && a.status in {Approved, Executed})
    ensures Outcome(a, whitelisted) == Unauthorized <==>
              a.kind in {SuspendAccount, BlockCidrOrganization} && a.status !in {Approved, Executed}
  {
  }

  /** The action reads its target as a token rather than a principal. */
  predicate OnToken(a: Action) { a.kind == RevokeSession && (StartsWith(a.target, "Bearer ") || |a.target| > 32) }

  /** The request names the target in the way the kind of action looks for. A principal is not looked up among
      quarantines or rate limits when the address has an entry there. */
  predicate Names(e: Engine, a: Action, ip: string, principal: string, token: string) {
    match a.kind
    case QuarantineIpTemp =>
      a.target != "" && (ip == a.target || (principal == a.target && (ip == "" || ip !in e.local.quarantined)))
    case RateLimit =>
      ip == a.target || (principal == a.target && principal != "" && ip !in e.local.throttles)
    case RevokeSession =>
      if StartsWith(a.target, "Bearer ") || |a.target| > 32
          then token != "" && CleanToken(token) == CleanToken(a.target)
      else principal == a.target && principal != ""
    case _ => principal == a.target && principal != ""
  }

  /** The last moment of an action: its duration, 900 seconds by default, at most 3600 for a quarantine. */
  function LastMoment(a: Action, now: Time): Time {
    var asked := if a.duration == None || a.duration == Some(0) then 900 else a.duration.value;
    now + SECOND * if a.kind == QuarantineIpTemp && asked > 3600 then 3600 else asked
  }

  predicate Lasting(a: Action) { a.kind == SuspendAccount || OnToken(a) }

  /** The refusal that the client gets. */
  function Refusal(a: Action, now: Time, t: Time): Verdict {
    match a.kind
    case QuarantineIpTemp =>
      var left := (LastMoment(a, now) - t) / SECOND;
      Deny(QuarantineIpTemp, 403, a.id, if left < 1 then 1 else left)
    case RevokeSession => Deny(RevokeSession, 401, if OnToken(a) then "" else a.id, 0)
    case ChallengeMfa => Deny(ChallengeMfa, 403, a.id, 0)
    case RateLimit => Deny(RateLimit, 429, a.id, 60)
    case _ => Deny(SuspendAccount, 403, a.id, 0)
  }

  // The verdict of each stage, without the records it sweeps.

  lemma MfaStage(e: Engine, ip: string, principal: string, t: Time)
    ensures JudgeMfa(e, ip, principal, t).1
            == if principal != "" && principal in e.local.mfaEnforced && LiveAt(e.local.mfaEnforced[principal], t)
               then Deny(ChallengeMfa, 403, e.local.mfaEnforced[principal].actionId, 0)
               else JudgeThrottle(e, ip, principal, t).1
  {
  }

  lemma SessionStage(e: Engine, ip: string, principal: string, token: string, t: Time)
    ensures JudgeSession(e, ip, principal, token, t).1
            == if token != "" && (CleanToken(token) in e.local.revokedTokens
                                  || CleanToken(token) in e.shared.revokedTokens)
               then Deny(RevokeSession, 401, "", 0)
               else if principal != "" && principal in e.local.revokedPrincipals
                       && LiveAt(e.local.revokedPrincipals[principal], t)
               then Deny(RevokeSession, 401, e.local.revokedPrincipals[principal].actionId, 0)
               else JudgeMfa(e, ip, principal, t).1
  {
    hide CleanToken;
    MfaStage(e, ip, principal, t);
    MfaStage(e.(local := e.local.(revokedPrincipals := e.local.revokedPrincipals - {principal})), ip, principal, t);
  }

  lemma QuarantineStage(e: Engine, ip: string, principal: string, token: string, t: Time)
    ensures JudgeQuarantine(e, ip, principal, token, t).1
            == var pick := PickQuarantine(e, ip, principal);
               if pick.Some? && LiveAt(pick.value.1, t) then JudgeQuarantine(e, ip, principal, token, t).1
               else JudgeSession(e, ip, principal, token, t).1
    ensures var pick := PickQuarantine(e, ip, principal);
            pick.Some? && LiveAt(pick.value.1, t) ==>
              JudgeQuarantine(e, ip, principal, token, t).1
              == Deny(QuarantineIpTemp, 403, pick.value.1.actionId,
                      if pick.value.1.until == None then 1 else Max(1, (pick.value.1.until.value - t) / SECOND))
  {
    hide CleanToken, PickQuarantine, JudgeMfa, JudgeThrottle;
    var pick := PickQuarantine(e, ip, principal);
    SessionStage(e, ip, principal, token, t);
    if pick.Some? {
      var swept := SweepQuarantine(e, pick.value.0);
      SessionStage(swept, ip, principal, token, t);
      SameMfa(e, swept, ip, principal, t);
    }
  }

  lemma SameMfa(e: Engine, e': Engine, ip: string, principal: string, t: Time)
    requires e'.local.mfaEnforced == e.local.mfaEnforced && e'.local.throttles == e.local.throttles
    ensures JudgeMfa(e', ip, principal, t).1 == JudgeMfa(e, ip, principal, t).1
  {
    MfaStage(e, ip, principal, t);
    MfaStage(e', ip, principal, t);
  }

  lemma SameSession(e: Engine, e': Engine, ip: string, principal: string, token: string, t: Time)
    requires e'.local.mfaEnforced == e.local.mfaEnforced && e'.local.throttles == e.local.throttles
    requires e'.local.revokedTokens == e.local.revokedTokens && e'.shared.revokedTokens == e.shared.revokedTokens
    requires e'.local.revokedPrincipals == e.local.revokedPrincipals
    ensures JudgeSession(e', ip, principal, token, t).1 == JudgeSession(e, ip, principal, token, t).1
  {
    SessionStage(e, ip, principal, token, t);
    SessionStage(e', ip, principal, token, t);
    hide CleanToken, JudgeSession, JudgeMfa;
    SameMfa(e, e', ip, principal, t);
  }

  lemma RateLimitInForce(e: Engine, a: Action, whitelisted: bool, now: Time, t: Time, ip: string, principal: string,
                         token: string)
    requires a.kind == RateLimit
    ensures var v := Evaluate(e, ip, principal, token, t).1;
            var v' := Evaluate(Apply(e, a, whitelisted, now), ip, principal, token, t).1;
            var live := Names(e, a, ip, principal, token) && t <= LastMoment(a, now);
            (live ==> v'.Deny?) && (v == Pass ==> v' == if live then Refusal(a, now, t) else Pass)
    ensures var throttles := Apply(e, a, whitelisted, now).local.throttles;
            a.target in throttles && throttles[a.target] == Throttle(5, 60, LastMoment(a, now), a.id)
  {
    var e' := Apply(e, a, whitelisted, now);
    QuarantineStage(e, ip, principal, token, t);
    QuarantineStage(e', ip, principal, token, t);
    SessionStage(e, ip, principal, token, t);
    SessionStage(e', ip, principal, token, t);
    MfaStage(e, ip, principal, t);
    MfaStage(e', ip, principal, t);
    hide CleanToken, JudgeSession, JudgeQuarantine, JudgeMfa;
  }

  lemma MfaInForce(e: Engine, a: Action, whitelisted: bool, now: Time, t: Time, ip: string, principal: string,
                   token: string)
    requires a.kind == ChallengeMfa
    ensures var v := Evaluate(e, ip, principal, token, t).1;
            var v' := Evaluate(Apply(e, a, whitelisted, now), ip, principal, token, t).1;
            var live := Names(e, a, ip, principal, token) && t <= LastMoment(a, now);
            (live ==> v'.Deny?) && (v == Pass ==> v' == if live then Refusal(a, now, t) else Pass)
  {
    var e' := Apply(e, a, whitelisted, now);
    QuarantineStage(e, ip, principal, token, t);
    QuarantineStage(e', ip, principal, token, t);
    SessionStage(e, ip, principal, token, t);
    SessionStage(e', ip, principal, token, t);
    MfaStage(e, ip, principal, t);
    MfaStage(e', ip, principal, t);
    hide CleanToken, JudgeSession, JudgeQuarantine, JudgeMfa;
  }

  /** What a revocation changes, and nothing else of what an evaluation reads. */
  lemma RevocationEffect(e: Engine, a: Action, whitelisted: bool, now: Time)
    requires a.kind == RevokeSession
    ensures var e' := Apply(e, a, whitelisted, now);
            var tokens := if OnToken(a) then {CleanToken(a.target)} else {};
            && e'.local.revokedTokens == e.local.revokedTokens + tokens
            && e'.shared.revokedTokens == e.shared.revokedTokens + tokens
            && e'.local.revokedPrincipals
               == (if OnToken(a) then e.local.revokedPrincipals
                   else e.local.revokedPrincipals[a.target := Record(a.id, a.justification, Some(LastMoment(a, now)),
                       "")])
            && e'.local.suspended == e.local.suspended && e'.shared.suspended == e.shared.suspended
            && e'.local.quarantined == e.local.quarantined && e'.shared.quarantined == e.shared.quarantined
            && e'.local.mfaEnforced == e.local.mfaEnforced && e'.local.throttles == e.local.throttles
  {
    hide CleanToken;
  }

  lemma SamePick(e: Engine, e': Engine, ip: string, principal: string)
    requires e'.local.quarantined == e.local.quarantined && e'.shared.quarantined == e.shared.quarantined
    ensures PickQuarantine(e', ip, principal) == PickQuarantine(e, ip, principal)
  {
  }

  lemma RevocationInForce(e: Engine, a: Action, whitelisted: bool, now: Time, t: Time, ip: string, principal: string,
                          token: string)
    requires a.kind == RevokeSession
    ensures var v := Evaluate(e, ip, principal, token, t).1;
            var v' := Evaluate(Apply(e, a, whitelisted, now), ip, principal, token, t).1;
            var live := Names(e, a, ip, principal, token) && (OnToken(a) || t <= LastMoment(a, now));
            (live ==> v'.Deny?) && (v == Pass ==> v' == if live then Refusal(a, now, t) else Pass)
  {
    var e' := Apply(e, a, whitelisted, now);
    RevocationEffect(e, a, whitelisted, now);
    hide Apply, LastMoment, PickQuarantine, StartsWith;
    SamePick(e, e', ip, principal);
    QuarantineStage(e, ip, principal, token, t);
    QuarantineStage(e', ip, principal, token, t);
    SessionStage(e, ip, principal, token, t);
    SessionStage(e', ip, principal, token, t);
    SameMfa(e, e', ip, principal, t);
    hide CleanToken, JudgeSession, JudgeQuarantine, JudgeMfa;
  }

  /** What a quarantine changes, and nothing else of what an evaluation reads. */
  lemma QuarantineEffect(e: Engine, a: Action, whitelisted: bool, now: Time)
    requires a.kind == QuarantineIpTemp && !whitelisted
    ensures var e' := Apply(e, a, whitelisted, now);
            var r := Record(a.id, a.justification, Some(LastMoment(a, now)), "");
            && e'.local.quarantined == e.local.quarantined[a.target := r]
            && e'.shared.quarantined == e.shared.quarantined[a.target := r]
            && e'.local.suspended == e.local.suspended && e'.shared.suspended == e.shared.suspended
            && e'.local.revokedTokens == e.local.revokedTokens && e'.shared.revokedTokens == e.shared.revokedTokens
            && e'.local.revokedPrincipals == e.local.revokedPrincipals
            && e'.local.mfaEnforced == e.local.mfaEnforced && e'.local.throttles == e.local.throttles
  {
  }

  lemma QuarantineInForce(e: Engine, a: Action, whitelisted: bool, now: Time, t: Time, ip: string, principal: string,
                          token: string)
    requires a.kind == QuarantineIpTemp && !whitelisted
    ensures var v := Evaluate(e, ip, principal, token, t).1;
            var v' := Evaluate(Apply(e, a, whitelisted, now), ip, principal, token, t).1;
            var live := Names(e, a, ip, principal, token) && t <= LastMoment(a, now);
            (live ==> v'.Deny?) && (v == Pass && (a.target != "" || ip != "") ==> v' == if live
                                    then Refusal(a, now, t) else Pass)
  {
    var e' := Apply(e, a, whitelisted, now);
    QuarantineEffect(e, a, whitelisted, now);
    hide Apply, LastMoment;
    QuarantineStage(e, ip, principal, token, t);
    QuarantineStage(e', ip, principal, token, t);
    SameSession(e, e', ip, principal, token, t);
    hide CleanToken, JudgeSession, JudgeQuarantine, JudgeMfa;
  }

  lemma SuspensionInForce(e: Engine, a: Action, whitelisted: bool, now: Time, t: Time, ip: string, principal: string,
                          token: string)
    requires a.kind == SuspendAccount && Outcome(a, whitelisted) == Applied
    ensures var v := Evaluate(e, ip, principal, token, t).1;
            var v' := Evaluate(Apply(e, a, whitelisted, now), ip, principal, token, t).1;
            var live := Names(e, a, ip, principal, token);
            (live ==> v'.Deny?) && (v == Pass ==> v' == if live then Refusal(a, now, t) else Pass)
  {
    var e' := Apply(e, a, whitelisted, now);
    QuarantineStage(e, ip, principal, token, t);
    QuarantineStage(e', ip, principal, token, t);
    SameSession(e, e', ip, principal, token, t);
    hide CleanToken, JudgeSession, JudgeQuarantine, JudgeMfa;
  }

  /** Whatever was in force before: until its last moment an applied action refuses every request that names its
      target. A request that would otherwise pass is refused by exactly that action, under its status, or else passes
      as before. */
  lemma InForceExactly(e: Engine, a: Action, whitelisted: bool, now: Time, t: Time, ip: string, principal: string,
                       token: string)
    requires Outcome(a, whitelisted) == Applied
    ensures var v, v' := Evaluate(e, ip, principal, token, t).1,
            Evaluate(Apply(e, a, whitelisted, now), ip, principal, token, t).1;
            var live := Names(e, a, ip, principal, token) && (Lasting(a) || t <= LastMoment(a, now));
            && (live ==> v'.Deny?)
            && (v == Pass && (a.target != "" || ip != "") ==> v' == if live then Refusal(a, now, t) else Pass)
  {
    OutcomeExactly(a, whitelisted);
    hide Evaluate, Apply, Names, Refusal, LastMoment, Outcome;
    match a.kind
    case RateLimit => RateLimitInForce(e, a, whitelisted, now, t, ip, principal, token);
    case ChallengeMfa => MfaInForce(e, a, whitelisted, now, t, ip, principal, token);
    case RevokeSession => RevocationInForce(e, a, whitelisted, now, t, ip, principal, token);
    case QuarantineIpTemp => QuarantineInForce(e, a, whitelisted, now, t, ip, principal, token);
    case _ => SuspensionInForce(e, a, whitelisted, now, t, ip, principal, token);
  }

  // ---------------------------------------------------------------- the engine object

  class MitigationEngine {
    const store: InMemoryStateStore
    const isWhitelisted: string -> bool
    var quarantinedIps: map<string, Record>
    var revokedTokens: set<string>
    var revokedPrincipals: map<string, Record>
    var mfaEnforcedPrincipals: map<string, Record>
    var dynamicRateLimits: map<string, Throttle>
    var suspendedAccounts: map<string, Record>
    var actionRegistry: map<string, (ActionType, string)>

    constructor (store: InMemoryStateStore, isWhitelisted: string -> bool)
      ensures this.store == store && this.isWhitelisted == isWhitelisted
      ensures View() == Engine(EMPTY_LOCAL, store.View())
    {
      this.store, this.isWhitelisted := store, isWhitelisted;
      quarantinedIps, revokedTokens, revokedPrincipals, mfaEnforcedPrincipals := map[], {}, map[], map[];
      dynamicRateLimits, suspendedAccounts, actionRegistry := map[], map[], map[];
    }

    function View(): Engine
      reads this, store
    {
      Engine(Local(quarantinedIps, revokedTokens, revokedPrincipals, mfaEnforcedPrincipals,
                   dynamicRateLimits, suspendedAccounts, actionRegistry), store.View())
    }

    method ApplyAction(action: AgentAction, now: Time) returns (outcome: ApplyOutcome)
      modifies this, store
      ensures outcome == Outcome(action.View(), isWhitelisted(action.target))
      ensures View() == Apply(old(View()), action.View(), isWhitelisted(action.target), now)
      ensures store.nonces == old(store.nonces)
    {
      if action.kind.SuspendAccount? || action.kind.BlockCidrOrganization? {
        if !(action.status.Approved? || action.status.Executed?) {
          return Unauthorized;
        }
      }
      if action.kind.QuarantineIpTemp? || action.kind.BlockCidrOrganization? {
        if isWhitelisted(action.target) {
          return Declined;
        }
      }
      if action.kind.BlockCidrOrganization? || action.kind.RollbackData? || action.kind.ChangePrivileges? {
        return Declined;
      }
      Register(action, now);
      actionRegistry := actionRegistry[action.id := (action.kind, action.target)];
      outcome := Applied;
    }

    /** The routing half of `apply_action`. */
    method Register(action: AgentAction, now: Time)
      modifies this, store
      ensures actionRegistry == old(actionRegistry)
      ensures View() == Enforce(old(View()), action.View(), now)
      ensures store.nonces == old(store.nonces)
    {
      hide CleanToken, IsTokenTarget;
      var duration := if action.duration == None || action.duration == Some(0) then DEFAULT_DURATION_SECONDS
          else action.duration.value;
      if action.kind == QuarantineIpTemp {
        duration := Min(duration, MAX_AUTO_QUARANTINE_SECONDS);
      }
      var until := now + SECOND * duration;
      var timed := Record(action.id, action.justification, Some(until), "");
      match action.kind
      case QuarantineIpTemp =>
        quarantinedIps := quarantinedIps[action.target := timed];
        store.SetHashEntry(QuarantinedIps, action.target, timed);
      case RevokeSession =>
        if IsTokenTarget(action.target) {
          var token := CleanToken(action.target);
          revokedTokens := revokedTokens + {token};
          store.AddToSet(RevokedTokens, token);
        } else {
          revokedPrincipals := revokedPrincipals[action.target := timed];
          store.SetHashEntry(RevokedPrincipals, action.target, timed);
        }
      case ChallengeMfa =>
        mfaEnforcedPrincipals := mfaEnforcedPrincipals[action.target := timed];
      case RateLimit =>
        dynamicRateLimits := dynamicRateLimits[action.target := Throttle(5, 60, until, action.id)];
      case SuspendAccount =>
        var record := Record(action.id, action.justification, None, Approver(action.View()));
        suspendedAccounts := suspendedAccounts[action.target := record];
        store.SetHashEntry(SuspendedAccounts, action.target, record);
      case _ =>
    }

    method RollbackAction(id: string) returns (done: bool)
      modifies this, store
      ensures done == (id in old(actionRegistry))
      ensures View() == Rollback(old(View()), id)
      ensures store.nonces == old(store.nonces)
    {
      if id !in actionRegistry {
        return false;
      }
      var (kind, target) := actionRegistry[id];
      hide Release;
      Lift(kind, target);
      actionRegistry := actionRegistry - {id};
      done := true;
    }

    /** The middle of `rollback_action`. */
    method Lift(kind: ActionType, target: string)
      modifies this, store
      ensures actionRegistry == old(actionRegistry)
      ensures View() == Release(old(View()), kind, target)
      ensures store.nonces == old(store.nonces)
    {
      hide CleanToken;
      if kind == QuarantineIpTemp {
        quarantinedIps := quarantinedIps - {target};
        var _ := store.DeleteHashEntry(QuarantinedIps, target);
      } else if kind == RevokeSession {
        var token := CleanToken(target);
        revokedTokens := revokedTokens - {token};
        var _ := store.RemoveFromSet(RevokedTokens, token);
        revokedPrincipals := revokedPrincipals - {target};
        var _ := store.DeleteHashEntry(RevokedPrincipals, target);
      } else if kind == ChallengeMfa {
        mfaEnforcedPrincipals := mfaEnforcedPrincipals - {target};
      } else if kind == RateLimit {
        dynamicRateLimits := dynamicRateLimits - {target};
      } else if kind == SuspendAccount {
        suspendedAccounts := suspendedAccounts - {target};
        var _ := store.DeleteHashEntry(SuspendedAccounts, target);
      }
    }

    /** The quarantine record one call consults: local memory first, then the store, address before principal. */
    method FindQuarantine(ip: string, principal: string) returns (found: Option<(string, Record)>)
      ensures found == PickQuarantine(View(), ip, principal)
    {
      var key := if ip in quarantinedIps then ip else if principal != "" && principal in quarantinedIps then principal
          else "";
      if key != "" {
        return Some((key, quarantinedIps[key]));
      }
      var candidates := [ip, principal];
      for i := 0 to 2
        invariant forall k | 0 <= k < i :: candidates[k] == "" || candidates[k] !in store.Hash(QuarantinedIps)
      {
        if candidates[i] != "" && candidates[i] in store.Hash(QuarantinedIps) {
          assert i == 1 ==> candidates[0] == ip;
          return Some((candidates[i], store.Hash(QuarantinedIps)[candidates[i]]));
        }
      }
      assert candidates[0] == ip && candidates[1] == principal;
      found := None;
    }

    method EvaluateRequest(ip: string, principal: string, token: string, now: Time) returns (verdict: Verdict)
      modifies this, store
      ensures (View(), verdict) == Evaluate(old(View()), ip, principal, token, now)
      ensures store.nonces == old(store.nonces)
    {
      if principal != "" && principal in suspendedAccounts {
        return Deny(SuspendAccount, 403, suspendedAccounts[principal].actionId, 0);
      }
      if principal != "" && principal in store.Hash(SuspendedAccounts) {
        return Deny(SuspendAccount, 403, store.Hash(SuspendedAccounts)[principal].actionId, 0);
      }
      var found := FindQuarantine(ip, principal);
      if found != None {
        var (key, info) := found.value;
        if LiveAt(info, now) {
          var remaining := if info.until == None then 1 else Max(1, (info.until.value - now) / SECOND);
          return Deny(QuarantineIpTemp, 403, info.actionId, remaining);
        }
        quarantinedIps := quarantinedIps - {key};
        var _ := store.DeleteHashEntry(QuarantinedIps, key);
      }
      verdict := EvaluateSession(ip, principal, token, now);
    }

    /** The session, step-up and throttling stages of `evaluate_request`. */
    method EvaluateSession(ip: string, principal: string, token: string, now: Time) returns (verdict: Verdict)
      modifies this
      ensures (View(), verdict) == JudgeSession(old(View()), ip, principal, token, now)
    {
      if token != "" {
        var clean := CleanToken(token);
        if clean in revokedTokens || clean in store.Members(RevokedTokens) {
          return Deny(RevokeSession, 401, "", 0);
        }
      }
      if principal != "" && principal in revokedPrincipals {
        var revoked := revokedPrincipals[principal];
        if LiveAt(revoked, now) {
          return Deny(RevokeSession, 401, revoked.actionId, 0);
        }
        revokedPrincipals := revokedPrincipals - {principal};
      }
      verdict := EvaluateStepUp(ip, principal, now);
    }

    /** The step-up and throttling stages of `evaluate_request`. */
    method EvaluateStepUp(ip: string, principal: string, now: Time) returns (verdict: Verdict)
      modifies this
      ensures (View(), verdict) == JudgeMfa(old(View()), ip, principal, now)
    {
      if principal != "" && principal in mfaEnforcedPrincipals {
        var challenge := mfaEnforcedPrincipals[principal];
        if LiveAt(challenge, now) {
          return Deny(ChallengeMfa, 403, challenge.actionId, 0);
        }
        mfaEnforcedPrincipals := mfaEnforcedPrincipals - {principal};
      }
      if ip in dynamicRateLimits || (principal != "" && principal in dynamicRateLimits) {
        var key := if ip in dynamicRateLimits then ip else principal;
        var throttle := dynamicRateLimits[key];
        if now <= throttle.until {
          return Deny(RateLimit, 429, throttle.actionId, 60);
        }
        dynamicRateLimits := dynamicRateLimits - {key};
      }
      verdict := Pass;
    }
  }
}
