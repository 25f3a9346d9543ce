/** The response agent: which actions an alert calls for, and the approval life cycle of each. */
module Response {
  import opened Basics
  import opened Actions

  datatype Alert = Alert(severity: string, category: string, target: string)

  /** How the agent words the justification of an action. */
  type Wording = (ActionType, Alert) -> string

  /** A snapshot of the agent: its action registry and its own containment tables. */
  datatype Agent = Agent(actions: map<string, Action>, tables: Tables)

  datatype Tables = Tables(
    rateLimits: map<string, int>, quarantinedIps: map<string, string>, challenges: map<string, string>)

  datatype Reply = NotFound | WrongStatus(status: ApprovalStatus) | Done(agent: Agent)

  predicate Elevated(alert: Alert) { alert.severity == "MEDIUM" || Severe(alert) }

  predicate Severe(alert: Alert) { alert.severity == "HIGH" || alert.severity == "CRITICAL" }

  predicate CredentialAbuse(alert: Alert) {
    alert.category == "CREDENTIAL_STUFFING" || alert.category == "COMPOUND_ANOMALY"
  }

  predicate Privileged(alert: Alert) { alert.severity == "CRITICAL" || alert.category == "PRIVILEGE_ESCALATION" }

  /** The position of a kind among the actions an alert may call for. */
  function Slot(kind: ActionType): nat {
    match kind case RateLimit => 0 case ChallengeMfa => 1 case QuarantineIpTemp => 2 case _ => 3
  }

  function Propose1(alert: Alert, ids: seq<string>, wording: Wording, kind: ActionType, seconds: int): seq<Action>
    requires |ids| == 4
  {
    [NewAction(ids[Slot(kind)], kind, alert.target, wording(kind, alert), Some(seconds))]
  }

  /** The actions an alert calls for, in order; `ids` supplies one identifier for each possible action. */
  function Proposed(alert: Alert, ids: seq<string>, wording: Wording): seq<Action>
    requires |ids| == 4
  {
    (if Elevated(alert) then Propose1(alert, ids, wording, RateLimit, 3600) else [])
    + (if CredentialAbuse(alert) then Propose1(alert, ids, wording, ChallengeMfa, 1800) else [])
    + (if Severe(alert) then Propose1(alert, ids, wording, QuarantineIpTemp, 3600) else [])
    + (if Privileged(alert) then Propose1(alert, ids, wording, SuspendAccount, 3600) else [])
  }

  function Contain(t: Tables, kind: ActionType, target: string, justification: string): Tables {
    match kind
    case RateLimit => t.(rateLimits := t.rateLimits[target := 5])
    case QuarantineIpTemp => t.(quarantinedIps := t.quarantinedIps[target := justification])
    case ChallengeMfa => t.(challenges := t.challenges[target := justification])
    case SuspendAccount => t.(challenges := t.challenges[target := "SUSPENDED"])
    case _ => t
  }

  function Uncontain(t: Tables, kind: ActionType, target: string): Tables {
    match kind
    case RateLimit => t.(rateLimits := t.rateLimits - {target})
    case QuarantineIpTemp => t.(quarantinedIps := t.quarantinedIps - {target})
    case ChallengeMfa => t.(challenges := t.challenges - {target})
    case SuspendAccount => t.(challenges := t.challenges - {target})
    case _ => t
  }

  /** The form an action has once registered: executed unless it waits for a human. */
  function Filed(a: Action): Action { if a.requiresHuman then a else a.(status := Executed) }

  function File(g: Agent, a: Action): Agent {
    Agent(g.actions[a.id := Filed(a)],
          if a.requiresHuman then g.tables else Contain(g.tables, a.kind, a.target, a.justification))
  }

  function FileAll(g: Agent, acts: seq<Action>): Agent {
    if acts == [] then g else File(FileAll(g, acts[..|acts| - 1]), acts[|acts| - 1])
  }

  /** The registered actions that need no human. */
  function AutoExecuted(acts: seq<Action>): seq<Action> {
    if acts == [] then []
    else AutoExecuted(acts[..|acts| - 1]) + if acts[|acts| - 1].requiresHuman then [] else [Filed(acts[|acts| - 1])]
  }

  function Approve(g: Agent, id: string, analyst: string): Reply {
    if id !in g.actions then NotFound
    else if g.actions[id].status != PendingHumanApproval then WrongStatus(g.actions[id].status)
    else
      var a := g.actions[id].(status := Executed, approvedBy := Some(analyst));
      Done(Agent(g.actions[id := a], Contain(g.tables, a.kind, a.target, a.justification)))
  }

  /** Rejection does not look at the current status. */
  function Reject(g: Agent, id: string, analyst: string): Reply {
    if id !in g.actions then NotFound
    else Done(g.(actions := g.actions[id := g.actions[id].(status := Rejected, approvedBy := Some(analyst))]))
  }

  function Revoke(g: Agent, id: string): Reply {
    if id !in g.actions then NotFound
    else if g.actions[id].status != Executed then WrongStatus(g.actions[id].status)
    else
      var a := g.actions[id].(status := Revoked);
      Done(Agent(g.actions[id := a], Uncontain(g.tables, a.kind, a.target)))
  }

  /** What every proposed action looks like. */
  predicate Proposable(alert: Alert, ids: seq<string>, wording: Wording, a: Action)
    requires |ids| == 4
  {
    && (a.kind == RateLimit || a.kind == ChallengeMfa || a.kind == QuarantineIpTemp || a.kind == SuspendAccount)
    && a == NewAction(ids[Slot(a.kind)], a.kind, alert.target, wording(a.kind, alert), a.duration)
  }

  /** Actions are proposed at most once per kind, in slot order, and exactly for privileged alerts is a suspension
      among them. */
  lemma {:induction false} ProposedShape(alert: Alert, ids: seq<string>, wording: Wording)
    requires |ids| == 4
    ensures var acts := Proposed(alert, ids, wording);
            && (forall i | 0 <= i < |acts| :: Proposable(alert, ids, wording, acts[i]))
            && (forall i, j | 0 <= i < j < |acts| :: Slot(acts[i].kind) < Slot(acts[j].kind))
            && ((exists i | 0 <= i < |acts| :: acts[i].kind == SuspendAccount) <==> Privileged(alert))
  {
    hide Elevated, CredentialAbuse, Severe, Privileged;
    var acts := Proposed(alert, ids, wording);
    if Privileged(alert) {
      assert acts[|acts| - 1].kind == SuspendAccount;
    }
  }

  /** An action of a kind on a target for so many seconds is among some actions. */
  ghost predicate CallsFor(acts: seq<Action>, kind: ActionType, target: string, seconds: int) {
    exists a :: a in acts && a.kind == kind && a.target == target && a.duration == Some(seconds)
  }

  function Made(alert: Alert, ids: seq<string>, wording: Wording, kind: ActionType, seconds: int): Action
    requires |ids| == 4
  {
    NewAction(ids[Slot(kind)], kind, alert.target, wording(kind, alert), Some(seconds))
  }

  /** What an alert calls for, one condition and one duration each. */
  lemma {:induction false} ProposedMembers(alert: Alert, ids: seq<string>, wording: Wording, a: Action)
    requires |ids| == 4
    ensures var s, c := alert.severity, alert.category;
            a in Proposed(alert, ids, wording) <==>
              || (a == Made(alert, ids, wording, RateLimit, 3600) && (s == "MEDIUM" || s == "HIGH" || s == "CRITICAL"))
              || (a == Made(alert, ids, wording, ChallengeMfa, 1800)
                  && (c == "CREDENTIAL_STUFFING" || c == "COMPOUND_ANOMALY"))
              || (a == Made(alert, ids, wording, QuarantineIpTemp, 3600) && (s == "HIGH" || s == "CRITICAL"))
              || (a == Made(alert, ids, wording, SuspendAccount, 3600)
                   && (s == "CRITICAL" || c == "PRIVILEGE_ESCALATION"))
  {
    hide NewAction;
  }

  /** Which alert calls for what: a rate limit from medium severity, a challenge for the two credential categories, a
      quarantine from high severity, a suspension for critical severity or privilege escalation; each for its own
      time, each at most once, and nothing else. */
  lemma {:induction false} ProposedExactly(alert: Alert, ids: seq<string>, wording: Wording)
    requires |ids| == 4
    ensures var acts, s, c := Proposed(alert, ids, wording), alert.severity, alert.category;
            && (CallsFor(acts, RateLimit, alert.target, 3600) <==> s == "MEDIUM" || s == "HIGH" || s == "CRITICAL")
            && (CallsFor(acts, ChallengeMfa, alert.target, 1800) <==>
                  c == "CREDENTIAL_STUFFING" || c == "COMPOUND_ANOMALY")
            && (CallsFor(acts, QuarantineIpTemp, alert.target, 3600) <==> s == "HIGH" || s == "CRITICAL")
            && (CallsFor(acts, SuspendAccount, alert.target, 3600) <==> s == "CRITICAL" || c == "PRIVILEGE_ESCALATION")
            && (forall a | a in acts ::
                  && a.target == alert.target && a.kind in {RateLimit, ChallengeMfa, QuarantineIpTemp, SuspendAccount}
                  && a.duration == Some(if a.kind == ChallengeMfa then 1800 else 3600))
            && (forall i, j | 0 <= i < j < |acts| :: acts[i].kind != acts[j].kind)
  {
    ProposedShape(alert, ids, wording);
    ProposedMembers(alert, ids, wording, Made(alert, ids, wording, RateLimit, 3600));
    ProposedMembers(alert, ids, wording, Made(alert, ids, wording, ChallengeMfa, 1800));
    ProposedMembers(alert, ids, wording, Made(alert, ids, wording, QuarantineIpTemp, 3600));
    ProposedMembers(alert, ids, wording, Made(alert, ids, wording, SuspendAccount, 3600));
    forall a {
      ProposedMembers(alert, ids, wording, a);
    }
    hide Proposed, Elevated, CredentialAbuse, Severe, Privileged, HighImpact;
  }

  /** The same action, whatever has become of its approval. */
  predicate SameAction(a: Action, b: Action) { a == b.(status := a.status, approvedBy := a.approvedBy) }

  /** Only `id` differs between the registries; there it is the same action with this status and this approver. */
  predicate OnlyStatus(before: map<string, Action>, after: map<string, Action>, id: string, status: ApprovalStatus,
                       approvedBy: Option<string>) {
    && id in before && after.Keys == before.Keys
    && SameAction(after[id], before[id]) && after[id].status == status && after[id].approvedBy == approvedBy
    && forall k | k in before && k != id :: after[k] == before[k]
  }

  /** The life cycle of an action: pending to executed by an approval, anything to rejected, executed to revoked;
      nothing but its status and its approver ever changes, and no other action with it. What is refused says why. */
  lemma LifeCycle(g: Agent, id: string, analyst: string)
    ensures var r := Approve(g, id, analyst);
            && (r.Done? <==> id in g.actions && g.actions[id].status == PendingHumanApproval)
            && (r.Done? ==> OnlyStatus(g.actions, r.agent.actions, id, Executed, Some(analyst)))
            && (r.NotFound? <==> id !in g.actions) && (r.WrongStatus? ==> r.status == g.actions[id].status)
    ensures var r := Reject(g, id, analyst);
            && (r.Done? <==> id in g.actions) && (!r.Done? ==> r == NotFound)
            && (r.Done? ==> OnlyStatus(g.actions, r.agent.actions, id, Rejected, Some(analyst)))
            && (r.Done? ==> r.agent.tables == g.tables)
    ensures var r := Revoke(g, id);
            && (r.Done? <==> id in g.actions && g.actions[id].status == Executed)
            && (r.Done? ==> OnlyStatus(g.actions, r.agent.actions, id, Revoked, g.actions[id].approvedBy))
            && (r.NotFound? <==> id !in g.actions) && (r.WrongStatus? ==> r.status == g.actions[id].status)
  {
    hide Contain, Uncontain;
  }

  /** Which targets the containment tables list changes only by executing or revoking an action of the kind: rate limits
      of five, quarantines with their reason, challenges with their reason or, for a suspension, marked as such. */
  lemma TablesFollow(t: Tables, kind: ActionType, target: string, reason: string, x: string)
    ensures var on, off := Contain(t, kind, target, reason), Uncontain(t, kind, target);
            var limit, quarantine := kind == RateLimit && x == target, kind == QuarantineIpTemp && x == target;
            var challenge := kind in {ChallengeMfa, SuspendAccount} && x == target;
            && (x in on.rateLimits <==> limit || x in t.rateLimits)
            && (x in on.quarantinedIps <==> quarantine || x in t.quarantinedIps)
            && (x in on.challenges <==> challenge || x in t.challenges)
            && (limit ==> on.rateLimits[x] == 5) && (quarantine ==> on.quarantinedIps[x] == reason)
            && (challenge ==> on.challenges[x] == if kind == SuspendAccount then "SUSPENDED" else reason)
            && (x in off.rateLimits <==> !limit && x in t.rateLimits)
            && (x in off.quarantinedIps <==> !quarantine && x in t.quarantinedIps)
            && (x in off.challenges <==> !challenge && x in t.challenges)
  {
  }

  /** Filing, approving and revoking touch the tables by exactly the action that they execute or revoke. */
  lemma TablesByAction(g: Agent, a: Action, id: string, analyst: string)
    ensures File(g, a).tables == if a.requiresHuman then g.tables
            else Contain(g.tables, a.kind, a.target, a.justification)
    ensures File(g, a).actions == g.actions[a.id := File(g, a).actions[a.id]]
            && File(g, a).actions[a.id] == a.(status := if a.requiresHuman then a.status else Executed)
    ensures Approve(g, id, analyst).Done? ==>
              var b := g.actions[id];
              Approve(g, id, analyst).agent.tables == Contain(g.tables, b.kind, b.target, b.justification)
    ensures Revoke(g, id).Done? ==>
              Revoke(g, id).agent.tables == Uncontain(g.tables, g.actions[id].kind, g.actions[id].target)
  {
    hide Contain, Uncontain;
  }

  lemma FilingNothing(g: Agent)
    ensures FileAll(g, []) == g && AutoExecuted([]) == []
  {
  }

  lemma {:induction false} FilingOneMore(g: Agent, acts: seq<Action>, i: nat)
    requires i < |acts|
    ensures FileAll(g, acts[..i + 1]) == File(FileAll(g, acts[..i]), acts[i])
    ensures AutoExecuted(acts[..i + 1]) == AutoExecuted(acts[..i]) + if acts[i].requiresHuman then []
            else [Filed(acts[i])]
  {
    assert acts[..i + 1][..i] == acts[..i];
  }

  /** The snapshots of a list of action objects. */
  function Views(acts: seq<AgentAction>): seq<Action>
    reads acts
  {
    seq(|acts|, i requires 0 <= i < |acts| reads acts => acts[i].View())
  }

  class ResponseAgent {
    const wording: Wording
    var actionsRegistry: map<string, AgentAction>
    var activeRateLimits: map<string, int>
    var activeQuarantinedIps: map<string, string>
    var activeChallenges: map<string, string>

    constructor (wording: Wording)
      ensures this.wording == wording && Valid() && actionsRegistry == map[]
      ensures View() == Agent(map[], Tables(map[], map[], map[]))
    {
      this.wording := wording;
      actionsRegistry, activeRateLimits, activeQuarantinedIps, activeChallenges := map[], map[], map[], map[];
    }

    ghost predicate Valid()
      reads this
    {
      forall id | id in actionsRegistry :: actionsRegistry[id].id == id
    }

    function Registered(): map<string, Action>
      reads this, actionsRegistry.Values
    {
      map id | id in actionsRegistry :: actionsRegistry[id].View()
    }

    function Containment(): Tables
      reads this
    {
      Tables(activeRateLimits, activeQuarantinedIps, activeChallenges)
    }

    function View(): Agent
      reads this, actionsRegistry.Values
    {
      Agent(Registered(), Containment())
    }

    /** One more action object on the list of proposals. */
    method Draft(proposed: seq<AgentAction>, alert: Alert, ids: seq<string>, kind: ActionType, seconds: int)
      returns (more: seq<AgentAction>)
      requires |ids| == 4
      ensures |more| == |proposed| + 1 && more[..|proposed|] == proposed && fresh(more[|proposed|])
      ensures Views(more) == Views(proposed) + Propose1(alert, ids, wording, kind, seconds)
    {
      hide Gated;
      var act := new AgentAction(ids[Slot(kind)], kind, alert.target, wording(kind, alert), Some(seconds));
      more := proposed + [act];
    }

    method Propose(alert: Alert, ids: seq<string>) returns (proposed: seq<AgentAction>)
      requires |ids| == 4
      ensures forall i | 0 <= i < |proposed| :: fresh(proposed[i])
      ensures forall i, j | 0 <= i < j < |proposed| :: proposed[i] != proposed[j]
      ensures Views(proposed) == Proposed(alert, ids, wording)
    {
      hide Elevated, CredentialAbuse, Severe, Privileged, Propose1;
      proposed := [];
      if Elevated(alert) {
        proposed := Draft(proposed, alert, ids, RateLimit, 3600);
      }
      if CredentialAbuse(alert) {
        proposed := Draft(proposed, alert, ids, ChallengeMfa, 1800);
      }
      if Severe(alert) {
        proposed := Draft(proposed, alert, ids, QuarantineIpTemp, 3600);
      }
      if Privileged(alert) {
        proposed := Draft(proposed, alert, ids, SuspendAccount, 3600);
      }
    }

    method ApplyContainment(action: AgentAction)
      modifies this`activeRateLimits, this`activeQuarantinedIps, this`activeChallenges
      ensures Containment() == Contain(old(Containment()), action.kind, action.target, action.justification)
    {
      match action.kind
      case RateLimit => activeRateLimits := activeRateLimits[action.target := 5];
      case QuarantineIpTemp => activeQuarantinedIps := activeQuarantinedIps[action.target := action.justification];
      case ChallengeMfa => activeChallenges := activeChallenges[action.target := action.justification];
      case SuspendAccount => activeChallenges := activeChallenges[action.target := "SUSPENDED"];
      case _ =>
    }

    method ReleaseContainment(action: AgentAction)
      modifies this`activeRateLimits, this`activeQuarantinedIps, this`activeChallenges
      ensures Containment() == Uncontain(old(Containment()), action.kind, action.target)
    {
      match action.kind
      case RateLimit => activeRateLimits := activeRateLimits - {action.target};
      case QuarantineIpTemp => activeQuarantinedIps := activeQuarantinedIps - {action.target};
      case ChallengeMfa => activeChallenges := activeChallenges - {action.target};
      case SuspendAccount => activeChallenges := activeChallenges - {action.target};
      case _ =>
    }

    method FormulateResponsePlan(alert: Alert, ids: seq<string>)
      returns (auto: seq<AgentAction>, pending: seq<AgentAction>)
      requires Valid() && |ids| == 4
      modifies this
      ensures Valid()
      ensures View() == FileAll(old(View()), Proposed(alert, ids, wording))
      ensures Views(auto) == AutoExecuted(Proposed(alert, ids, wording))
      ensures forall id | id in actionsRegistry ::
                fresh(actionsRegistry[id])
                  || (id in old(actionsRegistry) && actionsRegistry[id] == old(actionsRegistry)[id])
    {
      hide File, FileAll, AutoExecuted, Contain, Proposed;
      var proposed := Propose(alert, ids);
      ghost var specs := Proposed(alert, ids, wording);
      assert forall j | 0 <= j < |proposed| :: proposed[j].View() == Views(proposed)[j];
      auto, pending := [], [];
      FilingNothing(View());
      for i := 0 to |proposed|
        invariant Valid()
        invariant forall j | i <= j < |proposed| :: proposed[j].View() == specs[j]
        invariant View() == FileAll(old(View()), specs[..i])
        invariant Views(auto) == AutoExecuted(specs[..i])
        invariant forall a | a in auto :: a in proposed[..i]
        invariant forall id | id in actionsRegistry ::
                    || actionsRegistry[id] in proposed[..i]
                    || (id in old(actionsRegistry) && actionsRegistry[id] == old(actionsRegistry)[id])
      {
        var act := proposed[i];
        ghost var filed := Views(auto);
        FilingOneMore(old(View()), specs, i);
        assert act !in auto;
        RegisterAction(act);
        assert Views(auto) == filed;
        assert Views(auto + [act]) == filed + [Filed(specs[i])];
        if act.requiresHuman {
          pending := pending + [act];
        } else {
          auto := auto + [act];
        }
      }
      assert specs[..|proposed|] == specs;
    }

    /** One turn of the registration loop: file the action and, unless it waits for a human, execute it. */
    method RegisterAction(act: AgentAction)
      requires Valid() && act !in actionsRegistry.Values
      modifies this, act`status
      ensures Valid() && actionsRegistry == old(actionsRegistry)[act.id := act]
      ensures act.View() == Filed(old(act.View()))
      ensures View() == File(old(View()), old(act.View()))
    {
      hide Contain, Uncontain;
      assert forall id | id in actionsRegistry :: actionsRegistry[id] != act;
      actionsRegistry := actionsRegistry[act.id := act];
      if !act.requiresHuman {
        ApplyContainment(act);
        act.status := Executed;
      }
      assert Registered() == old(Registered())[act.id := act.View()];
    }

    method ApproveAction(id: string, analyst: string) returns (reply: Reply)
      requires Valid()
      modifies this, actionsRegistry.Values
      ensures Valid() && actionsRegistry == old(actionsRegistry)
      ensures reply == Approve(old(View()), id, analyst)
      ensures reply.Done? ==> id in actionsRegistry && id in reply.agent.actions
                              && actionsRegistry[id].View() == reply.agent.actions[id]
                              && actionsRegistry[id].status == Executed
      ensures View() == if reply.Done? then reply.agent else old(View())
    {
      hide Contain, Uncontain;
      if id !in actionsRegistry {
        return NotFound;
      }
      var action := actionsRegistry[id];
      if action.status != PendingHumanApproval {
        return WrongStatus(action.status);
      }
      action.approvedBy := Some(analyst);
      action.status := Approved;
      ApplyContainment(action);
      action.status := Executed;
      assert Registered() == old(Registered())[id := action.View()];
      reply := Done(View());
    }

    method RejectAction(id: string, analyst: string) returns (reply: Reply)
      requires Valid()
      modifies actionsRegistry.Values
      ensures Valid() && actionsRegistry == old(actionsRegistry)
      ensures reply == Reject(old(View()), id, analyst)
      ensures View() == if reply.Done? then reply.agent else old(View())
    {
      if id !in actionsRegistry {
        return NotFound;
      }
      var action := actionsRegistry[id];
      action.approvedBy := Some(analyst);
      action.status := Rejected;
      reply := Done(View());
    }

    method RevokeAction(id: string) returns (reply: Reply)
      requires Valid()
      modifies this, actionsRegistry.Values
      ensures Valid() && actionsRegistry == old(actionsRegistry)
      ensures reply == Revoke(old(View()), id)
      ensures View() == if reply.Done? then reply.agent else old(View())
    {
      hide Contain, Uncontain;
      if id !in actionsRegistry {
        return NotFound;
      }
      var action := actionsRegistry[id];
      if action.status != Executed {
        return WrongStatus(action.status);
      }
      ReleaseContainment(action);
      action.status := Revoked;
      reply := Done(View());
    }
  }
}
