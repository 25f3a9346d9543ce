/** The orchestrator joins the response agent to the mitigation engine. Its log records approvals, rejections,
    revocations and every containment the engine accepted; the approval gate is a property of that log. */
module Orchestrator {
  import opened Basics
  import opened Actions
  import opened StateStore
  import opened Mitigation
  import opened Response

  datatype Event = Approval(id: string, analyst: string) | Rejection(id: string) | Revocation(id: string)
      | Enforced(id: string)

  datatype Control = Control(agent: Agent, engine: Engine, log: seq<Event>)

  const START := Control(Agent(map[], Tables(map[], map[], map[])),
                         Engine(EMPTY_LOCAL, Shared(map[], map[], map[], {})), [])

  datatype Step =
    | SecurityEvent(alert: Alert, ids: seq<string>, now: Time)
    | ApproveStep(id: string, analyst: string, now: Time)
    | RejectStep(id: string, analyst: string)
    | RevokeStep(id: string)
    | RequestStep(ip: string, principal: string, token: string, now: Time)

  /** The engine is handed one action; it may accept it, decline it or refuse it. */
  function Enact(o: Control, a: Action, isWhitelisted: string -> bool, now: Time): Control {
    var engine := Apply(o.engine, a, isWhitelisted(a.target), now);
    Control(o.agent, engine, if Outcome(a, isWhitelisted(a.target)) == Applied then o.log + [Enforced(a.id)] else o.log)
  }

  function EnactAll(o: Control, acts: seq<Action>, isWhitelisted: string -> bool, now: Time): Control {
    if acts == [] then o
    else Enact(EnactAll(o, acts[..|acts| - 1], isWhitelisted, now), acts[|acts| - 1], isWhitelisted, now)
  }

  function ProcessEvent(o: Control, alert: Alert, ids: seq<string>, wording: Wording, isWhitelisted: string -> bool,
                        now: Time): Control
    requires |ids| == 4
  {
    var acts := Proposed(alert, ids, wording);
    EnactAll(o.(agent := FileAll(o.agent, acts)), AutoExecuted(acts), isWhitelisted, now)
  }

  function ProcessApproval(o: Control, id: string, analyst: string, isWhitelisted: string -> bool, now: Time): Control {
    match Approve(o.agent, id, analyst)
    case Done(agent) =>
      if id in agent.actions then
        Enact(Control(agent, o.engine, o.log + [Approval(id, analyst)]), agent.actions[id], isWhitelisted, now)
      else o
    case _ => o
  }

  function ProcessRejection(o: Control, id: string, analyst: string): Control {
    match Reject(o.agent, id, analyst)
    case Done(agent) => Control(agent, o.engine, o.log + [Rejection(id)])
    case _ => o
  }

  function ProcessRevocation(o: Control, id: string): Control {
    match Revoke(o.agent, id)
    case Done(agent) => Control(agent, Rollback(o.engine, id), o.log + [Revocation(id)])
    case _ => o
  }

  function StepControl(o: Control, s: Step, wording: Wording, isWhitelisted: string -> bool): Control {
    match s
    case SecurityEvent(alert, ids, now) =>
      if |ids| == 4 then ProcessEvent(o, alert, ids, wording, isWhitelisted, now) else o
    case ApproveStep(id, analyst, now) => ProcessApproval(o, id, analyst, isWhitelisted, now)
    case RejectStep(id, analyst) => ProcessRejection(o, id, analyst)
    case RevokeStep(id) => ProcessRevocation(o, id)
    case RequestStep(ip, principal, token, now) => o.(engine := Evaluate(o.engine, ip, principal, token, now).0)
  }

  /** New identifiers are distinct and unused. */
  predicate Fresh(o: Control, s: Step) {
    s.SecurityEvent? ==>
      && |s.ids| == 4
      && (forall i, j | 0 <= i < j < 4 :: s.ids[i] != s.ids[j])
      && (forall i | 0 <= i < 4 :: s.ids[i] !in o.agent.actions)
  }

  /** The state after a sequence of steps from the empty state. */
  function Run(steps: seq<Step>, wording: Wording, isWhitelisted: string -> bool): Control {
    if steps == [] then START
    else StepControl(Run(steps[..|steps| - 1], wording, isWhitelisted), steps[|steps| - 1], wording, isWhitelisted)
  }

  /** Every security event in the run brings fresh action identifiers. */
  predicate Legal(steps: seq<Step>, wording: Wording, isWhitelisted: string -> bool) {
    forall i | 0 <= i < |steps| :: Fresh(Run(steps[..i], wording, isWhitelisted), steps[i])
  }

  // ---------------------------------------------------------------- what every step keeps

  predicate Mentioned(log: seq<Event>, id: string) { exists k | 0 <= k < |log| :: log[k].id == id }

  /** A registered action: filed under its own id, high-impact ones behind the gate, and silent in the log while
      pending. */
  predicate WellFiled(a: Action, id: string, log: seq<Event>) {
    && a.id == id
    && (HighImpact(a.kind) ==> a.requiresHuman)
    && (a.status == PendingHumanApproval || a.status == Executed || a.status == Rejected || a.status == Revoked)
    && (a.status == PendingHumanApproval ==> !Mentioned(log, id))
  }

  ghost predicate Filing(o: Control) {
    && (forall id | id in o.agent.actions :: WellFiled(o.agent.actions[id], id, o.log))
    && (forall k | 0 <= k < |o.log| :: o.log[k].id in o.agent.actions)
  }

  /** Nothing but an approval precedes an enforcement of the same action, and an approval must precede a high-impact
      one. */
  ghost predicate Ordered(o: Control) {
    && (forall j, k | 0 <= j < k < |o.log| && o.log[k].Enforced? && o.log[j].id == o.log[k].id :: o.log[j].Approval?)
    && (forall k | 0 <= k < |o.log| && o.log[k].Enforced? && o.log[k].id in o.agent.actions
         && HighImpact(o.agent.actions[o.log[k].id].kind) ::
          0 < k && o.log[k - 1].Approval? && o.log[k - 1].id == o.log[k].id)
  }

  predicate ApprovedBy(log: seq<Event>, k: int, r: Record) {
    && 0 <= k < |log| && log[k].Approval? && log[k].id == r.actionId
    && r.approvedBy == (if log[k].analyst == "" then "HUMAN_ANALYST" else log[k].analyst)
  }

  /** The record suspends `p` under an action that an analyst approved and that has not been rolled back since. */
  ghost predicate Sanctioned(o: Control, p: string, r: Record) {
    && r.actionId in o.agent.actions && r.actionId in o.engine.local.registry
    && o.agent.actions[r.actionId].kind == SuspendAccount && o.agent.actions[r.actionId].target == p
    && exists k :: ApprovedBy(o.log, k, r)
  }

  ghost predicate AllSanctioned(o: Control, m: map<string, Record>) {
    forall p | p in m :: Sanctioned(o, p, m[p])
  }

  /** What the engine's registry holds was enforced, and is not pending or revoked. */
  ghost predicate Registered(o: Control) {
    forall id | id in o.engine.local.registry ::
      && id in o.agent.actions
      && o.engine.local.registry[id] == (o.agent.actions[id].kind, o.agent.actions[id].target)
      && (o.agent.actions[id].status == Executed || o.agent.actions[id].status == Rejected)
  }

  ghost predicate Inv(o: Control) {
    && Filing(o) && Ordered(o) && Registered(o)
    && AllSanctioned(o, o.engine.local.suspended) && AllSanctioned(o, o.engine.shared.suspended)
  }

  /** Growing the registries and the log keeps a record sanctioned. */
  lemma SanctionedGrows(o: Control, o': Control, m: map<string, Record>)
    requires AllSanctioned(o, m) && o.log <= o'.log && o.engine.local.registry.Keys <= o'.engine.local.registry.Keys
    requires forall id | id in o.agent.actions ::
               && id in o'.agent.actions
               && o'.agent.actions[id].kind == o.agent.actions[id].kind
               && o'.agent.actions[id].target == o.agent.actions[id].target
    ensures AllSanctioned(o', m)
  {
    forall p | p in m
      ensures Sanctioned(o', p, m[p])
    {
      var k :| ApprovedBy(o.log, k, m[p]);
      assert ApprovedBy(o'.log, k, m[p]);
    }
  }

  /** Filing a new action keeps the invariant. */
  lemma FileKeepsInv(o: Control, a: Action)
    requires Inv(o) && a.id !in o.agent.actions && a == NewAction(a.id, a.kind, a.target, a.justification, a.duration)
    ensures Inv(o.(agent := File(o.agent, a)))
  {
    var o' := o.(agent := File(o.agent, a));
    assert !Mentioned(o.log, a.id);
    SanctionedGrows(o, o', o.engine.local.suspended);
    SanctionedGrows(o, o', o.engine.shared.suspended);
  }

  /** An executed action that the log does not mention, or mentions only as approved; a high-impact one was approved
      just now. */
  ghost predicate Enactable(o: Control, a: Action) {
    && a.id in o.agent.actions && o.agent.actions[a.id] == a && a.status == Executed
    && (forall k | 0 <= k < |o.log| && o.log[k].id == a.id :: o.log[k].Approval?)
    && (HighImpact(a.kind) ==>
          && 0 < |o.log| && o.log[|o.log| - 1].Approval? && o.log[|o.log| - 1].id == a.id
          && a.approvedBy == Some(o.log[|o.log| - 1].analyst))
  }

  lemma EnactSanctions(o: Control, a: Action, isWhitelisted: string -> bool, now: Time)
    requires Enactable(o, a)
    requires AllSanctioned(o, o.engine.local.suspended) && AllSanctioned(o, o.engine.shared.suspended)
    ensures var o' := Enact(o, a, isWhitelisted, now);
            AllSanctioned(o', o'.engine.local.suspended) && AllSanctioned(o', o'.engine.shared.suspended)
  {
    var o' := Enact(o, a, isWhitelisted, now);
    ApplyEffects(o.engine, a, isWhitelisted(a.target), now);
    SanctionedGrows(o, o', o.engine.local.suspended);
    SanctionedGrows(o, o', o.engine.shared.suspended);
    if a.kind == SuspendAccount {
      var r := Record(a.id, a.justification, None, Approver(a));
      assert ApprovedBy(o'.log, |o.log| - 1, r);
      assert Sanctioned(o', a.target, r);
    }
  }

  lemma EnactKeepsLog(o: Control, a: Action, isWhitelisted: string -> bool, now: Time)
    requires Filing(o) && Ordered(o) && Enactable(o, a)
    ensures Filing(Enact(o, a, isWhitelisted, now)) && Ordered(Enact(o, a, isWhitelisted, now))
  {
    hide Apply, Outcome, HighImpact;
    var o' := Enact(o, a, isWhitelisted, now);
    assert o.log <= o'.log && |o'.log| <= |o.log| + 1;
  }

  lemma EnactKeepsRegistered(o: Control, a: Action, isWhitelisted: string -> bool, now: Time)
    requires Registered(o) && Enactable(o, a)
    ensures Registered(Enact(o, a, isWhitelisted, now))
  {
    ApplyEffects(o.engine, a, isWhitelisted(a.target), now);
    hide Apply, Outcome;
  }

  /** Handing the engine an enactable action keeps the invariant. */
  lemma EnactKeepsInv(o: Control, a: Action, isWhitelisted: string -> bool, now: Time)
    requires Inv(o) && Enactable(o, a)
    ensures Inv(Enact(o, a, isWhitelisted, now))
  {
    EnactSanctions(o, a, isWhitelisted, now);
    EnactKeepsLog(o, a, isWhitelisted, now);
    EnactKeepsRegistered(o, a, isWhitelisted, now);
    hide Apply, Outcome, Filing, Ordered, Registered, AllSanctioned;
  }

  predicate IsNew(a: Action) { a == NewAction(a.id, a.kind, a.target, a.justification, a.duration) }

  predicate Carries(acts: seq<Action>, id: string) { exists i | 0 <= i < |acts| :: acts[i].id == id }

  /** What filing a list of new actions does to the registry. */
  ghost predicate FiledInto(g: Agent, acts: seq<Action>, g': Agent) {
    && (forall i | 0 <= i < |acts| :: acts[i].id in g'.actions && g'.actions[acts[i].id] == Filed(acts[i]))
    && (forall id | id in g'.actions :: id in g.actions || Carries(acts, id))
    && (forall id | id in g.actions :: id in g'.actions && g'.actions[id] == g.actions[id])
  }

  lemma {:induction false} FiledIntoGrows(g: Agent, acts: seq<Action>, g': Agent, a: Action)
    requires FiledInto(g, acts, g')
    requires a.id !in g'.actions
    ensures FiledInto(g, acts + [a], File(g', a))
  {
    var all := acts + [a];
    forall id | id in File(g', a).actions && id !in g.actions
      ensures Carries(all, id)
    {
      if id == a.id {
        assert all[|acts|].id == id;
      } else {
        var i :| 0 <= i < |acts| && acts[i].id == id;
        assert all[i].id == id;
      }
    }
  }

  /** Filing a list of new actions keeps the invariant and leaves each in its filed form. */
  lemma {:induction false} FileAllKeepsInv(o: Control, acts: seq<Action>)
    requires Inv(o)
    requires AllNew(o.agent, acts)
    ensures var g := FileAll(o.agent, acts);
            Inv(o.(agent := g)) && FiledInto(o.agent, acts, g)
  {
    if acts == [] {
    } else {
      var before, last := acts[..|acts| - 1], acts[|acts| - 1];
      FileAllKeepsInv(o, before);
      hide Inv, File;
      assert before + [last] == acts;
      var g := FileAll(o.agent, before);
      assert last.id !in g.actions;
      FiledIntoGrows(o.agent, before, g, last);
      FileKeepsInv(o.(agent := g), last);
    }
  }

  lemma EnactLogs(o: Control, a: Action, isWhitelisted: string -> bool, now: Time)
    ensures var o' := Enact(o, a, isWhitelisted, now);
            && o'.agent == o.agent
            && o'.log == if Outcome(a, isWhitelisted(a.target)) == Applied then o.log + [Enforced(a.id)] else o.log
  {
  }

  /** Enacting actions logs their enforcements and nothing else. */
  lemma {:induction false} EnactAllLogs(o: Control, acts: seq<Action>, isWhitelisted: string -> bool, now: Time)
    ensures var o' := EnactAll(o, acts, isWhitelisted, now);
            && o'.agent == o.agent && o.log <= o'.log
            && (forall k | |o.log| <= k < |o'.log| :: o'.log[k].Enforced? && Carries(acts, o'.log[k].id))
  {
    hide Enact;
    if acts == [] {
    } else {
      var before, last := acts[..|acts| - 1], acts[|acts| - 1];
      EnactAllLogs(o, before, isWhitelisted, now);
      EnactLogs(EnactAll(o, before, isWhitelisted, now), last, isWhitelisted, now);
      assert last.id == acts[|acts| - 1].id && forall i | 0 <= i < |before| :: before[i] == acts[i];
    }
  }

  /** An action that the log did not mention before others were enacted is as enactable as it was. */
  lemma {:induction false} StillEnactable(o: Control, acts: seq<Action>, a: Action, isWhitelisted: string -> bool,
                                          now: Time)
    requires Enactable(o, a) && !HighImpact(a.kind) && !Mentioned(o.log, a.id) && !Carries(acts, a.id)
    ensures Enactable(EnactAll(o, acts, isWhitelisted, now), a)
  {
    EnactAllLogs(o, acts, isWhitelisted, now);
    hide EnactAll, HighImpact;
    var log := EnactAll(o, acts, isWhitelisted, now).log;
    assert forall k | 0 <= k < |o.log| :: log[k] == o.log[k];
  }

  /** Enacting actions that need no human, once each, keeps the invariant. */
  lemma {:induction false} EnactAllKeepsInv(o: Control, acts: seq<Action>, isWhitelisted: string -> bool, now: Time)
    requires Inv(o)
    requires forall i | 0 <= i < |acts| ::
               Enactable(o, acts[i]) && !HighImpact(acts[i].kind) && !Mentioned(o.log, acts[i].id)
    requires forall i, j | 0 <= i < j < |acts| :: acts[i].id != acts[j].id
    ensures Inv(EnactAll(o, acts, isWhitelisted, now))
  {
    hide Inv, Enact, HighImpact, Enactable, Mentioned;
    if acts == [] {
    } else {
      var before, last := acts[..|acts| - 1], acts[|acts| - 1];
      EnactAllKeepsInv(o, before, isWhitelisted, now);
      StillEnactable(o, before, last, isWhitelisted, now);
      EnactKeepsInv(EnactAll(o, before, isWhitelisted, now), last, isWhitelisted, now);
    }
  }

  predicate FiledOneOf(acts: seq<Action>, a: Action) {
    exists i | 0 <= i < |acts| :: !acts[i].requiresHuman && a == Filed(acts[i])
  }

  /** What is executed without a human: the filed form of some proposed action that needs none, each once. */
  lemma {:induction false} AutoExecutedShape(acts: seq<Action>)
    requires forall i, j | 0 <= i < j < |acts| :: acts[i].id != acts[j].id
    ensures forall k | 0 <= k < |AutoExecuted(acts)| :: FiledOneOf(acts, AutoExecuted(acts)[k])
    ensures forall k, l | 0 <= k < l < |AutoExecuted(acts)| :: AutoExecuted(acts)[k].id != AutoExecuted(acts)[l].id
  {
    if acts == [] {
    } else {
      var before, last := acts[..|acts| - 1], acts[|acts| - 1];
      AutoExecutedShape(before);
      var auto := AutoExecuted(before);
      forall k | 0 <= k < |auto|
        ensures FiledOneOf(acts, auto[k]) && auto[k].id != last.id
      {
        assert FiledOneOf(before, auto[k]);
        var i :| 0 <= i < |before| && !before[i].requiresHuman && auto[k] == Filed(before[i]);
        assert acts[i] == before[i];
      }
      assert acts[|acts| - 1] == last;
    }
  }

  predicate AllNew(g: Agent, acts: seq<Action>) {
    && (forall i | 0 <= i < |acts| :: acts[i].id !in g.actions && IsNew(acts[i]))
    && (forall i, j | 0 <= i < j < |acts| :: acts[i].id != acts[j].id)
  }

  lemma {:induction false} ProposedAreNew(o: Control, alert: Alert, ids: seq<string>, now: Time, wording: Wording)
    requires Fresh(o, SecurityEvent(alert, ids, now))
    ensures AllNew(o.agent, Proposed(alert, ids, wording))
    ensures forall i | 0 <= i < |Proposed(alert, ids, wording)| ::
              HighImpact(Proposed(alert, ids, wording)[i].kind) == Proposed(alert, ids, wording)[i].requiresHuman
  {
    var acts := Proposed(alert, ids, wording);
    ProposedShape(alert, ids, wording);
    hide Proposed;
    forall i | 0 <= i < |acts|
      ensures acts[i].id == ids[Slot(acts[i].kind)] && IsNew(acts[i])
    {
      assert Proposable(alert, ids, wording, acts[i]);
    }
  }

  lemma {:induction false} EventKeepsInv(o: Control, alert: Alert, ids: seq<string>, now: Time, wording: Wording,
                                         isWhitelisted: string -> bool)
    requires Inv(o) && Fresh(o, SecurityEvent(alert, ids, now))
    ensures Inv(ProcessEvent(o, alert, ids, wording, isWhitelisted, now))
  {
    var acts := Proposed(alert, ids, wording);
    ProposedAreNew(o, alert, ids, now, wording);
    hide Proposed, FileAll, AutoExecuted, EnactAll;
    FileAllKeepsInv(o, acts);
    AutoExecutedShape(acts);
    var filed := o.(agent := FileAll(o.agent, acts));
    var auto := AutoExecuted(acts);
    forall k | 0 <= k < |auto|
      ensures Enactable(filed, auto[k]) && !HighImpact(auto[k].kind) && !Mentioned(filed.log, auto[k].id)
    {
      assert FiledOneOf(acts, auto[k]);
      var i :| 0 <= i < |acts| && !acts[i].requiresHuman && auto[k] == Filed(acts[i]);
      assert filed.agent.actions[acts[i].id] == Filed(acts[i]);
    }
    EnactAllKeepsInv(filed, auto, isWhitelisted, now);
  }

  /** Rewriting the approval fields of a registered action and logging the event that explains it. */
  lemma AmendKeepsSanctions(o: Control, a: Action, agent: Agent, event: Event)
    requires Inv(o) && a.id in o.agent.actions
    requires a.kind == o.agent.actions[a.id].kind && a.target == o.agent.actions[a.id].target
    requires agent.actions == o.agent.actions[a.id := a] && event.id == a.id
    ensures var o' := Control(agent, o.engine, o.log + [event]);
            AllSanctioned(o', o.engine.local.suspended) && AllSanctioned(o', o.engine.shared.suspended)
  {
    var o' := Control(agent, o.engine, o.log + [event]);
    SanctionedGrows(o, o', o.engine.local.suspended);
    SanctionedGrows(o, o', o.engine.shared.suspended);
  }

  /** Such an amendment that ends the pending state keeps the files and the log in order. */
  lemma AmendKeepsLog(o: Control, a: Action, agent: Agent, event: Event)
    requires Filing(o) && Ordered(o) && a.id in o.agent.actions && !event.Enforced? && event.id == a.id
    requires a.kind == o.agent.actions[a.id].kind && a.requiresHuman == o.agent.actions[a.id].requiresHuman
    requires a.status == Executed || a.status == Rejected || a.status == Revoked
    requires agent.actions == o.agent.actions[a.id := a]
    ensures var o' := Control(agent, o.engine, o.log + [event]); Filing(o') && Ordered(o')
  {
    hide HighImpact;
    var log := o.log + [event];
    forall id | id in agent.actions
      ensures WellFiled(agent.actions[id], id, log)
    {
      assert WellFiled(o.agent.actions[id], id, o.log);
    }
  }

  lemma ApprovalKeepsInv(o: Control, id: string, analyst: string, isWhitelisted: string -> bool, now: Time)
    requires Inv(o)
    ensures Inv(ProcessApproval(o, id, analyst, isWhitelisted, now))
  {
    var reply := Approve(o.agent, id, analyst);
    if reply.Done? {
      hide Contain;
      var a := reply.agent.actions[id];
      var o' := Control(reply.agent, o.engine, o.log + [Approval(id, analyst)]);
      AmendKeepsSanctions(o, a, reply.agent, Approval(id, analyst));
      AmendKeepsLog(o, a, reply.agent, Approval(id, analyst));
      assert Registered(o') && Enactable(o', a);
      hide AllSanctioned, Filing, Ordered, Registered;
      EnactKeepsInv(o', a, isWhitelisted, now);
    }
  }

  lemma RejectionKeepsInv(o: Control, id: string, analyst: string)
    requires Inv(o)
    ensures Inv(ProcessRejection(o, id, analyst))
  {
    if id in o.agent.actions {
      var agent := Reject(o.agent, id, analyst).agent;
      assert WellFiled(o.agent.actions[id], id, o.log);
      hide AllSanctioned, HighImpact;
      AmendKeepsSanctions(o, agent.actions[id], agent, Rejection(id));
      AmendKeepsLog(o, agent.actions[id], agent, Rejection(id));
      hide Filing, Ordered;
    }
  }

  /** Dropping one action from the engine's registry together with the suspension of its target. */
  lemma RollbackKeepsSanctions(o: Control, o': Control, m: map<string, Record>, m': map<string, Record>, id: string)
    requires AllSanctioned(o, m) && o'.agent == o.agent && o'.log == o.log
    requires id in o.agent.actions && o'.engine.local.registry == o.engine.local.registry - {id}
    requires m' == (if id in o.engine.local.registry && o.agent.actions[id].kind == SuspendAccount
                    then m - {o.agent.actions[id].target} else m)
    ensures AllSanctioned(o', m')
  {
    forall p | p in m'
      ensures Sanctioned(o', p, m'[p])
    {
      assert Sanctioned(o, p, m[p]);
    }
  }

  lemma RevocationKeepsInv(o: Control, id: string)
    requires Inv(o)
    ensures Inv(ProcessRevocation(o, id))
  {
    var reply := Revoke(o.agent, id);
    if reply.Done? {
      hide Uncontain;
      var o1 := Control(reply.agent, o.engine, o.log + [Revocation(id)]);
      AmendKeepsSanctions(o, reply.agent.actions[id], reply.agent, Revocation(id));
      AmendKeepsLog(o, reply.agent.actions[id], reply.agent, Revocation(id));
      hide Filing, Ordered, AllSanctioned;
      RollbackEffects(o.engine, id);
      hide Rollback;
      var o' := ProcessRevocation(o, id);
      assert Registered(o');
      RollbackKeepsSanctions(o1, o', o.engine.local.suspended, o'.engine.local.suspended, id);
      RollbackKeepsSanctions(o1, o', o.engine.shared.suspended, o'.engine.shared.suspended, id);
    }
  }

  /** Every step keeps the gate's invariant. */
  lemma StepKeepsInv(o: Control, s: Step, wording: Wording, isWhitelisted: string -> bool)
    requires Inv(o) && Fresh(o, s)
    ensures Inv(StepControl(o, s, wording, isWhitelisted))
  {
    hide ProcessEvent, ProcessApproval, ProcessRejection, ProcessRevocation;
    match s
    case SecurityEvent(alert, ids, now) => EventKeepsInv(o, alert, ids, now, wording, isWhitelisted);
    case ApproveStep(id, analyst, now) => ApprovalKeepsInv(o, id, analyst, isWhitelisted, now);
    case RejectStep(id, analyst) => RejectionKeepsInv(o, id, analyst);
    case RevokeStep(id) => RevocationKeepsInv(o, id);
    case RequestStep(ip, principal, token, now) =>
      EvaluateFrame(o.engine, ip, principal, token, now);
      hide Evaluate;
      var o' := StepControl(o, s, wording, isWhitelisted);
      SanctionedGrows(o, o', o.engine.local.suspended);
      SanctionedGrows(o, o', o.engine.shared.suspended);
  }

  lemma {:induction false} LegalPrefix(steps: seq<Step>, wording: Wording, isWhitelisted: string -> bool)
    requires steps != [] && Legal(steps, wording, isWhitelisted)
    ensures var before := steps[..|steps| - 1];
            Legal(before, wording, isWhitelisted) && Fresh(Run(before, wording, isWhitelisted), steps[|steps| - 1])
  {
    var before := steps[..|steps| - 1];
    forall i | 0 <= i < |before|
      ensures Fresh(Run(before[..i], wording, isWhitelisted), before[i])
    {
      assert before[..i] == steps[..i];
    }
  }

  lemma {:induction false} RunKeepsInv(steps: seq<Step>, wording: Wording, isWhitelisted: string -> bool)
    requires Legal(steps, wording, isWhitelisted)
    ensures Inv(Run(steps, wording, isWhitelisted))
  {
    if steps == [] {
    } else {
      LegalPrefix(steps, wording, isWhitelisted);
      RunKeepsInv(steps[..|steps| - 1], wording, isWhitelisted);
      StepKeepsInv(Run(steps[..|steps| - 1], wording, isWhitelisted), steps[|steps| - 1], wording, isWhitelisted);
    }
  }

  // ---------------------------------------------------------------- the gate

  /** In every run, a principal is suspended (in memory or in the store) only under a SUSPEND_ACCOUNT action
      on that very principal which an analyst approved and nobody revoked, and the record names that analyst. */
  lemma {:induction false} SuspendedOnlyIfApproved(steps: seq<Step>, wording: Wording, isWhitelisted: string -> bool,
                                                   p: string, r: Record)
    requires Legal(steps, wording, isWhitelisted)
    requires var e := Run(steps, wording, isWhitelisted).engine;
             (p in e.local.suspended && r == e.local.suspended[p])
               || (p in e.shared.suspended && r == e.shared.suspended[p])
    ensures var o := Run(steps, wording, isWhitelisted);
            && r.actionId in o.agent.actions
            && o.agent.actions[r.actionId].kind == SuspendAccount && o.agent.actions[r.actionId].target == p
            && (o.agent.actions[r.actionId].status == Executed || o.agent.actions[r.actionId].status == Rejected)
            && exists k | 0 <= k < |o.log| ::
                 && o.log[k].Approval? && o.log[k].id == r.actionId
                 && r.approvedBy == if o.log[k].analyst == "" then "HUMAN_ANALYST" else o.log[k].analyst
  {
    RunKeepsInv(steps, wording, isWhitelisted);
    var o := Run(steps, wording, isWhitelisted);
    assert Sanctioned(o, p, r);
    var k :| ApprovedBy(o.log, k, r);
    assert o.log[k].Approval?;
  }

  /** In every run, no action is enforced twice, nor after it was rejected or revoked,
      and a high-impact action is enforced only straight after its approval. */
  lemma {:induction false} EnforcedOnceAndInTime(steps: seq<Step>, wording: Wording, isWhitelisted: string -> bool,
                                                 j: nat, k: nat)
    requires Legal(steps, wording, isWhitelisted)
    ensures var log := Run(steps, wording, isWhitelisted).log;
            k < |log| && log[k].Enforced? ==>
              && (j < k && log[j].id == log[k].id ==> log[j].Approval?)
              && log[k].id in Run(steps, wording, isWhitelisted).agent.actions
              && (HighImpact(Run(steps, wording, isWhitelisted).agent.actions[log[k].id].kind) ==>
                    0 < k && log[k - 1].Approval? && log[k - 1].id == log[k].id)
  {
    RunKeepsInv(steps, wording, isWhitelisted);
  }

  // ---------------------------------------------------------------- who is suspended, exactly

  /** The step approves a pending suspension of `p`. */
  predicate Suspends(o: Control, s: Step, p: string) {
    && s.ApproveStep? && s.id in o.agent.actions && o.agent.actions[s.id].status == PendingHumanApproval
    && o.agent.actions[s.id].kind == SuspendAccount && o.agent.actions[s.id].target == p
  }

  /** The step revokes an executed suspension of `p`, not necessarily the latest one. */
  predicate Lifts(o: Control, s: Step, p: string) {
    && s.RevokeStep? && s.id in o.agent.actions && o.agent.actions[s.id].status == Executed
    && o.agent.actions[s.id].kind == SuspendAccount && o.agent.actions[s.id].target == p
  }

  /** The engine holds every executed suspension, and its memory and the store agree on who is suspended. */
  ghost predicate InForce(o: Control) {
    && (forall id | id in o.agent.actions && o.agent.actions[id].kind == SuspendAccount
         && o.agent.actions[id].status == Executed ::
          id in o.engine.local.registry)
    && o.engine.local.suspended.Keys == o.engine.shared.suspended.Keys
  }

  lemma {:induction false} EnactAllSuspends(o: Control, acts: seq<Action>, isWhitelisted: string -> bool, now: Time)
    requires forall i | 0 <= i < |acts| :: acts[i].kind != SuspendAccount
    ensures var o' := EnactAll(o, acts, isWhitelisted, now);
            && o'.engine.local.suspended == o.engine.local.suspended
            && o'.engine.shared.suspended == o.engine.shared.suspended
            && o.engine.local.registry.Keys <= o'.engine.local.registry.Keys
  {
    if acts == [] {
    } else {
      var before, last := acts[..|acts| - 1], acts[|acts| - 1];
      EnactAllSuspends(o, before, isWhitelisted, now);
      ApplyEffects(EnactAll(o, before, isWhitelisted, now).engine, last, isWhitelisted(last.target), now);
      hide Apply, Outcome;
    }
  }

  lemma {:induction false} AutoIsLight(acts: seq<Action>, a: Action)
    requires FiledOneOf(acts, a)
    requires forall i | 0 <= i < |acts| :: HighImpact(acts[i].kind) == acts[i].requiresHuman
    ensures !HighImpact(a.kind)
  {
    var i :| 0 <= i < |acts| && !acts[i].requiresHuman && a == Filed(acts[i]);
    assert !HighImpact(acts[i].kind);
  }

  lemma {:induction false} FiledFrom(g: Agent, acts: seq<Action>, g': Agent, id: string)
    requires AllNew(g, acts) && FiledInto(g, acts, g') && id in g'.actions && id !in g.actions
    ensures HighImpact(g'.actions[id].kind) ==> g'.actions[id].status == PendingHumanApproval
  {
    var i :| 0 <= i < |acts| && acts[i].id == id;
    assert IsNew(acts[i]) && g'.actions[acts[i].id] == Filed(acts[i]);
  }

  /** A security event suspends nobody and lifts nothing. */
  lemma {:induction false} EventSuspends(o: Control, alert: Alert, ids: seq<string>, now: Time, wording: Wording,
                                         isWhitelisted: string -> bool)
    requires Inv(o) && InForce(o) && Fresh(o, SecurityEvent(alert, ids, now))
    ensures var o' := ProcessEvent(o, alert, ids, wording, isWhitelisted, now);
            InForce(o') && o'.engine.local.suspended == o.engine.local.suspended
              && o'.engine.shared.suspended == o.engine.shared.suspended
  {
    var acts := Proposed(alert, ids, wording);
    ProposedAreNew(o, alert, ids, now, wording);
    hide Inv, Fresh, Proposed, FileAll, AutoExecuted, EnactAll, FiledOneOf, Carries;
    FileAllKeepsInv(o, acts);
    AutoExecutedShape(acts);
    var filed, auto := o.(agent := FileAll(o.agent, acts)), AutoExecuted(acts);
    forall k | 0 <= k < |auto|
      ensures auto[k].kind != SuspendAccount
    {
      AutoIsLight(acts, auto[k]);
    }
    EnactAllSuspends(filed, auto, isWhitelisted, now);
    EnactAllAgent(filed, auto, isWhitelisted, now);
    forall id | id in filed.agent.actions && id !in o.agent.actions
      ensures filed.agent.actions[id].kind == SuspendAccount ==> filed.agent.actions[id].status != Executed
    {
      FiledFrom(o.agent, acts, filed.agent, id);
    }
  }

  lemma ApprovalSuspends(o: Control, s: Step, isWhitelisted: string -> bool, p: string)
    requires InForce(o) && s.ApproveStep? && (s.id in o.agent.actions ==> o.agent.actions[s.id].id == s.id)
    ensures var o' := ProcessApproval(o, s.id, s.analyst, isWhitelisted, s.now);
            && InForce(o')
            && (p in o'.engine.shared.suspended <==> Suspends(o, s, p) || p in o.engine.shared.suspended)
  {
    hide Apply, Contain;
    if s.id in o.agent.actions && o.agent.actions[s.id].status == PendingHumanApproval {
      var a := o.agent.actions[s.id].(status := Executed, approvedBy := Some(s.analyst));
      ApplyEffects(o.engine, a, isWhitelisted(a.target), s.now);
    }
  }

  lemma RevocationLifts(o: Control, s: Step, p: string)
    requires Registered(o) && InForce(o) && s.RevokeStep?
    ensures var o' := ProcessRevocation(o, s.id);
            && InForce(o')
            && (p in o'.engine.shared.suspended <==> p in o.engine.shared.suspended && !Lifts(o, s, p))
  {
    hide Rollback, Uncontain;
    RollbackEffects(o.engine, s.id);
  }

  lemma FiledUnderOwnId(o: Control, id: string)
    requires Filing(o)
    ensures id in o.agent.actions ==> o.agent.actions[id].id == id
  {
  }

  /** Who is suspended changes only by approving a suspension and by revoking an executed one. */
  lemma StepSuspends(o: Control, s: Step, wording: Wording, isWhitelisted: string -> bool, p: string)
    requires Inv(o) && InForce(o) && Fresh(o, s)
    ensures var o' := StepControl(o, s, wording, isWhitelisted);
            && InForce(o')
            && (p in o'.engine.shared.suspended <==>
                  Suspends(o, s, p) || (p in o.engine.shared.suspended && !Lifts(o, s, p)))
  {
    hide ProcessEvent, ProcessApproval, ProcessRevocation, Evaluate, Filing, Ordered, Registered, AllSanctioned, Fresh;
    match s
    case SecurityEvent(alert, ids, now) => EventSuspends(o, alert, ids, now, wording, isWhitelisted);
    case ApproveStep(id, _, _) =>
      FiledUnderOwnId(o, id);
      ApprovalSuspends(o, s, isWhitelisted, p);
    case RejectStep(_, _) =>
    case RevokeStep(_) => RevocationLifts(o, s, p);
    case RequestStep(ip, principal, token, now) => EvaluateFrame(o.engine, ip, principal, token, now);
  }

  predicate SuspendsAt(steps: seq<Step>, i: int, wording: Wording, isWhitelisted: string -> bool, p: string) {
    0 <= i < |steps| && Suspends(Run(steps[..i], wording, isWhitelisted), steps[i], p)
  }

  predicate LiftsAt(steps: seq<Step>, i: int, wording: Wording, isWhitelisted: string -> bool, p: string) {
    0 <= i < |steps| && Lifts(Run(steps[..i], wording, isWhitelisted), steps[i], p)
  }

  /** Step `i` approved a suspension of `p` and no later step revoked one. */
  ghost predicate StandsSince(steps: seq<Step>, i: int, wording: Wording, isWhitelisted: string -> bool, p: string) {
    SuspendsAt(steps, i, wording, isWhitelisted, p)
    && forall j | i < j < |steps| :: !LiftsAt(steps, j, wording, isWhitelisted, p)
  }

  ghost predicate StandsSometime(steps: seq<Step>, wording: Wording, isWhitelisted: string -> bool, p: string) {
    exists i :: StandsSince(steps, i, wording, isWhitelisted, p)
  }

  lemma {:induction false} StandsSinceGrows(steps: seq<Step>, i: int, wording: Wording, isWhitelisted: string -> bool,
                                            p: string)
    requires steps != [] && i < |steps| - 1
    ensures var n := |steps| - 1;
            StandsSince(steps, i, wording, isWhitelisted, p)
            <==> StandsSince(steps[..n], i, wording, isWhitelisted, p) && !LiftsAt(steps, n, wording, isWhitelisted, p)
  {
    hide Suspends, Lifts;
    var n := |steps| - 1;
    forall j | 0 <= j < n
      ensures LiftsAt(steps[..n], j, wording, isWhitelisted, p) == LiftsAt(steps, j, wording, isWhitelisted, p)
      ensures SuspendsAt(steps[..n], j, wording, isWhitelisted, p) == SuspendsAt(steps, j, wording, isWhitelisted, p)
    {
      assert steps[..n][..j] == steps[..j];
    }
  }

  lemma {:induction false} StandsSometimeSplits(steps: seq<Step>, wording: Wording, isWhitelisted: string -> bool,
                                                p: string)
    requires steps != []
    ensures var n := |steps| - 1;
            StandsSometime(steps, wording, isWhitelisted, p)
            <==> SuspendsAt(steps, n, wording, isWhitelisted, p)
                 || (StandsSometime(steps[..n], wording, isWhitelisted, p)
                      && !LiftsAt(steps, n, wording, isWhitelisted, p))
  {
    hide Suspends, Lifts, Run;
    var n := |steps| - 1;
    if StandsSometime(steps, wording, isWhitelisted, p) {
      var i :| StandsSince(steps, i, wording, isWhitelisted, p);
      if i < n {
        StandsSinceGrows(steps, i, wording, isWhitelisted, p);
      }
    }
    if SuspendsAt(steps, n, wording, isWhitelisted, p) {
      assert StandsSince(steps, n, wording, isWhitelisted, p);
    }
    if StandsSometime(steps[..n], wording, isWhitelisted, p) && !LiftsAt(steps, n, wording, isWhitelisted, p) {
      var i :| StandsSince(steps[..n], i, wording, isWhitelisted, p);
      StandsSinceGrows(steps, i, wording, isWhitelisted, p);
    }
  }

  /** Over every run: a principal is suspended if and only if some step approved a suspension of it and no later step
      revoked an executed one, and memory and store agree. So the gate neither lets a suspension slip in nor loses
      one. */
  lemma {:induction false} SuspendedExactly(steps: seq<Step>, wording: Wording, isWhitelisted: string -> bool,
                                            p: string)
    requires Legal(steps, wording, isWhitelisted)
    ensures InForce(Run(steps, wording, isWhitelisted))
    ensures p in Run(steps, wording, isWhitelisted).engine.shared.suspended
            <==> StandsSometime(steps, wording, isWhitelisted, p)
  {
    hide StepControl, Suspends, Lifts, StandsSometime;
    if steps == [] {
      NothingStands(wording, isWhitelisted, p);
    } else {
      var n := |steps| - 1;
      var before := steps[..n];
      LegalPrefix(steps, wording, isWhitelisted);
      SuspendedExactly(before, wording, isWhitelisted, p);
      RunKeepsInv(before, wording, isWhitelisted);
      hide Inv, Legal, Fresh, InForce;
      StepSuspends(Run(before, wording, isWhitelisted), steps[n], wording, isWhitelisted, p);
      StandsSometimeSplits(steps, wording, isWhitelisted, p);
    }
  }

  lemma NothingStands(wording: Wording, isWhitelisted: string -> bool, p: string)
    ensures !StandsSometime([], wording, isWhitelisted, p) && InForce(START)
  {
  }

  // ---------------------------------------------------------------- nothing an alert calls for is left out

  /** Every action that needs no human is among those executed at once. */
  lemma {:induction false} AutoExecutedAll(acts: seq<Action>, i: nat)
    requires i < |acts| && !acts[i].requiresHuman
    ensures Filed(acts[i]) in AutoExecuted(acts)
  {
    if i == |acts| - 1 {
    } else {
      AutoExecutedAll(acts[..|acts| - 1], i);
    }
  }

  /** Every action handed over that the engine accepts is registered and logged. */
  lemma {:induction false} EnactAllRegisters(o: Control, acts: seq<Action>, isWhitelisted: string -> bool, now: Time,
                                             i: nat)
    requires i < |acts| && Outcome(acts[i], isWhitelisted(acts[i].target)) == Applied
    ensures var o' := EnactAll(o, acts, isWhitelisted, now);
            acts[i].id in o'.engine.local.registry && Enforced(acts[i].id) in o'.log
  {
    var before, last := acts[..|acts| - 1], acts[|acts| - 1];
    var mid := EnactAll(o, before, isWhitelisted, now);
    ApplyEffects(mid.engine, last, isWhitelisted(last.target), now);
    hide Apply, Outcome;
    if i == |acts| - 1 {
      assert (mid.log + [Enforced(last.id)])[|mid.log|] == Enforced(last.id);
    } else {
      EnactAllRegisters(o, before, isWhitelisted, now, i);
    }
  }

  /** A security event files every action its alert calls for, and enforces all of them but a suspension, which waits
      for an analyst, and a quarantine of a whitelisted address, which the engine declines. */
  lemma {:induction false} EventEnforces(o: Control, alert: Alert, ids: seq<string>, now: Time, wording: Wording,
                                         isWhitelisted: string -> bool, i: nat)
    requires Inv(o) && Fresh(o, SecurityEvent(alert, ids, now)) && i < |Proposed(alert, ids, wording)|
    ensures var a, o' := Proposed(alert, ids, wording)[i], ProcessEvent(o, alert, ids, wording, isWhitelisted, now);
            && a.id in o'.agent.actions && o'.agent.actions[a.id] == Filed(a)
            && (a.kind != SuspendAccount && (a.kind == QuarantineIpTemp ==> !isWhitelisted(a.target)) ==>
                  a.id in o'.engine.local.registry && Enforced(a.id) in o'.log)
  {
    var acts := Proposed(alert, ids, wording);
    ProposedAreNew(o, alert, ids, now, wording);
    ProposedShape(alert, ids, wording);
    assert Proposable(alert, ids, wording, acts[i]);
    FileAllKeepsInv(o, acts);
    var filed := o.(agent := FileAll(o.agent, acts));
    hide Proposed, FileAll, AutoExecuted, EnactAll, Inv, Fresh, Apply, Outcome, Carries;
    EnactAllAgent(filed, AutoExecuted(acts), isWhitelisted, now);
    if acts[i].kind != SuspendAccount && (acts[i].kind == QuarantineIpTemp ==> !isWhitelisted(acts[i].target)) {
      AutoExecutedAll(acts, i);
      OutcomeExactly(Filed(acts[i]), isWhitelisted(acts[i].target));
      var k :| 0 <= k < |AutoExecuted(acts)| && AutoExecuted(acts)[k] == Filed(acts[i]);
      EnactAllRegisters(filed, AutoExecuted(acts), isWhitelisted, now, k);
    }
  }

  // ---------------------------------------------------------------- rejecting what is already enforced

  /** The action is marked rejected while the engine still enforces it. */
  predicate Stranded(o: Control, id: string) {
    id in o.agent.actions && o.agent.actions[id].status == Rejected && id in o.engine.local.registry
  }

  /** The step rejects an action that the engine already holds. */
  predicate RejectsEnforced(o: Control, s: Step, id: string) {
    s.RejectStep? && s.id == id && id in o.agent.actions && id in o.engine.local.registry
  }

  lemma {:induction false} EnactAllRegistry(o: Control, acts: seq<Action>, isWhitelisted: string -> bool, now: Time,
                                            id: string)
    requires !Carries(acts, id)
    ensures var o' := EnactAll(o, acts, isWhitelisted, now);
            o'.agent == o.agent && (id in o'.engine.local.registry <==> id in o.engine.local.registry)
  {
    if acts == [] {
    } else {
      var before, last := acts[..|acts| - 1], acts[|acts| - 1];
      assert last.id == acts[|acts| - 1].id;
      assert forall i | 0 <= i < |before| :: before[i] == acts[i];
      EnactAllRegistry(o, before, isWhitelisted, now, id);
      ApplyEffects(EnactAll(o, before, isWhitelisted, now).engine, last, isWhitelisted(last.target), now);
      hide Apply, Outcome;
    }
  }

  /** What is executed without a human is one of the proposed actions. */
  lemma {:induction false} AutoCarries(acts: seq<Action>, id: string)
    requires forall i, j | 0 <= i < j < |acts| :: acts[i].id != acts[j].id
    requires Carries(AutoExecuted(acts), id)
    ensures Carries(acts, id)
  {
    AutoExecutedShape(acts);
    var auto := AutoExecuted(acts);
    hide AutoExecuted;
    var k :| 0 <= k < |auto| && auto[k].id == id;
    assert FiledOneOf(acts, auto[k]);
    var i :| 0 <= i < |acts| && !acts[i].requiresHuman && auto[k] == Filed(acts[i]);
    assert acts[i].id == id;
  }

  /** Filing new actions leaves the registered ones alone and adds none that is rejected. */
  lemma {:induction false} FiledNotRejected(g: Agent, acts: seq<Action>, g': Agent, id: string)
    requires AllNew(g, acts) && FiledInto(g, acts, g')
    ensures id in g.actions ==> id in g'.actions && g'.actions[id] == g.actions[id] && !Carries(acts, id)
    ensures id !in g.actions && id in g'.actions ==> g'.actions[id].status != Rejected
  {
    if id !in g.actions && id in g'.actions {
      var i :| 0 <= i < |acts| && acts[i].id == id;
      assert g'.actions[acts[i].id] == Filed(acts[i]);
    }
  }

  /** A security event strands nothing and frees nothing. */
  lemma {:induction false} EventKeepsStranded(o: Control, alert: Alert, ids: seq<string>, now: Time, wording: Wording,
                                              isWhitelisted: string -> bool, id: string)
    requires Inv(o) && Fresh(o, SecurityEvent(alert, ids, now))
    ensures Stranded(ProcessEvent(o, alert, ids, wording, isWhitelisted, now), id) <==> Stranded(o, id)
  {
    var acts := Proposed(alert, ids, wording);
    var filed := o.(agent := FileAll(o.agent, acts));
    ProposedAreNew(o, alert, ids, now, wording);
    FileAllKeepsInv(o, acts);
    FiledNotRejected(o.agent, acts, filed.agent, id);
    EnactAllAgent(filed, AutoExecuted(acts), isWhitelisted, now);
    if id in o.agent.actions {
      if Carries(AutoExecuted(acts), id) {
        AutoCarries(acts, id);
      }
      EnactAllRegistry(filed, AutoExecuted(acts), isWhitelisted, now, id);
    } else {
      assert id !in o.engine.local.registry;
    }
    hide Inv, Fresh, Proposed, FileAll, FiledInto, AllNew, AutoExecuted, EnactAll, Carries;
  }

  lemma {:induction false} EnactAllAgent(o: Control, acts: seq<Action>, isWhitelisted: string -> bool, now: Time)
    ensures EnactAll(o, acts, isWhitelisted, now).agent == o.agent
  {
    if acts == [] {
    } else {
      EnactAllAgent(o, acts[..|acts| - 1], isWhitelisted, now);
    }
  }

  /** One step strands an action exactly by rejecting it while it is enforced, and no step ever frees a stranded one. */
  lemma StepStrands(o: Control, s: Step, wording: Wording, isWhitelisted: string -> bool, id: string)
    requires Inv(o) && Fresh(o, s)
    ensures Stranded(StepControl(o, s, wording, isWhitelisted), id) <==> Stranded(o, id) || RejectsEnforced(o, s, id)
  {
    match s
    case SecurityEvent(alert, ids, now) =>
      EventKeepsStranded(o, alert, ids, now, wording, isWhitelisted, id);
      hide ProcessEvent;
    case ApproveStep(a, analyst, now) =>
      var reply := Approve(o.agent, a, analyst);
      if reply.Done? {
        ApplyEffects(o.engine, reply.agent.actions[a], isWhitelisted(reply.agent.actions[a].target), now);
      }
      hide Apply, Outcome, Contain;
    case RejectStep(_, _) =>
    case RevokeStep(a) =>
      RollbackEffects(o.engine, a);
      hide Rollback, Uncontain;
    case RequestStep(ip, principal, token, now) =>
      EvaluateFrame(o.engine, ip, principal, token, now);
      hide Evaluate;
  }

  /** Step `i` of the run rejected `id` while the engine enforced it. */
  predicate StrandsAt(steps: seq<Step>, i: int, wording: Wording, isWhitelisted: string -> bool, id: string) {
    0 <= i < |steps| && RejectsEnforced(Run(steps[..i], wording, isWhitelisted), steps[i], id)
  }

  lemma {:induction false} StrandsAtPrefix(steps: seq<Step>, n: nat, i: int, wording: Wording,
                                           isWhitelisted: string -> bool, id: string)
    requires n <= |steps| && i < n
    ensures StrandsAt(steps[..n], i, wording, isWhitelisted, id) == StrandsAt(steps, i, wording, isWhitelisted, id)
  {
    if 0 <= i {
      assert steps[..n][..i] == steps[..i];
    }
  }

  ghost predicate StrandsSometime(steps: seq<Step>, wording: Wording, isWhitelisted: string -> bool, id: string) {
    exists i :: StrandsAt(steps, i, wording, isWhitelisted, id)
  }

  lemma {:induction false} StrandsSometimeSplits(steps: seq<Step>, wording: Wording, isWhitelisted: string -> bool,
                                                 id: string)
    requires steps != []
    ensures var before, last := steps[..|steps| - 1], steps[|steps| - 1];
            StrandsSometime(steps, wording, isWhitelisted, id)
            <==> StrandsSometime(before, wording, isWhitelisted, id)
                 || RejectsEnforced(Run(before, wording, isWhitelisted), last, id)
  {
    hide RejectsEnforced;
    var n := |steps| - 1;
    if StrandsSometime(steps[..n], wording, isWhitelisted, id) {
      var i :| StrandsAt(steps[..n], i, wording, isWhitelisted, id);
      StrandsAtPrefix(steps, n, i, wording, isWhitelisted, id);
    }
    if StrandsSometime(steps, wording, isWhitelisted, id) {
      var i :| StrandsAt(steps, i, wording, isWhitelisted, id);
      if i < n {
        StrandsAtPrefix(steps, n, i, wording, isWhitelisted, id);
      }
    }
    assert RejectsEnforced(Run(steps[..n], wording, isWhitelisted), steps[n], id)
        <==> StrandsAt(steps, n, wording, isWhitelisted, id);
  }

  /** Over every run: an action ends up rejected yet enforced if and only if some step rejected it while it was
      enforced. */
  lemma {:induction false} StrandedExactly(steps: seq<Step>, wording: Wording, isWhitelisted: string -> bool,
                                           id: string)
    requires Legal(steps, wording, isWhitelisted)
    ensures Stranded(Run(steps, wording, isWhitelisted), id) <==> StrandsSometime(steps, wording, isWhitelisted, id)
  {
    if steps == [] {
      assert !Stranded(START, id);
    } else {
      var before, last := steps[..|steps| - 1], steps[|steps| - 1];
      LegalPrefix(steps, wording, isWhitelisted);
      StrandedExactly(before, wording, isWhitelisted, id);
      RunKeepsInv(before, wording, isWhitelisted);
      StepStrands(Run(before, wording, isWhitelisted), last, wording, isWhitelisted, id);
      StrandsSometimeSplits(steps, wording, isWhitelisted, id);
      hide StepControl, Stranded, StrandsSometime, RejectsEnforced;
    }
  }

  lemma {:induction false} MediumProposal(target: string, ids: seq<string>, wording: Wording)
    requires |ids| == 4
    ensures var alert := Alert("MEDIUM", "", target);
            Proposed(alert, ids, wording)
              == [NewAction(ids[0], RateLimit, target, wording(RateLimit, alert), Some(3600))]
  {
    var alert := Alert("MEDIUM", "", target);
    assert Elevated(alert) && !CredentialAbuse(alert) && !Severe(alert) && !Privileged(alert);
    hide Elevated, CredentialAbuse, Severe, Privileged;
  }

  lemma SingleAction(o: Control, g: Agent, a: Action, isWhitelisted: string -> bool, now: Time)
    requires !a.requiresHuman
    ensures FileAll(g, [a]) == File(g, a) && AutoExecuted([a]) == [Filed(a)]
    ensures EnactAll(o, [Filed(a)], isWhitelisted, now) == Enact(o, Filed(a), isWhitelisted, now)
  {
    assert [a][..0] == [] && [Filed(a)][..0] == [];
  }

  /** A first alert of medium severity executes one rate limit and the engine enforces it. */
  lemma {:induction false} MediumAlertEnforces(target: string, ids: seq<string>, now: Time, wording: Wording,
                                               isWhitelisted: string -> bool)
    requires |ids| == 4
    ensures var o := ProcessEvent(START, Alert("MEDIUM", "", target), ids, wording, isWhitelisted, now);
            ids[0] in o.agent.actions && ids[0] in o.engine.local.registry
  {
    hide Proposed, FileAll, AutoExecuted, EnactAll, Apply, Contain;
    var alert := Alert("MEDIUM", "", target);
    var a := NewAction(ids[0], RateLimit, target, wording(RateLimit, alert), Some(3600));
    MediumProposal(target, ids, wording);
    SingleAction(START.(agent := File(START.agent, a)), START.agent, a, isWhitelisted, now);
    ApplyEffects(START.engine, Filed(a), isWhitelisted(target), now);
  }

  /** Such a rejection is within reach: after a first medium alert, rejecting its executed rate limit strands it,
      and from then on the agent refuses to revoke it. */
  lemma {:induction false} RejectionCanStrand(target: string, ids: seq<string>, now: Time, analyst: string,
                                              wording: Wording, isWhitelisted: string -> bool)
    requires |ids| == 4
    ensures var alert := SecurityEvent(Alert("MEDIUM", "", target), ids, now);
            var o := Run([alert, RejectStep(ids[0], analyst)], wording, isWhitelisted);
            Stranded(o, ids[0]) && Revoke(o.agent, ids[0]) == WrongStatus(Rejected)
  {
    var alert := Alert("MEDIUM", "", target);
    var event, reject := SecurityEvent(alert, ids, now), RejectStep(ids[0], analyst);
    MediumAlertEnforces(target, ids, now, wording, isWhitelisted);
    hide ProcessEvent;
    assert [event, reject][..1] == [event] && [event][..0] == [];
    assert Run([event], wording, isWhitelisted) == ProcessEvent(START, alert, ids, wording, isWhitelisted, now);
  }

  // ---------------------------------------------------------------- the orchestrator object

  class SecurityOrchestrator {
    const enabled: bool
    const responseAgent: ResponseAgent
    const engine: MitigationEngine
    ghost var log: seq<Event>

    constructor (enabled: bool, responseAgent: ResponseAgent, engine: MitigationEngine)
      requires responseAgent.Valid()
      ensures this.enabled == enabled && this.responseAgent == responseAgent && this.engine == engine
      ensures Valid() && View() == Control(responseAgent.View(), engine.View(), [])
    {
      this.enabled, this.responseAgent, this.engine := enabled, responseAgent, engine;
      log := [];
    }

    ghost predicate Valid()
      reads this, responseAgent
    {
      responseAgent.Valid()
    }

    ghost function View(): Control
      reads this, responseAgent, responseAgent.actionsRegistry.Values, engine, engine.store
    {
      Control(responseAgent.View(), engine.View(), log)
    }

    /** Hand one action to the engine; whatever it answers, the orchestrator carries on. */
    method Submit(action: AgentAction, now: Time)
      requires Valid()
      modifies this, engine, engine.store
      ensures Valid()
      ensures View() == Enact(old(View()), action.View(), engine.isWhitelisted, now)
    {
      hide Apply, Outcome;
      var outcome := engine.ApplyAction(action, now);
      if outcome == Applied {
        log := log + [Enforced(action.id)];
      }
    }

    /** `alert` is what the detection agent made of the event, `None` if nothing. */
    method ProcessSecurityEvent(alert: Option<Alert>, ids: seq<string>, now: Time)
      requires Valid() && |ids| == 4
      modifies this, responseAgent, engine, engine.store
      ensures Valid()
      ensures View() == if enabled && alert.Some?
                        then ProcessEvent(old(View()), alert.value, ids, responseAgent.wording, engine.isWhitelisted,
                                          now)
                        else old(View())
    {
      hide Proposed, FileAll, AutoExecuted, Enact;
      if !enabled || alert == None {
        return;
      }
      var auto, pending := responseAgent.FormulateResponsePlan(alert.value, ids);
      ghost var acts := AutoExecuted(Proposed(alert.value, ids, responseAgent.wording));
      ghost var filed := View();
      assert Views(auto) == acts;
      for i := 0 to |auto|
        invariant Valid() && responseAgent.View() == filed.agent && Views(auto) == acts
        invariant View() == EnactAll(filed, acts[..i], engine.isWhitelisted, now)
      {
        assert acts[..i + 1] == acts[..i] + [acts[i]];
        assert auto[i].View() == Views(auto)[i];
        Submit(auto[i], now);
      }
      assert acts[..|auto|] == acts;
    }

    method ApproveAction(id: string, analyst: string, now: Time) returns (reply: Reply)
      requires Valid()
      modifies this, responseAgent, responseAgent.actionsRegistry.Values, engine, engine.store
      ensures Valid() && reply == Approve(old(View()).agent, id, analyst)
      ensures View() == ProcessApproval(old(View()), id, analyst, engine.isWhitelisted, now)
    {
      hide Approve, Enact, ResponseAgent.View, MitigationEngine.View;
      reply := responseAgent.ApproveAction(id, analyst);
      if reply.Done? {
        log := log + [Approval(id, analyst)];
        var action := responseAgent.actionsRegistry[id];
        assert View() == Control(reply.agent, old(engine.View()), old(log) + [Approval(id, analyst)]);
        if action.status == Approved || action.status == Executed {
          Submit(action, now);
        }
      }
    }

    method RejectAction(id: string, analyst: string) returns (reply: Reply)
      requires Valid()
      modifies this, responseAgent.actionsRegistry.Values
      ensures Valid() && reply == Reject(old(View()).agent, id, analyst)
      ensures View() == ProcessRejection(old(View()), id, analyst)
    {
      hide Reject, ResponseAgent.View, MitigationEngine.View;
      reply := responseAgent.RejectAction(id, analyst);
      if reply.Done? {
        log := log + [Rejection(id)];
      }
    }

    method RevokeAction(id: string) returns (reply: Reply)
      requires Valid()
      modifies this, responseAgent, responseAgent.actionsRegistry.Values, engine, engine.store
      ensures Valid() && reply == Revoke(old(View()).agent, id)
      ensures View() == ProcessRevocation(old(View()), id)
    {
      hide Revoke, Rollback, ResponseAgent.View, MitigationEngine.View;
      reply := responseAgent.RevokeAction(id);
      if reply.Done? {
        log := log + [Revocation(id)];
        assert View() == Control(reply.agent, old(engine.View()), old(log) + [Revocation(id)]);
        var _ := engine.RollbackAction(id);
      }
    }
  }
}
