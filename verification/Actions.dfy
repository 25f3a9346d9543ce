/** Containment actions: their kinds, their approval life cycle and the object that carries both. */
module Actions {
  import opened Basics

  datatype ActionType =
    | RateLimit | ChallengeMfa | RevokeSession | QuarantineIpTemp
    | SuspendAccount | BlockCidrOrganization | RollbackData | ChangePrivileges

  datatype ApprovalStatus = AutoApproved | PendingHumanApproval | Approved | Rejected | Executed | Revoked

  /** A snapshot of an action object. */
  datatype Action = Action(
    id: string,
    kind: ActionType,
    target: string,
    justification: string,
    duration: Option<int>,
    requiresHuman: bool,
    status: ApprovalStatus,
    approvedBy: Option<string>)

  /** Membership in HUMAN_APPROVAL_REQUIRED_ACTIONS. */
  predicate HighImpact(kind: ActionType) {
    kind.SuspendAccount? || kind.BlockCidrOrganization? || kind.RollbackData? || kind.ChangePrivileges?
  }

  /** What `__post_init__` makes of the fields it is given: a high-impact action goes behind the human gate.
      A status other than the default is left as given. */
  function Gated(a: Action): Action {
    if !HighImpact(a.kind) then a
    else a.(requiresHuman := true, status := if a.status == AutoApproved then PendingHumanApproval else a.status)
  }

  /** An action constructed with the default approval fields. */
  function NewAction(id: string, kind: ActionType, target: string, justification: string,
                     duration: Option<int>): Action {
    Gated(Action(id, kind, target, justification, duration, false, AutoApproved, None))
  }

  /** Constructing alone never hands the engine a high-impact action that it would enforce, unless the caller itself
      states that it is approved or executed. */
  lemma GatedStatus(a: Action)
    ensures Gated(a).requiresHuman <==>
              a.requiresHuman || a.kind in {SuspendAccount, BlockCidrOrganization, RollbackData, ChangePrivileges}
    ensures Gated(a).status == PendingHumanApproval <==>
              || a.status == PendingHumanApproval
              || (a.status == AutoApproved
                  && a.kind in {SuspendAccount, BlockCidrOrganization, RollbackData, ChangePrivileges})
    ensures Gated(a).status == Approved || Gated(a).status == Executed <==> a.status == Approved || a.status == Executed
    ensures HighImpact(a.kind) ==> Gated(a).requiresHuman && Gated(a).status != AutoApproved
  {
  }

  class AgentAction {
    const id: string
    const kind: ActionType
    const target: string
    const justification: string
    const duration: Option<int>
    var requiresHuman: bool
    var status: ApprovalStatus
    var approvedBy: Option<string>

    /** The dataclass constructor, the approval fields defaulted or given, followed by `__post_init__`. */
    constructor (id: string, kind: ActionType, target: string, justification: string, duration: Option<int>,
                 requiresHuman: bool := false, status: ApprovalStatus := AutoApproved,
                 approvedBy: Option<string> := None)
      ensures View() == Gated(Action(id, kind, target, justification, duration, requiresHuman, status, approvedBy))
    {
      this.id, this.kind, this.target := id, kind, target;
      this.justification, this.duration := justification, duration;
      this.requiresHuman, this.status, this.approvedBy := requiresHuman, status, approvedBy;
      new;
      if HighImpact(kind) {
        this.requiresHuman := true;
        if this.status == AutoApproved {
          this.status := PendingHumanApproval;
        }
      }
    }

    function View(): Action
      reads this
    {
      Action(id, kind, target, justification, duration, requiresHuman, status, approvedBy)
    }
  }
}
