/**
 Roles and permissions: proofrail/rbac.py.
 */
module Rbac {
  import opened Hashing

  /** A tenant's principal, object or policy name. */
  datatype Ref = Ref(tenant: string, id: string)

  datatype Permission =
    | IntentCreate | EvidenceCreate | EvaluationCreate | PermitMint | ActionExecute | OutcomeReconcile | ProposalCreate
    | PolicyRead | PolicyPublish | PolicyActivate | LedgerRead | CheckpointRead | AuditRead | AuditExport | ActionApprove

  /** `PILOT_ROLE_PERMISSIONS` */
  predicate PilotGrants(role: Constant, p: Permission) {
    match role
    case Proposer => p.IntentCreate? || p.EvidenceCreate?
    case Verifier => p.EvaluationCreate? || p.PermitMint? || p.PolicyRead?
    case Executor => p.ActionExecute? || p.PolicyRead?
    case Reconciler => p.OutcomeReconcile? || p.AuditRead? || p.PolicyRead?
    case Learner => p.ProposalCreate? || p.PolicyRead?
    case Governor => p.PolicyPublish? || p.PolicyActivate? || p.PolicyRead? || p.AuditRead?
    case Auditor => p.LedgerRead? || p.CheckpointRead? || p.AuditRead? || p.AuditExport? || p.PolicyRead?
    case _ => false
  }

  const PILOT_ROLES := [Proposer, Verifier, Executor, Reconciler, Learner, Governor, Auditor]

  predicate IsPilot(role: Constant) {
    role.Proposer? || role.Verifier? || role.Executor? || role.Reconciler? || role.Learner? || role.Governor? || role.Auditor?
  }

  /** `ROLE_PERMISSIONS`, with the legacy roles: an administrator has what any
      pilot role has. */
  predicate Grants(role: Json, p: Permission) {
    role.Fixed? &&
      match role.c
      case Admin => exists i :: 0 <= i < |PILOT_ROLES| && PilotGrants(PILOT_ROLES[i], p)
      case Approver => p.PolicyRead? || p.ActionApprove? || p.AuditExport?
      case Operator => p.PolicyRead? || p.ActionExecute?
      case pilot => PilotGrants(pilot, p)
  }

  predicate IsRole(role: Json) {
    role.Fixed? && (IsPilot(role.c) || role.c.Admin? || role.c.Approver? || role.c.Operator?)
  }

  /** `authorize`: the principal has a role, and it grants the permission. */
  predicate May(roles: map<Ref, Json>, who: Ref, permission: Permission) {
    who in roles && Grants(roles[who], permission)
  }

  lemma AdminGrants(p: Permission)
    ensures Grants(Fixed(Admin), p) <==> p != ActionApprove
  {
    assert forall i :: 0 <= i < |PILOT_ROLES| ==> !PilotGrants(PILOT_ROLES[i], ActionApprove);
    var i :=
      match p
      case IntentCreate => 0
      case EvidenceCreate => 0
      case EvaluationCreate => 1
      case PermitMint => 1
      case ActionExecute => 2
      case OutcomeReconcile => 3
      case ProposalCreate => 4
      case PolicyRead => 1
      case PolicyPublish => 5
      case PolicyActivate => 5
      case LedgerRead => 6
      case CheckpointRead => 6
      case AuditRead => 3
      case AuditExport => 6
      case ActionApprove => 0;
    assert p != ActionApprove ==> PilotGrants(PILOT_ROLES[i], p);
  }

  /** The table read by permission: the roles that have it, besides the administrator. */
  predicate Holds(role: Constant, p: Permission) {
    match p
    case IntentCreate => role.Proposer?
    case EvidenceCreate => role.Proposer?
    case EvaluationCreate => role.Verifier?
    case PermitMint => role.Verifier?
    case ActionExecute => role.Executor? || role.Operator?
    case OutcomeReconcile => role.Reconciler?
    case ProposalCreate => role.Learner?
    case PolicyRead =>
      role.Verifier? || role.Executor? || role.Reconciler? || role.Learner? || role.Governor? || role.Auditor? || role.Approver?
      || role.Operator?
    case PolicyPublish => role.Governor?
    case PolicyActivate => role.Governor?
    case LedgerRead => role.Auditor?
    case CheckpointRead => role.Auditor?
    case AuditRead => role.Reconciler? || role.Governor? || role.Auditor?
    case AuditExport => role.Auditor? || role.Approver?
    case ActionApprove => role.Approver?
  }

  lemma PilotHolders(role: Constant, p: Permission)
    ensures PilotGrants(role, p) <==> Holds(role, p) && IsPilot(role)
  {
  }

  /** Exactly the holders have a permission, and the administrator has every one but
      the approval of actions. */
  lemma WhoMay(role: Json, p: Permission)
    ensures Grants(role, p) <==> role.Fixed? && (Holds(role.c, p) || (role.c == Admin && p != ActionApprove))
  {
    AdminGrants(p);
    if role.Fixed? && !role.c.Admin? && !role.c.Approver? && !role.c.Operator? {
      PilotHolders(role.c, p);
    }
  }

  /** A role is known exactly when it grants something. */
  lemma RolesGrantSomething(role: Json)
    ensures IsRole(role) <==> exists p :: Grants(role, p)
  {
    if IsRole(role) {
      WhoMay(role, if role == Fixed(Proposer) then IntentCreate else PolicyRead);
    }
    forall p {
      WhoMay(role, p);
    }
  }

  /** No pilot role can take two of the four steps of an action. */
  lemma DutiesAreSeparated(role: Constant, p: Permission, q: Permission)
    requires IsPilot(role) && Grants(Fixed(role), p) && Grants(Fixed(role), q)
    requires p in {IntentCreate, PermitMint, ActionExecute, OutcomeReconcile}
    requires q in {IntentCreate, PermitMint, ActionExecute, OutcomeReconcile}
    ensures p == q
  {
    WhoMay(Fixed(role), p);
    WhoMay(Fixed(role), q);
  }
}
