/** The policy engine: which tool intents are allowed, which need an approval, which are blocked. */
module Policy {
  import opened Common
  import opened Plans
  import C = ChangeState

  datatype IdentityKind = AGENT | SERVICE | USER

  datatype Role = CHANGE_REQUESTER | APPROVER | AUDITOR | PLATFORM_ADMIN

  datatype Environment = LOCAL | TEST | SANDBOX

  datatype Identity = Identity(subject: string, tenantId: string, kind: IdentityKind, roles: set<Role>, expiresAt: Time)

  datatype Intent = Intent(
    intentId: string, tenantId: string, changeId: string, workflowId: string, planId: string, planHash: PlanDigest,
    stepId: string, agentIdentity: string, toolName: string, action: string, resource: string,
    arguments: map<string, string>, idempotencyKey: string)

  /** The resource pattern `before{tenant_id}after*`. */
  datatype ToolRegistration = ToolRegistration(
    toolName: string, owningAgentId: string, action: string, before: string, after: string,
    risk: Risk, mutating: bool, allowedEnvironments: set<Environment>)

  /** The authoritative change record as the engine reads it. */
  datatype ChangeView = ChangeView(
    tenantId: string, changeId: string, workflowId: Option<string>, status: C.Status, planVersion: nat,
    planHash: Option<PlanDigest>, environment: Environment)

  /** An approved request; `approvedBy` decided it. */
  datatype Approval = Approval(
    approvalId: string, tenantId: string, changeId: string, planId: string, planHash: PlanDigest, planVersion: nat,
    environment: Environment, scope: seq<string>, approvedBy: string, roles: set<Role>, approvedAt: Time, expiresAt: Time)

  datatype Effect = ALLOW | DENY | REQUIRE_APPROVAL | BLOCK_SECURITY

  datatype Failure =
    | IdentityExpired | NotAnAgent | CallerMismatch | TenantMismatch | ChangeScope | WorkflowMismatch | NotExecuting
    | ChangePlanMismatch | PlanScope | PlanMismatch | StepMissing | AgentNotOwner | ToolMismatch | ResourceMismatch
    | ArgumentsMismatch | KeyMismatch | AgentUnauthorized | ActionMismatch | ResourceOutOfScope
    | EnvironmentForbidden | CriticalRisk | ApprovalNeeded

  datatype Decision = Decision(effect: Effect, risk: Risk, approvalRequired: bool, approvalValid: bool, reasons: seq<Failure>)

  function RiskOrder(r: Risk): nat {
    match r
    case UNKNOWN_RISK => 0
    case LOW => 1
    case MEDIUM => 2
    case HIGH => 3
    case CRITICAL => 4
  }

  /** The first step of that name, if any. */
  function FindStep(steps: seq<Step>, id: string): (r: Option<Step>)
    ensures r.Some? ==> r.value in steps && r.value.stepId == id
    ensures r.None? ==> id !in Ids(steps)
  {
    if steps == [] then None
    else if steps[0].stepId == id then Some(steps[0])
    else
      assert forall s <- steps :: s == steps[0] || s in steps[1..];
      FindStep(steps[1..], id)
  }

  predicate ApprovalValid(approval: Option<Approval>, intent: Intent, change: ChangeView, plan: Plan, at: Time) {
    approval.Some? &&
    var a := approval.value;
    && a.tenantId == intent.tenantId && a.changeId == intent.changeId
    && a.planId == intent.planId == plan.planId
    && a.planHash == intent.planHash == CalculatePlanHash(plan)
    && a.planVersion == plan.version == change.planVersion
    && a.environment == change.environment
    && intent.stepId in a.scope
    && a.approvedAt <= at < a.expiresAt
    && (APPROVER in a.roles || PLATFORM_ADMIN in a.roles)
    && a.approvedBy != intent.agentIdentity
  }

  predicate InScope(tool: ToolRegistration, tenant: string, resource: string) {
    tool.before + tenant + tool.after <= resource
  }

  // ---------------------------------------------------------------- what the decision means

  function ComputedRisk(tool: ToolRegistration, step: Option<Step>): Risk {
    var stepRisk := if step.Some? then step.value.risk else UNKNOWN_RISK;
    if RiskOrder(stepRisk) > RiskOrder(tool.risk) then stepRisk else tool.risk
  }

  /** The intent is exactly the plan's step. */
  predicate Matches(intent: Intent, step: Step, tool: ToolRegistration) {
    && step.stepId == intent.stepId && step.agentId == intent.agentIdentity
    && step.toolName == intent.toolName == tool.toolName && step.resource == intent.resource
    && step.arguments == intent.arguments && step.idempotencyKey == intent.idempotencyKey
  }

  /** Caller, change and plan agree with the intent. */
  predicate ScopeAgrees(identity: Identity, intent: Intent, change: ChangeView, plan: Plan, at: Time) {
    && at < identity.expiresAt && identity.kind.AGENT? && identity.subject == intent.agentIdentity
    && identity.tenantId == change.tenantId == plan.tenantId == intent.tenantId
    && change.changeId == plan.changeId == intent.changeId && change.workflowId == Some(intent.workflowId)
    && change.status == C.EXECUTING && change.planVersion == plan.version
    && change.planHash == Some(intent.planHash) && CalculatePlanHash(plan) == intent.planHash
    && plan.planId == intent.planId
  }

  predicate ToolPermits(intent: Intent, change: ChangeView, tool: ToolRegistration) {
    && tool.owningAgentId == intent.agentIdentity && tool.action == intent.action
    && InScope(tool, intent.tenantId, intent.resource) && change.environment in tool.allowedEnvironments
  }

  predicate ApprovalRequired(step: Option<Step>, tool: ToolRegistration) {
    tool.mutating || (step.Some? && step.value.requiresApproval)
  }

  predicate Blocked(change: ChangeView, tool: ToolRegistration, step: Option<Step>) {
    || (tool.mutating && change.environment !in tool.allowedEnvironments)
    || ComputedRisk(tool, step).CRITICAL?
  }

  predicate Permitted(identity: Identity, intent: Intent, change: ChangeView, plan: Plan, tool: ToolRegistration,
                      approval: Option<Approval>, at: Time) {
    var step := FindStep(plan.steps, intent.stepId);
    && ScopeAgrees(identity, intent, change, plan, at)
    && step.Some? && Matches(intent, step.value, tool)
    && ToolPermits(intent, change, tool) && !ComputedRisk(tool, step).CRITICAL?
    && (ApprovalRequired(step, tool) ==> ApprovalValid(approval, intent, change, plan, at))
  }

  function Verdict(identity: Identity, intent: Intent, change: ChangeView, plan: Plan, tool: ToolRegistration,
                   approval: Option<Approval>, at: Time): Effect {
    var step := FindStep(plan.steps, intent.stepId);
    if Permitted(identity, intent, change, plan, tool, approval, at) then ALLOW
    else if Blocked(change, tool, step) then BLOCK_SECURITY
    else if ApprovalRequired(step, tool) && !ApprovalValid(approval, intent, change, plan, at) then REQUIRE_APPROVAL
    else DENY
  }

  class PolicyEngine {
    constructor () {}

    /** `evaluate`: every failed check is collected; the effect is ALLOW only when none failed. */
    method Evaluate(identity: Identity, intent: Intent, change: ChangeView, plan: Plan, tool: ToolRegistration,
                    approval: Option<Approval>, at: Time)
      returns (d: Decision)
      ensures d.effect == Verdict(identity, intent, change, plan, tool, approval, at)
      ensures d.reasons == [] <==> d.effect.ALLOW?
      ensures d.risk == ComputedRisk(tool, FindStep(plan.steps, intent.stepId))
      ensures d.approvalRequired == ApprovalRequired(FindStep(plan.steps, intent.stepId), tool)
      ensures d.approvalValid == ApprovalValid(approval, intent, change, plan, at)
    {
      hide FindStep, ApprovalValid, ScopeAgrees, Matches, InScope;
      var failures := ScopeFailures(identity, intent, change, plan, at);
      var effect := DENY;
      var step := FindStep(plan.steps, intent.stepId);
      var stepFailures := StepFailures(intent, step, tool);
      failures := failures + stepFailures;
      var approvalRequired := if step.None? then tool.mutating else step.value.requiresApproval || tool.mutating;
      var risk := ComputedRisk(tool, step);
      if tool.owningAgentId != intent.agentIdentity { failures := failures + [AgentUnauthorized]; }
      if tool.action != intent.action { failures := failures + [ActionMismatch]; }
      if !InScope(tool, intent.tenantId, intent.resource) { failures := failures + [ResourceOutOfScope]; }
      if change.environment !in tool.allowedEnvironments {
        failures := failures + [EnvironmentForbidden];
        if tool.mutating { effect := BLOCK_SECURITY; }
      }
      if risk.CRITICAL? {
        failures := failures + [CriticalRisk];
        effect := BLOCK_SECURITY;
      }
      var approvalValid := ApprovalValid(approval, intent, change, plan, at);
      if approvalRequired && !approvalValid {
        failures := failures + [ApprovalNeeded];
        if !effect.BLOCK_SECURITY? { effect := REQUIRE_APPROVAL; }
      }
      if failures == [] { effect := ALLOW; }
      d := Decision(effect, risk, approvalRequired, approvalValid, failures);
    }

    method ScopeFailures(identity: Identity, intent: Intent, change: ChangeView, plan: Plan, at: Time)
      returns (failures: seq<Failure>)
      ensures failures == [] <==> ScopeAgrees(identity, intent, change, plan, at)
    {
      failures := [];
      if identity.expiresAt <= at { failures := failures + [IdentityExpired]; }
      if !identity.kind.AGENT? { failures := failures + [NotAnAgent]; }
      if identity.subject != intent.agentIdentity { failures := failures + [CallerMismatch]; }
      if identity.tenantId != intent.tenantId { failures := failures + [TenantMismatch]; }
      if change.tenantId != intent.tenantId || change.changeId != intent.changeId { failures := failures + [ChangeScope]; }
      if change.workflowId != Some(intent.workflowId) { failures := failures + [WorkflowMismatch]; }
      if change.status != C.EXECUTING { failures := failures + [NotExecuting]; }
      if change.planVersion != plan.version || change.planHash != Some(intent.planHash) {
        failures := failures + [ChangePlanMismatch];
      }
      if plan.tenantId != intent.tenantId || plan.changeId != intent.changeId { failures := failures + [PlanScope]; }
      if plan.planId != intent.planId || CalculatePlanHash(plan) != intent.planHash { failures := failures + [PlanMismatch]; }
    }

    method StepFailures(intent: Intent, step: Option<Step>, tool: ToolRegistration) returns (failures: seq<Failure>)
      requires step.Some? ==> step.value.stepId == intent.stepId
      ensures failures == [] <==> step.Some? && Matches(intent, step.value, tool)
    {
      failures := [];
      if step.None? { return [StepMissing]; }
      if step.value.agentId != intent.agentIdentity { failures := failures + [AgentNotOwner]; }
      if step.value.toolName != intent.toolName || step.value.toolName != tool.toolName {
        failures := failures + [ToolMismatch];
      }
      if step.value.resource != intent.resource { failures := failures + [ResourceMismatch]; }
      if step.value.arguments != intent.arguments { failures := failures + [ArgumentsMismatch]; }
      if step.value.idempotencyKey != intent.idempotencyKey { failures := failures + [KeyMismatch]; }
    }
  }

  /** In a plan with distinct step names the step an allowed intent matches is the only one it could be. */
  lemma AllowedStepIsUnique(identity: Identity, intent: Intent, change: ChangeView, plan: Plan, tool: ToolRegistration,
                            approval: Option<Approval>, at: Time, i: nat)
    requires Verdict(identity, intent, change, plan, tool, approval, at).ALLOW? && WellFormed(plan.steps)
    requires i < |plan.steps| && plan.steps[i].stepId == intent.stepId
    ensures Matches(intent, plan.steps[i], tool)
  {
    var s := FindStep(plan.steps, intent.stepId);
    var j :| 0 <= j < |plan.steps| && plan.steps[j] == s.value;
  }

  /** A critical tool or step is blocked, whoever asks and whoever approved. */
  lemma CriticalIsBlocked(identity: Identity, intent: Intent, change: ChangeView, plan: Plan, tool: ToolRegistration,
                          approval: Option<Approval>, at: Time, i: nat)
    requires WellFormed(plan.steps)
    requires tool.risk.CRITICAL? || (i < |plan.steps| && plan.steps[i].stepId == intent.stepId && plan.steps[i].risk.CRITICAL?)
    ensures Verdict(identity, intent, change, plan, tool, approval, at) == BLOCK_SECURITY
  {
    hide ScopeAgrees, Matches, ToolPermits, ApprovalValid;
    if i < |plan.steps| && plan.steps[i].stepId == intent.stepId {
      assert plan.steps[i] in plan.steps;
      var step := FindStep(plan.steps, intent.stepId).value;
      var j :| 0 <= j < |plan.steps| && plan.steps[j] == step;
      assert i == j;
    }
  }

  /** Outside its environments a tool is never allowed, and a mutating one is blocked. */
  lemma ForbiddenEnvironments(identity: Identity, intent: Intent, change: ChangeView, plan: Plan, tool: ToolRegistration,
                              approval: Option<Approval>, at: Time)
    requires change.environment !in tool.allowedEnvironments
    ensures Verdict(identity, intent, change, plan, tool, approval, at) != ALLOW
    ensures tool.mutating ==> Verdict(identity, intent, change, plan, tool, approval, at) == BLOCK_SECURITY
  {
  }

  /** What every allowed intent has: an unexpired agent of its own tenant, and an executing change with this very plan. */
  lemma AllowedAgrees(identity: Identity, intent: Intent, change: ChangeView, plan: Plan, tool: ToolRegistration,
                      approval: Option<Approval>, at: Time)
    requires Verdict(identity, intent, change, plan, tool, approval, at) == ALLOW
    ensures identity.kind.AGENT? && at < identity.expiresAt && identity.subject == intent.agentIdentity == tool.owningAgentId
    ensures identity.tenantId == intent.tenantId == change.tenantId == plan.tenantId
    ensures intent.changeId == change.changeId == plan.changeId && change.workflowId == Some(intent.workflowId)
    ensures change.status == C.EXECUTING && change.planHash == Some(CalculatePlanHash(plan)) && change.planVersion == plan.version
    ensures intent.planId == plan.planId && intent.planHash == CalculatePlanHash(plan) && intent.action == tool.action
    ensures tool.before + intent.tenantId + tool.after <= intent.resource
  {
    hide FindStep, Matches;
  }

  /** A mutating tool, or a step of that name that asks for approval. */
  predicate AsksApproval(intent: Intent, plan: Plan, tool: ToolRegistration) {
    tool.mutating || exists step <- plan.steps :: step.stepId == intent.stepId && step.requiresApproval
  }

  /** Where approval is asked for, an allowed intent has an unexpired one of this very plan, by an approver other than the agent. */
  lemma AllowedHasApproval(identity: Identity, intent: Intent, change: ChangeView, plan: Plan, tool: ToolRegistration,
                           approval: Option<Approval>, at: Time)
    requires Verdict(identity, intent, change, plan, tool, approval, at) == ALLOW && WellFormed(plan.steps)
    requires AsksApproval(intent, plan, tool)
    ensures approval.Some? && approval.value.planHash == CalculatePlanHash(plan) && intent.stepId in approval.value.scope
    ensures approval.value.planVersion == plan.version && approval.value.planId == plan.planId && approval.value.changeId == intent.changeId
    ensures approval.value.approvedAt <= at < approval.value.expiresAt && approval.value.approvedBy != intent.agentIdentity
    ensures APPROVER in approval.value.roles || PLATFORM_ADMIN in approval.value.roles
    ensures approval.value.tenantId == identity.tenantId && approval.value.environment == change.environment
  {
    hide Matches, InScope;
    AskedIsRequired(intent, plan, tool);
    hide WellFormed;
  }

  lemma AskedIsRequired(intent: Intent, plan: Plan, tool: ToolRegistration)
    requires WellFormed(plan.steps) && AsksApproval(intent, plan, tool)
    ensures ApprovalRequired(FindStep(plan.steps, intent.stepId), tool)
  {
    if !tool.mutating {
      var step :| step in plan.steps && step.stepId == intent.stepId && step.requiresApproval;
      var found := FindStep(plan.steps, intent.stepId).value;
      var i :| 0 <= i < |plan.steps| && plan.steps[i] == step;
      var j :| 0 <= j < |plan.steps| && plan.steps[j] == found;
    }
  }

  /** What an approval allows waits for one without it where approval is asked for, and is allowed anyway where it is not. */
  lemma ApprovalDecides(identity: Identity, intent: Intent, change: ChangeView, plan: Plan, tool: ToolRegistration,
                        approval: Option<Approval>, at: Time)
    requires Verdict(identity, intent, change, plan, tool, approval, at) == ALLOW && WellFormed(plan.steps)
    ensures Verdict(identity, intent, change, plan, tool, None, at)
            == if AsksApproval(intent, plan, tool) then REQUIRE_APPROVAL else ALLOW
  {
  }
}
