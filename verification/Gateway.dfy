/**
 The tool gateway and the sandboxes behind it, as a state machine. Any number of requests interleave, one
 repository call, remote delivery or clock reading at a time. A request that was issued may reach its sandbox
 at any later moment and any number of times; its reply may be lost; any worker may stop between two calls.
 */
module Gateway {
  import opened Common
  import opened Plans
  import opened Policy
  import opened Governance
  import opened Executor
  import opened Sandbox
  import C = ChangeState

  /** One `executor.execute`: the granted intent and the patch it becomes. */
  datatype Call = Call(intent: Intent, system: string, request: FieldPatchRequest, id: ExecutionId, grantedAt: Time)

  /** Where one `evaluate_and_execute` is. */
  datatype PC =
    | Submitted(identity: Identity, intent: Intent, approvalId: Option<string>)
    | ReadingPlan(identity: Identity, intent: Intent, approvalId: Option<string>, change: ChangeView)
    | ReadingApproval(identity: Identity, intent: Intent, approvalId: Option<string>, change: ChangeView, plan: Plan)
    | Evaluating(identity: Identity, intent: Intent, change: ChangeView, plan: Plan, approval: Option<Approval>)
    | Reserving(intent: Intent, required: bool, approval: Option<Approval>)
    | Sending(call: Call)
    | Executing(call: Call)
    | Completing(call: Call, output: PatchResult)
    | Failing(call: Call, code: string)
    | Stopped

  datatype Event =
    | Granted(tenant: string, key: string, hash: InputDigest, at: Time)
    | ExecuteIssued(call: Call)
    | Mutated(system: string, tenant: string, key: string)
    | Ended(tenant: string, key: string, outcome: Outcome)

  datatype Sys = Sys(registry: map<string, ToolRegistration>, gov: Ledger, boxes: map<string, Box>,
                     workers: map<nat, PC>, sent: map<nat, Call>, log: seq<Event>)

  datatype Action =
    | RequestApproval(identity: Identity, approvalId: string, plan: Plan, environment: Environment, scope: seq<string>,
                      expiresAt: Time, change: ChangeView, now: Time)
    | Decide(identity: Identity, approvalId: string, target: RequestStatus, expectedVersion: int, comment: string, now: Time)
    | Submit(id: nat, identity: Identity, intent: Intent, quoted: Option<string>)
    | ReadChange(id: nat, change: ChangeView)
    | Advance(id: nat, now: Time)
    | Deliver(id: nat, arrives: bool)
    | GiveUp(id: nat, code: string)
    | Crash(id: nat)
    | SnapshotSandbox(system: string, tenant: string, snapshotId: nat)
    | RestoreSandbox(system: string, tenant: string, snapshotId: nat)
    | InjectFailures(system: string, tenant: string, count: nat)

  const HOUR := 3600

  function Goto(s: Sys, id: nat, pc: PC): Sys {
    s.(workers := s.workers[id := pc])
  }

  // ---------------------------------------------------------------- approvals

  predicate ValidScope(plan: Plan, scope: seq<string>) {
    scope != [] && (forall id <- scope :: id in Ids(plan.steps)) && forall i, j | 0 <= i < j < |scope| :: scope[i] != scope[j]
  }

  /** `create_approval`: a service or agent asks for the change's authoritative plan to be approved within the hour. */
  function RequestStep(s: Sys, identity: Identity, approvalId: string, plan: Plan, environment: Environment,
                       scope: seq<string>, expiresAt: Time, change: ChangeView, now: Time): Sys {
    if identity.kind.USER? || plan.tenantId != identity.tenantId || expiresAt <= now || expiresAt > now + HOUR
       || ValidateStepGraph(plan.steps).Err? || !ValidScope(plan, scope)
       || change.tenantId != identity.tenantId || change.changeId != plan.changeId
       || change.status != C.AWAITING_APPROVAL || change.planVersion != plan.version
       || change.planHash != Some(CalculatePlanHash(plan)) || change.environment != environment then s
    else
      var record := ApprovalRequest(approvalId, plan.tenantId, plan.changeId, plan.planId, CalculatePlanHash(plan), plan.version,
                                    environment, scope, PENDING, identity.subject, now, expiresAt, None, 1);
      s.(gov := Requested(s.gov, record, plan).0)
  }

  /** `decide_approval`: only an approver or administrator decides, and the repository keeps requester and decider apart. */
  function DecideStep(s: Sys, identity: Identity, approvalId: string, target: RequestStatus, expectedVersion: int,
                      comment: string, now: Time): Sys {
    if !identity.kind.USER? || !(APPROVER in identity.roles || PLATFORM_ADMIN in identity.roles) || target.PENDING? then s
    else
      var ballot := Ballot(target, expectedVersion, DecisionData(identity.subject, identity.roles, now, comment));
      s.(gov := Decided(s.gov, identity.tenantId, approvalId, ballot).0)
  }

  // ---------------------------------------------------------------- evaluate_and_execute

  function AfterChange(s: Sys, pc: PC, change: ChangeView): PC
    requires pc.Submitted?
  {
    var i := pc.intent;
    if !pc.identity.kind.AGENT? || pc.identity.tenantId != i.tenantId || i.toolName !in s.registry
       || SystemForTool(i.toolName).None? || PatchOf(i.arguments, i.idempotencyKey).None?
       || change.tenantId != i.tenantId || change.changeId != i.changeId then Stopped
    else ReadingPlan(pc.identity, i, pc.approvalId, change)
  }

  function AfterPlan(s: Sys, pc: PC): PC
    requires pc.ReadingPlan?
  {
    var key := (pc.identity.tenantId, pc.intent.changeId, pc.intent.planId);
    if key !in s.gov.plans then Stopped
    else ReadingApproval(pc.identity, pc.intent, pc.approvalId, pc.change, s.gov.plans[key])
  }

  function AfterApproval(s: Sys, pc: PC): PC
    requires pc.ReadingApproval?
  {
    if pc.approvalId.None? then Evaluating(pc.identity, pc.intent, pc.change, pc.plan, None)
    else
      var key := (pc.identity.tenantId, pc.approvalId.value);
      if key !in s.gov.approvals then Stopped
      else Evaluating(pc.identity, pc.intent, pc.change, pc.plan, AsApproval(s.gov.approvals[key]))
  }

  function AfterPolicy(s: Sys, pc: PC, now: Time): PC
    requires pc.Evaluating?
  {
    if pc.intent.toolName !in s.registry then Stopped
    else
      var tool := s.registry[pc.intent.toolName];
      if Verdict(pc.identity, pc.intent, pc.change, pc.plan, tool, pc.approval, now).ALLOW?
      then Reserving(pc.intent, Policy.ApprovalRequired(FindStep(pc.plan.steps, pc.intent.stepId), tool), pc.approval)
      else Stopped
  }

  function ReserveStep(s: Sys, id: nat, pc: PC, now: Time): Sys
    requires pc.Reserving?
  {
    var i, system := pc.intent, SystemForTool(pc.intent.toolName);
    var request := PatchOf(i.arguments, i.idempotencyKey);
    if !Indexed(s.gov) || system.None? || request.None? then Goto(s, id, Stopped)
    else
      var (gov, result) := Reserved(s.gov, i, pc.required, pc.approval, SemanticInputHash(i), now);
      if result.Err? || result.value.replayed then Goto(s, id, Stopped)
      else
        s.(gov := gov, log := s.log + [Granted(i.tenantId, i.idempotencyKey, SemanticInputHash(i), now)],
           workers := s.workers[id := Sending(Call(i, system.value, request.value, result.value.record.id, now))])
  }

  function EndStep(s: Sys, id: nat, call: Call, o: Outcome, now: Time): Sys {
    var (gov, result) := Finished(s.gov, call.intent.tenantId, call.intent.changeId, call.id, o, now);
    if result.Err? then Goto(s, id, Stopped)
    else s.(gov := gov, log := s.log + [Ended(call.intent.tenantId, call.intent.idempotencyKey, o)],
            workers := s.workers[id := Stopped])
  }

  function AdvanceStep(s: Sys, id: nat, pc: PC, now: Time): Sys {
    match pc
    case ReadingPlan(_, _, _, _) => Goto(s, id, AfterPlan(s, pc))
    case ReadingApproval(_, _, _, _, _) => Goto(s, id, AfterApproval(s, pc))
    case Evaluating(_, _, _, _, _) => Goto(s, id, AfterPolicy(s, pc, now))
    case Reserving(_, _, _) => ReserveStep(s, id, pc, now)
    case Sending(call) =>
      s.(sent := s.sent[id := call], log := s.log + [ExecuteIssued(call)], workers := s.workers[id := Executing(call)])
    case Completing(call, output) => EndStep(s, id, call, Done(output), now)
    case Failing(call, code) => EndStep(s, id, call, Broken(code), now)
    case _ => s
  }

  /** The request reaches its sandbox; the worker that still waits may see the answer. */
  function DeliverStep(s: Sys, id: nat, call: Call, arrives: bool): Sys {
    if call.system !in s.boxes then s
    else
      var (box, result) := Applied(s.boxes[call.system], call.intent.tenantId, call.request);
      var answer :=
        if result.Ok? && Answers(call.request, result.value) then Completing(call, result.value)
        else Failing(call, if result.Err? && result.error.Transient? then "TRANSIENT" else "PERMANENT");
      s.(boxes := s.boxes[call.system := box],
         log := if result.Ok? && !result.value.replayed
                then s.log + [Mutated(call.system, call.intent.tenantId, call.intent.idempotencyKey)] else s.log,
         workers := if arrives && id in s.workers && s.workers[id] == Executing(call) then s.workers[id := answer]
                    else s.workers)
  }

  function Act(s: Sys, a: Action): Sys {
    match a
    case RequestApproval(identity, approvalId, plan, environment, scope, expiresAt, change, now) =>
      RequestStep(s, identity, approvalId, plan, environment, scope, expiresAt, change, now)
    case Decide(identity, approvalId, target, expected, comment, now) =>
      DecideStep(s, identity, approvalId, target, expected, comment, now)
    case Submit(id, identity, intent, quoted) =>
      if id in s.workers then s else Goto(s, id, Submitted(identity, intent, quoted))
    case ReadChange(id, change) =>
      if id in s.workers && s.workers[id].Submitted? then Goto(s, id, AfterChange(s, s.workers[id], change)) else s
    case Advance(id, now) => if id in s.workers then AdvanceStep(s, id, s.workers[id], now) else s
    case Deliver(id, arrives) => if id in s.sent then DeliverStep(s, id, s.sent[id], arrives) else s
    case GiveUp(id, code) =>
      if id in s.workers && s.workers[id].Executing? then Goto(s, id, Failing(s.workers[id].call, code)) else s
    case Crash(id) => if id in s.workers then Goto(s, id, Stopped) else s
    case SnapshotSandbox(system, tenant, snapshotId) =>
      if system in s.boxes then s.(boxes := s.boxes[system := Snapshotted(s.boxes[system], tenant, snapshotId)]) else s
    case RestoreSandbox(system, tenant, snapshotId) =>
      if system in s.boxes then s.(boxes := s.boxes[system := Restored(s.boxes[system], tenant, snapshotId).0]) else s
    case InjectFailures(system, tenant, count) =>
      if system in s.boxes then
        s.(boxes := s.boxes[system := s.boxes[system].(transientFailures := s.boxes[system].transientFailures[tenant := count])])
      else s
  }

  /** Empty tables, one fresh sandbox per system, any seed configurations and tool registry. */
  function Start(registry: map<string, ToolRegistration>, seeds: map<string, Configuration>): Sys {
    Sys(registry, Ledger(map[], map[], map[], map[]),
        map system <- seeds :: Box(seeds[system], map[], map[], map[], map[], map[]), map[], map[], [])
  }

  function Run(registry: map<string, ToolRegistration>, seeds: map<string, Configuration>, actions: seq<Action>): Sys {
    if actions == [] then Start(registry, seeds)
    else Act(Run(registry, seeds, actions[..|actions| - 1]), actions[|actions| - 1])
  }
}
