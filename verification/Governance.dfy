/**
 The tool gateway's governance repository: exact-plan approvals, decided once, and leased idempotent
 execution reservations. Functions give each operation's effect on the repository's value; the class
 does the same to its dictionaries.
 */
module Governance {
  import opened Common
  import opened Plans
  import opened Policy
  import opened Sandbox

  datatype RequestStatus = PENDING | APPROVED | REJECTED | CHANGES_REQUESTED

  datatype DecisionData = DecisionData(decidedBy: string, roles: set<Role>, at: Time, comment: string)

  /** `decision` holds the fields that are set together when a request is decided. */
  datatype ApprovalRequest = ApprovalRequest(
    approvalId: string, tenantId: string, changeId: string, planId: string, planHash: PlanDigest, planVersion: nat,
    environment: Environment, scope: seq<string>, status: RequestStatus, requestedBy: string,
    requestedAt: Time, expiresAt: Time, decision: Option<DecisionData>, version: nat)

  predicate ValidRequest(r: ApprovalRequest) {
    && r.requestedAt < r.expiresAt
    && (r.status.PENDING? <==> r.decision.None?)
    && (r.decision.Some? ==> r.requestedAt <= r.decision.value.at)
  }

  /** `as_approval`: only an approved request is one. */
  function AsApproval(r: ApprovalRequest): Option<Approval> {
    if r.status.APPROVED? && r.decision.Some? then
      var d := r.decision.value;
      Some(Approval(r.approvalId, r.tenantId, r.changeId, r.planId, r.planHash, r.planVersion, r.environment, r.scope,
                    d.decidedBy, d.roles, d.at, r.expiresAt))
    else None
  }

  /** What the idempotency key is bound to: the digest of the intent's meaning, taken to be injective. */
  datatype InputDigest = InputSha256(
    tenantId: string, changeId: string, workflowId: string, planId: string, planHash: PlanDigest, stepId: string,
    agentIdentity: string, toolName: string, action: string, resource: string, arguments: map<string, string>, key: string)

  function SemanticInputHash(i: Intent): InputDigest {
    InputSha256(i.tenantId, i.changeId, i.workflowId, i.planId, i.planHash, i.stepId, i.agentIdentity, i.toolName,
                i.action, i.resource, i.arguments, i.idempotencyKey)
  }

  /** The identifier derived from tenant and key by a digest, taken to be injective. */
  datatype ExecutionId = ExecutionOf(tenantId: string, key: string)

  datatype ExecutionStatus = RESERVED | SUCCEEDED | EXECUTION_FAILED

  datatype Execution = Execution(
    id: ExecutionId, tenantId: string, changeId: string, intentId: string, key: string, inputHash: InputDigest,
    approvalId: Option<string>, status: ExecutionStatus, attemptCount: nat, output: Option<PatchResult>,
    outputHash: Option<OutputDigest>, errorCode: Option<string>, createdAt: Time, updatedAt: Time)

  datatype Reservation = Reservation(record: Execution, replayed: bool)

  datatype GatewayError =
    | PlanHashNotCanonical | PlanIdentifierTaken | ApprovalIdentifierTaken | PlanNotFound | ApprovalNotFound
    | AlreadyDecided | StaleVersion | ApprovalExpired | SeparationOfDuties | InvalidDecision
    | ApprovalRequired | IdempotencyConflict | InProgress | ExecutionNotFound | NotReserved

  datatype Ledger = Ledger(
    plans: map<(string, string, string), Plan>,
    approvals: map<(string, string), ApprovalRequest>,
    executions: map<(string, ExecutionId), Execution>,
    executionIds: map<(string, string), ExecutionId>)

  /** Every index entry leads to an execution. */
  predicate Indexed(l: Ledger) {
    forall key <- l.executionIds :: (key.0, l.executionIds[key]) in l.executions
  }

  predicate SameRequest(a: ApprovalRequest, b: ApprovalRequest) {
    a.(requestedAt := 0) == b.(requestedAt := 0)
  }

  function Requested(l: Ledger, r: ApprovalRequest, p: Plan): (Ledger, Result<ApprovalRequest, GatewayError>) {
    var planKey, approvalKey := (p.tenantId, p.changeId, p.planId), (r.tenantId, r.approvalId);
    if CalculatePlanHash(p) != r.planHash then (l, Err(PlanHashNotCanonical))
    else if planKey in l.plans && CalculatePlanHash(l.plans[planKey]) != r.planHash then (l, Err(PlanIdentifierTaken))
    else if approvalKey in l.approvals then
      if planKey in l.plans && l.plans[planKey] == p && SameRequest(l.approvals[approvalKey], r)
      then (l, Ok(l.approvals[approvalKey])) else (l, Err(ApprovalIdentifierTaken))
    else (l.(plans := l.plans[planKey := p], approvals := l.approvals[approvalKey := r]), Ok(r))
  }

  /**
   A request is accepted exactly when its hash is the plan's, the plan's identifier holds no other plan, and the approval's
   identifier is free or holds the same request for the same plan; what is new is stored as it came, and nothing else changes.
   */
  lemma RequestsAreKept(l: Ledger, r: ApprovalRequest, p: Plan)
    ensures var (l', answer) := Requested(l, r, p);
            var planKey, key := (p.tenantId, p.changeId, p.planId), (r.tenantId, r.approvalId);
            var free := key !in l.approvals && (planKey in l.plans ==> l.plans[planKey] == p);
            var again := key in l.approvals && planKey in l.plans && l.plans[planKey] == p
                         && l.approvals[key].(requestedAt := r.requestedAt) == r;
            if r.planHash != CalculatePlanHash(p) then answer == Err(PlanHashNotCanonical) && l' == l
            else if free then
              && answer == Ok(r) && l'.approvals == l.approvals[key := r] && l'.plans == l.plans[planKey := p]
              && l'.executions == l.executions && l'.executionIds == l.executionIds
            else l' == l && (answer.Ok? <==> again) && (again ==> answer == Ok(l.approvals[key]))
  {
  }

  /** A decision arriving at an approval request. */
  datatype Ballot = Ballot(target: RequestStatus, expectedVersion: int, data: DecisionData)

  /** The exact retry of a decision already made. */
  predicate SameDecision(r: ApprovalRequest, b: Ballot) {
    && r.status == b.target && r.version == b.expectedVersion + 1 && r.decision.Some?
    && r.decision.value.(at := 0) == b.data.(at := 0)
  }

  function Decided(l: Ledger, tenant: string, approvalId: string, b: Ballot): (Ledger, Result<ApprovalRequest, GatewayError>) {
    var key := (tenant, approvalId);
    if key !in l.approvals then (l, Err(ApprovalNotFound))
    else
      var current := l.approvals[key];
      if !current.status.PENDING? then (l, if SameDecision(current, b) then Ok(current) else Err(AlreadyDecided))
      else if current.version != b.expectedVersion then (l, Err(StaleVersion))
      else if current.expiresAt <= b.data.at then (l, Err(ApprovalExpired))
      else if current.requestedBy == b.data.decidedBy then (l, Err(SeparationOfDuties))
      else
        var updated := current.(status := b.target, decision := Some(b.data), version := current.version + 1);
        if ValidRequest(updated) then (l.(approvals := l.approvals[key := updated]), Ok(updated))
        else (l, Err(InvalidDecision))
  }

  /** A request may be decided like this now. */
  predicate Open(r: ApprovalRequest, b: Ballot) {
    && r.status.PENDING? && r.version == b.expectedVersion && b.data.at < r.expiresAt && r.requestedBy != b.data.decidedBy
    && !b.target.PENDING? && r.requestedAt < r.expiresAt && r.requestedAt <= b.data.at
  }

  /**
   A ballot is accepted exactly when the request is open to it, and then what is stored is the request with that
   ballot's own target and data, one version on; nothing else is touched. Refused and repeated ballots change nothing.
   */
  lemma BallotsAreKept(l: Ledger, tenant: string, approvalId: string, b: Ballot)
    ensures var (l', r) := Decided(l, tenant, approvalId, b);
            var key := (tenant, approvalId);
            if key in l.approvals && Open(l.approvals[key], b) then
              && r.Ok? && l' == l.(approvals := l.approvals[key := r.value])
              && r.value.status == b.target && r.value.decision == Some(b.data) && r.value.version == b.expectedVersion + 1
              && r.value.(status := PENDING, decision := None, version := b.expectedVersion) == l.approvals[key].(decision := None)
            else
              l' == l && (r.Ok? ==> key in l.approvals && r.value == l.approvals[key] && r.value.status == b.target)
  {
  }

  /** The approval check made again under the repository's lock. */
  predicate ApprovalStands(l: Ledger, intent: Intent, required: bool, approval: Option<Approval>, now: Time) {
    required ==>
      && approval.Some? && (intent.tenantId, approval.value.approvalId) in l.approvals
      && AsApproval(l.approvals[(intent.tenantId, approval.value.approvalId)]) == approval
      && now < approval.value.expiresAt && intent.stepId in approval.value.scope
      && approval.value.planHash == intent.planHash
  }

  const LEASE := 120

  function ApprovalIdOf(approval: Option<Approval>): Option<string> {
    if approval.Some? then Some(approval.value.approvalId) else None
  }

  function Reserved(l: Ledger, intent: Intent, required: bool, approval: Option<Approval>, hash: InputDigest, now: Time)
    : (Ledger, Result<Reservation, GatewayError>)
    requires Indexed(l)
  {
    var key := (intent.tenantId, intent.idempotencyKey);
    if !ApprovalStands(l, intent, required, approval, now) then
      (l, Err(if required && approval.Some? && (intent.tenantId, approval.value.approvalId) !in l.approvals
              then ApprovalNotFound else ApprovalRequired))
    else if key in l.executionIds then
      var id := l.executionIds[key];
      var existing := l.executions[(intent.tenantId, id)];
      if existing.inputHash != hash then (l, Err(IdempotencyConflict))
      else if existing.status.SUCCEEDED? then (l, Ok(Reservation(existing, true)))
      else if existing.status.RESERVED? && existing.updatedAt > now - LEASE then (l, Err(InProgress))
      else
        var record := existing.(intentId := intent.intentId, approvalId := ApprovalIdOf(approval), status := RESERVED,
                                attemptCount := existing.attemptCount + 1, output := None, outputHash := None,
                                errorCode := None, updatedAt := now);
        (l.(executions := l.executions[(intent.tenantId, id) := record]), Ok(Reservation(record, false)))
    else
      var id := ExecutionOf(intent.tenantId, intent.idempotencyKey);
      var record := Execution(id, intent.tenantId, intent.changeId, intent.intentId, intent.idempotencyKey, hash,
                              ApprovalIdOf(approval), RESERVED, 1, None, None, None, now, now);
      (l.(executions := l.executions[(intent.tenantId, id) := record], executionIds := l.executionIds[key := id]),
       Ok(Reservation(record, false)))
  }

  /** How an execution ends. */
  datatype Outcome = Done(output: PatchResult) | Broken(code: string)

  function Ended(r: Execution, o: Outcome, at: Time): Execution {
    match o
    case Done(output) => r.(status := SUCCEEDED, output := Some(output), outputHash := Some(OutputSha256(output)), updatedAt := at)
    case Broken(code) => r.(status := EXECUTION_FAILED, errorCode := Some(code), updatedAt := at)
  }

  /** `complete_execution` and `fail_execution`: whoever finds the record reserved ends it. */
  function Finished(l: Ledger, tenant: string, changeId: string, id: ExecutionId, o: Outcome, at: Time)
    : (Ledger, Result<Execution, GatewayError>)
  {
    var key := (tenant, id);
    if key !in l.executions || l.executions[key].changeId != changeId then (l, Err(ExecutionNotFound))
    else if !l.executions[key].status.RESERVED? then (l, Err(NotReserved))
    else (l.(executions := l.executions[key := Ended(l.executions[key], o, at)]), Ok(Ended(l.executions[key], o, at)))
  }

  class InMemoryGovernanceRepository {
    var plans: map<(string, string, string), Plan>
    var approvals: map<(string, string), ApprovalRequest>
    var executions: map<(string, ExecutionId), Execution>
    var executionIds: map<(string, string), ExecutionId>

    ghost function View(): Ledger
      reads this
    {
      Ledger(plans, approvals, executions, executionIds)
    }

    constructor ()
      ensures View() == Ledger(map[], map[], map[], map[])
    {
      plans, approvals, executions, executionIds := map[], map[], map[], map[];
    }

    method CreateApprovalRequest(record: ApprovalRequest, plan: Plan) returns (r: Result<ApprovalRequest, GatewayError>)
      modifies this`plans, this`approvals
      ensures (View(), r) == Requested(old(View()), record, plan)
    {
      var planKey, approvalKey := (plan.tenantId, plan.changeId, plan.planId), (record.tenantId, record.approvalId);
      if CalculatePlanHash(plan) != record.planHash { return Err(PlanHashNotCanonical); }
      if planKey in plans && CalculatePlanHash(plans[planKey]) != record.planHash { return Err(PlanIdentifierTaken); }
      if approvalKey in approvals {
        if planKey in plans && plans[planKey] == plan && SameRequest(approvals[approvalKey], record) {
          return Ok(approvals[approvalKey]);
        }
        return Err(ApprovalIdentifierTaken);
      }
      plans := plans[planKey := plan];
      approvals := approvals[approvalKey := record];
      r := Ok(record);
    }

    method GetPlan(tenantId: string, changeId: string, planId: string) returns (r: Result<Plan, GatewayError>)
      ensures r == if (tenantId, changeId, planId) in plans then Ok(plans[(tenantId, changeId, planId)]) else Err(PlanNotFound)
    {
      if (tenantId, changeId, planId) !in plans { return Err(PlanNotFound); }
      r := Ok(plans[(tenantId, changeId, planId)]);
    }

    method GetApprovalRequest(tenantId: string, approvalId: string) returns (r: Result<ApprovalRequest, GatewayError>)
      ensures r == if (tenantId, approvalId) in approvals then Ok(approvals[(tenantId, approvalId)]) else Err(ApprovalNotFound)
    {
      if (tenantId, approvalId) !in approvals { return Err(ApprovalNotFound); }
      r := Ok(approvals[(tenantId, approvalId)]);
    }

    method DecideApproval(tenantId: string, approvalId: string, b: Ballot) returns (r: Result<ApprovalRequest, GatewayError>)
      modifies this`approvals
      ensures (View(), r) == Decided(old(View()), tenantId, approvalId, b)
    {
      r := GetApprovalRequest(tenantId, approvalId);
      if r.Err? { return; }
      var current := r.value;
      if !current.status.PENDING? {
        return if SameDecision(current, b) then Ok(current) else Err(AlreadyDecided);
      }
      if current.version != b.expectedVersion { return Err(StaleVersion); }
      if current.expiresAt <= b.data.at { return Err(ApprovalExpired); }
      if current.requestedBy == b.data.decidedBy { return Err(SeparationOfDuties); }
      var updated := current.(status := b.target, decision := Some(b.data), version := current.version + 1);
      if !ValidRequest(updated) { return Err(InvalidDecision); }
      approvals := approvals[(tenantId, approvalId) := updated];
      r := Ok(updated);
    }

    method ReserveExecution(intent: Intent, approvalRequired: bool, approval: Option<Approval>, inputHash: InputDigest, now: Time)
      returns (r: Result<Reservation, GatewayError>)
      requires Indexed(View())
      modifies this`executions, this`executionIds
      ensures (View(), r) == Reserved(old(View()), intent, approvalRequired, approval, inputHash, now)
      ensures Indexed(View())
    {
      if approvalRequired {
        if approval.None? { return Err(ApprovalRequired); }
        var current := GetApprovalRequest(intent.tenantId, approval.value.approvalId);
        if current.Err? { return Err(current.error); }
        var stored := AsApproval(current.value);
        if stored != approval || stored.value.expiresAt <= now { return Err(ApprovalRequired); }
        if intent.stepId !in stored.value.scope || stored.value.planHash != intent.planHash { return Err(ApprovalRequired); }
      }
      var key := (intent.tenantId, intent.idempotencyKey);
      if key in executionIds {
        var id := executionIds[key];
        var existing := executions[(intent.tenantId, id)];
        if existing.inputHash != inputHash { return Err(IdempotencyConflict); }
        if existing.status.SUCCEEDED? { return Ok(Reservation(existing, true)); }
        if existing.status.RESERVED? && existing.updatedAt > now - LEASE { return Err(InProgress); }
        var reserved := existing.(intentId := intent.intentId, approvalId := ApprovalIdOf(approval), status := RESERVED,
                                  attemptCount := existing.attemptCount + 1, output := None, outputHash := None,
                                  errorCode := None, updatedAt := now);
        executions := executions[(intent.tenantId, id) := reserved];
        return Ok(Reservation(reserved, false));
      }
      var id := ExecutionOf(intent.tenantId, intent.idempotencyKey);
      var record := Execution(id, intent.tenantId, intent.changeId, intent.intentId, intent.idempotencyKey, inputHash,
                              ApprovalIdOf(approval), RESERVED, 1, None, None, None, now, now);
      executions := executions[(intent.tenantId, id) := record];
      executionIds := executionIds[key := id];
      r := Ok(Reservation(record, false));
    }

    method CompleteExecution(tenantId: string, changeId: string, id: ExecutionId, output: PatchResult, completedAt: Time)
      returns (r: Result<Execution, GatewayError>)
      modifies this`executions
      ensures (View(), r) == Finished(old(View()), tenantId, changeId, id, Done(output), completedAt)
    {
      r := FindReserved(tenantId, changeId, id);
      if r.Ok? {
        var updated := r.value.(status := SUCCEEDED, output := Some(output), outputHash := Some(OutputSha256(output)),
                                updatedAt := completedAt);
        executions := executions[(tenantId, id) := updated];
        r := Ok(updated);
      }
    }

    method FailExecution(tenantId: string, changeId: string, id: ExecutionId, errorCode: string, failedAt: Time)
      returns (r: Result<Execution, GatewayError>)
      modifies this`executions
      ensures (View(), r) == Finished(old(View()), tenantId, changeId, id, Broken(errorCode), failedAt)
    {
      r := FindReserved(tenantId, changeId, id);
      if r.Ok? {
        var updated := r.value.(status := EXECUTION_FAILED, errorCode := Some(errorCode), updatedAt := failedAt);
        executions := executions[(tenantId, id) := updated];
        r := Ok(updated);
      }
    }

    method FindReserved(tenantId: string, changeId: string, id: ExecutionId) returns (r: Result<Execution, GatewayError>)
      ensures r.Ok? <==> (tenantId, id) in executions && executions[(tenantId, id)].changeId == changeId
                         && executions[(tenantId, id)].status.RESERVED?
      ensures r.Ok? ==> r.value == executions[(tenantId, id)]
      ensures r.Err? ==> r.error == if (tenantId, id) !in executions || executions[(tenantId, id)].changeId != changeId
                                    then ExecutionNotFound else NotReserved
    {
      if (tenantId, id) !in executions { return Err(ExecutionNotFound); }
      var current := executions[(tenantId, id)];
      if current.changeId != changeId { return Err(ExecutionNotFound); }
      if !current.status.RESERVED? { return Err(NotReserved); }
      r := Ok(current);
    }
  }
}
