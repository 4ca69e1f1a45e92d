/** Every execution of a mutating tool is an approved step of a stored plan, in every run of the gateway. */
module ExecutedMeansApproved {
  import opened Common
  import opened Plans
  import opened Policy
  import opened Governance
  import opened Executor
  import opened Sandbox
  import opened Gateway
  import C = ChangeState

  // ---------------------------------------------------------------- what the ledger keeps

  /** Approver or administrator. */
  predicate MayDecide(roles: set<Role>) {
    APPROVER in roles || PLATFORM_ADMIN in roles
  }

  ghost predicate SoundRequest(r: ApprovalRequest) {
    && (r.status.PENDING? <==> r.decision.None?)
    && (r.decision.Some? ==> r.decision.value.decidedBy != r.requestedBy && MayDecide(r.decision.value.roles))
  }

  ghost predicate Sound(g: Ledger) {
    && (forall key <- g.plans :: (g.plans[key].tenantId, g.plans[key].changeId, g.plans[key].planId) == key)
    && (forall key <- g.approvals :: (g.approvals[key].tenantId, g.approvals[key].approvalId) == key
                                     && SoundRequest(g.approvals[key]))
  }

  /** Plans and decided approvals stay; a pending one can only be decided. */
  ghost predicate Grows(g: Ledger, g': Ledger) {
    && (forall key <- g.plans :: key in g'.plans && g'.plans[key] == g.plans[key])
    && (forall key <- g.approvals :: key in g'.approvals && Follows(g.approvals[key], g'.approvals[key]))
  }

  predicate Follows(r: ApprovalRequest, r': ApprovalRequest) {
    && (!r.status.PENDING? ==> r' == r)
    && r' == r.(status := r'.status, decision := r'.decision, version := r'.version)
  }

  lemma GrowsOn(a: Ledger, b: Ledger, c: Ledger)
    ensures Grows(a, a)
    ensures Grows(a, b) && Grows(b, c) ==> Grows(a, c)
  {
  }

  lemma RequestGrows(g: Ledger, r: ApprovalRequest, p: Plan)
    requires Sound(g) && r.status.PENDING? && r.decision.None?
    ensures Sound(Requested(g, r, p).0) && Grows(g, Requested(g, r, p).0)
  {
  }

  lemma DecisionGrows(g: Ledger, tenant: string, approvalId: string, b: Ballot)
    requires Sound(g) && MayDecide(b.data.roles) && !b.target.PENDING?
    ensures Sound(Decided(g, tenant, approvalId, b).0) && Grows(g, Decided(g, tenant, approvalId, b).0)
  {
    var key, g' := (tenant, approvalId), Decided(g, tenant, approvalId, b).0;
    if g' != g {
      hide Decided;
      assert g'.plans == g.plans && g'.approvals.Keys == g.approvals.Keys;
    }
  }

  lemma ReserveGrows(g: Ledger, i: Intent, required: bool, approval: Option<Approval>, hash: InputDigest, now: Time)
    requires Indexed(g)
    ensures Reserved(g, i, required, approval, hash, now).0.plans == g.plans
    ensures Reserved(g, i, required, approval, hash, now).0.approvals == g.approvals
  {
  }

  // ---------------------------------------------------------------- authorisation

  predicate MatchesStep(i: Intent, step: Step) {
    && step.stepId == i.stepId && step.agentId == i.agentIdentity && step.toolName == i.toolName
    && step.resource == i.resource && step.arguments == i.arguments && step.idempotencyKey == i.idempotencyKey
  }

  /** The intent is, word for word, a step of the stored plan its hash names. */
  ghost predicate PlanMatches(g: Ledger, i: Intent) {
    var key := (i.tenantId, i.changeId, i.planId);
    && key in g.plans && CalculatePlanHash(g.plans[key]) == i.planHash
    && exists step <- g.plans[key].steps :: MatchesStep(i, step)
  }

  /** A stored approval of that plan covers the step at `at`, given by neither its requester nor the agent. */
  ghost predicate Covers(g: Ledger, approvalId: string, i: Intent, at: Time) {
    (i.tenantId, approvalId) in g.approvals &&
    var r := g.approvals[(i.tenantId, approvalId)];
    && r.status.APPROVED? && r.planHash == i.planHash && i.stepId in r.scope && at < r.expiresAt
    && r.decision.Some? && MayDecide(r.decision.value.roles)
    && r.decision.value.decidedBy != r.requestedBy && r.decision.value.decidedBy != i.agentIdentity
  }

  ghost predicate Authorised(g: Ledger, i: Intent, at: Time) {
    PlanMatches(g, i) && exists approvalId :: Covers(g, approvalId, i, at)
  }

  lemma AuthorisedStays(g: Ledger, g': Ledger, i: Intent, at: Time)
    requires Authorised(g, i, at) && Grows(g, g')
    ensures Authorised(g', i, at)
  {
    var approvalId :| Covers(g, approvalId, i, at);
    assert Covers(g', approvalId, i, at);
  }

  /** The approval value a worker holds is that of a decided stored request. */
  ghost predicate Standing(g: Ledger, a: Approval) {
    (a.tenantId, a.approvalId) in g.approvals && AsApproval(g.approvals[(a.tenantId, a.approvalId)]) == Some(a)
  }

  predicate MustApprove(registry: map<string, ToolRegistration>, i: Intent) {
    i.toolName in registry && registry[i.toolName].mutating
  }

  // ---------------------------------------------------------------- the invariant

  ghost predicate PlanIsStored(g: Ledger, i: Intent, plan: Plan) {
    (i.tenantId, i.changeId, i.planId) in g.plans && g.plans[(i.tenantId, i.changeId, i.planId)] == plan
  }

  ghost predicate WorkerOk(registry: map<string, ToolRegistration>, g: Ledger, pc: PC) {
    match pc
    case ReadingPlan(identity, i, _, _) => identity.tenantId == i.tenantId
    case ReadingApproval(identity, i, _, _, plan) => identity.tenantId == i.tenantId && PlanIsStored(g, i, plan)
    case Evaluating(_, i, _, plan, approval) => PlanIsStored(g, i, plan) && (approval.Some? ==> Standing(g, approval.value))
    case Reserving(i, required, approval) =>
      && PlanMatches(g, i) && (MustApprove(registry, i) ==> required)
      && (required ==> approval.Some? && approval.value.tenantId == i.tenantId && Standing(g, approval.value)
                       && approval.value.approvedBy != i.agentIdentity)
    case Sending(call) => CallOk(registry, g, call)
    case Executing(call) => CallOk(registry, g, call)
    case _ => true
  }

  ghost predicate CallOk(registry: map<string, ToolRegistration>, g: Ledger, call: Call) {
    MustApprove(registry, call.intent) ==> Authorised(g, call.intent, call.grantedAt)
  }

  ghost predicate Inv(s: Sys) {
    && Sound(s.gov)
    && (forall id <- s.workers :: WorkerOk(s.registry, s.gov, s.workers[id]))
    && (forall e <- s.log :: e.ExecuteIssued? ==> CallOk(s.registry, s.gov, e.call))
  }

  lemma WorkerStays(registry: map<string, ToolRegistration>, g: Ledger, g': Ledger, pc: PC)
    requires WorkerOk(registry, g, pc) && Grows(g, g')
    ensures WorkerOk(registry, g', pc)
  {
    hide Authorised;
    if pc.Sending? || pc.Executing? {
      if MustApprove(registry, pc.call.intent) { AuthorisedStays(g, g', pc.call.intent, pc.call.grantedAt); }
    }
  }

  /** Growing the ledger disturbs nothing; one worker and a few log entries may change beside it. */
  lemma InvFrame(s: Sys, s': Sys, id: nat)
    requires Inv(s) && Sound(s'.gov) && Grows(s.gov, s'.gov) && s'.registry == s.registry
    requires forall w <- s'.workers :: w == id || (w in s.workers && s'.workers[w] == s.workers[w])
    requires id in s'.workers ==> WorkerOk(s'.registry, s'.gov, s'.workers[id])
    requires forall e <- s'.log :: e in s.log || (e.ExecuteIssued? ==> CallOk(s'.registry, s'.gov, e.call))
    ensures Inv(s')
  {
    hide WorkerOk, Grows, Sound, CallOk;
    forall w | w in s'.workers ensures WorkerOk(s'.registry, s'.gov, s'.workers[w]) {
      if w != id { WorkerStays(s.registry, s.gov, s'.gov, s'.workers[w]); }
    }
    forall e | e in s'.log && e.ExecuteIssued? ensures CallOk(s'.registry, s'.gov, e.call) {
      if e in s.log { CallStays(s.registry, s.gov, s'.gov, e.call); }
    }
  }

  lemma CallStays(registry: map<string, ToolRegistration>, g: Ledger, g': Ledger, call: Call)
    requires CallOk(registry, g, call) && Grows(g, g')
    ensures CallOk(registry, g', call)
  {
    hide Authorised;
    if MustApprove(registry, call.intent) { AuthorisedStays(g, g', call.intent, call.grantedAt); }
  }

  // ---------------------------------------------------------------- steps

  /** What policy allows is a stored plan's step, with a standing approval wherever one is needed. */
  lemma PolicyEstablishes(s: Sys, pc: PC, now: Time)
    requires pc.Evaluating? && WorkerOk(s.registry, s.gov, pc)
    requires forall name <- s.registry :: s.registry[name].toolName == name
    ensures WorkerOk(s.registry, s.gov, AfterPolicy(s, pc, now))
  {
    var after := AfterPolicy(s, pc, now);
    if after.Reserving? {
      var step := FindStep(pc.plan.steps, pc.intent.stepId);
      assert MatchesStep(pc.intent, step.value);
    }
  }

  /** The repository's own check under its lock, at the moment of reservation, is what authorises the call. */
  lemma ReservationAuthorises(s: Sys, pc: PC, now: Time)
    requires pc.Reserving? && WorkerOk(s.registry, s.gov, pc) && Sound(s.gov)
    requires MustApprove(s.registry, pc.intent) && ApprovalStands(s.gov, pc.intent, pc.required, pc.approval, now)
    ensures Authorised(s.gov, pc.intent, now)
  {
    assert Covers(s.gov, pc.approval.value.approvalId, pc.intent, now);
  }

  lemma ReserveKeeps(s: Sys, id: nat, pc: PC, now: Time)
    requires Inv(s) && pc.Reserving? && WorkerOk(s.registry, s.gov, pc)
    ensures Inv(ReserveStep(s, id, pc, now)) && Grows(s.gov, ReserveStep(s, id, pc, now).gov)
  {
    hide Inv, WorkerOk, CallOk, Sound, Grows, ApprovalStands, SystemForTool, PatchOf;
    var s' := ReserveStep(s, id, pc, now);
    InvGives(s);
    GrowsOn(s.gov, s.gov, s.gov);
    if Indexed(s.gov) { ReserveGrows(s.gov, pc.intent, pc.required, pc.approval, SemanticInputHash(pc.intent), now); }
    OnlyExecutions(s, s');
    if s'.workers[id].Sending? {
      GrantIsOk(s, pc, s'.workers[id].call, now);
      CallStays(s.registry, s.gov, s'.gov, s'.workers[id].call);
    }
    SendingOk(s.registry, s'.gov, s'.workers[id]);
    InvFrame(s, s', id);
  }

  lemma SendingOk(registry: map<string, ToolRegistration>, g: Ledger, pc: PC)
    requires pc.Stopped? || (pc.Sending? && CallOk(registry, g, pc.call))
    ensures WorkerOk(registry, g, pc)
  {
  }

  lemma GrantIsOk(s: Sys, pc: PC, call: Call, now: Time)
    requires Sound(s.gov) && pc.Reserving? && WorkerOk(s.registry, s.gov, pc)
    requires ApprovalStands(s.gov, pc.intent, pc.required, pc.approval, now)
    requires call.intent == pc.intent && call.grantedAt == now
    ensures CallOk(s.registry, s.gov, call)
  {
    hide WorkerOk, Authorised, ApprovalStands, Sound;
    if MustApprove(s.registry, pc.intent) { ReservationAuthorises(s, pc, now); }
  }

  lemma AdvanceKeeps(s: Sys, id: nat, pc: PC, now: Time)
    requires Inv(s) && WorkerOk(s.registry, s.gov, pc) && forall name <- s.registry :: s.registry[name].toolName == name
    ensures Inv(AdvanceStep(s, id, pc, now)) && Grows(s.gov, AdvanceStep(s, id, pc, now).gov)
  {
    hide Inv, Sound, Grows, Authorised, ReserveStep, AfterPolicy, PlanMatches;
    GrowsOn(s.gov, s.gov, s.gov);
    InvGives(s);
    var s' := AdvanceStep(s, id, pc, now);
    if pc.Reserving? {
      ReserveKeeps(s, id, pc, now);
    } else if pc.Evaluating? {
      PolicyEstablishes(s, pc, now);
      InvFrame(s, s', id);
    } else {
      if s'.gov != s.gov { OnlyExecutions(s, s'); }
      InvFrame(s, s', id);
    }
  }

  lemma InvGives(s: Sys)
    requires Inv(s)
    ensures Sound(s.gov) && forall id <- s.workers :: WorkerOk(s.registry, s.gov, s.workers[id])
  {
  }

  lemma OnlyExecutions(s: Sys, s': Sys)
    requires Sound(s.gov) && s'.gov.plans == s.gov.plans && s'.gov.approvals == s.gov.approvals
    ensures Sound(s'.gov) && Grows(s.gov, s'.gov)
  {
  }

  lemma LedgerFrame(s: Sys, s': Sys)
    requires Inv(s) && Sound(s'.gov) && Grows(s.gov, s'.gov) && s'.registry == s.registry
    requires s'.workers == s.workers && s'.log == s.log
    ensures Inv(s')
  {
    hide WorkerOk, Grows, Sound;
    forall w | w in s'.workers ensures WorkerOk(s'.registry, s'.gov, s'.workers[w]) {
      WorkerStays(s.registry, s.gov, s'.gov, s'.workers[w]);
    }
    forall e | e in s'.log && e.ExecuteIssued? ensures CallOk(s'.registry, s'.gov, e.call) {
      CallStays(s.registry, s.gov, s'.gov, e.call);
    }
  }

  lemma ApprovalStepsKeep(s: Sys, a: Action)
    requires Inv(s) && (a.RequestApproval? || a.Decide?)
    ensures Inv(Act(s, a)) && Grows(s.gov, Act(s, a).gov)
  {
    hide Inv, Sound, Grows, Requested, Decided, ValidateStepGraph, ValidScope;
    GrowsOn(s.gov, s.gov, s.gov);
    InvGives(s);
    if Act(s, a) != s {
      match a
      case RequestApproval(identity, approvalId, plan, environment, scope, expiresAt, change, now) =>
        RequestGrows(s.gov, ApprovalRequest(approvalId, plan.tenantId, plan.changeId, plan.planId, CalculatePlanHash(plan),
                                            plan.version, environment, scope, PENDING, identity.subject, now, expiresAt, None, 1), plan);
        LedgerFrame(s, Act(s, a));
      case Decide(identity, approvalId, target, expected, comment, now) =>
        DecisionGrows(s.gov, identity.tenantId, approvalId,
                      Ballot(target, expected, DecisionData(identity.subject, identity.roles, now, comment)));
        LedgerFrame(s, Act(s, a));
    }
  }

  lemma DeliverKeeps(s: Sys, id: nat, call: Call, arrives: bool)
    requires Inv(s)
    ensures Inv(DeliverStep(s, id, call, arrives)) && DeliverStep(s, id, call, arrives).gov == s.gov
  {
    hide Sound, Applied, Grows, CallOk;
    GrowsOn(s.gov, s.gov, s.gov);
    InvFrame(s, DeliverStep(s, id, call, arrives), id);
  }

  lemma WorkerStepsKeep(s: Sys, a: Action)
    requires Inv(s) && (a.Submit? || a.ReadChange? || a.GiveUp? || a.Crash?)
    ensures Inv(Act(s, a)) && Act(s, a).gov == s.gov
  {
    hide Sound, Grows, CallOk, PatchOf, SystemForTool, RequestStep, DecideStep, AdvanceStep, DeliverStep, Restored, Snapshotted;
    GrowsOn(s.gov, s.gov, s.gov);
    InvFrame(s, Act(s, a), a.id);
  }

  lemma SandboxStepsKeep(s: Sys, a: Action)
    requires Inv(s) && (a.SnapshotSandbox? || a.RestoreSandbox? || a.InjectFailures?)
    ensures Inv(Act(s, a)) && Act(s, a).gov == s.gov
  {
    hide Inv, Sound, Grows, Restored, Snapshotted;
    GrowsOn(s.gov, s.gov, s.gov);
    InvGives(s);
    LedgerFrame(s, Act(s, a));
  }

  lemma StepKeeps(s: Sys, a: Action)
    requires Inv(s) && forall name <- s.registry :: s.registry[name].toolName == name
    ensures Inv(Act(s, a)) && Grows(s.gov, Act(s, a).gov)
  {
    hide Inv, Grows, RequestStep, DecideStep, AdvanceStep, DeliverStep, AfterChange, Restored, Snapshotted;
    GrowsOn(s.gov, s.gov, s.gov);
    InvGives(s);
    match a
    case RequestApproval(_, _, _, _, _, _, _, _) => ApprovalStepsKeep(s, a);
    case Decide(_, _, _, _, _, _) => ApprovalStepsKeep(s, a);
    case Advance(id, now) => if id in s.workers { AdvanceKeeps(s, id, s.workers[id], now); }
    case Deliver(id, arrives) => if id in s.sent { DeliverKeeps(s, id, s.sent[id], arrives); }
    case Submit(_, _, _, _) => WorkerStepsKeep(s, a);
    case ReadChange(_, _) => WorkerStepsKeep(s, a);
    case GiveUp(_, _) => WorkerStepsKeep(s, a);
    case Crash(_) => WorkerStepsKeep(s, a);
    case _ => SandboxStepsKeep(s, a);
  }

  lemma ActKeepsRegistry(s: Sys, a: Action)
    ensures Act(s, a).registry == s.registry
  {
    hide Requested, Decided, AdvanceStep, Applied, Restored, Snapshotted, ValidateStepGraph;
    if a.Advance? && a.id in s.workers { AdvanceKeepsRegistry(s, a.id, s.workers[a.id], a.now); }
  }

  lemma AdvanceKeepsRegistry(s: Sys, id: nat, pc: PC, now: Time)
    ensures AdvanceStep(s, id, pc, now).registry == s.registry
  {
    hide Reserved, Finished, AfterPolicy;
  }

  // ---------------------------------------------------------------- every run

  lemma {:induction false} ReachableInv(registry: map<string, ToolRegistration>, seeds: map<string, Configuration>,
                                        actions: seq<Action>)
    requires forall name <- registry :: registry[name].toolName == name
    ensures Inv(Run(registry, seeds, actions)) && Run(registry, seeds, actions).registry == registry
  {
    hide Inv, Act;
    if actions == [] {
      StartInv(registry, seeds);
    } else {
      var before := Run(registry, seeds, actions[..|actions| - 1]);
      ReachableInv(registry, seeds, actions[..|actions| - 1]);
      StepKeeps(before, actions[|actions| - 1]);
      ActKeepsRegistry(before, actions[|actions| - 1]);
    }
  }

  lemma StartInv(registry: map<string, ToolRegistration>, seeds: map<string, Configuration>)
    ensures Inv(Start(registry, seeds))
  {
  }

  /**
   Each `executor.execute` of a mutating tool is for a step of a stored plan, word for word, under a stored
   approval of that plan that covers the step, was unexpired when the call was granted, and was given by an
   approver who neither requested it nor is the agent.
   */
  lemma ExecutedMeansApproved(registry: map<string, ToolRegistration>, seeds: map<string, Configuration>,
                              actions: seq<Action>, k: nat)
    requires forall name <- registry :: registry[name].toolName == name
    requires k < |Run(registry, seeds, actions).log| && Run(registry, seeds, actions).log[k].ExecuteIssued?
    requires MustApprove(registry, Run(registry, seeds, actions).log[k].call.intent)
    ensures var call := Run(registry, seeds, actions).log[k].call;
            Authorised(Run(registry, seeds, actions).gov, call.intent, call.grantedAt)
  {
    hide Authorised, Sound, WorkerOk, Run;
    ReachableInv(registry, seeds, actions);
    assert Run(registry, seeds, actions).log[k] in Run(registry, seeds, actions).log;
  }

  /** Stored plans and decided approvals are never changed, whatever happens later. */
  lemma {:induction false} PlansAndDecisionsPersist(registry: map<string, ToolRegistration>, seeds: map<string, Configuration>,
                                                    actions: seq<Action>, n: nat)
    requires n <= |actions| && forall name <- registry :: registry[name].toolName == name
    ensures Grows(Run(registry, seeds, actions[..n]).gov, Run(registry, seeds, actions).gov)
    decreases |actions| - n
  {
    hide Inv, Act, Grows;
    if n == |actions| {
      assert actions[..n] == actions;
      GrowsOn(Run(registry, seeds, actions).gov, Run(registry, seeds, actions).gov, Run(registry, seeds, actions).gov);
    } else {
      assert actions[..n + 1][..n] == actions[..n];
      ReachableInv(registry, seeds, actions[..n]);
      StepKeeps(Run(registry, seeds, actions[..n]), actions[n]);
      PlansAndDecisionsPersist(registry, seeds, actions, n + 1);
      GrowsOn(Run(registry, seeds, actions[..n]).gov, Run(registry, seeds, actions[..n + 1]).gov,
              Run(registry, seeds, actions).gov);
    }
  }

  // ---------------------------------------------------------------- decisions are ballots

  /** This very decision was cast: same request, same target, by that person, in that role, at that time. */
  predicate IsBallot(a: Action, tenant: string, approvalId: string, target: RequestStatus, data: DecisionData) {
    && a.Decide? && a.identity.tenantId == tenant && a.approvalId == approvalId && a.target == target
    && data == DecisionData(a.identity.subject, a.identity.roles, a.now, a.comment) && a.identity.kind.USER?
  }

  ghost predicate WasCast(actions: seq<Action>, tenant: string, approvalId: string, target: RequestStatus, data: DecisionData) {
    exists k :: 0 <= k < |actions| && IsBallot(actions[k], tenant, approvalId, target, data)
  }

  /** A stored request was stored before, is new and pending, or has just been decided by this action. */
  lemma RequestsComeFrom(s: Sys, a: Action, key: (string, string))
    requires key in Act(s, a).gov.approvals
    ensures var r := Act(s, a).gov.approvals[key];
            || (key in s.gov.approvals && r == s.gov.approvals[key])
            || r.status.PENDING?
            || (r.decision.Some? && IsBallot(a, key.0, key.1, r.status, r.decision.value))
  {
    hide RequestStep, DecideStep, AdvanceStep, DeliverStep, AfterChange, Snapshotted, Restored;
    match a
    case RequestApproval(identity, approvalId, plan, environment, scope, expiresAt, change, now) =>
      NewIsPending(s, a, key);
    case Decide(identity, approvalId, target, expected, comment, now) =>
      VoteIsKept(s, identity, approvalId, target, expected, comment, now, key);
    case Advance(id, now) => if id in s.workers { AdvanceKeepsApprovals(s, id, s.workers[id], now); }
    case Deliver(id, arrives) => if id in s.sent { DeliveryKeepsApprovals(s, id, s.sent[id], arrives); }
    case _ =>
  }

  lemma NewIsPending(s: Sys, a: Action, key: (string, string))
    requires a.RequestApproval? && key in Act(s, a).gov.approvals
    ensures (key in s.gov.approvals && Act(s, a).gov.approvals[key] == s.gov.approvals[key]) || Act(s, a).gov.approvals[key].status.PENDING?
  {
    hide ValidateStepGraph, ValidScope;
  }

  lemma VoteIsKept(s: Sys, identity: Identity, approvalId: string, target: RequestStatus, expected: int, comment: string, now: Time,
                   key: (string, string))
    requires key in DecideStep(s, identity, approvalId, target, expected, comment, now).gov.approvals
    ensures var r := DecideStep(s, identity, approvalId, target, expected, comment, now).gov.approvals[key];
            || (key in s.gov.approvals && r == s.gov.approvals[key])
            || (r.decision.Some? && IsBallot(Decide(identity, approvalId, target, expected, comment, now), key.0, key.1, r.status, r.decision.value))
  {
    var ballot := Ballot(target, expected, DecisionData(identity.subject, identity.roles, now, comment));
    BallotsAreKept(s.gov, identity.tenantId, approvalId, ballot);
    hide Decided, Open;
  }

  lemma AdvanceKeepsApprovals(s: Sys, id: nat, pc: PC, now: Time)
    ensures AdvanceStep(s, id, pc, now).gov.approvals == s.gov.approvals
  {
    hide AfterPlan, AfterApproval, AfterPolicy, ReserveStep, EndStep;
    if pc.Reserving? { ReservingKeepsApprovals(s, id, pc, now); }
    if pc.Completing? { EndingKeepsApprovals(s, id, pc.call, Done(pc.output), now); }
    if pc.Failing? { EndingKeepsApprovals(s, id, pc.call, Broken(pc.code), now); }
  }

  lemma ReservingKeepsApprovals(s: Sys, id: nat, pc: PC, now: Time)
    requires pc.Reserving?
    ensures ReserveStep(s, id, pc, now).gov.approvals == s.gov.approvals
  {
    hide Reserved, SemanticInputHash, PatchOf, SystemForTool;
    if Indexed(s.gov) { ReserveGrows(s.gov, pc.intent, pc.required, pc.approval, SemanticInputHash(pc.intent), now); }
  }

  lemma EndingKeepsApprovals(s: Sys, id: nat, call: Call, o: Outcome, now: Time)
    ensures EndStep(s, id, call, o, now).gov.approvals == s.gov.approvals
  {
  }

  lemma DeliveryKeepsApprovals(s: Sys, id: nat, call: Call, arrives: bool)
    ensures DeliverStep(s, id, call, arrives).gov == s.gov
  {
    hide Applied, Answers;
  }

  /** Whatever decision is stored was cast, with that target: no rejection is ever stored as an approval. */
  lemma {:induction false} DecisionsWereCast(registry: map<string, ToolRegistration>, seeds: map<string, Configuration>,
                                             actions: seq<Action>, key: (string, string))
    requires key in Run(registry, seeds, actions).gov.approvals && !Run(registry, seeds, actions).gov.approvals[key].status.PENDING?
    ensures var r := Run(registry, seeds, actions).gov.approvals[key];
            r.decision.Some? && WasCast(actions, key.0, key.1, r.status, r.decision.value)
  {
    hide Act, IsBallot;
    if actions != [] {
      var before, last := actions[..|actions| - 1], actions[|actions| - 1];
      var s, r := Run(registry, seeds, before), Run(registry, seeds, actions).gov.approvals[key];
      RequestsComeFrom(s, last, key);
      if key in s.gov.approvals && r == s.gov.approvals[key] {
        DecisionsWereCast(registry, seeds, before, key);
        var k :| 0 <= k < |before| && IsBallot(before[k], key.0, key.1, r.status, r.decision.value);
        assert actions[k] == before[k];
      }
    }
  }

  /** An approval that covers an execution was cast as an approval: a request whose ballots never were covers none. */
  lemma CoverWasCast(registry: map<string, ToolRegistration>, seeds: map<string, Configuration>, actions: seq<Action>,
                     approvalId: string, i: Intent, at: Time)
    requires Covers(Run(registry, seeds, actions).gov, approvalId, i, at)
    ensures exists a <- actions ::
              && a.Decide? && a.identity.tenantId == i.tenantId && a.approvalId == approvalId && a.target == APPROVED
              && a.identity.subject != i.agentIdentity && MayDecide(a.identity.roles)
  {
    DecisionsWereCast(registry, seeds, actions, (i.tenantId, approvalId));
    hide Run;
    var r := Run(registry, seeds, actions).gov.approvals[(i.tenantId, approvalId)];
    var k :| 0 <= k < |actions| && IsBallot(actions[k], i.tenantId, approvalId, r.status, r.decision.value);
    assert actions[k] in actions;
  }

  // ---------------------------------------------------------------- what was asked for

  /** This request was made: by a service or agent, within the hour, of a validated plan that the change was waiting with. */
  ghost predicate IsAsked(a: Action, r: ApprovalRequest) {
    && a.RequestApproval? && !a.identity.kind.USER? && a.identity.subject == r.requestedBy
    && a.identity.tenantId == r.tenantId == a.plan.tenantId == a.change.tenantId && a.approvalId == r.approvalId
    && a.now == r.requestedAt < r.expiresAt <= r.requestedAt + 3600
    && ValidateStepGraph(a.plan.steps).Ok? && r.planHash == CalculatePlanHash(a.plan)
    && (a.plan.changeId, a.plan.planId, a.plan.version) == (r.changeId, r.planId, r.planVersion)
    && a.change.status == C.AWAITING_APPROVAL && a.change.planHash == Some(r.planHash) && a.change.environment == r.environment
    && r.scope != [] && (forall id <- r.scope :: exists step <- a.plan.steps :: step.stepId == id)
    && (forall i, j | 0 <= i < j < |r.scope| :: r.scope[i] != r.scope[j])
  }

  /** A stored request is an earlier one, decided or not, or has just been asked for. */
  lemma AskedOrKept(s: Sys, a: Action, key: (string, string))
    requires key in Act(s, a).gov.approvals
    ensures var r := Act(s, a).gov.approvals[key];
            (key in s.gov.approvals && r == s.gov.approvals[key].(status := r.status, decision := r.decision, version := r.version))
            || (IsAsked(a, r) && key == (r.tenantId, r.approvalId))
  {
    hide RequestStep, DecideStep, AdvanceStep, DeliverStep, AfterChange, Snapshotted, Restored, IsAsked;
    match a
    case RequestApproval(identity, approvalId, plan, environment, scope, expiresAt, change, now) => NewIsAsked(s, a, key);
    case Decide(identity, approvalId, target, expected, comment, now) =>
      OnlyDecided(s, identity, approvalId, target, expected, comment, now, key);
    case Advance(id, now) => if id in s.workers { AdvanceKeepsApprovals(s, id, s.workers[id], now); }
    case Deliver(id, arrives) => if id in s.sent { DeliveryKeepsApprovals(s, id, s.sent[id], arrives); }
    case _ =>
  }

  lemma NewIsAsked(s: Sys, a: Action, key: (string, string))
    requires a.RequestApproval? && key in Act(s, a).gov.approvals
    ensures var r := Act(s, a).gov.approvals[key];
            (key in s.gov.approvals && r == s.gov.approvals[key]) || (IsAsked(a, r) && key == (r.tenantId, r.approvalId))
  {
    hide ValidateStepGraph;
  }

  lemma OnlyDecided(s: Sys, identity: Identity, approvalId: string, target: RequestStatus, expected: int, comment: string, now: Time,
                    key: (string, string))
    requires key in DecideStep(s, identity, approvalId, target, expected, comment, now).gov.approvals
    ensures var r := DecideStep(s, identity, approvalId, target, expected, comment, now).gov.approvals[key];
            key in s.gov.approvals && r == s.gov.approvals[key].(status := r.status, decision := r.decision, version := r.version)
  {
    var ballot := Ballot(target, expected, DecisionData(identity.subject, identity.roles, now, comment));
    BallotsAreKept(s.gov, identity.tenantId, approvalId, ballot);
    hide Decided, Open;
  }

  /** Every stored request, and so every approval, was asked for like that. */
  lemma {:induction false} RequestsWereAsked(registry: map<string, ToolRegistration>, seeds: map<string, Configuration>,
                                             actions: seq<Action>, key: (string, string))
    requires key in Run(registry, seeds, actions).gov.approvals
    ensures var r := Run(registry, seeds, actions).gov.approvals[key];
            key == (r.tenantId, r.approvalId) && exists a <- actions :: IsAsked(a, r)
  {
    hide Act, IsAsked;
    if actions != [] {
      var before, last := actions[..|actions| - 1], actions[|actions| - 1];
      var s, r := Run(registry, seeds, before), Run(registry, seeds, actions).gov.approvals[key];
      AskedOrKept(s, last, key);
      if IsAsked(last, r) && key == (r.tenantId, r.approvalId) {
        assert last in actions;
      } else {
        RequestsWereAsked(registry, seeds, before, key);
        var a :| a in before && IsAsked(a, s.gov.approvals[key]);
        SameAsked(a, s.gov.approvals[key], r);
        assert a in actions;
      }
    }
  }

  lemma SameAsked(a: Action, r: ApprovalRequest, r': ApprovalRequest)
    requires IsAsked(a, r) && r' == r.(status := r'.status, decision := r'.decision, version := r'.version)
    ensures IsAsked(a, r')
  {
  }
}
