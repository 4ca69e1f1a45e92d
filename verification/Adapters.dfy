/**
 The gateway's two governance adapters, the in-memory ledger and the durable documents, are interchangeable:
 fed the same calls they give the same answers and keep the same plans, approvals and executions.
 */
module Adapters {
  import opened Common
  import opened Plans
  import opened Policy
  import opened Firestore
  import G = Governance

  /** The ledger holds what the documents' indexes hold. */
  ghost predicate Agrees(d: Documents, l: G.Ledger) {
    && l.plans == d.plans && l.approvals == d.approvalIndex && l.executions == d.idempotency
    && (forall key <- l.executionIds :: l.executionIds[key] == G.ExecutionOf(key.0, key.1))
    && forall tenant, key :: (tenant, key) in l.executionIds <==> (tenant, G.ExecutionOf(tenant, key)) in d.idempotency
  }

  /** The same answer; the adapters name two refusals differently. */
  predicate Alike<T(==)>(durable: Result<T, AdapterError>, inMemory: Result<T, G.GatewayError>) {
    if durable.Ok? then inMemory == Ok(durable.value)
    else inMemory.Err? && (durable.error == Gateway(inMemory.error)
                           || (durable.error.IndexesInconsistent? && inMemory.error.ApprovalIdentifierTaken?)
                           || (durable.error == Gateway(G.ApprovalRequired) && inMemory.error.ApprovalNotFound?))
  }

  lemma AgreesOn(d: Documents, l: G.Ledger)
    requires Agrees(d, l)
    ensures l.plans == d.plans && l.approvals == d.approvalIndex && l.executions == d.idempotency && G.Indexed(l)
  {
  }

  /** A change of plans and approvals alone. */
  lemma RequestsOnly(d: Documents, d': Documents, l: G.Ledger, l': G.Ledger)
    requires Agrees(d, l) && d'.idempotency == d.idempotency && l'.executions == l.executions && l'.executionIds == l.executionIds
    requires l'.plans == d'.plans && l'.approvals == d'.approvalIndex
    ensures Agrees(d', l')
  {
  }

  /** A change of one key's execution alone. */
  lemma ExecutionOnly(d: Documents, d': Documents, l: G.Ledger, l': G.Ledger, tenant: string, key: string, e: G.Execution)
    requires Agrees(d, l) && d'.plans == d.plans && d'.approvalIndex == d.approvalIndex && l'.plans == l.plans && l'.approvals == l.approvals
    requires d'.idempotency == d.idempotency[(tenant, G.ExecutionOf(tenant, key)) := e]
    requires l'.executions == l.executions[(tenant, G.ExecutionOf(tenant, key)) := e]
    requires l'.executionIds == l.executionIds[(tenant, key) := G.ExecutionOf(tenant, key)]
    ensures Agrees(d', l')
  {
  }

  // ---------------------------------------------------------------- one call

  lemma RequestsAgree(d: Documents, l: G.Ledger, r: G.ApprovalRequest, p: Plan)
    requires ApprovalsPaired(d) && Agrees(d, l)
    ensures Agrees(Requested(d, r, p, r.requestedAt).0, G.Requested(l, r, p).0)
    ensures Alike(Requested(d, r, p, r.requestedAt).1, G.Requested(l, r, p).1)
  {
    hide Agrees, ApprovalsPaired, Requested, G.Requested, Alike;
    AgreesOn(d, l);
    RequestFound(d, r);
    RequestsAlike(d, l, r, p);
    RequestsOnly(d, Requested(d, r, p, r.requestedAt).0, l, G.Requested(l, r, p).0);
  }

  lemma RequestsAlike(d: Documents, l: G.Ledger, r: G.ApprovalRequest, p: Plan)
    requires l.plans == d.plans && l.approvals == d.approvalIndex
    requires var path, index := (r.tenantId, r.changeId, r.approvalId), (r.tenantId, r.approvalId);
             && (path in d.approvals ==> index in d.approvalIndex && d.approvalIndex[index] == d.approvals[path])
             && (index in d.approvalIndex && path !in d.approvals ==> !G.SameRequest(d.approvalIndex[index], r))
    ensures var (d', a), (l', b) := Requested(d, r, p, r.requestedAt), G.Requested(l, r, p);
            && Alike(a, b) && l'.plans == d'.plans && l'.approvals == d'.approvalIndex
            && d'.idempotency == d.idempotency && l'.executions == l.executions && l'.executionIds == l.executionIds
  {
    hide G.SameRequest, CalculatePlanHash;
    PlanOfHash(p, r);
    assert r.(requestedAt := r.requestedAt) == r;
  }

  /** A plan identifier with the same hash holds the same plan. */
  lemma PlanOfHash(p: Plan, r: G.ApprovalRequest)
    ensures forall q :: CalculatePlanHash(p) == r.planHash && CalculatePlanHash(q) == r.planHash ==> p == q
  {
  }

  lemma DecisionsAgree(d: Documents, l: G.Ledger, tenant: string, approvalId: string, b: G.Ballot)
    requires ApprovalsPaired(d) && Agrees(d, l)
    ensures Agrees(Decided(d, tenant, approvalId, b, b.data.at).0, G.Decided(l, tenant, approvalId, b).0)
    ensures Alike(Decided(d, tenant, approvalId, b, b.data.at).1, G.Decided(l, tenant, approvalId, b).1)
  {
    hide Agrees, ApprovalsPaired, Decided, G.Decided, Alike;
    AgreesOn(d, l);
    PairFound(d, tenant, approvalId);
    DecisionsAlike(d, l, tenant, approvalId, b);
    RequestsOnly(d, Decided(d, tenant, approvalId, b, b.data.at).0, l, G.Decided(l, tenant, approvalId, b).0);
  }

  lemma DecisionsAlike(d: Documents, l: G.Ledger, tenant: string, approvalId: string, b: G.Ballot)
    requires l.plans == d.plans && l.approvals == d.approvalIndex
    requires (tenant, approvalId) in d.approvalIndex ==>
               var path := (tenant, d.approvalIndex[(tenant, approvalId)].changeId, approvalId);
               path in d.approvals && d.approvals[path] == d.approvalIndex[(tenant, approvalId)]
    ensures var (d', x), (l', y) := Decided(d, tenant, approvalId, b, b.data.at), G.Decided(l, tenant, approvalId, b);
            && Alike(x, y) && l'.plans == d'.plans && l'.approvals == d'.approvalIndex
            && d'.idempotency == d.idempotency && l'.executions == l.executions && l'.executionIds == l.executionIds
  {
    hide G.ValidRequest, G.SameDecision;
    assert b.data.(at := b.data.at) == b.data;
  }

  /** The two look the approval up in different places, and find the same when it is one of the intent's change. */
  lemma ApprovalsStandAlike(d: Documents, l: G.Ledger, i: Intent, required: bool, approval: Option<Approval>, now: Time)
    requires ApprovalsPaired(d) && Agrees(d, l) && (approval.Some? ==> approval.value.changeId == i.changeId)
    ensures ApprovalStands(d, i, required, approval, now) <==> G.ApprovalStands(l, i, required, approval, now)
  {
    if approval.Some? { PairFound(d, i.tenantId, approval.value.approvalId); }
  }

  lemma ReservationsAgree(d: Documents, l: G.Ledger, i: Intent, required: bool, approval: Option<Approval>, hash: G.InputDigest, now: Time)
    requires ApprovalsPaired(d) && Agrees(d, l) && (approval.Some? ==> approval.value.changeId == i.changeId)
    ensures G.Indexed(l)
    ensures Agrees(Reserved(d, i, required, approval, hash, now, now).0, G.Reserved(l, i, required, approval, hash, now).0)
    ensures Alike(Reserved(d, i, required, approval, hash, now, now).1, G.Reserved(l, i, required, approval, hash, now).1)
  {
    AgreesOn(d, l);
    KeyAgrees(d, l, i);
    ApprovalsStandAlike(d, l, i, required, approval, now);
    hide ApprovalStands, G.ApprovalStands, ApprovalsPaired, Agrees, G.Indexed, Reserved, G.Reserved, Alike;
    ReservationsAlike(d, l, i, required, approval, hash, now);
    var (d', a) := Reserved(d, i, required, approval, hash, now, now);
    if a.Ok? && !a.value.replayed {
      ExecutionOnly(d, d', l, G.Reserved(l, i, required, approval, hash, now).0, i.tenantId, i.idempotencyKey, a.value.record);
    }
  }

  lemma ReservationsAlike(d: Documents, l: G.Ledger, i: Intent, required: bool, approval: Option<Approval>, hash: G.InputDigest, now: Time)
    requires G.Indexed(l) && l.executions == d.idempotency
    requires ApprovalStands(d, i, required, approval, now) <==> G.ApprovalStands(l, i, required, approval, now)
    requires var key, id := (i.tenantId, i.idempotencyKey), G.ExecutionOf(i.tenantId, i.idempotencyKey);
             && (key in l.executionIds <==> (i.tenantId, id) in d.idempotency)
             && (key in l.executionIds ==> l.executionIds[key] == id && l.executionIds[key := id] == l.executionIds)
    ensures var (d', a), (l', b) := Reserved(d, i, required, approval, hash, now, now), G.Reserved(l, i, required, approval, hash, now);
            var key, entry := (i.tenantId, i.idempotencyKey), (i.tenantId, G.ExecutionOf(i.tenantId, i.idempotencyKey));
            && Alike(a, b) && d'.plans == d.plans && d'.approvalIndex == d.approvalIndex && l'.plans == l.plans && l'.approvals == l.approvals
            && (if a.Ok? && !a.value.replayed then
                  && d'.idempotency == d.idempotency[entry := a.value.record]
                  && l'.executions == l.executions[entry := a.value.record]
                  && l'.executionIds == l.executionIds[key := entry.1]
                else d' == d && l' == l)
  {
    hide ApprovalStands, G.ApprovalStands, G.Indexed;
  }

  lemma KeyAgrees(d: Documents, l: G.Ledger, i: Intent)
    requires Agrees(d, l)
    ensures var key, id := (i.tenantId, i.idempotencyKey), G.ExecutionOf(i.tenantId, i.idempotencyKey);
            && (key in l.executionIds <==> (i.tenantId, id) in d.idempotency)
            && (key in l.executionIds ==> l.executionIds[key] == id && l.executionIds[key := id] == l.executionIds)
  {
  }

  lemma FinishesAgree(d: Documents, l: G.Ledger, tenant: string, changeId: string, id: G.ExecutionId, o: G.Outcome, at: Time)
    requires ExecutionsPaired(d) && Agrees(d, l)
    ensures Agrees(Finished(d, tenant, changeId, id, o, at, at).0, G.Finished(l, tenant, changeId, id, o, at).0)
    ensures Alike(Finished(d, tenant, changeId, id, o, at, at).1, G.Finished(l, tenant, changeId, id, o, at).1)
  {
    AgreesOn(d, l);
    PathAgrees(d, tenant, changeId, id);
    hide ExecutionsPaired, Agrees, G.Indexed;
    if (tenant, changeId, id) in d.executions && d.executions[(tenant, changeId, id)].status.RESERVED? {
      var e := d.executions[(tenant, changeId, id)];
      KeyStays(d, l, tenant, e.key);
      ExecutionOnly(d, Finished(d, tenant, changeId, id, o, at, at).0, l, G.Finished(l, tenant, changeId, id, o, at).0, tenant, e.key,
                    G.Ended(e, o, at));
    }
  }

  lemma PathAgrees(d: Documents, tenant: string, changeId: string, id: G.ExecutionId)
    requires ExecutionsPaired(d)
    ensures var path, index := (tenant, changeId, id), (tenant, id);
            && (path in d.executions <==> index in d.idempotency && d.idempotency[index].changeId == changeId)
            && (path in d.executions ==> d.idempotency[index] == d.executions[path] && id == G.ExecutionOf(tenant, d.executions[path].key))
  {
  }

  lemma KeyStays(d: Documents, l: G.Ledger, tenant: string, key: string)
    requires Agrees(d, l) && (tenant, G.ExecutionOf(tenant, key)) in d.idempotency
    ensures (tenant, key) in l.executionIds && l.executionIds[(tenant, key) := G.ExecutionOf(tenant, key)] == l.executionIds
  {
  }

  // ---------------------------------------------------------------- every history

  /** The in-memory ledger after one call. */
  function Kept(l: G.Ledger, op: Op): G.Ledger {
    match op
    case Create(record, plan) => G.Requested(l, record, plan).0
    case Decide(tenant, approvalId, ballot) => G.Decided(l, tenant, approvalId, ballot).0
    case Reserve(i, required, approval, now) =>
      if G.Indexed(l) then G.Reserved(l, i, required, approval, G.SemanticInputHash(i), now).0 else l
    case Finish(tenant, changeId, id, outcome, at) => G.Finished(l, tenant, changeId, id, outcome, at).0
  }

  function InMemory(ops: seq<Op>): G.Ledger {
    if ops == [] then G.Ledger(map[], map[], map[], map[]) else Kept(InMemory(ops[..|ops| - 1]), ops[|ops| - 1])
  }

  /** The two adapters answer the call alike. */
  predicate AnsweredAlike(d: Documents, l: G.Ledger, op: Op)
    requires G.Indexed(l)
  {
    match op
    case Create(record, plan) => Alike(Requested(d, record, plan, TimeOf(op)).1, G.Requested(l, record, plan).1)
    case Decide(tenant, approvalId, b) => Alike(Decided(d, tenant, approvalId, b, TimeOf(op)).1, G.Decided(l, tenant, approvalId, b).1)
    case Reserve(i, required, approval, now) =>
      Alike(Reserved(d, i, required, approval, G.SemanticInputHash(i), now, now).1,
            G.Reserved(l, i, required, approval, G.SemanticInputHash(i), now).1)
    case Finish(tenant, changeId, id, o, at) =>
      Alike(Finished(d, tenant, changeId, id, o, at, at).1, G.Finished(l, tenant, changeId, id, o, at).1)
  }

  /** The call's own clock. */
  function TimeOf(op: Op): Time {
    match op
    case Create(record, _) => record.requestedAt
    case Decide(_, _, ballot) => ballot.data.at
    case Reserve(_, _, _, now) => now
    case Finish(_, _, _, _, at) => at
  }

  /** The same calls, with the server's clock at the caller's. */
  function Timed(ops: seq<Op>): seq<(Op, Time)> {
    seq(|ops|, k requires 0 <= k < |ops| => (ops[k], TimeOf(ops[k])))
  }

  /** Policy lets only approvals of the intent's own change through. */
  predicate OwnApproval(op: Op) {
    op.Reserve? && op.approval.Some? ==> op.approval.value.changeId == op.intent.changeId
  }

  lemma {:induction false} AdaptersAgree(ops: seq<Op>)
    requires forall op <- ops :: OwnApproval(op)
    ensures Agrees(History(Timed(ops)), InMemory(ops))
  {
    hide Agrees, Performed, Kept, ApprovalsPaired, ExecutionsPaired, OwnApproval, AnsweredAlike;
    if ops == [] {
      NothingAgrees();
    } else {
      var before, op := ops[..|ops| - 1], ops[|ops| - 1];
      assert Timed(ops)[..|ops| - 1] == Timed(before);
      AdaptersAgree(before);
      DocumentsAgree(Timed(before));
      assert OwnApproval(op);
      StepAgrees(History(Timed(before)), InMemory(before), op);
    }
  }

  lemma NothingAgrees()
    ensures Agrees(History(Timed([])), InMemory([]))
  {
  }

  lemma StepAgrees(d: Documents, l: G.Ledger, op: Op)
    requires ApprovalsPaired(d) && ExecutionsPaired(d) && Agrees(d, l) && OwnApproval(op)
    ensures Agrees(Performed(d, op, TimeOf(op)), Kept(l, op))
    ensures G.Indexed(l) && AnsweredAlike(d, l, op)
  {
    hide Agrees, Requested, Decided, Reserved, Finished, G.Requested, G.Decided, G.Reserved, G.Finished, ApprovalsPaired, ExecutionsPaired, Alike, G.Indexed;
    AgreesOn(d, l);
    match op
    case Create(record, plan) => RequestsAgree(d, l, record, plan);
    case Decide(tenant, approvalId, b) => DecisionsAgree(d, l, tenant, approvalId, b);
    case Reserve(i, required, approval, now) => ReservationsAgree(d, l, i, required, approval, G.SemanticInputHash(i), now);
    case Finish(tenant, changeId, id, o, at) => FinishesAgree(d, l, tenant, changeId, id, o, at);
  }

  /** After the same calls the next one is answered alike. */
  lemma AnswersAgree(ops: seq<Op>, op: Op)
    requires OwnApproval(op) && forall earlier <- ops :: OwnApproval(earlier)
    ensures G.Indexed(InMemory(ops)) && AnsweredAlike(History(Timed(ops)), InMemory(ops), op)
  {
    hide Agrees, Performed, Kept, ApprovalsPaired, ExecutionsPaired, OwnApproval, AnsweredAlike, History, InMemory, G.Indexed;
    AdaptersAgree(ops);
    DocumentsAgree(Timed(ops));
    StepAgrees(History(Timed(ops)), InMemory(ops), op);
  }
}
