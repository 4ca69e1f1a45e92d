/**
 The durable governance adapter keeps two documents for every approval and every execution: the
 authoritative one under its change, and one under its identifier or idempotency key. A transaction reads,
 decides and writes both; the server's timestamp is the same in both.
 */
module Firestore {
  import opened Common
  import opened Plans
  import opened Policy
  import opened Sandbox
  import G = Governance

  type ApprovalPath = (string, string, string)
  type ExecutionPath = (string, string, G.ExecutionId)

  datatype Documents = Documents(
    plans: map<(string, string, string), Plan>,
    approvals: map<ApprovalPath, G.ApprovalRequest>,
    approvalIndex: map<(string, string), G.ApprovalRequest>,
    executions: map<ExecutionPath, G.Execution>,
    idempotency: map<(string, G.ExecutionId), G.Execution>)

  datatype AdapterError =
    | Gateway(error: G.GatewayError) | IndexesInconsistent | IndexDiverged | MissingAuthoritative

  // ---------------------------------------------------------------- the transactions, on values

  function Requested(d: Documents, r: G.ApprovalRequest, p: Plan, server: Time)
    : (Documents, Result<G.ApprovalRequest, AdapterError>)
  {
    var planKey := (p.tenantId, p.changeId, p.planId);
    var path, index := (r.tenantId, r.changeId, r.approvalId), (r.tenantId, r.approvalId);
    if CalculatePlanHash(p) != r.planHash then (d, Err(Gateway(G.PlanHashNotCanonical)))
    else if planKey in d.plans && CalculatePlanHash(d.plans[planKey]) != r.planHash then (d, Err(Gateway(G.PlanIdentifierTaken)))
    else if path in d.approvals || index in d.approvalIndex then
      if path !in d.approvals || index !in d.approvalIndex then (d, Err(IndexesInconsistent))
      else if d.approvals[path] != d.approvalIndex[index] then (d, Err(IndexDiverged))
      else if planKey in d.plans && d.plans[planKey] == p && G.SameRequest(d.approvals[path], r) then (d, Ok(d.approvals[path]))
      else (d, Err(Gateway(G.ApprovalIdentifierTaken)))
    else
      var document := r.(requestedAt := server);
      (d.(plans := if planKey in d.plans then d.plans else d.plans[planKey := p],
          approvals := d.approvals[path := document], approvalIndex := d.approvalIndex[index := document]), Ok(r))
  }

  function Decided(d: Documents, tenant: string, approvalId: string, b: G.Ballot, server: Time)
    : (Documents, Result<G.ApprovalRequest, AdapterError>)
  {
    var index := (tenant, approvalId);
    if index !in d.approvalIndex then (d, Err(Gateway(G.ApprovalNotFound)))
    else
      var path := (tenant, d.approvalIndex[index].changeId, approvalId);
      if path !in d.approvals then (d, Err(MissingAuthoritative))
      else if d.approvals[path] != d.approvalIndex[index] then (d, Err(IndexDiverged))
      else
        var current := d.approvals[path];
        if !current.status.PENDING? then
          (d, if G.SameDecision(current, b) then Ok(current) else Err(Gateway(G.AlreadyDecided)))
        else if current.version != b.expectedVersion then (d, Err(Gateway(G.StaleVersion)))
        else if current.expiresAt <= b.data.at then (d, Err(Gateway(G.ApprovalExpired)))
        else if current.requestedBy == b.data.decidedBy then (d, Err(Gateway(G.SeparationOfDuties)))
        else
          var updated := current.(status := b.target, decision := Some(b.data), version := current.version + 1);
          if !G.ValidRequest(updated) then (d, Err(Gateway(G.InvalidDecision)))
          else
            var document := updated.(decision := Some(b.data.(at := server)));
            (d.(approvals := d.approvals[path := document], approvalIndex := d.approvalIndex[index := document]), Ok(updated))
  }

  predicate ApprovalStands(d: Documents, i: Intent, required: bool, approval: Option<Approval>, now: Time) {
    required ==>
      && approval.Some? && (i.tenantId, i.changeId, approval.value.approvalId) in d.approvals
      && G.AsApproval(d.approvals[(i.tenantId, i.changeId, approval.value.approvalId)]) == approval
      && now < approval.value.expiresAt && i.stepId in approval.value.scope && approval.value.planHash == i.planHash
  }

  function Reserved(d: Documents, i: Intent, required: bool, approval: Option<Approval>, hash: G.InputDigest, now: Time, server: Time)
    : (Documents, Result<G.Reservation, AdapterError>)
  {
    var id := G.ExecutionOf(i.tenantId, i.idempotencyKey);
    var path, index := (i.tenantId, i.changeId, id), (i.tenantId, id);
    if !ApprovalStands(d, i, required, approval, now) then (d, Err(Gateway(G.ApprovalRequired)))
    else if index in d.idempotency && d.idempotency[index].inputHash != hash then (d, Err(Gateway(G.IdempotencyConflict)))
    else if index in d.idempotency && d.idempotency[index].status.SUCCEEDED? then
      (d, Ok(G.Reservation(d.idempotency[index], true)))
    else if index in d.idempotency && d.idempotency[index].status.RESERVED? && d.idempotency[index].updatedAt > now - G.LEASE then
      (d, Err(Gateway(G.InProgress)))
    else
      var record :=
        if index in d.idempotency then
          d.idempotency[index].(intentId := i.intentId, approvalId := G.ApprovalIdOf(approval), status := G.RESERVED,
                                attemptCount := d.idempotency[index].attemptCount + 1, output := None, outputHash := None,
                                errorCode := None, updatedAt := now)
        else G.Execution(id, i.tenantId, i.changeId, i.intentId, i.idempotencyKey, hash, G.ApprovalIdOf(approval),
                         G.RESERVED, 1, None, None, None, now, now);
      var document := record.(updatedAt := server);
      (d.(executions := d.executions[path := document], idempotency := d.idempotency[index := document]),
       Ok(G.Reservation(record, false)))
  }

  function Finished(d: Documents, tenant: string, changeId: string, id: G.ExecutionId, o: G.Outcome, at: Time, server: Time)
    : (Documents, Result<G.Execution, AdapterError>)
  {
    var path := (tenant, changeId, id);
    if path !in d.executions then (d, Err(Gateway(G.ExecutionNotFound)))
    else if !d.executions[path].status.RESERVED? then (d, Err(Gateway(G.NotReserved)))
    else
      var updated := G.Ended(d.executions[path], o, at);
      var document, index := updated.(updatedAt := server), (tenant, G.ExecutionOf(tenant, updated.key));
      (d.(executions := d.executions[path := document], idempotency := d.idempotency[index := document]), Ok(updated))
  }

  class FirestoreGovernanceRepository {
    var plans: map<(string, string, string), Plan>
    var approvals: map<ApprovalPath, G.ApprovalRequest>
    var approvalIndex: map<(string, string), G.ApprovalRequest>
    var executions: map<ExecutionPath, G.Execution>
    var idempotency: map<(string, G.ExecutionId), G.Execution>

    ghost function View(): Documents
      reads this
    {
      Documents(plans, approvals, approvalIndex, executions, idempotency)
    }

    constructor ()
      ensures View() == Documents(map[], map[], map[], map[], map[])
    {
      plans, approvals, approvalIndex, executions, idempotency := map[], map[], map[], map[], map[];
    }

    method CreateApprovalRequest(record: G.ApprovalRequest, plan: Plan, server: Time)
      returns (r: Result<G.ApprovalRequest, AdapterError>)
      modifies this
      ensures (View(), r) == Requested(old(View()), record, plan, server)
    {
      if CalculatePlanHash(plan) != record.planHash { return Err(Gateway(G.PlanHashNotCanonical)); }
      var planKey := (plan.tenantId, plan.changeId, plan.planId);
      var path, index := (record.tenantId, record.changeId, record.approvalId), (record.tenantId, record.approvalId);
      if planKey in plans && CalculatePlanHash(plans[planKey]) != record.planHash { return Err(Gateway(G.PlanIdentifierTaken)); }
      if path in approvals || index in approvalIndex {
        if !(path in approvals && index in approvalIndex) { return Err(IndexesInconsistent); }
        if approvals[path] != approvalIndex[index] { return Err(IndexDiverged); }
        if planKey in plans && plans[planKey] == plan && G.SameRequest(approvals[path], record) { return Ok(approvals[path]); }
        return Err(Gateway(G.ApprovalIdentifierTaken));
      }
      if planKey !in plans { plans := plans[planKey := plan]; }
      approvals := approvals[path := record.(requestedAt := server)];
      approvalIndex := approvalIndex[index := record.(requestedAt := server)];
      r := Ok(record);
    }

    method DecideApproval(tenantId: string, approvalId: string, b: G.Ballot, server: Time)
      returns (r: Result<G.ApprovalRequest, AdapterError>)
      modifies this
      ensures (View(), r) == Decided(old(View()), tenantId, approvalId, b, server)
    {
      if (tenantId, approvalId) !in approvalIndex { return Err(Gateway(G.ApprovalNotFound)); }
      var indexed := approvalIndex[(tenantId, approvalId)];
      var path := (tenantId, indexed.changeId, approvalId);
      if path !in approvals { return Err(MissingAuthoritative); }
      var current := approvals[path];
      if current != indexed { return Err(IndexDiverged); }
      if !current.status.PENDING? {
        return if G.SameDecision(current, b) then Ok(current) else Err(Gateway(G.AlreadyDecided));
      }
      if current.version != b.expectedVersion { return Err(Gateway(G.StaleVersion)); }
      if current.expiresAt <= b.data.at { return Err(Gateway(G.ApprovalExpired)); }
      if current.requestedBy == b.data.decidedBy { return Err(Gateway(G.SeparationOfDuties)); }
      var updated := current.(status := b.target, decision := Some(b.data), version := current.version + 1);
      if !G.ValidRequest(updated) { return Err(Gateway(G.InvalidDecision)); }
      var document := updated.(decision := Some(b.data.(at := server)));
      approvals := approvals[path := document];
      approvalIndex := approvalIndex[(tenantId, approvalId) := document];
      r := Ok(updated);
    }

    method ReserveExecution(intent: Intent, approvalRequired: bool, approval: Option<Approval>, inputHash: G.InputDigest,
                            now: Time, server: Time)
      returns (r: Result<G.Reservation, AdapterError>)
      modifies this
      ensures (View(), r) == Reserved(old(View()), intent, approvalRequired, approval, inputHash, now, server)
    {
      var id := G.ExecutionOf(intent.tenantId, intent.idempotencyKey);
      var index := (intent.tenantId, id);
      if approvalRequired {
        if approval.None? { return Err(Gateway(G.ApprovalRequired)); }
        var path := (intent.tenantId, intent.changeId, approval.value.approvalId);
        if path !in approvals { return Err(Gateway(G.ApprovalRequired)); }
        var current := G.AsApproval(approvals[path]);
        if current.None? || current != approval || current.value.expiresAt <= now || intent.stepId !in current.value.scope
           || current.value.planHash != intent.planHash { return Err(Gateway(G.ApprovalRequired)); }
      }
      var record := G.Execution(id, intent.tenantId, intent.changeId, intent.intentId, intent.idempotencyKey, inputHash,
                                G.ApprovalIdOf(approval), G.RESERVED, 1, None, None, None, now, now);
      if index in idempotency {
        var existing := idempotency[index];
        if existing.inputHash != inputHash { return Err(Gateway(G.IdempotencyConflict)); }
        if existing.status.SUCCEEDED? { return Ok(G.Reservation(existing, true)); }
        if existing.status.RESERVED? && existing.updatedAt > now - G.LEASE { return Err(Gateway(G.InProgress)); }
        record := existing.(intentId := intent.intentId, approvalId := G.ApprovalIdOf(approval), status := G.RESERVED,
                            attemptCount := existing.attemptCount + 1, output := None, outputHash := None,
                            errorCode := None, updatedAt := now);
      }
      executions := executions[(intent.tenantId, intent.changeId, id) := record.(updatedAt := server)];
      idempotency := idempotency[index := record.(updatedAt := server)];
      r := Ok(G.Reservation(record, false));
    }

    method FinishExecution(tenantId: string, changeId: string, id: G.ExecutionId, outcome: G.Outcome, at: Time, server: Time)
      returns (r: Result<G.Execution, AdapterError>)
      modifies this
      ensures (View(), r) == Finished(old(View()), tenantId, changeId, id, outcome, at, server)
    {
      var path := (tenantId, changeId, id);
      if path !in executions { return Err(Gateway(G.ExecutionNotFound)); }
      var current := executions[path];
      if !current.status.RESERVED? { return Err(Gateway(G.NotReserved)); }
      var updated := G.Ended(current, outcome, at);
      executions := executions[path := updated.(updatedAt := server)];
      idempotency := idempotency[(tenantId, G.ExecutionOf(tenantId, current.key)) := updated.(updatedAt := server)];
      r := Ok(updated);
    }
  }

  // ---------------------------------------------------------------- the two documents agree

  ghost predicate ApprovalsPaired(d: Documents) {
    && (forall p <- d.approvals ::
          && (d.approvals[p].tenantId, d.approvals[p].changeId, d.approvals[p].approvalId) == p
          && (p.0, p.2) in d.approvalIndex && d.approvalIndex[(p.0, p.2)] == d.approvals[p])
    && (forall x <- d.approvalIndex ::
          (x.0, d.approvalIndex[x].changeId, x.1) in d.approvals
          && d.approvals[(x.0, d.approvalIndex[x].changeId, x.1)] == d.approvalIndex[x])
  }

  ghost predicate ExecutionsPaired(d: Documents) {
    && (forall p <- d.executions ::
          && (d.executions[p].tenantId, d.executions[p].changeId, d.executions[p].id) == p
          && p.2 == G.ExecutionOf(p.0, d.executions[p].key) && d.executions[p].inputHash.changeId == p.1
          && (p.0, p.2) in d.idempotency && d.idempotency[(p.0, p.2)] == d.executions[p])
    && (forall x <- d.idempotency ::
          (x.0, d.idempotency[x].changeId, x.1) in d.executions
          && d.executions[(x.0, d.idempotency[x].changeId, x.1)] == d.idempotency[x])
  }

  lemma RequestPairs(d: Documents, r: G.ApprovalRequest, p: Plan, server: Time)
    requires ApprovalsPaired(d)
    ensures ApprovalsPaired(Requested(d, r, p, server).0)
    ensures Requested(d, r, p, server).1 != Err(IndexDiverged)
    ensures CalculatePlanHash(p) == r.planHash ==>
              (Requested(d, r, p, server).1 == Err(IndexesInconsistent) <==>
                 && ((p.tenantId, p.changeId, p.planId) in d.plans ==> d.plans[(p.tenantId, p.changeId, p.planId)] == p)
                 && (r.tenantId, r.approvalId) in d.approvalIndex
                 && d.approvalIndex[(r.tenantId, r.approvalId)].changeId != r.changeId)
  {
    hide ApprovalsPaired, G.SameRequest;
    RequestFound(d, r);
    var d' := Requested(d, r, p, server).0;
    if d' != d { NewPair(d, d', (r.tenantId, r.changeId, r.approvalId), r.(requestedAt := server)); }
  }

  /** A request finds either both documents of its own change, or at most the index entry of another change. */
  lemma RequestFound(d: Documents, r: G.ApprovalRequest)
    requires ApprovalsPaired(d)
    ensures var path, index := (r.tenantId, r.changeId, r.approvalId), (r.tenantId, r.approvalId);
            && (path in d.approvals ==> index in d.approvalIndex && d.approvalIndex[index] == d.approvals[path]
                                        && d.approvalIndex[index].changeId == r.changeId)
            && (index in d.approvalIndex && path !in d.approvals ==>
                  d.approvalIndex[index].changeId != r.changeId && !G.SameRequest(d.approvalIndex[index], r))
  {
  }

  lemma NewPair(d: Documents, d': Documents, path: ApprovalPath, document: G.ApprovalRequest)
    requires ApprovalsPaired(d) && (path.0, path.2) !in d.approvalIndex
    requires (document.tenantId, document.changeId, document.approvalId) == path
    requires d'.approvals == d.approvals[path := document] && d'.approvalIndex == d.approvalIndex[(path.0, path.2) := document]
    ensures ApprovalsPaired(d')
  {
  }

  lemma DecisionPairs(d: Documents, tenant: string, approvalId: string, b: G.Ballot, server: Time)
    requires ApprovalsPaired(d)
    ensures ApprovalsPaired(Decided(d, tenant, approvalId, b, server).0)
    ensures Decided(d, tenant, approvalId, b, server).1 != Err(IndexDiverged)
    ensures Decided(d, tenant, approvalId, b, server).1 != Err(MissingAuthoritative)
  {
    hide ApprovalsPaired, G.ValidRequest, G.SameDecision;
    PairFound(d, tenant, approvalId);
    if Decided(d, tenant, approvalId, b, server).0 != d {
      var path := (tenant, d.approvalIndex[(tenant, approvalId)].changeId, approvalId);
      PairWritten(d, path, d.approvals[path].(status := b.target, version := d.approvals[path].version + 1,
                                              decision := Some(b.data.(at := server))));
    }
  }

  lemma PairFound(d: Documents, tenant: string, approvalId: string)
    requires ApprovalsPaired(d)
    ensures (tenant, approvalId) in d.approvalIndex ==>
              var path := (tenant, d.approvalIndex[(tenant, approvalId)].changeId, approvalId);
              && path in d.approvals && d.approvals[path] == d.approvalIndex[(tenant, approvalId)]
              && (d.approvals[path].tenantId, d.approvals[path].changeId, d.approvals[path].approvalId) == path
  {
  }

  lemma PairWritten(d: Documents, path: ApprovalPath, document: G.ApprovalRequest)
    requires ApprovalsPaired(d) && path in d.approvals
    requires (document.tenantId, document.changeId, document.approvalId) == path
    ensures path in d.approvals && d.approvals[path].tenantId == path.0 && d.approvals[path].approvalId == path.2
    ensures ApprovalsPaired(d.(approvals := d.approvals[path := document],
                               approvalIndex := d.approvalIndex[(path.0, path.2) := document]))
  {
  }

  /** The pair survives a reservation because the input digest names the change. */
  lemma ReservationPairs(d: Documents, i: Intent, required: bool, approval: Option<Approval>, hash: G.InputDigest, now: Time, server: Time)
    requires ExecutionsPaired(d) && hash.changeId == i.changeId
    ensures ExecutionsPaired(Reserved(d, i, required, approval, hash, now, server).0)
  {
    hide ExecutionsPaired, ApprovalStands;
    var r := Reserved(d, i, required, approval, hash, now, server);
    var id := G.ExecutionOf(i.tenantId, i.idempotencyKey);
    if (i.tenantId, id) in d.idempotency { ExecutionFound(d, i.tenantId, id); }
    if r.0 != d {
      ExecutionWritten(d, (i.tenantId, i.changeId, id), r.1.value.record.(updatedAt := server));
    }
  }

  lemma FinishPairs(d: Documents, tenant: string, changeId: string, id: G.ExecutionId, o: G.Outcome, at: Time, server: Time)
    requires ExecutionsPaired(d)
    ensures ExecutionsPaired(Finished(d, tenant, changeId, id, o, at, server).0)
  {
    hide ExecutionsPaired;
    var r := Finished(d, tenant, changeId, id, o, at, server);
    if r.0 != d {
      ExecutionAt(d, (tenant, changeId, id));
      ExecutionWritten(d, (tenant, changeId, id), r.1.value.(updatedAt := server));
    }
  }

  lemma ExecutionFound(d: Documents, tenant: string, id: G.ExecutionId)
    requires ExecutionsPaired(d) && (tenant, id) in d.idempotency
    ensures var e := d.idempotency[(tenant, id)];
            && (e.tenantId, e.id) == (tenant, id) && id == G.ExecutionOf(tenant, e.key)
            && e.inputHash.changeId == e.changeId
  {
    assert (tenant, d.idempotency[(tenant, id)].changeId, id) in d.executions;
  }

  lemma ExecutionAt(d: Documents, path: ExecutionPath)
    requires ExecutionsPaired(d) && path in d.executions
    ensures var e := d.executions[path];
            && (e.tenantId, e.changeId, e.id) == path && path.2 == G.ExecutionOf(path.0, e.key)
            && e.inputHash.changeId == path.1 && (path.0, path.2) in d.idempotency
            && d.idempotency[(path.0, path.2)].changeId == path.1
  {
  }

  lemma ExecutionWritten(d: Documents, path: ExecutionPath, document: G.Execution)
    requires ExecutionsPaired(d) && (document.tenantId, document.changeId, document.id) == path
    requires path.2 == G.ExecutionOf(path.0, document.key) && document.inputHash.changeId == path.1
    requires (path.0, path.2) in d.idempotency ==> d.idempotency[(path.0, path.2)].changeId == path.1
    ensures ExecutionsPaired(d.(executions := d.executions[path := document],
                                idempotency := d.idempotency[(path.0, path.2) := document]))
  {
  }

  // ---------------------------------------------------------------- every history

  datatype Op =
    | Create(record: G.ApprovalRequest, plan: Plan)
    | Decide(tenant: string, approvalId: string, ballot: G.Ballot)
    | Reserve(intent: Intent, required: bool, approval: Option<Approval>, now: Time)
    | Finish(tenantId: string, changeId: string, id: G.ExecutionId, outcome: G.Outcome, at: Time)

  /** The gateway reserves under the digest of the intent itself. */
  function Performed(d: Documents, op: Op, server: Time): Documents {
    match op
    case Create(record, plan) => Requested(d, record, plan, server).0
    case Decide(tenant, approvalId, ballot) => Decided(d, tenant, approvalId, ballot, server).0
    case Reserve(intent, required, approval, now) =>
      Reserved(d, intent, required, approval, G.SemanticInputHash(intent), now, server).0
    case Finish(tenant, changeId, id, outcome, at) => Finished(d, tenant, changeId, id, outcome, at, server).0
  }

  function History(ops: seq<(Op, Time)>): Documents {
    if ops == [] then Documents(map[], map[], map[], map[], map[])
    else Performed(History(ops[..|ops| - 1]), ops[|ops| - 1].0, ops[|ops| - 1].1)
  }

  /** In every reachable state both documents of each approval and of each execution are equal. */
  lemma {:induction false} DocumentsAgree(ops: seq<(Op, Time)>)
    ensures ApprovalsPaired(History(ops)) && ExecutionsPaired(History(ops))
  {
    hide ApprovalsPaired, ExecutionsPaired, Requested, Decided, Reserved, Finished;
    if ops == [] {
      NothingStored();
    } else {
      var d, op, server := History(ops[..|ops| - 1]), ops[|ops| - 1].0, ops[|ops| - 1].1;
      DocumentsAgree(ops[..|ops| - 1]);
      match op
      case Create(record, plan) =>
        RequestPairs(d, record, plan, server);
        OtherDocuments(d, op, server);
      case Decide(tenant, approvalId, ballot) =>
        DecisionPairs(d, tenant, approvalId, ballot, server);
        OtherDocuments(d, op, server);
      case Reserve(intent, required, approval, now) =>
        ReservationPairs(d, intent, required, approval, G.SemanticInputHash(intent), now, server);
        OtherDocuments(d, op, server);
      case Finish(tenant, changeId, id, outcome, at) =>
        FinishPairs(d, tenant, changeId, id, outcome, at, server);
        OtherDocuments(d, op, server);
    }
  }

  lemma NothingStored()
    ensures ApprovalsPaired(History([])) && ExecutionsPaired(History([]))
  {
  }

  lemma OtherDocuments(d: Documents, op: Op, server: Time)
    requires ApprovalsPaired(d) && ExecutionsPaired(d)
    ensures op.Create? || op.Decide? ==> ExecutionsPaired(Performed(d, op, server))
    ensures op.Reserve? || op.Finish? ==> ApprovalsPaired(Performed(d, op, server))
  {
    hide ApprovalsPaired, ExecutionsPaired;
    var d' := Performed(d, op, server);
    if op.Create? || op.Decide? {
      assert d'.executions == d.executions && d'.idempotency == d.idempotency;
      ExecutionsOnly(d, d');
    } else {
      assert d'.approvals == d.approvals && d'.approvalIndex == d.approvalIndex;
      ApprovalsOnly(d, d');
    }
  }

  lemma ExecutionsOnly(d: Documents, d': Documents)
    requires ExecutionsPaired(d) && d'.executions == d.executions && d'.idempotency == d.idempotency
    ensures ExecutionsPaired(d')
  {
  }

  lemma ApprovalsOnly(d: Documents, d': Documents)
    requires ApprovalsPaired(d) && d'.approvals == d.approvals && d'.approvalIndex == d.approvalIndex
    ensures ApprovalsPaired(d')
  {
  }

  /** After any history no decision finds its documents diverged or missing, and no request finds them diverged. */
  lemma DivergenceIsUnreachable(ops: seq<(Op, Time)>, tenant: string, approvalId: string, b: G.Ballot,
                                r: G.ApprovalRequest, p: Plan, server: Time)
    ensures Decided(History(ops), tenant, approvalId, b, server).1 !in {Err(IndexDiverged), Err(MissingAuthoritative)}
    ensures Requested(History(ops), r, p, server).1 != Err(IndexDiverged)
  {
    hide Requested, Decided, ApprovalsPaired, ExecutionsPaired, History;
    DocumentsAgree(ops);
    DecisionPairs(History(ops), tenant, approvalId, b, server);
    RequestPairs(History(ops), r, p, server);
  }

  /** One approval is enough to reach the inconsistency: its identifier asked for again under another change. */
  lemma InconsistencyIsReachable(r: G.ApprovalRequest, p: Plan, r': G.ApprovalRequest, p': Plan, first: Time, server: Time)
    requires CalculatePlanHash(p) == r.planHash && CalculatePlanHash(p') == r'.planHash
    requires (p.tenantId, p.changeId, p.planId) == (p'.tenantId, p'.changeId, p'.planId) ==> p == p'
    requires r'.tenantId == r.tenantId && r'.approvalId == r.approvalId && r'.changeId != r.changeId
    ensures Requested(History([(Create(r, p), first)]), r', p', server).1 == Err(IndexesInconsistent)
  {
    assert [(Create(r, p), first)][..0] == [];
    assert History([(Create(r, p), first)]) == Performed(History([]), Create(r, p), first);
  }

  // ---------------------------------------------------------------- decisions are ballots

  /** This decision was cast on this request; the time stored is the server's. */
  predicate IsBallot(op: Op, path: ApprovalPath, document: G.ApprovalRequest) {
    && op.Decide? && op.tenant == path.0 && op.approvalId == path.2
    && document.status == op.ballot.target && document.decision.Some?
    && document.decision.value.(at := 0) == op.ballot.data.(at := 0)
  }

  /** A decision changes at most the one request, into the ballot's own target and data, one version on. */
  lemma BallotIsStored(d: Documents, tenant: string, approvalId: string, b: G.Ballot, server: Time, path: ApprovalPath)
    requires path in Decided(d, tenant, approvalId, b, server).0.approvals
    ensures var r := Decided(d, tenant, approvalId, b, server).0.approvals[path];
            path in d.approvals
            && (r == d.approvals[path]
                || (IsBallot(Decide(tenant, approvalId, b), path, r) && d.approvals[path].status.PENDING?
                    && r.version == d.approvals[path].version + 1
                    && r.(status := G.PENDING, decision := None, version := 0) == d.approvals[path].(decision := None, version := 0)))
  {
  }

  lemma OtherOpsKeep(d: Documents, op: Op, server: Time, path: ApprovalPath)
    requires !op.Decide? && path in Performed(d, op, server).approvals && (op.Create? ==> op.record.status.PENDING?)
    ensures var r := Performed(d, op, server).approvals[path];
            (path in d.approvals && r == d.approvals[path]) || r.status.PENDING?
  {
    hide G.SemanticInputHash, G.SameRequest;
  }

  /** With every request made pending, as the gateway makes them, each stored decision was cast with that very target. */
  lemma {:induction false} DecisionsWereCast(ops: seq<(Op, Time)>, path: ApprovalPath)
    requires forall op <- ops :: op.0.Create? ==> op.0.record.status.PENDING?
    requires path in History(ops).approvals && !History(ops).approvals[path].status.PENDING?
    ensures exists k :: 0 <= k < |ops| && IsBallot(ops[k].0, path, History(ops).approvals[path])
  {
    hide Decided, Requested, Reserved, Finished, IsBallot;
    if ops != [] {
      var before, last := ops[..|ops| - 1], ops[|ops| - 1];
      var d, r := History(before), History(ops).approvals[path];
      if last.0.Decide? {
        BallotIsStored(d, last.0.tenant, last.0.approvalId, last.0.ballot, last.1, path);
      } else {
        assert last in ops;
        OtherOpsKeep(d, last.0, last.1, path);
      }
      if path in d.approvals && r == d.approvals[path] {
        DecisionsWereCast(before, path);
        var k :| 0 <= k < |before| && IsBallot(before[k].0, path, d.approvals[path]);
        assert ops[k] == before[k];
      }
    }
  }
}
