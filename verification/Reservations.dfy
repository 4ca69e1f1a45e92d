/** What the gateway answers to a reservation or to an end, told by what has happened to the key before. */
module Reservations {
  import opened Common
  import opened Policy
  import opened Governance
  import opened Sandbox
  import opened Gateway
  import opened ExactlyOnce

  predicate Concerns(e: Event, tenant: string, key: string) {
    IsGrant(e, tenant, key) || IsEnd(e, tenant, key)
  }

  /** The last grant or end of the key. */
  function LastOf(log: seq<Event>, tenant: string, key: string): (last: Option<Event>)
    ensures last.Some? ==> last.value in log && Concerns(last.value, tenant, key)
    ensures last.None? ==> forall e <- log :: !Concerns(e, tenant, key)
  {
    if log == [] then None
    else if Concerns(log[|log| - 1], tenant, key) then Some(log[|log| - 1])
    else LastOf(log[..|log| - 1], tenant, key)
  }

  lemma LastAppends(log: seq<Event>, e: Event, tenant: string, key: string)
    ensures LastOf(log + [e], tenant, key) == if Concerns(e, tenant, key) then Some(e) else LastOf(log, tenant, key)
  {
    assert (log + [e])[..|log|] == log;
  }

  /** A record tells what last happened to its key: a grant, or an end with its output or its error. */
  predicate Tells(r: Execution, last: Event) {
    match last
    case Granted(_, _, hash, at) => r.status.RESERVED? && r.inputHash == hash && r.updatedAt == at && r.output.None? && r.errorCode.None?
    case Ended(_, _, Done(output)) => r.status.SUCCEEDED? && r.output == Some(output) && r.outputHash == Some(OutputSha256(output))
    case Ended(_, _, Broken(code)) => r.status.EXECUTION_FAILED? && r.output.None? && r.errorCode == Some(code)
    case _ => false
  }

  ghost predicate Told(g: Ledger, log: seq<Event>, tenant: string, key: string) {
    var e := (tenant, ExecutionOf(tenant, key));
    if e in g.executions then
      && LastOf(log, tenant, key).Some? && Tells(g.executions[e], LastOf(log, tenant, key).value)
      && g.executions[e].changeId == g.executions[e].inputHash.changeId
      && exists n <- log :: IsGrant(n, tenant, key)
    else LastOf(log, tenant, key).None?
  }

  lemma Unconcerned(g: Ledger, g': Ledger, log: seq<Event>, e: Event, tenant: string, key: string)
    requires Told(g, log, tenant, key) && SameEntry(g, g', tenant, key) && !Concerns(e, tenant, key)
    ensures Told(g', log + [e], tenant, key)
  {
    hide Tells;
    LastAppends(log, e, tenant, key);
    if n :| n in log && IsGrant(n, tenant, key) { assert n in log + [e]; }
  }

  lemma Concerned(g: Ledger, g': Ledger, log: seq<Event>, e: Event, tenant: string, key: string)
    requires Told(g, log, tenant, key) && Concerns(e, tenant, key)
    requires var entry := (tenant, ExecutionOf(tenant, key));
             && entry in g'.executions && Tells(g'.executions[entry], e)
             && g'.executions[entry].changeId == g'.executions[entry].inputHash.changeId
             && (e.Ended? ==> entry in g.executions)
    ensures Told(g', log + [e], tenant, key)
  {
    hide Tells;
    LastAppends(log, e, tenant, key);
    if e.Granted? {
      assert e in log + [e];
    } else {
      var n :| n in log && IsGrant(n, tenant, key);
      assert n in log + [e];
    }
  }

  lemma GrantTells(g: Ledger, i: Intent, required: bool, approval: Option<Approval>, now: Time)
    requires Indexed(g)
    requires EntryOf(i) in g.executions ==> g.executions[EntryOf(i)].changeId == g.executions[EntryOf(i)].inputHash.changeId
    requires (i.tenantId, i.idempotencyKey) in g.executionIds ==> g.executionIds[(i.tenantId, i.idempotencyKey)] == EntryOf(i).1
    requires var r := Reserved(g, i, required, approval, SemanticInputHash(i), now).1; r.Ok? && !r.value.replayed
    ensures var r := Reserved(g, i, required, approval, SemanticInputHash(i), now).1.value.record;
            Tells(r, Granted(i.tenantId, i.idempotencyKey, SemanticInputHash(i), now)) && r.changeId == r.inputHash.changeId
  {
    hide ApprovalStands;
  }

  lemma ReserveTells(s: Sys, id: nat, pc: PC, now: Time, tenant: string, key: string)
    requires Inv(s) && pc.Reserving? && Told(s.gov, s.log, tenant, key)
    ensures Told(ReserveStep(s, id, pc, now).gov, ReserveStep(s, id, pc, now).log, tenant, key)
  {
    hide Inv, Told, Tells, Reserved, Indexed;
    var i, s' := pc.intent, ReserveStep(s, id, pc, now);
    TableOf(s);
    if s'.gov != s.gov || s'.log != s.log {
      var e := Granted(i.tenantId, i.idempotencyKey, SemanticInputHash(i), now);
      var r := Reserved(s.gov, i, pc.required, pc.approval, SemanticInputHash(i), now).1.value.record;
      GrantFacts(s.gov, i, pc.required, pc.approval, now);
      if (tenant, key) == (i.tenantId, i.idempotencyKey) {
        EntryTold(s, tenant, key);
        GrantTells(s.gov, i, pc.required, pc.approval, now);
        Concerned(s.gov, s'.gov, s.log, e, tenant, key);
      } else {
        OthersSame(s.gov, s'.gov, i.tenantId, i.idempotencyKey, r, e);
        Unconcerned(s.gov, s'.gov, s.log, e, tenant, key);
      }
    }
  }

  lemma TableOf(s: Sys)
    requires Inv(s)
    ensures TableOk(s.gov) && Indexed(s.gov)
    ensures forall key <- s.gov.executionIds :: s.gov.executionIds[key] == ExecutionOf(key.0, key.1)
  {
    hide InFlightOk, KeysOk, BoxesOk, OutputsOk, MutationsOk;
  }

  lemma EntryTold(s: Sys, tenant: string, key: string)
    requires Told(s.gov, s.log, tenant, key)
    ensures var e := (tenant, ExecutionOf(tenant, key));
            e in s.gov.executions ==> s.gov.executions[e].changeId == s.gov.executions[e].inputHash.changeId
  {
  }

  lemma EndTells(s: Sys, id: nat, call: Call, o: Outcome, now: Time, tenant: string, key: string)
    requires Inv(s) && Bound(s.gov, call) && Told(s.gov, s.log, tenant, key)
    ensures Told(EndStep(s, id, call, o, now).gov, EndStep(s, id, call, o, now).log, tenant, key)
  {
    hide Inv, Told, Finished;
    var i, s' := call.intent, EndStep(s, id, call, o, now);
    TableOf(s);
    if s'.gov != s.gov || s'.log != s.log {
      var e := Gateway.Ended(i.tenantId, i.idempotencyKey, o);
      FinishFacts(s.gov, call, o, now);
      if (tenant, key) == (i.tenantId, i.idempotencyKey) {
        EntryTold(s, tenant, key);
        EndingTells(s, call, o, now);
        Concerned(s.gov, s'.gov, s.log, e, tenant, key);
      } else {
        OthersSame(s.gov, s'.gov, i.tenantId, i.idempotencyKey, Governance.Ended(s.gov.executions[EntryOf(i)], o, now), e);
        Unconcerned(s.gov, s'.gov, s.log, e, tenant, key);
      }
    }
  }

  lemma EndingTells(s: Sys, call: Call, o: Outcome, now: Time)
    requires EntryOf(call.intent) in s.gov.executions && s.gov.executions[EntryOf(call.intent)].status.RESERVED?
    requires Told(s.gov, s.log, call.intent.tenantId, call.intent.idempotencyKey)
    ensures Tells(Governance.Ended(s.gov.executions[EntryOf(call.intent)], o, now),
                  Gateway.Ended(call.intent.tenantId, call.intent.idempotencyKey, o))
  {
  }

  lemma AdvanceTells(s: Sys, id: nat, now: Time, tenant: string, key: string)
    requires Inv(s) && id in s.workers && Told(s.gov, s.log, tenant, key)
    ensures Told(AdvanceStep(s, id, s.workers[id], now).gov, AdvanceStep(s, id, s.workers[id], now).log, tenant, key)
  {
    hide Inv, Told, ReserveStep, EndStep, AfterPlan, AfterApproval, AfterPolicy;
    WorkerOf(s, id);
    hide Bound, WorkerOk;
    match s.workers[id]
    case Reserving(_, _, _) => ReserveTells(s, id, s.workers[id], now, tenant, key);
    case Completing(call, output) => EndTells(s, id, call, Done(output), now, tenant, key);
    case Failing(call, code) => EndTells(s, id, call, Broken(code), now, tenant, key);
    case Sending(call) => Unconcerned(s.gov, s.gov, s.log, ExecuteIssued(call), tenant, key);
    case _ =>
  }

  lemma WorkerOf(s: Sys, id: nat)
    requires Inv(s) && id in s.workers
    ensures s.workers[id].Completing? || s.workers[id].Failing? ==> Bound(s.gov, s.workers[id].call)
  {
    hide TableOk, KeysOk, BoxesOk, OutputsOk, MutationsOk, Bound, Recorded;
    assert WorkerOk(s.gov, s.boxes, s.workers[id]);
  }

  lemma StepTells(s: Sys, a: Action, tenant: string, key: string)
    requires Inv(s) && Told(s.gov, s.log, tenant, key)
    ensures Told(Act(s, a).gov, Act(s, a).log, tenant, key)
  {
    hide Inv, Told, RequestStep, DecideStep, AdvanceStep, AfterChange, Applied, Restored, Snapshotted;
    match a
    case RequestApproval(_, _, _, _, _, _, _, _) =>
      ApprovalsOnly(s, a);
      SameExecutions(s.gov, Act(s, a).gov, s.log, tenant, key);
    case Decide(_, _, _, _, _, _) =>
      ApprovalsOnly(s, a);
      SameExecutions(s.gov, Act(s, a).gov, s.log, tenant, key);
    case Advance(id, now) => if id in s.workers { AdvanceTells(s, id, now, tenant, key); }
    case Deliver(id, arrives) =>
      if id in s.sent {
        Unconcerned(s.gov, s.gov, s.log, Mutated(s.sent[id].system, s.sent[id].intent.tenantId, s.sent[id].intent.idempotencyKey), tenant, key);
      }
    case _ =>
  }

  lemma SameExecutions(g: Ledger, g': Ledger, log: seq<Event>, tenant: string, key: string)
    requires Told(g, log, tenant, key) && g'.executions == g.executions
    ensures Told(g', log, tenant, key)
  {
    hide Tells, LastOf;
  }

  lemma {:induction false} RecordsTell(registry: map<string, ToolRegistration>, seeds: map<string, Configuration>, actions: seq<Action>,
                                       tenant: string, key: string)
    ensures Told(Run(registry, seeds, actions).gov, Run(registry, seeds, actions).log, tenant, key)
  {
    hide Told, Act, Inv;
    if actions == [] {
      NothingTold(registry, seeds, tenant, key);
    } else {
      RecordsTell(registry, seeds, actions[..|actions| - 1], tenant, key);
      ReachableInv(registry, seeds, actions[..|actions| - 1]);
      StepTells(Run(registry, seeds, actions[..|actions| - 1]), actions[|actions| - 1], tenant, key);
    }
  }

  lemma NothingTold(registry: map<string, ToolRegistration>, seeds: map<string, Configuration>, tenant: string, key: string)
    ensures Told(Start(registry, seeds).gov, Start(registry, seeds).log, tenant, key)
  {
  }

  // ---------------------------------------------------------------- what is answered

  /** The key was granted for another input. */
  ghost predicate Taken(log: seq<Event>, i: Intent) {
    exists e <- log :: IsGrant(e, i.tenantId, i.idempotencyKey) && e.hash != SemanticInputHash(i)
  }

  /** Nothing holds or has finished the key: it is new, its last attempt failed, or its last grant is two minutes old. */
  predicate Free(last: Option<Event>, now: Time) {
    last.None? || (last.value.Granted? && last.value.at + 120 <= now) || (last.value.Ended? && last.value.outcome.Broken?)
  }

  lemma KeyFacts(g: Ledger, log: seq<Event>, i: Intent)
    requires TableOk(g) && KeyOk(g, log, i.tenantId, i.idempotencyKey) && Told(g, log, i.tenantId, i.idempotencyKey)
    ensures (i.tenantId, i.idempotencyKey) in g.executionIds <==> EntryOf(i) in g.executions
    ensures EntryOf(i) in g.executions ==>
              && g.executionIds[(i.tenantId, i.idempotencyKey)] == EntryOf(i).1 && g.executions[EntryOf(i)].id == EntryOf(i).1
              && g.executions[EntryOf(i)].attemptCount == Grants(log, i.tenantId, i.idempotencyKey)
              && (Taken(log, i) <==> g.executions[EntryOf(i)].inputHash != SemanticInputHash(i))
    ensures EntryOf(i) !in g.executions ==> !Taken(log, i) && Grants(log, i.tenantId, i.idempotencyKey) == 0
  {
    hide Spaced, Tells, LastOf;
  }

  lemma GrantedTo(g: Ledger, i: Intent, required: bool, approval: Option<Approval>, now: Time)
    requires Indexed(g) && ApprovalStands(g, i, required, approval, now)
    requires (i.tenantId, i.idempotencyKey) in g.executionIds <==> EntryOf(i) in g.executions
    requires EntryOf(i) in g.executions ==> g.executionIds[(i.tenantId, i.idempotencyKey)] == EntryOf(i).1
    requires EntryOf(i) in g.executions ==>
               && g.executions[EntryOf(i)].inputHash == SemanticInputHash(i) && !g.executions[EntryOf(i)].status.SUCCEEDED?
               && (g.executions[EntryOf(i)].status.RESERVED? ==> g.executions[EntryOf(i)].updatedAt + 120 <= now)
    ensures var (g', answer) := Reserved(g, i, required, approval, SemanticInputHash(i), now);
            && answer.Ok? && !answer.value.replayed && g'.executions == g.executions[EntryOf(i) := answer.value.record]
            && Tells(answer.value.record, Granted(i.tenantId, i.idempotencyKey, SemanticInputHash(i), now))
            && answer.value.record.attemptCount == 1 + (if EntryOf(i) in g.executions then g.executions[EntryOf(i)].attemptCount else 0)
            && answer.value.record.intentId == i.intentId && answer.value.record.approvalId == ApprovalIdOf(approval)
  {
    hide ApprovalStands;
  }

  lemma NotGranted(g: Ledger, i: Intent, required: bool, approval: Option<Approval>, now: Time)
    requires Indexed(g) && ApprovalStands(g, i, required, approval, now)
    requires EntryOf(i) in g.executions && (i.tenantId, i.idempotencyKey) in g.executionIds
    requires g.executionIds[(i.tenantId, i.idempotencyKey)] == EntryOf(i).1
    ensures var e, (g', answer) := g.executions[EntryOf(i)], Reserved(g, i, required, approval, SemanticInputHash(i), now);
            && (e.inputHash != SemanticInputHash(i) ==> answer == Err(IdempotencyConflict) && g' == g)
            && (e.inputHash == SemanticInputHash(i) && e.status.SUCCEEDED? ==> answer == Ok(Reservation(e, true)) && g' == g)
            && (e.inputHash == SemanticInputHash(i) && e.status.RESERVED? && now < e.updatedAt + 120 ==>
                  answer == Err(InProgress) && g' == g)
  {
    hide ApprovalStands;
  }

  /**
   Whatever has happened, a reservation that its approval covers is refused exactly for a key granted to another
   input or granted within two minutes and not ended, answered with the stored output exactly when the key has
   succeeded, and granted otherwise, as the key's next attempt.
   */
  lemma ReservationsAreAnswered(registry: map<string, ToolRegistration>, seeds: map<string, Configuration>, actions: seq<Action>,
                                i: Intent, required: bool, approval: Option<Approval>, now: Time)
    ensures Indexed(Run(registry, seeds, actions).gov)
    ensures var s := Run(registry, seeds, actions);
            var last := LastOf(s.log, i.tenantId, i.idempotencyKey);
            var (g, answer) := Reserved(s.gov, i, required, approval, SemanticInputHash(i), now);
            if !ApprovalStands(s.gov, i, required, approval, now) then answer.Err? && g == s.gov
            else if Taken(s.log, i) then answer == Err(IdempotencyConflict) && g == s.gov
            else if Free(last, now) then
              && answer.Ok? && !answer.value.replayed && g.executions == s.gov.executions[EntryOf(i) := answer.value.record]
              && Tells(answer.value.record, Granted(i.tenantId, i.idempotencyKey, SemanticInputHash(i), now))
              && answer.value.record.attemptCount == Grants(s.log, i.tenantId, i.idempotencyKey) + 1
              && answer.value.record.intentId == i.intentId && answer.value.record.approvalId == ApprovalIdOf(approval)
            else if last.value.Granted? then answer == Err(InProgress) && g == s.gov
            else
              && last.value.Ended? && last.value.outcome.Done? && g == s.gov
              && answer.Ok? && answer.value.replayed && answer.value.record.output == Some(last.value.outcome.output)
  {
    hide Run, Inv, Indexed, ApprovalStands, Reserved, Grants, Taken;
    var s := Run(registry, seeds, actions);
    ReachableInv(registry, seeds, actions);
    TableOf(s);
    if ApprovalStands(s.gov, i, required, approval, now) {
      RecordsTell(registry, seeds, actions, i.tenantId, i.idempotencyKey);
      KeyOf(s, i);
      hide TableOk;
      KeyFacts(s.gov, s.log, i);
      hide KeyOk;
      if Taken(s.log, i) || !Free(LastOf(s.log, i.tenantId, i.idempotencyKey), now) {
        NotGranted(s.gov, i, required, approval, now);
      } else {
        GrantedTo(s.gov, i, required, approval, now);
      }
    } else {
      NothingStands(s.gov, i, required, approval, now);
    }
  }

  lemma NothingStands(g: Ledger, i: Intent, required: bool, approval: Option<Approval>, now: Time)
    requires Indexed(g) && !ApprovalStands(g, i, required, approval, now)
    ensures Reserved(g, i, required, approval, SemanticInputHash(i), now).0 == g
    ensures Reserved(g, i, required, approval, SemanticInputHash(i), now).1.Err?
  {
    hide ApprovalStands;
  }

  lemma KeyOf(s: Sys, i: Intent)
    requires Inv(s)
    ensures KeyOk(s.gov, s.log, i.tenantId, i.idempotencyKey)
  {
    hide TableOk, InFlightOk, BoxesOk, OutputsOk, MutationsOk;
    OneKey(s.gov, s.log, i.tenantId, i.idempotencyKey);
  }

  /** An end is accepted exactly for a key whose last event is a grant, under that grant's change, and is what is stored. */
  lemma EndsAreAnswered(registry: map<string, ToolRegistration>, seeds: map<string, Configuration>, actions: seq<Action>,
                        tenant: string, changeId: string, key: string, o: Outcome, now: Time)
    ensures var s := Run(registry, seeds, actions);
            var last, e := LastOf(s.log, tenant, key), (tenant, ExecutionOf(tenant, key));
            var (g, answer) := Finished(s.gov, tenant, changeId, e.1, o, now);
            if last.Some? && last.value.Granted? && last.value.hash.changeId == changeId then
              && answer.Ok? && g.executions == s.gov.executions[e := answer.value] && Tells(answer.value, Gateway.Ended(tenant, key, o))
            else answer.Err? && g == s.gov
  {
    RecordsTell(registry, seeds, actions, tenant, key);
    hide Run;
  }
}
