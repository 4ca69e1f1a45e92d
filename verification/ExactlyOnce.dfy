/**
 At most one effect per idempotency key across the gateway's reservations and the three sandboxes' own
 tables, whatever is lost, delayed, repeated, abandoned, expired or restored.
 */
module ExactlyOnce {
  import opened Common
  import opened Plans
  import opened Policy
  import opened Governance
  import opened Executor
  import opened Sandbox
  import opened Gateway

  // ---------------------------------------------------------------- the invariant's parts

  /** Executions and their index name each other. */
  ghost predicate TableOk(g: Ledger) {
    && (forall key <- g.executionIds ::
          g.executionIds[key] == ExecutionOf(key.0, key.1) && (key.0, ExecutionOf(key.0, key.1)) in g.executions)
    && (forall e <- g.executions :: e.1.tenantId == e.0 && g.executions[e].id == e.1 && (e.0, e.1.key) in g.executionIds)
  }

  function EntryOf(i: Intent): (string, ExecutionId) {
    (i.tenantId, ExecutionOf(i.tenantId, i.idempotencyKey))
  }

  /** The call carries out the input its key is bound to. */
  ghost predicate Bound(g: Ledger, call: Call) {
    && EntryOf(call.intent) in g.executions && call.id == EntryOf(call.intent).1
    && g.executions[EntryOf(call.intent)].inputHash == SemanticInputHash(call.intent)
    && SystemForTool(call.intent.toolName) == Some(call.system)
    && PatchOf(call.intent.arguments, call.intent.idempotencyKey) == Some(call.request)
  }

  /** The sandbox's recorded result is `output`, up to the replay flag. */
  predicate Recorded(boxes: map<string, Box>, system: string, tenant: string, key: string, output: PatchResult) {
    && system in boxes && (tenant, key) in boxes[system].executions
    && output.(replayed := false) == boxes[system].executions[(tenant, key)]
  }

  ghost predicate WorkerOk(g: Ledger, boxes: map<string, Box>, pc: PC) {
    match pc
    case Sending(call) => Bound(g, call)
    case Executing(call) => Bound(g, call)
    case Failing(call, _) => Bound(g, call)
    case Completing(call, output) =>
      Bound(g, call) && Recorded(boxes, call.system, call.intent.tenantId, call.intent.idempotencyKey, output)
    case _ => true
  }

  /** A result is a first one, and its key is bound to one of the sandbox's own tools. */
  predicate ResultOk(g: Ledger, boxes: map<string, Box>, system: string, key: (string, string)) {
    system in boxes && key in boxes[system].executions ==>
      && (key.0, ExecutionOf(key.0, key.1)) in g.executions && !boxes[system].executions[key].replayed
      && SystemForTool(g.executions[(key.0, ExecutionOf(key.0, key.1))].inputHash.toolName) == Some(system)
  }

  ghost predicate BoxesOk(g: Ledger, boxes: map<string, Box>) {
    forall system, key :: ResultOk(g, boxes, system, key)
  }

  /** The output is what the tool's sandbox recorded. */
  predicate OutputOf(r: Execution, boxes: map<string, Box>, e: (string, ExecutionId)) {
    && r.output.Some? && SystemForTool(r.inputHash.toolName).Some?
    && Recorded(boxes, SystemForTool(r.inputHash.toolName).value, e.0, e.1.key, r.output.value)
  }

  ghost predicate OutputsOk(g: Ledger, boxes: map<string, Box>) {
    forall e <- g.executions | g.executions[e].status.SUCCEEDED? :: OutputOf(g.executions[e], boxes, e)
  }

  ghost predicate MutationsOk(boxes: map<string, Box>, log: seq<Event>) {
    && (forall e <- log :: e.Mutated? ==> e.system in boxes && (e.tenant, e.key) in boxes[e.system].executions)
    && (forall i, j | 0 <= i < j < |log| && log[i].Mutated? && log[j].Mutated? ::
          (log[i].tenant, log[i].key) != (log[j].tenant, log[j].key))
  }

  // ---------------------------------------------------------------- grants

  predicate IsGrant(e: Event, tenant: string, key: string) {
    e.Granted? && e.tenant == tenant && e.key == key
  }

  predicate IsEnd(e: Event, tenant: string, key: string) {
    e.Ended? && e.tenant == tenant && e.key == key
  }

  function Grants(log: seq<Event>, tenant: string, key: string): nat {
    if log == [] then 0
    else Grants(log[..|log| - 1], tenant, key) + if IsGrant(log[|log| - 1], tenant, key) then 1 else 0
  }

  predicate Unfinished(log: seq<Event>, from: nat, to: nat, tenant: string, key: string)
    requires to <= |log|
  {
    forall m | from < m < to :: !IsEnd(log[m], tenant, key)
  }

  /** Two grants of one key with no end between them are at least a lease apart. */
  ghost predicate Spaced(log: seq<Event>, tenant: string, key: string) {
    forall i, j | 0 <= i < j < |log| && IsGrant(log[i], tenant, key) && IsGrant(log[j], tenant, key)
                  && Unfinished(log, i, j, tenant, key) ::
      log[j].at >= log[i].at + LEASE
  }

  /** The record of a key counts its grants and remembers the last; without a record there were none. */
  ghost predicate KeyOk(g: Ledger, log: seq<Event>, tenant: string, key: string) {
    var e := (tenant, ExecutionOf(tenant, key));
    && Spaced(log, tenant, key)
    && if e in g.executions then
         && g.executions[e].attemptCount == Grants(log, tenant, key)
         && (forall i | 0 <= i < |log| && IsGrant(log[i], tenant, key) ::
               && log[i].hash == g.executions[e].inputHash
               && (Unfinished(log, i, |log|, tenant, key) ==>
                     g.executions[e].status.RESERVED? && log[i].at <= g.executions[e].updatedAt))
       else Grants(log, tenant, key) == 0 && forall i | 0 <= i < |log| :: !IsGrant(log[i], tenant, key)
  }

  ghost predicate Inv(s: Sys) {
    && TableOk(s.gov) && InFlightOk(s) && KeysOk(s.gov, s.log)
    && BoxesOk(s.gov, s.boxes) && OutputsOk(s.gov, s.boxes) && MutationsOk(s.boxes, s.log)
  }

  /** Every call sent and every worker that holds one is bound. */
  ghost predicate InFlightOk(s: Sys) {
    && (forall id <- s.sent :: Bound(s.gov, s.sent[id]))
    && (forall id <- s.workers :: WorkerOk(s.gov, s.boxes, s.workers[id]))
  }

  ghost predicate KeysOk(g: Ledger, log: seq<Event>) {
    forall tenant, key :: KeyOk(g, log, tenant, key)
  }

  // ---------------------------------------------------------------- what is never undone

  /** Keys stay bound to their input, and successful records never change. */
  ghost predicate LedgerKeeps(g: Ledger, g': Ledger) {
    forall e <- g.executions ::
      && e in g'.executions && g'.executions[e].inputHash == g.executions[e].inputHash
      && (g.executions[e].status.SUCCEEDED? ==> g'.executions[e] == g.executions[e])
  }

  /** Recorded results are never dropped or replaced. */
  ghost predicate BoxesKeep(b: map<string, Box>, b': map<string, Box>) {
    && b.Keys == b'.Keys
    && forall system <- b, key <- b[system].executions ::
         key in b'[system].executions && b'[system].executions[key] == b[system].executions[key]
  }

  ghost predicate Keeps(s: Sys, s': Sys) {
    LedgerKeeps(s.gov, s'.gov) && BoxesKeep(s.boxes, s'.boxes)
  }

  lemma KeepsOn(a: Sys, b: Sys, c: Sys)
    ensures Keeps(a, a)
    ensures Keeps(a, b) && Keeps(b, c) ==> Keeps(a, c)
  {
  }

  lemma BoundStays(g: Ledger, g': Ledger, call: Call)
    requires Bound(g, call) && LedgerKeeps(g, g')
    ensures Bound(g', call)
  {
  }

  lemma WorkerStays(s: Sys, s': Sys, pc: PC)
    requires WorkerOk(s.gov, s.boxes, pc) && Keeps(s, s')
    ensures WorkerOk(s'.gov, s'.boxes, pc)
  {
    hide Bound, LedgerKeeps;
    if pc.Sending? || pc.Executing? || pc.Failing? || pc.Completing? { BoundStays(s.gov, s'.gov, pc.call); }
  }

  /** Workers and calls in flight are undisturbed by anything that keeps the tables. */
  lemma InFlightFrame(s: Sys, s': Sys, id: nat)
    requires InFlightOk(s) && Keeps(s, s')
    requires forall w <- s'.workers :: w == id || (w in s.workers && s'.workers[w] == s.workers[w])
    requires id in s'.workers && (id !in s.workers || s'.workers[id] != s.workers[id]) ==> WorkerOk(s'.gov, s'.boxes, s'.workers[id])
    requires forall w <- s'.sent :: (w in s.sent && s'.sent[w] == s.sent[w]) || Bound(s'.gov, s'.sent[w])
    ensures InFlightOk(s')
  {
    hide WorkerOk, Bound, Keeps;
    forall w | w in s'.workers ensures WorkerOk(s'.gov, s'.boxes, s'.workers[w]) {
      if w in s.workers && s'.workers[w] == s.workers[w] { WorkerStays(s, s', s.workers[w]); }
    }
    forall w | w in s'.sent ensures Bound(s'.gov, s'.sent[w]) {
      if w in s.sent && s'.sent[w] == s.sent[w] { SentStays(s, s', s.sent[w]); }
    }
  }

  lemma SentStays(s: Sys, s': Sys, call: Call)
    requires Bound(s.gov, call) && Keeps(s, s')
    ensures Bound(s'.gov, call)
  {
    BoundStays(s.gov, s'.gov, call);
  }

  // ---------------------------------------------------------------- one key's grants

  lemma GrantsAppend(log: seq<Event>, e: Event, tenant: string, key: string)
    ensures Grants(log + [e], tenant, key) == Grants(log, tenant, key) + if IsGrant(e, tenant, key) then 1 else 0
  {
    assert (log + [e])[..|log|] == log;
  }

  predicate SameEntry(g: Ledger, g': Ledger, tenant: string, key: string) {
    var e := (tenant, ExecutionOf(tenant, key));
    if e in g.executions then e in g'.executions && g'.executions[e] == g.executions[e] else e !in g'.executions
  }

  lemma UnfinishedPrefix(log: seq<Event>, e: Event, i: nat, j: nat, tenant: string, key: string)
    requires j <= |log|
    ensures Unfinished(log + [e], i, j, tenant, key) <==> Unfinished(log, i, j, tenant, key)
    ensures i < |log| ==> (Unfinished(log + [e], i, |log| + 1, tenant, key)
                           <==> Unfinished(log, i, |log|, tenant, key) && !IsEnd(e, tenant, key))
  {
    var all := log + [e];
    if Unfinished(all, i, j, tenant, key) {
      forall m | i < m < j ensures !IsEnd(log[m], tenant, key) { assert all[m] == log[m]; }
    }
    if i < |log| && Unfinished(all, i, |all|, tenant, key) {
      forall m | i < m < |log| ensures !IsEnd(log[m], tenant, key) { assert all[m] == log[m]; }
      assert all[|log|] == e;
    }
  }

  /** An event that is no grant of the key keeps its grants spaced. */
  lemma SpacedAppend(log: seq<Event>, e: Event, tenant: string, key: string)
    requires Spaced(log, tenant, key) && !IsGrant(e, tenant, key)
    ensures Spaced(log + [e], tenant, key)
  {
    hide Unfinished, IsEnd;
    var all := log + [e];
    forall i, j | 0 <= i < j < |all| && IsGrant(all[i], tenant, key) && IsGrant(all[j], tenant, key) && Unfinished(all, i, j, tenant, key)
      ensures all[j].at >= all[i].at + LEASE
    {
      assert j < |log|;
      UnfinishedPrefix(log, e, i, j, tenant, key);
    }
  }

  lemma KeyUnaffected(g: Ledger, g': Ledger, log: seq<Event>, e: Event, tenant: string, key: string)
    requires KeyOk(g, log, tenant, key) && SameEntry(g, g', tenant, key)
    requires !IsGrant(e, tenant, key) && !IsEnd(e, tenant, key)
    ensures KeyOk(g', log + [e], tenant, key)
  {
    hide Unfinished, Spaced;
    SpacedAppend(log, e, tenant, key);
    GrantsAppend(log, e, tenant, key);
    var all := log + [e];
    forall i | 0 <= i < |all| && IsGrant(all[i], tenant, key)
      ensures i < |log| && log[i] == all[i]
      ensures Unfinished(all, i, |all|, tenant, key) <==> Unfinished(log, i, |log|, tenant, key)
    {
      UnfinishedPrefix(log, e, i, |log|, tenant, key);
    }
  }

  /** A new lease starts no record early: the last unfinished grant is a lease old, and now the newest. */
  lemma KeyGranted(g: Ledger, g': Ledger, log: seq<Event>, hash: InputDigest, at: Time, tenant: string, key: string)
    requires KeyOk(g, log, tenant, key)
    requires var e := (tenant, ExecutionOf(tenant, key));
             && e in g'.executions && g'.executions[e].status.RESERVED? && g'.executions[e].updatedAt == at
             && g'.executions[e].inputHash == hash
             && if e in g.executions then
                  && g.executions[e].inputHash == hash && g'.executions[e].attemptCount == g.executions[e].attemptCount + 1
                  && (g.executions[e].status.RESERVED? ==> g.executions[e].updatedAt <= at - LEASE)
                else g'.executions[e].attemptCount == 1
    ensures KeyOk(g', log + [Granted(tenant, key, hash, at)], tenant, key)
  {
    hide Unfinished;
    var event := Granted(tenant, key, hash, at);
    var all := log + [event];
    GrantsAppend(log, event, tenant, key);
    forall i | 0 <= i < |log| && IsGrant(log[i], tenant, key) && Unfinished(all, i, |log|, tenant, key)
      ensures log[i].at <= at - LEASE
    {
      UnfinishedPrefix(log, event, i, |log|, tenant, key);
    }
    forall i | 0 <= i < |log| && IsGrant(log[i], tenant, key) && Unfinished(all, i, |all|, tenant, key)
      ensures log[i].at <= at
    {
      UnfinishedPrefix(log, event, i, |log|, tenant, key);
    }
    forall i, j | 0 <= i < j < |all| && IsGrant(all[i], tenant, key) && IsGrant(all[j], tenant, key) && Unfinished(all, i, j, tenant, key)
      ensures all[j].at >= all[i].at + LEASE
    {
      if j < |log| { UnfinishedPrefix(log, event, i, j, tenant, key); }
    }
  }

  /** An end closes every grant of its key so far. */
  lemma KeyEnded(g: Ledger, g': Ledger, log: seq<Event>, tenant: string, key: string, o: Outcome)
    requires KeyOk(g, log, tenant, key)
    requires var e := (tenant, ExecutionOf(tenant, key));
             && e in g.executions && e in g'.executions && g'.executions[e].inputHash == g.executions[e].inputHash
             && g'.executions[e].attemptCount == g.executions[e].attemptCount
    ensures KeyOk(g', log + [Ended(tenant, key, o)], tenant, key)
  {
    hide Unfinished, Spaced;
    var event := Ended(tenant, key, o);
    var all := log + [event];
    SpacedAppend(log, event, tenant, key);
    GrantsAppend(log, event, tenant, key);
    forall i | 0 <= i < |all| && IsGrant(all[i], tenant, key)
      ensures i < |log| && log[i] == all[i] && !Unfinished(all, i, |all|, tenant, key)
    {
      UnfinishedPrefix(log, event, i, |log|, tenant, key);
    }
  }

  // ---------------------------------------------------------------- the gateway's tables

  lemma TableIsIndexed(g: Ledger)
    requires TableOk(g)
    ensures Indexed(g)
  {
  }

  /** What a granted reservation does to the executions. */
  lemma GrantFacts(g: Ledger, i: Intent, required: bool, approval: Option<Approval>, now: Time)
    requires TableOk(g) && Indexed(g)
    requires var r := Reserved(g, i, required, approval, SemanticInputHash(i), now).1; r.Ok? && !r.value.replayed
    ensures var g', r := Reserved(g, i, required, approval, SemanticInputHash(i), now).0,
                         Reserved(g, i, required, approval, SemanticInputHash(i), now).1.value.record;
            && g'.executions == g.executions[EntryOf(i) := r] && r.id == EntryOf(i).1
            && g'.executionIds == g.executionIds[(i.tenantId, i.idempotencyKey) := EntryOf(i).1]
            && r.status.RESERVED? && r.updatedAt == now && r.inputHash == SemanticInputHash(i)
            && (if EntryOf(i) in g.executions then
                  && !g.executions[EntryOf(i)].status.SUCCEEDED?
                  && g.executions[EntryOf(i)].inputHash == SemanticInputHash(i)
                  && r.attemptCount == g.executions[EntryOf(i)].attemptCount + 1
                  && (g.executions[EntryOf(i)].status.RESERVED? ==> g.executions[EntryOf(i)].updatedAt <= now - LEASE)
                else r.attemptCount == 1)
  {
    hide ApprovalStands;
    var key := (i.tenantId, i.idempotencyKey);
    assert key in g.executionIds <==> EntryOf(i) in g.executions;
    if key in g.executionIds {
      assert g.executions[EntryOf(i)].id == EntryOf(i).1;
      assert g.executionIds[key := EntryOf(i).1] == g.executionIds;
    }
  }

  lemma TableGrows(g: Ledger, g': Ledger, i: Intent, r: Execution)
    requires TableOk(g) && g'.executions == g.executions[EntryOf(i) := r] && r.id == EntryOf(i).1
    requires g'.executionIds == g.executionIds[(i.tenantId, i.idempotencyKey) := EntryOf(i).1]
    requires EntryOf(i) in g.executions ==>
               !g.executions[EntryOf(i)].status.SUCCEEDED? && g.executions[EntryOf(i)].inputHash == r.inputHash
    ensures TableOk(g') && LedgerKeeps(g, g')
  {
    IndexGrows(g, g', i, r);
    hide TableOk;
  }

  lemma IndexGrows(g: Ledger, g': Ledger, i: Intent, r: Execution)
    requires TableOk(g) && g'.executions == g.executions[EntryOf(i) := r] && r.id == EntryOf(i).1
    requires g'.executionIds == g.executionIds[(i.tenantId, i.idempotencyKey) := EntryOf(i).1]
    ensures TableOk(g')
  {
    forall key | key in g'.executionIds
      ensures g'.executionIds[key] == ExecutionOf(key.0, key.1) && (key.0, ExecutionOf(key.0, key.1)) in g'.executions
    {
      if key != (i.tenantId, i.idempotencyKey) { assert key in g.executionIds; }
    }
    forall e | e in g'.executions
      ensures e.1.tenantId == e.0 && g'.executions[e].id == e.1 && (e.0, e.1.key) in g'.executionIds
    {
      if e != EntryOf(i) { assert e in g.executions; }
    }
  }

  lemma FinishFacts(g: Ledger, call: Call, o: Outcome, now: Time)
    requires TableOk(g) && Bound(g, call)
    requires Finished(g, call.intent.tenantId, call.intent.changeId, call.id, o, now).1.Ok?
    ensures var g' := Finished(g, call.intent.tenantId, call.intent.changeId, call.id, o, now).0;
            && g.executions[EntryOf(call.intent)].status.RESERVED?
            && g'.executions == g.executions[EntryOf(call.intent) := Governance.Ended(g.executions[EntryOf(call.intent)], o, now)]
            && TableOk(g') && LedgerKeeps(g, g')
  {
    hide TableOk, LedgerKeeps, SystemForTool, PatchOf;
    var e := EntryOf(call.intent);
    assert (call.intent.tenantId, call.id) == e;
    EntryRewritten(g, Finished(g, call.intent.tenantId, call.intent.changeId, call.id, o, now).0, e,
                   Governance.Ended(g.executions[e], o, now));
  }

  lemma EntryRewritten(g: Ledger, g': Ledger, e: (string, ExecutionId), r: Execution)
    requires TableOk(g) && e in g.executions && !g.executions[e].status.SUCCEEDED?
    requires g'.executions == g.executions[e := r] && g'.executionIds == g.executionIds
    requires r.id == g.executions[e].id && r.inputHash == g.executions[e].inputHash
    ensures TableOk(g') && LedgerKeeps(g, g')
  {
    forall x | x in g'.executions
      ensures x.1.tenantId == x.0 && g'.executions[x].id == x.1 && (x.0, x.1.key) in g'.executionIds
    {
      assert x in g.executions;
    }
    forall key | key in g'.executionIds
      ensures g'.executionIds[key] == ExecutionOf(key.0, key.1) && (key.0, ExecutionOf(key.0, key.1)) in g'.executions
    {
      assert key in g.executionIds;
    }
  }

  /** Rewriting one unsuccessful entry keeps what the sandboxes' tables and the other outputs say. */
  lemma EntryChanges(g: Ledger, g': Ledger, boxes: map<string, Box>, e: (string, ExecutionId), r: Execution)
    requires BoxesOk(g, boxes) && OutputsOk(g, boxes) && g'.executions == g.executions[e := r] && LedgerKeeps(g, g')
    requires r.status.SUCCEEDED? ==> OutputOf(r, boxes, e)
    ensures BoxesOk(g', boxes) && OutputsOk(g', boxes)
  {
    BoxesFollow(g, g', boxes);
    hide OutputOf, LedgerKeeps, BoxesOk;
    forall x | x in g'.executions && g'.executions[x].status.SUCCEEDED? ensures OutputOf(g'.executions[x], boxes, x) {
      if x != e { assert x in g.executions && g'.executions[x] == g.executions[x]; }
    }
  }

  /** Keys that stay bound to their input keep the sandboxes' tables in order. */
  lemma BoxesFollow(g: Ledger, g': Ledger, boxes: map<string, Box>)
    requires BoxesOk(g, boxes) && LedgerKeeps(g, g')
    ensures BoxesOk(g', boxes)
  {
    hide SystemForTool;
    forall system, key ensures ResultOk(g', boxes, system, key) {
      assert ResultOk(g, boxes, system, key);
    }
  }

  lemma MutationsAppend(boxes: map<string, Box>, log: seq<Event>, e: Event)
    requires MutationsOk(boxes, log) && !e.Mutated?
    ensures MutationsOk(boxes, log + [e])
  {
  }

  lemma AllKeysAfter(s: Sys, s': Sys, e: Event, tenant: string, key: string)
    requires KeysOk(s.gov, s.log) && s'.log == s.log + [e]
    requires KeyOk(s'.gov, s'.log, tenant, key)
    requires forall t, k | (t, k) != (tenant, key) :: SameEntry(s.gov, s'.gov, t, k) && !IsGrant(e, t, k) && !IsEnd(e, t, k)
    ensures KeysOk(s'.gov, s'.log)
  {
    hide KeyOk, SameEntry, IsGrant, IsEnd;
    forall t, k ensures KeyOk(s'.gov, s'.log, t, k) {
      if (t, k) != (tenant, key) { KeyUnaffected(s.gov, s'.gov, s.log, e, t, k); }
    }
  }

  lemma OthersSame(g: Ledger, g': Ledger, tenant: string, key: string, r: Execution, e: Event)
    requires g'.executions == g.executions[(tenant, ExecutionOf(tenant, key)) := r]
    requires (e.Granted? || e.Ended?) && e.tenant == tenant && e.key == key
    ensures forall t, k | (t, k) != (tenant, key) :: SameEntry(g, g', t, k) && !IsGrant(e, t, k) && !IsEnd(e, t, k)
  {
  }

  lemma OneKey(g: Ledger, log: seq<Event>, tenant: string, key: string)
    requires KeysOk(g, log)
    ensures KeyOk(g, log, tenant, key)
  {
  }

  // ---------------------------------------------------------------- steps

  lemma ReserveKeeps(s: Sys, id: nat, pc: PC, now: Time)
    requires Inv(s) && pc.Reserving?
    ensures Inv(ReserveStep(s, id, pc, now)) && Keeps(s, ReserveStep(s, id, pc, now))
  {
    hide SystemForTool, PatchOf, Reserved, TableOk, WorkerOk, Bound, InFlightOk, KeysOk, BoxesOk, OutputsOk, MutationsOk, LedgerKeeps, BoxesKeep;
    var s', i := ReserveStep(s, id, pc, now), pc.intent;
    TableIsIndexed(s.gov);
    var result := Reserved(s.gov, i, pc.required, pc.approval, SemanticInputHash(i), now).1;
    if SystemForTool(i.toolName).None? || PatchOf(i.arguments, i.idempotencyKey).None? || result.Err? || result.value.replayed {
      KeepsOn(s, s, s);
      StoppedOk(s', id);
      InFlightFrame(s, s', id);
    } else {
      GrantKeeps(s, id, pc, now);
    }
  }

  lemma GrantKeeps(s: Sys, id: nat, pc: PC, now: Time)
    requires Inv(s) && pc.Reserving?
    requires SystemForTool(pc.intent.toolName).Some? && PatchOf(pc.intent.arguments, pc.intent.idempotencyKey).Some?
    requires var result := Reserved(s.gov, pc.intent, pc.required, pc.approval, SemanticInputHash(pc.intent), now).1;
             result.Ok? && !result.value.replayed
    ensures Inv(ReserveStep(s, id, pc, now)) && Keeps(s, ReserveStep(s, id, pc, now))
  {
    hide SystemForTool, PatchOf, Reserved, TableOk, WorkerOk, Bound, InFlightOk, KeysOk, SameEntry, IsGrant, IsEnd, BoxesOk, OutputsOk, MutationsOk, KeyOk, LedgerKeeps, BoxesKeep, Recorded, OutputOf;
    TableIsIndexed(s.gov);
    var s', i := ReserveStep(s, id, pc, now), pc.intent;
    var result := Reserved(s.gov, i, pc.required, pc.approval, SemanticInputHash(i), now).1;
    KeepsOn(s, s, s);
    GrantFacts(s.gov, i, pc.required, pc.approval, now);
    TableGrows(s.gov, s'.gov, i, result.value.record);
    NewCallBound(s, s', id, pc, now);
    InFlightFrame(s, s', id);
    EntryChanges(s.gov, s'.gov, s.boxes, EntryOf(i), result.value.record);
    var event := Granted(i.tenantId, i.idempotencyKey, SemanticInputHash(i), now);
    MutationsAppend(s.boxes, s.log, event);
    GrantedKeys(s, s', i, result.value.record, now);
  }

  lemma GrantedKeys(s: Sys, s': Sys, i: Intent, r: Execution, now: Time)
    requires KeysOk(s.gov, s.log) && s'.log == s.log + [Granted(i.tenantId, i.idempotencyKey, SemanticInputHash(i), now)]
    requires s'.gov.executions == s.gov.executions[EntryOf(i) := r]
    requires r.status.RESERVED? && r.updatedAt == now && r.inputHash == SemanticInputHash(i)
    requires if EntryOf(i) in s.gov.executions then
               && s.gov.executions[EntryOf(i)].inputHash == SemanticInputHash(i)
               && r.attemptCount == s.gov.executions[EntryOf(i)].attemptCount + 1
               && (s.gov.executions[EntryOf(i)].status.RESERVED? ==> s.gov.executions[EntryOf(i)].updatedAt <= now - LEASE)
             else r.attemptCount == 1
    ensures KeysOk(s'.gov, s'.log)
  {
    hide KeysOk, KeyOk, SameEntry, IsGrant, IsEnd;
    var event := Granted(i.tenantId, i.idempotencyKey, SemanticInputHash(i), now);
    OneKey(s.gov, s.log, i.tenantId, i.idempotencyKey);
    KeyGranted(s.gov, s'.gov, s.log, SemanticInputHash(i), now, i.tenantId, i.idempotencyKey);
    OthersSame(s.gov, s'.gov, i.tenantId, i.idempotencyKey, r, event);
    AllKeysAfter(s, s', event, i.tenantId, i.idempotencyKey);
  }

  lemma StoppedOk(s: Sys, id: nat)
    requires id in s.workers && s.workers[id].Stopped?
    ensures WorkerOk(s.gov, s.boxes, s.workers[id])
  {
  }

  lemma NewCallBound(s: Sys, s': Sys, id: nat, pc: PC, now: Time)
    requires pc.Reserving? && id in s'.workers && s'.workers[id].Sending?
    requires var call, i := s'.workers[id].call, pc.intent;
             && call.intent == i && SystemForTool(i.toolName) == Some(call.system)
             && PatchOf(i.arguments, i.idempotencyKey) == Some(call.request) && call.id == EntryOf(i).1
             && EntryOf(i) in s'.gov.executions && s'.gov.executions[EntryOf(i)].inputHash == SemanticInputHash(i)
    ensures WorkerOk(s'.gov, s'.boxes, s'.workers[id])
  {
  }

  lemma EndKeeps(s: Sys, id: nat, call: Call, o: Outcome, now: Time)
    requires Inv(s) && Bound(s.gov, call)
    requires o.Done? ==> Recorded(s.boxes, call.system, call.intent.tenantId, call.intent.idempotencyKey, o.output)
    ensures Inv(EndStep(s, id, call, o, now)) && Keeps(s, EndStep(s, id, call, o, now))
  {
    hide SystemForTool, PatchOf, Finished, TableOk, WorkerOk, InFlightOk, KeysOk, SameEntry, IsGrant, IsEnd, BoxesOk, OutputsOk, MutationsOk, KeyOk, LedgerKeeps, BoxesKeep, Recorded;
    var s', i := EndStep(s, id, call, o, now), call.intent;
    KeepsOn(s, s, s);
    StoppedOk(s', id);
    if Finished(s.gov, i.tenantId, i.changeId, call.id, o, now).1.Err? {
      InFlightFrame(s, s', id);
    } else {
      FinishFacts(s.gov, call, o, now);
      InFlightFrame(s, s', id);
      var r := Governance.Ended(s.gov.executions[EntryOf(i)], o, now);
      EntryChanges(s.gov, s'.gov, s.boxes, EntryOf(i), r);
      var event := Gateway.Ended(i.tenantId, i.idempotencyKey, o);
      MutationsAppend(s.boxes, s.log, event);
      OneKey(s.gov, s.log, i.tenantId, i.idempotencyKey);
      KeyEnded(s.gov, s'.gov, s.log, i.tenantId, i.idempotencyKey, o);
      OthersSame(s.gov, s'.gov, i.tenantId, i.idempotencyKey, r, event);
      AllKeysAfter(s, s', event, i.tenantId, i.idempotencyKey);
    }
  }

  // ---------------------------------------------------------------- deliveries

  /** The sandbox either replays what it recorded, refuses, or records a first result. */
  lemma AppliedFacts(b: Box, tenant: string, q: FieldPatchRequest)
    ensures var (b', result) := Applied(b, tenant, q); var key := (tenant, q.idempotencyKey);
            if result.Ok? && !result.value.replayed then
              key !in b.executions && b'.executions == b.executions[key := result.value]
            else b'.executions == b.executions
                 && (result.Ok? ==> key in b.executions && result.value == b.executions[key].(replayed := true))
  {
  }

  /** What one delivery does to the tables and the log. */
  lemma DeliverFacts(s: Sys, id: nat, call: Call, arrives: bool)
    requires call.system in s.boxes && call.request.idempotencyKey == call.intent.idempotencyKey
    requires forall key <- s.boxes[call.system].executions :: !s.boxes[call.system].executions[key].replayed
    ensures var s', key := DeliverStep(s, id, call, arrives), (call.intent.tenantId, call.intent.idempotencyKey);
            var (b', result) := Applied(s.boxes[call.system], call.intent.tenantId, call.request);
            && s'.boxes == s.boxes[call.system := b'] && BoxesKeep(s.boxes, s'.boxes)
            && (if result.Ok? && !result.value.replayed then
                  && key !in s.boxes[call.system].executions && s'.log == s.log + [Mutated(call.system, key.0, key.1)]
                  && b'.executions == s.boxes[call.system].executions[key := result.value]
                else s'.log == s.log && b'.executions == s.boxes[call.system].executions)
            && (result.Ok? ==> Recorded(s'.boxes, call.system, key.0, key.1, result.value))
  {
    AppliedFacts(s.boxes[call.system], call.intent.tenantId, call.request);
  }

  lemma FirstResults(g: Ledger, boxes: map<string, Box>, system: string)
    requires BoxesOk(g, boxes) && system in boxes
    ensures forall key <- boxes[system].executions :: !boxes[system].executions[key].replayed
  {
    forall key | key in boxes[system].executions ensures !boxes[system].executions[key].replayed {
      assert ResultOk(g, boxes, system, key);
    }
  }

  lemma BoxRecords(g: Ledger, b: map<string, Box>, b': map<string, Box>, call: Call, result: PatchResult)
    requires BoxesOk(g, b) && Bound(g, call) && call.system in b && !result.replayed
    requires b'.Keys == b.Keys && forall system <- b | system != call.system :: b'[system] == b[system]
    requires b'[call.system].executions
             == b[call.system].executions[(call.intent.tenantId, call.intent.idempotencyKey) := result]
    ensures BoxesOk(g, b')
  {
    hide SystemForTool, PatchOf;
    var mine := (call.intent.tenantId, call.intent.idempotencyKey);
    BoundKey(g, call);
    forall system, key ensures ResultOk(g, b', system, key) {
      if system == call.system && key == mine {
        assert b'[system].executions[key] == result;
      } else {
        assert ResultOk(g, b, system, key);
      }
    }
  }

  lemma BoundKey(g: Ledger, call: Call)
    requires Bound(g, call)
    ensures EntryOf(call.intent) in g.executions
    ensures SystemForTool(g.executions[EntryOf(call.intent)].inputHash.toolName) == Some(call.system)
  {
    hide SystemForTool, PatchOf;
    assert g.executions[EntryOf(call.intent)].inputHash.toolName == call.intent.toolName;
  }

  /** A first effect for a key is the only one: every table that could hold another is this one. */
  lemma FirstMutation(g: Ledger, b: map<string, Box>, b': map<string, Box>, log: seq<Event>, call: Call)
    requires BoxesOk(g, b) && MutationsOk(b, log) && Bound(g, call) && call.system in b && BoxesKeep(b, b')
    requires (call.intent.tenantId, call.intent.idempotencyKey) !in b[call.system].executions
    requires (call.intent.tenantId, call.intent.idempotencyKey) in b'[call.system].executions
    ensures MutationsOk(b', log + [Mutated(call.system, call.intent.tenantId, call.intent.idempotencyKey)])
  {
    hide SystemForTool, PatchOf, Bound;
    var key := (call.intent.tenantId, call.intent.idempotencyKey);
    var all := log + [Mutated(call.system, key.0, key.1)];
    BoundKey(g, call);
    forall i | 0 <= i < |log| && log[i].Mutated? ensures (log[i].tenant, log[i].key) != key {
      assert log[i] in log;
      assert ResultOk(g, b, log[i].system, (log[i].tenant, log[i].key));
    }
    MutationsStay(b, b', log);
    forall i, j | 0 <= i < j < |all| && all[i].Mutated? && all[j].Mutated?
      ensures (all[i].tenant, all[i].key) != (all[j].tenant, all[j].key)
    {
      assert all[i] == log[i];
    }
  }

  lemma MutationsStay(b: map<string, Box>, b': map<string, Box>, log: seq<Event>)
    requires MutationsOk(b, log) && BoxesKeep(b, b')
    ensures MutationsOk(b', log)
  {
    forall e | e in log && e.Mutated? ensures e.system in b' && (e.tenant, e.key) in b'[e.system].executions {
      assert (e.tenant, e.key) in b[e.system].executions;
    }
  }

  lemma OutputsStay(g: Ledger, b: map<string, Box>, b': map<string, Box>)
    requires OutputsOk(g, b) && BoxesKeep(b, b')
    ensures OutputsOk(g, b')
  {
    hide SystemForTool;
    forall e | e in g.executions && g.executions[e].status.SUCCEEDED? ensures OutputOf(g.executions[e], b', e) {
      assert OutputOf(g.executions[e], b, e);
    }
  }

  lemma SameBoxesOk(g: Ledger, b: map<string, Box>, b': map<string, Box>)
    requires BoxesOk(g, b) && b'.Keys == b.Keys && forall system <- b :: b'[system].executions == b[system].executions
    ensures BoxesOk(g, b') && BoxesKeep(b, b')
  {
    hide SystemForTool;
    forall system, key ensures ResultOk(g, b', system, key) {
      assert ResultOk(g, b, system, key);
    }
  }

  lemma DeliveredWorkerOk(s: Sys, s': Sys, id: nat, call: Call, arrives: bool)
    requires s' == DeliverStep(s, id, call, arrives) && call.system in s.boxes && Bound(s.gov, call)
    requires s.workers.Keys == s'.workers.Keys
    requires var result := Applied(s.boxes[call.system], call.intent.tenantId, call.request).1;
             result.Ok? ==> Recorded(s'.boxes, call.system, call.intent.tenantId, call.intent.idempotencyKey, result.value)
    ensures id in s'.workers && s'.workers[id] != s.workers[id] ==> WorkerOk(s'.gov, s'.boxes, s'.workers[id])
  {
    hide Bound, Applied, Recorded, Answers;
  }

  lemma KeysUnaffected(g: Ledger, log: seq<Event>, e: Event)
    requires KeysOk(g, log) && !e.Granted? && !e.Ended?
    ensures KeysOk(g, log + [e])
  {
    hide KeyOk;
    forall tenant, key ensures KeyOk(g, log + [e], tenant, key) {
      KeyUnaffected(g, g, log, e, tenant, key);
    }
  }

  lemma DeliverKeeps(s: Sys, id: nat, call: Call, arrives: bool)
    requires Inv(s) && Bound(s.gov, call)
    ensures Inv(DeliverStep(s, id, call, arrives)) && Keeps(s, DeliverStep(s, id, call, arrives))
  {
    hide SystemForTool, PatchOf, Applied, TableOk, WorkerOk, InFlightOk, KeysOk, BoxesOk, OutputsOk, MutationsOk, Recorded, LedgerKeeps, BoxesKeep;
    var s' := DeliverStep(s, id, call, arrives);
    KeepsOn(s, s, s);
    if call.system in s.boxes {
      PatchKeepsKey(call.intent);
      FirstResults(s.gov, s.boxes, call.system);
      DeliverFacts(s, id, call, arrives);
      DeliveredWorkerOk(s, s', id, call, arrives);
      InFlightFrame(s, s', id);
      OutputsStay(s.gov, s.boxes, s'.boxes);
      var result := Applied(s.boxes[call.system], call.intent.tenantId, call.request).1;
      if result.Ok? && !result.value.replayed {
        BoxRecords(s.gov, s.boxes, s'.boxes, call, result.value);
        FirstMutation(s.gov, s.boxes, s'.boxes, s.log, call);
        KeysUnaffected(s.gov, s.log, Mutated(call.system, call.intent.tenantId, call.intent.idempotencyKey));
      } else {
        SameBoxesOk(s.gov, s.boxes, s'.boxes);
        MutationsStay(s.boxes, s'.boxes, s.log);
      }
    }
  }

  lemma PatchKeepsKey(i: Intent)
    ensures PatchOf(i.arguments, i.idempotencyKey).Some? ==>
              PatchOf(i.arguments, i.idempotencyKey).value.idempotencyKey == i.idempotencyKey
  {
  }

  // ---------------------------------------------------------------- every action

  /** Steps that touch neither executions, nor results, nor the log. */
  lemma QuietKeeps(s: Sys, s': Sys, id: nat)
    requires Inv(s) && s'.gov.executions == s.gov.executions && s'.gov.executionIds == s.gov.executionIds
    requires s'.boxes.Keys == s.boxes.Keys
    requires forall system <- s.boxes :: s'.boxes[system].executions == s.boxes[system].executions
    requires s'.log == s.log && s'.sent == s.sent
    requires forall w <- s'.workers :: w == id || (w in s.workers && s'.workers[w] == s.workers[w])
    requires id in s'.workers && (id !in s.workers || s'.workers[id] != s.workers[id]) ==> WorkerOk(s'.gov, s'.boxes, s'.workers[id])
    ensures Inv(s') && Keeps(s, s')
  {
    hide SystemForTool, WorkerOk, Bound, InFlightOk, KeysOk, KeyOk, Recorded, ResultOk, OutputOf, BoxesOk, OutputsOk, MutationsOk;
    SameLedger(s.gov, s'.gov);
    SameBoxesOk(s.gov, s.boxes, s'.boxes);
    InFlightFrame(s, s', id);
    BoxesFollow(s.gov, s'.gov, s'.boxes);
    OutputsFollow(s.gov, s'.gov, s.boxes);
    OutputsStay(s'.gov, s.boxes, s'.boxes);
    MutationsStay(s.boxes, s'.boxes, s.log);
    KeysSame(s.gov, s'.gov, s.log);
  }

  lemma SameLedger(g: Ledger, g': Ledger)
    requires g'.executions == g.executions
    ensures LedgerKeeps(g, g')
  {
  }

  lemma OutputsFollow(g: Ledger, g': Ledger, boxes: map<string, Box>)
    requires OutputsOk(g, boxes) && g'.executions == g.executions
    ensures OutputsOk(g', boxes)
  {
    hide OutputOf;
  }

  lemma KeysSame(g: Ledger, g': Ledger, log: seq<Event>)
    requires KeysOk(g, log) && g'.executions == g.executions
    ensures KeysOk(g', log)
  {
    hide Spaced, Unfinished;
    forall tenant, key ensures KeyOk(g', log, tenant, key) {
      assert KeyOk(g, log, tenant, key);
    }
  }

  lemma AdvanceKeeps(s: Sys, id: nat, pc: PC, now: Time)
    requires Inv(s) && WorkerOk(s.gov, s.boxes, pc)
    ensures Inv(AdvanceStep(s, id, pc, now)) && Keeps(s, AdvanceStep(s, id, pc, now))
  {
    hide Inv, Keeps, Bound, Recorded, ReserveStep, EndStep, Verdict;
    match pc
    case Reserving(_, _, _) => ReserveKeeps(s, id, pc, now);
    case Completing(call, output) => EndKeeps(s, id, call, Done(output), now);
    case Failing(call, code) => EndKeeps(s, id, call, Broken(code), now);
    case Sending(call) => SendKeeps(s, id, call, now);
    case _ => QuietKeeps(s, AdvanceStep(s, id, pc, now), id);
  }

  lemma SendKeeps(s: Sys, id: nat, call: Call, now: Time)
    requires Inv(s) && Bound(s.gov, call)
    ensures Inv(AdvanceStep(s, id, Sending(call), now)) && Keeps(s, AdvanceStep(s, id, Sending(call), now))
  {
    hide Bound, InFlightOk, KeysOk, TableOk, BoxesOk, OutputsOk, MutationsOk, Recorded;
    var s' := AdvanceStep(s, id, Sending(call), now);
    KeepsOn(s, s, s);
    KeepsSame(s, s');
    InFlightFrame(s, s', id);
    KeysUnaffected(s.gov, s.log, ExecuteIssued(call));
    MutationsAppend(s.boxes, s.log, ExecuteIssued(call));
  }

  lemma KeepsSame(s: Sys, s': Sys)
    requires s'.gov == s.gov && s'.boxes == s.boxes
    ensures Keeps(s, s')
  {
  }

  lemma LedgerStepKeeps(s: Sys, a: Action)
    requires Inv(s) && (a.RequestApproval? || a.Decide?)
    ensures Inv(Act(s, a)) && Keeps(s, Act(s, a))
  {
    hide Inv, Keeps, WorkerOk, Act;
    ApprovalsOnly(s, a);
    QuietKeeps(s, Act(s, a), 0);
  }

  lemma ApprovalsOnly(s: Sys, a: Action)
    requires a.RequestApproval? || a.Decide?
    ensures var s' := Act(s, a);
            && s'.gov.executions == s.gov.executions && s'.gov.executionIds == s.gov.executionIds
            && s'.boxes == s.boxes && s'.log == s.log && s'.sent == s.sent && s'.workers == s.workers
  {
    hide RequestStep, DecideStep, AdvanceStep, DeliverStep, AfterChange, Restored, Snapshotted;
    if a.RequestApproval? {
      RequestOnly(s, a.identity, a.approvalId, a.plan, a.environment, a.scope, a.expiresAt, a.change, a.now);
    } else {
      DecideOnly(s, a.identity, a.approvalId, a.target, a.expectedVersion, a.comment, a.now);
    }
  }

  lemma RequestOnly(s: Sys, identity: Identity, approvalId: string, plan: Plan, environment: Environment, scope: seq<string>,
                    expiresAt: Time, change: ChangeView, now: Time)
    ensures var s' := RequestStep(s, identity, approvalId, plan, environment, scope, expiresAt, change, now);
            s' == s.(gov := s'.gov) && s'.gov.executions == s.gov.executions && s'.gov.executionIds == s.gov.executionIds
  {
    hide ValidateStepGraph, ValidScope, CalculatePlanHash;
  }

  lemma DecideOnly(s: Sys, identity: Identity, approvalId: string, target: RequestStatus, expected: int, comment: string, now: Time)
    ensures var s' := DecideStep(s, identity, approvalId, target, expected, comment, now);
            s' == s.(gov := s'.gov) && s'.gov.executions == s.gov.executions && s'.gov.executionIds == s.gov.executionIds
  {
  }

  lemma WorkerStepKeeps(s: Sys, a: Action)
    requires Inv(s) && (a.Submit? || a.ReadChange? || a.GiveUp? || a.Crash?)
    ensures Inv(Act(s, a)) && Keeps(s, Act(s, a))
  {
    hide Inv, Keeps, Act, WorkerOk;
    WorkersOnly(s, a);
    QuietKeeps(s, Act(s, a), a.id);
  }

  lemma WorkersOnly(s: Sys, a: Action)
    requires Inv(s) && (a.Submit? || a.ReadChange? || a.GiveUp? || a.Crash?)
    ensures var s' := Act(s, a);
            && s'.gov == s.gov && s'.boxes == s.boxes && s'.log == s.log && s'.sent == s.sent
            && (forall w <- s'.workers :: w == a.id || (w in s.workers && s'.workers[w] == s.workers[w]))
            && (a.id in s'.workers && (a.id !in s.workers || s'.workers[a.id] != s.workers[a.id]) ==>
                  WorkerOk(s'.gov, s'.boxes, s'.workers[a.id]))
  {
    hide Bound, TableOk, KeysOk, BoxesOk, OutputsOk, MutationsOk, Recorded, PatchOf, SystemForTool;
    hide RequestStep, DecideStep, AdvanceStep, DeliverStep, Snapshotted, Restored;
    if a.ReadChange? && a.id in s.workers && s.workers[a.id].Submitted? { ReadOk(s, s.workers[a.id], a.change); }
    hide AfterChange;
  }

  lemma ReadOk(s: Sys, pc: PC, change: ChangeView)
    requires pc.Submitted?
    ensures WorkerOk(s.gov, s.boxes, AfterChange(s, pc, change))
  {
  }

  lemma SandboxStepKeeps(s: Sys, a: Action)
    requires Inv(s) && (a.SnapshotSandbox? || a.RestoreSandbox? || a.InjectFailures?)
    ensures Inv(Act(s, a)) && Keeps(s, Act(s, a))
  {
    hide Inv, Keeps, WorkerOk, Act;
    TablesOnly(s, a);
    QuietKeeps(s, Act(s, a), 0);
  }

  lemma TablesOnly(s: Sys, a: Action)
    requires a.SnapshotSandbox? || a.RestoreSandbox? || a.InjectFailures?
    ensures var s' := Act(s, a);
            && s'.gov == s.gov && s'.log == s.log && s'.sent == s.sent && s'.workers == s.workers
            && s'.boxes.Keys == s.boxes.Keys && forall system <- s.boxes :: s'.boxes[system].executions == s.boxes[system].executions
  {
    hide Snapshotted, Restored, Applied, RequestStep, DecideStep, AdvanceStep, AfterChange;
    if a.system in s.boxes {
      if a.SnapshotSandbox? { SameResults(s.boxes[a.system], a.tenant, a.snapshotId); }
      if a.RestoreSandbox? { SameResults(s.boxes[a.system], a.tenant, a.snapshotId); }
    }
  }

  lemma SameResults(b: Box, tenant: string, id: nat)
    ensures Snapshotted(b, tenant, id).executions == b.executions && Restored(b, tenant, id).0.executions == b.executions
  {
  }

  lemma StepKeeps(s: Sys, a: Action)
    requires Inv(s)
    ensures Inv(Act(s, a)) && Keeps(s, Act(s, a))
  {
    hide TableOk, KeysOk, BoxesOk, OutputsOk, MutationsOk, Keeps, RequestStep, DecideStep, AdvanceStep, DeliverStep, AfterChange, Restored, Snapshotted, WorkerOk, Bound;
    KeepsOn(s, s, s);
    match a
    case RequestApproval(_, _, _, _, _, _, _, _) => LedgerStepKeeps(s, a);
    case Decide(_, _, _, _, _, _) => LedgerStepKeeps(s, a);
    case Advance(id, now) => if id in s.workers { AdvanceKeeps(s, id, s.workers[id], now); }
    case Deliver(id, arrives) => if id in s.sent { DeliverKeeps(s, id, s.sent[id], arrives); }
    case Submit(_, _, _, _) => WorkerStepKeeps(s, a);
    case ReadChange(_, _) => WorkerStepKeeps(s, a);
    case GiveUp(_, _) => WorkerStepKeeps(s, a);
    case Crash(_) => WorkerStepKeeps(s, a);
    case _ => SandboxStepKeeps(s, a);
  }

  // ---------------------------------------------------------------- every run

  lemma {:induction false} ReachableInv(registry: map<string, ToolRegistration>, seeds: map<string, Configuration>,
                                        actions: seq<Action>)
    ensures Inv(Run(registry, seeds, actions))
  {
    hide Inv, Act;
    if actions == [] {
      StartInv(registry, seeds);
    } else {
      ReachableInv(registry, seeds, actions[..|actions| - 1]);
      StepKeeps(Run(registry, seeds, actions[..|actions| - 1]), actions[|actions| - 1]);
    }
  }

  lemma StartInv(registry: map<string, ToolRegistration>, seeds: map<string, Configuration>)
    ensures Inv(Start(registry, seeds))
  {
    var s := Start(registry, seeds);
    forall tenant, key ensures KeyOk(s.gov, s.log, tenant, key) {
    }
  }

  /** Each (tenant, key) mutates at most once, over all three sandboxes together. */
  lemma AtMostOneEffect(registry: map<string, ToolRegistration>, seeds: map<string, Configuration>, actions: seq<Action>,
                        i: nat, j: nat)
    requires i < j < |Run(registry, seeds, actions).log|
    requires Run(registry, seeds, actions).log[i].Mutated? && Run(registry, seeds, actions).log[j].Mutated?
    ensures var log := Run(registry, seeds, actions).log; (log[i].tenant, log[i].key) != (log[j].tenant, log[j].key)
  {
    hide Run, TableOk, InFlightOk, KeysOk, BoxesOk, OutputsOk;
    ReachableInv(registry, seeds, actions);
  }

  /** A successful execution's output is the sandbox's recorded result, up to the replay flag. */
  lemma OutputIsTheRecordedResult(registry: map<string, ToolRegistration>, seeds: map<string, Configuration>,
                                  actions: seq<Action>, e: (string, ExecutionId))
    requires e in Run(registry, seeds, actions).gov.executions
    requires Run(registry, seeds, actions).gov.executions[e].status.SUCCEEDED?
    ensures var s := Run(registry, seeds, actions);
            var system := SystemForTool(s.gov.executions[e].inputHash.toolName);
            system.Some? && s.gov.executions[e].output.Some?
            && Recorded(s.boxes, system.value, e.0, e.1.key, s.gov.executions[e].output.value)
  {
    hide Run, TableOk, InFlightOk, KeysOk, BoxesOk, MutationsOk;
    ReachableInv(registry, seeds, actions);
  }

  /** No key is ever granted two inputs, and a record counts its grants. */
  lemma OneInputPerKey(registry: map<string, ToolRegistration>, seeds: map<string, Configuration>, actions: seq<Action>,
                       tenant: string, key: string, i: nat)
    requires i < |Run(registry, seeds, actions).log| && IsGrant(Run(registry, seeds, actions).log[i], tenant, key)
    ensures var s, e := Run(registry, seeds, actions), (tenant, ExecutionOf(tenant, key));
            && e in s.gov.executions && s.log[i].hash == s.gov.executions[e].inputHash
            && s.gov.executions[e].attemptCount == Grants(s.log, tenant, key)
  {
    hide Run, TableOk, InFlightOk, BoxesOk, OutputsOk, MutationsOk;
    ReachableInv(registry, seeds, actions);
    OneKey(Run(registry, seeds, actions).gov, Run(registry, seeds, actions).log, tenant, key);
  }

  /** Of the intents that share a key at most one is ever granted, so of two plan steps with one key at most one. */
  lemma OneStepPerKey(registry: map<string, ToolRegistration>, seeds: map<string, Configuration>, actions: seq<Action>,
                      a: Intent, b: Intent, i: nat, j: nat)
    requires i < |Run(registry, seeds, actions).log| && j < |Run(registry, seeds, actions).log|
    requires (a.tenantId, a.idempotencyKey) == (b.tenantId, b.idempotencyKey)
    requires IsGrant(Run(registry, seeds, actions).log[i], a.tenantId, a.idempotencyKey)
    requires IsGrant(Run(registry, seeds, actions).log[j], b.tenantId, b.idempotencyKey)
    requires Run(registry, seeds, actions).log[i].hash == SemanticInputHash(a)
    requires Run(registry, seeds, actions).log[j].hash == SemanticInputHash(b)
    ensures (a.changeId, a.planHash, a.stepId, a.toolName, a.resource) == (b.changeId, b.planHash, b.stepId, b.toolName, b.resource)
    ensures a.arguments == b.arguments
  {
    OneInputPerKey(registry, seeds, actions, a.tenantId, a.idempotencyKey, i);
    OneInputPerKey(registry, seeds, actions, a.tenantId, a.idempotencyKey, j);
    hide Run;
    assert SemanticInputHash(a) == SemanticInputHash(b);
  }

  /** Two grants of a key with no end between them are at least two minutes apart. */
  lemma UnfinishedGrantsAreSpaced(registry: map<string, ToolRegistration>, seeds: map<string, Configuration>,
                                  actions: seq<Action>, tenant: string, key: string, i: nat, j: nat)
    requires i < j < |Run(registry, seeds, actions).log|
    requires IsGrant(Run(registry, seeds, actions).log[i], tenant, key)
    requires IsGrant(Run(registry, seeds, actions).log[j], tenant, key)
    requires Unfinished(Run(registry, seeds, actions).log, i, j, tenant, key)
    ensures Run(registry, seeds, actions).log[j].at >= Run(registry, seeds, actions).log[i].at + 120
  {
    hide Run, TableOk, InFlightOk, BoxesOk, OutputsOk, MutationsOk, Unfinished;
    ReachableInv(registry, seeds, actions);
    OneKey(Run(registry, seeds, actions).gov, Run(registry, seeds, actions).log, tenant, key);
  }

  /** Successful records and recorded results are final, and a key's input never changes. */
  lemma {:induction false} ResultsPersist(registry: map<string, ToolRegistration>, seeds: map<string, Configuration>,
                                          actions: seq<Action>, n: nat)
    requires n <= |actions|
    ensures Keeps(Run(registry, seeds, actions[..n]), Run(registry, seeds, actions))
    decreases |actions| - n
  {
    hide Inv, Act, Keeps;
    if n == |actions| {
      assert actions[..n] == actions;
      KeepsOn(Run(registry, seeds, actions), Run(registry, seeds, actions), Run(registry, seeds, actions));
    } else {
      assert actions[..n + 1][..n] == actions[..n];
      ReachableInv(registry, seeds, actions[..n]);
      StepKeeps(Run(registry, seeds, actions[..n]), actions[n]);
      ResultsPersist(registry, seeds, actions, n + 1);
      KeepsOn(Run(registry, seeds, actions[..n]), Run(registry, seeds, actions[..n + 1]), Run(registry, seeds, actions));
    }
  }

  /** Apart from restores, a configuration changes only in a step that logs a mutation of its own system and tenant. */
  lemma OnlyMutationsChange(s: Sys, a: Action, system: string, tenant: string)
    requires system in s.boxes && system in Act(s, a).boxes && !a.RestoreSandbox?
    requires Current(Act(s, a).boxes[system], tenant) != Current(s.boxes[system], tenant)
    ensures exists key :: Act(s, a).log == s.log + [Mutated(system, tenant, key)]
  {
    hide RequestStep, DecideStep, AdvanceStep, DeliverStep, AfterChange, Restored;
    if a.Deliver? && a.id in s.sent {
      DeliveryChanges(s, a.id, s.sent[a.id], a.arrives, system, tenant);
    } else {
      SameBoxes(s, a);
    }
  }

  lemma DeliveryChanges(s: Sys, id: nat, call: Call, arrives: bool, system: string, tenant: string)
    requires system in s.boxes && system in DeliverStep(s, id, call, arrives).boxes
    requires Current(DeliverStep(s, id, call, arrives).boxes[system], tenant) != Current(s.boxes[system], tenant)
    ensures system == call.system && tenant == call.intent.tenantId
    ensures DeliverStep(s, id, call, arrives).log == s.log + [Mutated(system, tenant, call.intent.idempotencyKey)]
  {
    hide Applied, Current;
    if call.system in s.boxes { AppliedChanges(s.boxes[call.system], call.intent.tenantId, call.request, tenant); }
  }

  lemma AppliedChanges(b: Box, of: string, q: FieldPatchRequest, tenant: string)
    ensures var (b', result) := Applied(b, of, q);
            Current(b', tenant) != Current(b, tenant) ==> tenant == of && result.Ok? && !result.value.replayed
  {
  }

  lemma SameBoxes(s: Sys, a: Action)
    ensures a.RequestApproval? || a.Decide? || a.Advance? ==> Act(s, a).boxes == s.boxes
  {
    hide Requested, Decided, Reserved, Finished, ValidateStepGraph;
  }
}
