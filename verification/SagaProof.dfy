/** Every action of the saga keeps the invariant. */
module SagaProof {
  import opened Common
  import opened Plans
  import opened Workflows
  import opened Saga
  import opened SagaInvariant
  import C = ChangeState

  // ---------------------------------------------------------------- logs only grow

  lemma TakenGrows(log: seq<Event>, more: seq<Event>, id: nat)
    requires TakenBeforeExecution(log, id)
    ensures TakenBeforeExecution(log + more, id)
  {
    var k :| 0 <= k < |log| && log[k].SnapshotTaken? && log[k].id == id && NothingExecuted(log[..k]);
    assert (log + more)[..k] == log[..k] && (log + more)[k] == log[k];
  }

  lemma VerifiedGrows(log: seq<Event>, more: seq<Event>, tasks: seq<Task>, stepId: string)
    requires VerifiedAfter(log, tasks, stepId)
    ensures VerifiedAfter(log + more, tasks, stepId)
  {
    var j, k :| 0 <= j < k < |log| && log[j].Stored? && log[j].record.tasks == tasks && log[k] == VerifyPassed(stepId);
    assert (log + more)[j] == log[j] && (log + more)[k] == log[k];
  }

  lemma AllVerifiedGrows(log: seq<Event>, more: seq<Event>, tasks: seq<Task>)
    requires AllVerified(log, tasks)
    ensures AllVerified(log + more, tasks)
  {
    forall t | t in tasks ensures VerifiedAfter(log + more, tasks, t.stepId) {
      VerifiedGrows(log, more, tasks, t.stepId);
    }
  }

  lemma RecordGrows(supported: bool, log: seq<Event>, more: seq<Event>, r: Record)
    requires RecordOk(supported, log, r)
    ensures RecordOk(supported, log + more, r)
  {
    hide ValidRecord, Aligned, TakenBeforeExecution;
    forall t | t in r.tasks && t.snapshotId.Some? ensures TakenBeforeExecution(log + more, t.snapshotId.value) {
      TakenGrows(log, more, t.snapshotId.value);
    }
  }

  lemma StatusGrows(log: seq<Event>, more: seq<Event>, status: C.Status)
    requires EnteredStatus(log, status)
    ensures EnteredStatus(log + more, status)
  {
    var e :| e in log && e.Entered? && e.change.status == status;
    assert e in log + more;
  }

  lemma ExecutingGrows(log: seq<Event>, more: seq<Event>, r: Record, loaded: seq<Task>)
    requires Executing(log, r, loaded)
    ensures Executing(log + more, r, loaded)
  {
    hide Follows;
    StatusGrows(log, more, C.APPROVED);
    StoredGrows(log, more, loaded);
  }

  lemma StoredGrows(log: seq<Event>, more: seq<Event>, tasks: seq<Task>)
    requires WasStored(log, tasks)
    ensures WasStored(log + more, tasks)
  {
    var e :| e in log && e.Stored? && e.record.tasks == tasks;
    assert e in log + more;
  }

  lemma KnownGrows(log: seq<Event>, more: seq<Event>)
    ensures forall r :: Known(log, r) ==> Known(log + more, r)
  {
  }

  lemma EventRunGrows(supported: bool, log: seq<Event>, more: seq<Event>, pc: PC)
    requires EventRunOk(supported, log, pc)
    ensures EventRunOk(supported, log + more, pc)
  {
    hide ValidateStepGraph, Known;
    KnownGrows(log, more);
  }

  lemma ResumeRunGrows(supported: bool, log: seq<Event>, more: seq<Event>, pc: PC)
    requires ResumeRunOk(supported, log, pc)
    ensures ResumeRunOk(supported, log + more, pc)
  {
    hide Executing, VerifiedAfter, WaveOk, EnteredStatus, AllVerified, Settled, AllSnapshots, Known;
    KnownGrows(log, more);
    if EnteredStatus(log, C.APPROVED) { StatusGrows(log, more, C.APPROVED); }
    if EnteredStatus(log, C.COMPLETED) { StatusGrows(log, more, C.COMPLETED); }
    if HasLoaded(pc) && Executing(log, pc.rec, pc.loaded) { ExecutingGrows(log, more, pc.rec, pc.loaded); }
    if HasLoaded(pc) && AllVerified(log, pc.rec.tasks) { AllVerifiedGrows(log, more, pc.rec.tasks); }
    if pc.ResumeVerify? {
      forall i | i in pc.passed ensures VerifiedAfter(log + more, pc.rec.tasks, pc.rec.tasks[i].stepId) {
        VerifiedGrows(log, more, pc.rec.tasks, pc.rec.tasks[i].stepId);
      }
    }
  }

  predicate HasLoaded(pc: PC) {
    || pc.ResumeSnapshots? || pc.ResumeDag? || pc.ResumeWave? || pc.ResumeToVerifying? || pc.ResumeMarkVerifying?
    || pc.ResumeVerify? || pc.ResumeToCompleted? || pc.ResumeComplete?
  }

  lemma OtherRunGrows(supported: bool, log: seq<Event>, more: seq<Event>, pc: PC)
    requires OtherRunOk(supported, log, pc)
    ensures OtherRunOk(supported, log + more, pc)
  {
    hide CompensationOk, EnteredStatus, Known;
    KnownGrows(log, more);
    if EnteredStatus(log, C.APPROVED) { StatusGrows(log, more, C.APPROVED); }
  }

  lemma RunGrows(supported: bool, log: seq<Event>, more: seq<Event>, pc: PC)
    requires RunOk(supported, log, pc)
    ensures RunOk(supported, log + more, pc)
  {
    hide EventRunOk, ResumeRunOk, OtherRunOk, InEvent, InResume;
    if InEvent(pc) { EventRunGrows(supported, log, more, pc); }
    if InResume(pc) { ResumeRunGrows(supported, log, more, pc); }
    if !InEvent(pc) && !InResume(pc) { OtherRunGrows(supported, log, more, pc); }
  }

  lemma RunsGrow(s: Sys, more: seq<Event>)
    requires forall id <- s.runs :: RunOk(s.supported, s.log, s.runs[id])
    ensures forall id <- s.runs :: RunOk(s.supported, s.log + more, s.runs[id])
  {
    forall id | id in s.runs ensures RunOk(s.supported, s.log + more, s.runs[id]) {
      RunGrows(s.supported, s.log, more, s.runs[id]);
    }
  }

  lemma LogExtends(supported: bool, log: seq<Event>, e: Event)
    requires LogOk(supported, log) && EventOk(supported, log, e)
    ensures LogOk(supported, log + [e])
  {
    hide EventOk;
    var longer := log + [e];
    forall i | 0 <= i < |longer| ensures EventOk(supported, longer[..i], longer[i]) {
      if i < |log| {
        assert longer[..i] == log[..i];
      } else {
        assert longer[..i] == log;
      }
    }
  }

  /** A stored record has all its properties relative to the whole log. */
  lemma KnownOk(supported: bool, log: seq<Event>, r: Record)
    requires LogOk(supported, log) && Known(log, r)
    ensures RecordOk(supported, log, r)
  {
    hide RecordOk;
    var i :| 0 <= i < |log| && log[i] == Stored(r);
    assert EventOk(supported, log[..i], log[i]);
    RecordGrows(supported, log[..i], log[i..], r);
    assert log[..i] + log[i..] == log;
  }

  lemma PersistsTransitive(a: Record, b: Record, c: Record)
    requires Persists(a, b) && Persists(b, c)
    ensures Persists(a, c)
  {
    if a.plan.Some? {
      forall i | 0 <= i < |a.tasks| ensures KeepsSnapshot(a.tasks[i], c.tasks[i]) {
        assert KeepsSnapshot(a.tasks[i], b.tasks[i]) && KeepsSnapshot(b.tasks[i], c.tasks[i]);
      }
    }
  }

  // ---------------------------------------------------------------- the four kinds of effect

  lemma GotoKeeps(s: Sys, id: nat, pc: PC)
    requires Inv(s) && RunOk(s.supported, s.log, pc)
    ensures Inv(Goto(s, id, pc))
  {
    hide RunOk, LogOk;
  }

  lemma EmitKeeps(s: Sys, id: nat, e: Event, pc: PC)
    requires Inv(s) && !e.Entered? && !e.Stored? && EventOk(s.supported, s.log, e)
    requires e.SnapshotTaken? ==> e.id < s.nextSnapshot
    requires RunOk(s.supported, s.log + [e], pc)
    ensures Inv(Emit(s, id, e, pc))
  {
    hide RunOk, EventOk, LogOk, Persists;
    LogExtends(s.supported, s.log, e);
    RunsGrow(s, [e]);
    KnownGrows(s.log, [e]);
  }

  lemma StoreKeeps(s: Sys, id: nat, r: Record, pc: PC)
    requires Inv(s) && RecordOk(s.supported, s.log, r)
    requires s.wf.Some? ==> Persists(s.wf.value, r) && s.wf.value.version < r.version
    requires RunOk(s.supported, s.log + [Stored(r)], pc)
    ensures Inv(s.(wf := Some(r), log := s.log + [Stored(r)], runs := s.runs[id := pc]))
  {
    hide RunOk, RecordOk, LogOk;
    forall p | p in s.log && p.Stored? ensures Persists(p.record, r) && p.record.version < r.version {
      PersistsTransitive(p.record, s.wf.value, r);
    }
    LogExtends(s.supported, s.log, Stored(r));
    RunsGrow(s, [Stored(r)]);
  }

  lemma EnterKeeps(s: Sys, id: nat, c: Change, pc: PC)
    requires Inv(s) && EventOk(s.supported, s.log, Entered(c))
    requires RunOk(s.supported, s.log + [Entered(c)], pc)
    ensures Inv(s.(change := Some(c), log := s.log + [Entered(c)], runs := s.runs[id := pc]))
  {
    hide RunOk, LogOk, Persists;
    LogExtends(s.supported, s.log, Entered(c));
    RunsGrow(s, [Entered(c)]);
    KnownGrows(s.log, [Entered(c)]);
  }

  // ---------------------------------------------------------------- compare and swap

  /** The run's copy of a record whose version is still stored is the stored record. */
  lemma SwapFindsOwnCopy(s: Sys, rec: Record)
    requires Inv(s) && Known(s.log, rec) && s.wf.Some? && s.wf.value.version == rec.version
    ensures s.wf.value == rec
  {
    assert Persists(rec, s.wf.value);
  }

  lemma UpdateKeeps(s: Sys, id: nat, rec: Record, r: Record, now: Time, next: Record -> PC)
    requires Inv(s) && Known(s.log, rec)
    requires var u := r.(updatedAt := now, version := rec.version + 1);
             ValidRecord(u) && s.wf == Some(rec) ==>
               && RecordOk(s.supported, s.log, u) && Persists(rec, u)
               && RunOk(s.supported, s.log + [Stored(u)], next(u))
    ensures Inv(Update(s, id, rec, r, now, next))
  {
    hide RunOk, RecordOk, Inv, Persists, ValidRecord;
    var u := r.(updatedAt := now, version := rec.version + 1);
    if ValidRecord(u) && s.wf.Some? && s.wf.value.version == rec.version {
      SwapFindsOwnCopy(s, rec);
      StoreKeeps(s, id, u, next(u));
    } else {
      StoppedOk(s, id);
    }
  }

  lemma StoppedOk(s: Sys, id: nat)
    requires Inv(s)
    ensures Inv(Goto(s, id, Stopped))
  {
    assert RunOk(s.supported, s.log, Stopped);
    GotoKeeps(s, id, Stopped);
  }

  /** Changing only the status, the error, the completion time or the delivery count of a record that is not closed. */
  lemma StatusUpdate(supported: bool, log: seq<Event>, rec: Record, u: Record)
    requires RecordOk(supported, log, rec) && ValidRecord(u) && !Closed(rec.status)
    requires u.plan == rec.plan && u.planHash == rec.planHash && u.approvalId == rec.approvalId
    requires u.approvalExpiresAt == rec.approvalExpiresAt && u.tasks == rec.tasks && SameIdentity(u, rec)
    requires u.version == rec.version + 1 && !u.status.COMPLETED?
    requires rec.completedAt.Some? ==> u.completedAt.Some?
    requires supported || u.status.RECEIVED? || u.status.DEAD_LETTERED?
    ensures RecordOk(supported, log, u) && Persists(rec, u)
  {
    hide ValidRecord, TakenBeforeExecution, ValidateStepGraph;
  }

  /** Setting a running status: either nothing happens or a record that was open is rewritten. */
  lemma SetStatusKeeps(s: Sys, id: nat, rec: Record, status: RuntimeStatus, code: Option<string>, now: Time,
                       next: Record -> PC)
    requires Inv(s) && Known(s.log, rec) && s.supported && !Terminal(status)
    requires rec.status == status ==> RunOk(s.supported, s.log, next(rec))
    requires var u := rec.(status := status, lastErrorCode := code, updatedAt := now, version := rec.version + 1);
             !Closed(rec.status) ==> RunOk(s.supported, s.log + [Stored(u)], next(u))
    ensures Inv(SetStatus(s, id, rec, status, code, now, next))
  {
    hide RunOk, RecordOk, Inv, Persists;
    if rec.status == status && rec.lastErrorCode == code {
      GotoKeeps(s, id, next(rec));
    } else {
      var r := rec.(status := status, lastErrorCode := code);
      var u := r.(updatedAt := now, version := rec.version + 1);
      assert RecordOk(s.supported, s.log, rec) by { InvLog(s); KnownOk(s.supported, s.log, rec); }
      if ValidRecord(u) {
        assert ValidRecord(rec) by { RecordIsValid(s.supported, s.log, rec); }
        assert !Closed(rec.status);
        StatusUpdate(s.supported, s.log, rec, u);
      }
      UpdateKeeps(s, id, rec, r, now, next);
    }
  }

  lemma InvLog(s: Sys)
    requires Inv(s)
    ensures LogOk(s.supported, s.log)
  {
  }

  lemma RecordIsValid(supported: bool, log: seq<Event>, rec: Record)
    requires RecordOk(supported, log, rec)
    ensures ValidRecord(rec)
  {
  }

  // ---------------------------------------------------------------- status transitions

  /** A status that was entered had its own presuppositions before it. */
  lemma EnteredPresupposes(supported: bool, log: seq<Event>, c: Change)
    requires LogOk(supported, log) && Entered(c) in log
    ensures EnteredStatus(log, c.status)
    ensures c.status == C.EXECUTING ==> EnteredStatus(log, C.APPROVED)
    ensures c.status == C.APPROVED ==> EnteredStatus(log, C.AWAITING_APPROVAL)
  {
    var i :| 0 <= i < |log| && log[i] == Entered(c);
    assert log[..i] + log[i..] == log;
    assert EventOk(supported, log[..i], log[i]);
    hide LogOk, EnteredStatus;
    if c.status == C.EXECUTING { StatusGrows(log[..i], log[i..], C.APPROVED); }
    if c.status == C.APPROVED { StatusGrows(log[..i], log[i..], C.AWAITING_APPROVAL); }
    assert EnteredStatus(log, c.status) by { EnteredIs(log, c); }
  }

  lemma EnteredIs(log: seq<Event>, c: Change)
    requires Entered(c) in log
    ensures EnteredStatus(log, c.status)
  {
    var e := Entered(c);
    assert e in log && e.Entered? && e.change.status == c.status;
  }

  lemma CurrentSeen(s: Sys)
    requires Inv(s) && s.change.Some?
    ensures EnteredStatus(s.log, s.change.value.status)
    ensures Seen(s.log, s.change.value.status)
    ensures s.change.value.status == C.APPROVED ==> EnteredStatus(s.log, C.AWAITING_APPROVAL)
  {
    hide LogOk, RunOk, WorkflowOk, EnteredStatus;
    EnteredPresupposes(s.supported, s.log, s.change.value);
  }

  lemma TransitionKeeps(s: Sys, id: nat, target: C.Status, workflow: Option<string>, plan: Option<Plan>, rec: Record, next: PC)
    requires Inv(s) && (target == C.EXECUTING ==> EnteredStatus(s.log, C.APPROVED))
    requires plan.Some? ==> Known(s.log, rec) && rec.plan == plan
    requires forall c: Change | c.status == target :: RunOk(s.supported, s.log + [Entered(c)], next)
    ensures Inv(Transition(s, id, target, workflow, plan, next))
  {
    hide RunOk, LogOk, WorkflowOk, EnteredStatus;
    if s.change.Some? && C.CanTransition(s.change.value.status, target) {
      var c := s.change.value;
      var c' := c.(status := target, version := c.version + 1,
                   workflowId := if workflow.Some? then workflow else c.workflowId,
                   planVersion := if plan.Some? then plan.value.version else c.planVersion,
                   planHash := if plan.Some? then Some(CalculatePlanHash(plan.value)) else c.planHash);
      TransitionPlanHash(s, plan, rec, c');
      EnteringIsOk(s, s.change.value, c');
      EnterKeeps(s, id, c', next);
    } else {
      StoppedOk(s, id);
    }
  }

  /** A table edge from a status that was entered may be logged with a later version. */
  lemma EnteringIsOk(s: Sys, from: Change, c': Change)
    requires Inv(s) && s.change.Some? && Entered(from) in s.log && C.CanTransition(from.status, c'.status)
    requires c'.status == C.EXECUTING ==> EnteredStatus(s.log, C.APPROVED)
    requires c'.version == s.change.value.version + 1
    requires c'.planHash.Some? ==> exists p <- s.log :: p.Stored? && p.record.planHash == c'.planHash
    ensures EventOk(s.supported, s.log, Entered(c'))
  {
    hide RunOk, LogOk, WorkflowOk, EnteredStatus;
    EnteredIs(s.log, from);
  }

  /** A plan hash that was entered is that of a stored record. */
  lemma EnteredHash(s: Sys, c: Change)
    requires Inv(s) && Entered(c) in s.log && c.planHash.Some?
    ensures exists p <- s.log :: p.Stored? && p.record.planHash == c.planHash
  {
    hide RunOk, RecordOk, CompletionOk, WorkflowOk;
    var i :| 0 <= i < |s.log| && s.log[i] == Entered(c);
    assert EventOk(s.supported, s.log[..i], s.log[i]);
  }

  lemma TransitionPlanHash(s: Sys, plan: Option<Plan>, rec: Record, c': Change)
    requires Inv(s) && s.change.Some?
    requires plan.Some? ==> Known(s.log, rec) && rec.plan == plan
    requires c'.planHash == if plan.Some? then Some(CalculatePlanHash(plan.value)) else s.change.value.planHash
    ensures c'.planHash.Some? ==> exists p <- s.log :: p.Stored? && p.record.planHash == c'.planHash
  {
    if plan.Some? {
      KnownOk(s.supported, s.log, rec);
      assert rec.planHash == c'.planHash;
      assert Stored(rec) in s.log;
    } else if c'.planHash.Some? {
      EnteredHash(s, s.change.value);
    }
  }

  /** A user's commit may be logged, whatever version the request expected and however old its copy is. */
  lemma CommitKeeps(s: Sys, id: nat, current: Change, target: C.Status, expected: nat)
    requires Inv(s) && RunOk(s.supported, s.log, UserCommit(current, target, expected))
    ensures Inv(Commit(s, id, current, target, expected))
  {
    hide Inv, EnteredStatus, EventOk;
    StoppedOk(s, id);
    if s.change.Some? && s.change.value.version == expected {
      var c' := current.(status := target, version := expected + 1);
      assert Entered(current) in s.log && Seen(s.log, target) && C.CanTransition(current.status, target);
      assert RunOk(s.supported, s.log + [Entered(c')], Stopped);
      hide RunOk;
      if current.planHash.Some? { EnteredHash(s, current); }
      EnteringIsOk(s, current, c');
      EnterKeeps(s, id, c', Stopped);
    }
  }
}
