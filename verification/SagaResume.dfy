/** `resume_approval`, compensation, and user requests keep the saga's invariant. */
module SagaResume {
  import opened Common
  import opened Plans
  import opened Sandbox
  import opened Workflows
  import opened Saga
  import opened SagaInvariant
  import opened SagaProof
  import opened SagaSteps
  import C = ChangeState

  /** Rewriting tasks without losing a snapshot or inventing one. */
  lemma TaskUpdate(supported: bool, log: seq<Event>, rec: Record, u: Record)
    requires RecordOk(supported, log, rec) && ValidRecord(u) && !Closed(rec.status) && rec.plan.Some?
    requires u == rec.(tasks := u.tasks, lastErrorCode := u.lastErrorCode, updatedAt := u.updatedAt, version := rec.version + 1)
    requires |u.tasks| == |rec.tasks|
    requires forall i | 0 <= i < |u.tasks| ::
               KeepsSnapshot(rec.tasks[i], u.tasks[i]) && !u.tasks[i].status.RUNNING?
               && (u.tasks[i].snapshotId.Some? ==> TakenBeforeExecution(log, u.tasks[i].snapshotId.value))
    ensures RecordOk(supported, log, u) && Persists(rec, u)
  {
    hide ValidRecord, ValidateStepGraph, TakenBeforeExecution;
    forall t | t in u.tasks
      ensures !t.status.RUNNING? && (t.snapshotId.Some? ==> TakenBeforeExecution(log, t.snapshotId.value))
    {
      var i :| 0 <= i < |u.tasks| && u.tasks[i] == t;
    }
  }

  /** Once anything has been executed, the stored record holds every snapshot. */
  lemma ExecutedMeansCaptured(s: Sys, k: nat)
    requires Inv(s) && s.wf.Some? && k < |s.log| && s.log[k].ExecuteIssued?
    ensures AllSnapshots(s.wf.value)
  {
    hide RunOk, RecordOk, CompletionOk;
    var rec := s.wf.value;
    assert EventOk(s.supported, s.log[..k], s.log[k]);
    var p :| p in s.log[..k] && p.Stored? && AllSnapshots(p.record);
    assert Persists(p.record, rec);
    forall t | t in rec.tasks ensures t.snapshotId.Some? {
      var i :| 0 <= i < |rec.tasks| && rec.tasks[i] == t;
      assert KeepsSnapshot(p.record.tasks[i], rec.tasks[i]);
    }
  }

  /** While some snapshot is missing from the stored record, nothing has been executed. */
  lemma NothingExecutedYet(s: Sys, rec: Record, i: nat)
    requires Inv(s) && s.wf == Some(rec) && Missing(rec, i)
    ensures NothingExecuted(s.log)
  {
    hide Inv;
    assert rec.tasks[i] in rec.tasks;
    forall k | 0 <= k < |s.log| ensures s.log[k].ExecuteIssued? ==> AllSnapshots(rec) {
      if s.log[k].ExecuteIssued? { ExecutedMeansCaptured(s, k); }
    }
  }

  lemma TakenNow(log: seq<Event>, id: nat)
    requires (exists e <- log :: e.SnapshotTaken? && e.id == id) && NothingExecuted(log)
    ensures TakenBeforeExecution(log, id)
  {
    var k :| 0 <= k < |log| && log[k].SnapshotTaken? && log[k].id == id;
    assert NothingExecuted(log[..k]);
  }

  lemma SnapshotsStored(s: Sys, rec: Record, loaded: seq<Task>, taken: map<nat, (nat, ConfigDigest)>, u: Record)
    requires Inv(s) && s.wf == Some(rec) && ResumeRunOk(s.supported, s.log, ResumeSnapshots(rec, loaded, taken))
    requires u == WithSnapshots(rec, taken).(updatedAt := u.updatedAt, version := rec.version + 1) && ValidRecord(u)
    requires exists i :: 0 <= i < |rec.tasks| && Missing(rec, i)
    ensures RecordOk(s.supported, s.log, u) && Persists(rec, u)
  {
    RecordOfRun(s, rec);
    var m :| 0 <= m < |rec.tasks| && Missing(rec, m);
    NothingExecutedYet(s, rec, m);
    hide Inv, Executing, ValidRecord;
    assert Working(s.log, rec) by { ExecutingWorks(s.log, rec, loaded); }
    forall i | 0 <= i < |u.tasks|
      ensures KeepsSnapshot(rec.tasks[i], u.tasks[i]) && !u.tasks[i].status.RUNNING?
      ensures u.tasks[i].snapshotId.Some? ==> TakenBeforeExecution(s.log, u.tasks[i].snapshotId.value)
    {
      assert rec.tasks[i] in rec.tasks;
      if Missing(rec, i) && i in taken { TakenNow(s.log, taken[i].0); }
    }
    TaskUpdate(s.supported, s.log, rec, u);
  }

  lemma ExecutingWorks(log: seq<Event>, rec: Record, loaded: seq<Task>)
    requires Executing(log, rec, loaded)
    ensures Working(log, rec)
  {
  }

  /** Storing a version of the run's record does not disturb what the run knew, and makes the new version known. */
  lemma ExecutingUpdate(log: seq<Event>, rec: Record, u: Record, loaded: seq<Task>)
    requires Executing(log, rec, loaded) && !Closed(u.status) && u.plan.Some? && |u.tasks| == |rec.tasks|
    requires forall i | 0 <= i < |u.tasks| :: Rolled(rec.tasks[i]) <==> Rolled(u.tasks[i])
    ensures Executing(log + [Stored(u)], u, loaded)
  {
    ExecutingGrows(log, [Stored(u)], rec, loaded);
  }

  lemma CaptureKeeps(s: Sys, id: nat, rec: Record, loaded: seq<Task>, taken: map<nat, (nat, ConfigDigest)>, x: Input)
    requires Inv(s) && ResumeRunOk(s.supported, s.log, ResumeSnapshots(rec, loaded, taken))
    ensures Inv(AdvanceCapture(s, id, rec, loaded, taken, x))
  {
    hide Inv, ResumeRunOk, Update;
    match x
    case Captured(i, configuration) =>
      if Missing(rec, i) && i !in taken { CaptureOne(s, id, rec, loaded, taken, i, configuration); }
    case Proceed(now) =>
      if forall i | 0 <= i < |rec.tasks| :: !Missing(rec, i) {
        NothingMissing(s, rec, loaded, taken);
        GotoKeeps(s, id, ResumeDag(rec, loaded));
      } else if forall i | 0 <= i < |rec.tasks| :: Missing(rec, i) ==> i in taken {
        CaptureStored(s, id, rec, loaded, taken, now);
      }
    case _ =>
  }

  lemma NothingMissing(s: Sys, rec: Record, loaded: seq<Task>, taken: map<nat, (nat, ConfigDigest)>)
    requires ResumeRunOk(s.supported, s.log, ResumeSnapshots(rec, loaded, taken))
    requires forall i | 0 <= i < |rec.tasks| :: !Missing(rec, i)
    ensures RunOk(s.supported, s.log, ResumeDag(rec, loaded))
  {
    forall t | t in rec.tasks ensures t.snapshotId.Some? {
      var i :| 0 <= i < |rec.tasks| && rec.tasks[i] == t;
      assert !Missing(rec, i);
    }
  }

  lemma CaptureStored(s: Sys, id: nat, rec: Record, loaded: seq<Task>, taken: map<nat, (nat, ConfigDigest)>, now: Time)
    requires Inv(s) && ResumeRunOk(s.supported, s.log, ResumeSnapshots(rec, loaded, taken))
    requires exists i :: 0 <= i < |rec.tasks| && Missing(rec, i)
    requires forall i | 0 <= i < |rec.tasks| :: Missing(rec, i) ==> i in taken
    ensures Inv(Update(s, id, rec, WithSnapshots(rec, taken), now, r => ResumeDag(r, loaded)))
  {
    hide Inv, WithSnapshots, Missing, ValidRecord, RecordOk, Persists, Executing;
    var u := WithSnapshots(rec, taken).(updatedAt := now, version := rec.version + 1);
    if ValidRecord(u) && s.wf == Some(rec) {
      SnapshotsStored(s, rec, loaded, taken, u);
    }
    ExecutingWorks(s.log, rec, loaded);
    SnapshotsComplete(s, rec, loaded, taken, u);
    hide RunOk;
    UpdateKeeps(s, id, rec, WithSnapshots(rec, taken), now, r => ResumeDag(r, loaded));
  }

  lemma SnapshotsComplete(s: Sys, rec: Record, loaded: seq<Task>, taken: map<nat, (nat, ConfigDigest)>, u: Record)
    requires Executing(s.log, rec, loaded)
    requires u == WithSnapshots(rec, taken).(updatedAt := u.updatedAt, version := rec.version + 1)
    requires forall i | 0 <= i < |rec.tasks| :: Missing(rec, i) ==> i in taken
    ensures RunOk(s.supported, s.log + [Stored(u)], ResumeDag(u, loaded))
  {
    assert AllSnapshots(u) by {
      forall t | t in u.tasks ensures t.snapshotId.Some? {
        var i :| 0 <= i < |u.tasks| && u.tasks[i] == t;
        if Missing(rec, i) { assert i in taken; }
      }
    }
    ExecutingUpdate(s.log, rec, u, loaded);
  }

  lemma CaptureOne(s: Sys, id: nat, rec: Record, loaded: seq<Task>, taken: map<nat, (nat, ConfigDigest)>,
                   i: nat, configuration: ConfigDigest)
    requires Inv(s) && ResumeRunOk(s.supported, s.log, ResumeSnapshots(rec, loaded, taken))
    requires Missing(rec, i)
    ensures Inv(Emit(s.(nextSnapshot := s.nextSnapshot + 1), id, SnapshotTaken(s.nextSnapshot, rec.tasks[i].stepId, configuration),
                     ResumeSnapshots(rec, loaded, taken[i := (s.nextSnapshot, configuration)])))
  {
    hide Executing, LogOk, ChangeOk, WorkflowOk;
    var s1 := s.(nextSnapshot := s.nextSnapshot + 1);
    var e := SnapshotTaken(s.nextSnapshot, rec.tasks[i].stepId, configuration);
    var pc' := ResumeSnapshots(rec, loaded, taken[i := (s.nextSnapshot, configuration)]);
    assert Inv(s1) by { SameExceptCounter(s, s1); }
    ExecutingGrows(s.log, [e], rec, loaded);
    assert RunOk(s.supported, s.log + [e], pc');
    EmitKeeps(s1, id, e, pc');
  }

  lemma SameExceptCounter(s: Sys, s1: Sys)
    requires Inv(s) && s1 == s.(nextSnapshot := s.nextSnapshot + 1)
    ensures Inv(s1)
  {
    hide LogOk, RunOk;
  }

  // ---------------------------------------------------------------- approval, DAG and verification

  /** Where a run that has loaded an open, planned record may go when it is not granted. */
  lemma WorkingRuns(supported: bool, log: seq<Event>, rec: Record)
    requires Working(log, rec) && supported
    ensures Known(log, rec) && !Closed(rec.status)
    ensures RunOk(supported, log, Close(rec, FAILED, "APPROVAL_REJECTED")) && RunOk(supported, log, ResumeReanalyse(rec))
    ensures forall seen :: RunOk(supported, log, ResumeChanges(rec, seen))
    ensures forall l :: RunOk(supported, l, Stopped)
  {
  }

  lemma WorkingRun(s: Sys, pc: PC)
    requires Inv(s) && RunOk(s.supported, s.log, pc) && (pc.ResumeReject? || pc.ResumeChanges? || pc.ResumeReanalyse?)
    ensures Working(s.log, pc.rec) && s.supported
  {
    hide Inv;
    PlannedIsSupported(s, pc.rec);
  }

  lemma AdmissionKeeps(s: Sys, id: nat, pc: PC, now: Time)
    requires Inv(s) && RunOk(s.supported, s.log, pc)
    requires pc.ResumeStart? || pc.ResumeLoad? || pc.ResumeReject? || pc.ResumeChanges? || pc.ResumeReanalyse?
    ensures Inv(AdvanceAdmission(s, id, pc, Proceed(now)))
  {
    hide Inv, RunOk, Working, Known, Goto, Transition, SetStatus, AdvanceAdmission;
    match pc
    case ResumeStart(cb) => StartResumeKeeps(s, id, cb, now);
    case ResumeLoad(cb, seen) => LoadKeeps(s, id, cb, seen, now);
    case _ =>
      WorkingRun(s, pc);
      RefusalKeeps(s, id, pc, now);
  }

  lemma StartResumeKeeps(s: Sys, id: nat, cb: Callback, now: Time)
    requires Inv(s)
    ensures Inv(AdvanceAdmission(s, id, ResumeStart(cb), Proceed(now)))
  {
    hide Inv, EnteredStatus;
    StoppedOk(s, id);
    if s.change.Some? && s.change.value.workflowId.Some? {
      CurrentSeen(s);
      GotoKeeps(s, id, ResumeLoad(cb, s.change.value.status));
    }
  }

  lemma LoadKeeps(s: Sys, id: nat, cb: Callback, seen: C.Status, now: Time)
    requires Inv(s) && RunOk(s.supported, s.log, ResumeLoad(cb, seen))
    ensures Inv(AdvanceAdmission(s, id, ResumeLoad(cb, seen), Proceed(now)))
  {
    hide Inv, EnteredStatus, RecordOk, Loaded;
    StoppedOk(s, id);
    if s.wf.Some? {
      StoredKnown(s);
      LoadedOk(s, cb, seen, s.wf.value);
      hide RunOk;
      GotoKeeps(s, id, Loaded(cb, seen, s.wf.value));
    }
  }

  lemma RefusalKeeps(s: Sys, id: nat, pc: PC, now: Time)
    requires Inv(s) && (pc.ResumeReject? || pc.ResumeChanges? || pc.ResumeReanalyse?) && Working(s.log, pc.rec) && s.supported
    ensures Inv(AdvanceAdmission(s, id, pc, Proceed(now)))
  {
    hide Inv, RunOk, Working, Known, Goto, Transition, SetStatus;
    WorkingRuns(s.supported, s.log, pc.rec);
    if pc.ResumeReject? {
      AnyEntered(s, C.REJECTED, Close(pc.rec, FAILED, "APPROVAL_REJECTED"));
      TransitionKeeps(s, id, C.REJECTED, None, None, pc.rec, Close(pc.rec, FAILED, "APPROVAL_REJECTED"));
    } else if pc.ResumeChanges? {
      ChangesKeep(s, id, pc.rec, pc.seen, now);
    } else {
      SetStatusKeeps(s, id, pc.rec, ANALYZING, Some("APPROVAL_CHANGES_REQUESTED"), now, r => Stopped);
    }
  }

  lemma ChangesKeep(s: Sys, id: nat, rec: Record, seen: C.Status, now: Time)
    requires Inv(s) && Working(s.log, rec) && s.supported
    ensures Inv(AdvanceAdmission(s, id, ResumeChanges(rec, seen), Proceed(now)))
  {
    hide Inv, RunOk, Working, Known, Goto, Transition;
    WorkingRuns(s.supported, s.log, rec);
    if seen == C.AWAITING_APPROVAL {
      AnyEntered(s, C.REJECTED, ResumeChanges(rec, C.REJECTED));
      TransitionKeeps(s, id, C.REJECTED, None, None, rec, ResumeChanges(rec, C.REJECTED));
    } else if seen == C.REJECTED {
      AnyEntered(s, C.ANALYZING, ResumeReanalyse(rec));
      TransitionKeeps(s, id, C.ANALYZING, None, None, rec, ResumeReanalyse(rec));
    } else {
      GotoKeeps(s, id, ResumeReanalyse(rec));
    }
  }

  lemma LoadedOk(s: Sys, cb: Callback, seen: C.Status, rec: Record)
    requires Known(s.log, rec) && RecordOk(s.supported, s.log, rec) && Seen(s.log, seen)
    ensures RunOk(s.supported, s.log, Loaded(cb, seen, rec))
  {
    hide EnteredStatus, ValidRecord, Aligned, ValidateStepGraph, TakenBeforeExecution;
  }

  /** Only a supported event ever gets a plan. */
  lemma PlannedIsSupported(s: Sys, rec: Record)
    requires Inv(s) && Known(s.log, rec) && rec.plan.Some?
    ensures s.supported
  {
    hide ValidRecord, Aligned, TakenBeforeExecution;
    KnownOk(s.supported, s.log, rec);
  }

  lemma GrantKeeps(s: Sys, id: nat, rec: Record, seen: C.Status, now: Time)
    requires Inv(s) && RunOk(s.supported, s.log, ResumeAdvance(rec, seen))
    ensures Inv(AdvanceGrant(s, id, rec, seen, Proceed(now)))
  {
    hide Inv, EnteredStatus, Transition, SetStatus, Goto, Known;
    assert Working(s.log, rec) && Seen(s.log, seen);
    hide RunOk;
    if seen == C.AWAITING_APPROVAL {
      ApprovedNext(s, rec, C.APPROVED);
      TransitionKeeps(s, id, C.APPROVED, None, None, rec, ResumeAdvance(rec, C.APPROVED));
    } else if seen == C.APPROVED {
      ApprovedNext(s, rec, C.EXECUTING);
      TransitionKeeps(s, id, C.EXECUTING, None, None, rec, ResumeAdvance(rec, C.EXECUTING));
    } else if seen == C.EXECUTING {
      MarkExecutingKeeps(s, id, rec, now);
    } else {
      StoppedOk(s, id);
    }
  }

  lemma MarkExecutingKeeps(s: Sys, id: nat, rec: Record, now: Time)
    requires Inv(s) && Working(s.log, rec) && EnteredStatus(s.log, C.APPROVED)
    ensures Inv(SetStatus(s, id, rec, EXECUTING, None, now, r => ResumeSnapshots(r, rec.tasks, map[])))
  {
    hide Inv, EnteredStatus;
    PlannedIsSupported(s, rec);
    var u := rec.(status := EXECUTING, lastErrorCode := None, updatedAt := now, version := rec.version + 1);
    var next := (r: Record) => ResumeSnapshots(r, rec.tasks, map[]);
    assert Executing(s.log, rec, rec.tasks);
    ExecutingUpdate(s.log, rec, u, rec.tasks);
    assert RunOk(s.supported, s.log + [Stored(u)], next(u));
    assert RunOk(s.supported, s.log, next(rec));
    hide RunOk;
    SetStatusKeeps(s, id, rec, EXECUTING, None, now, next);
  }

  lemma ApprovedNext(s: Sys, rec: Record, target: C.Status)
    requires Working(s.log, rec) && (target == C.APPROVED || (target == C.EXECUTING && EnteredStatus(s.log, C.APPROVED)))
    ensures forall c: Change | c.status == target :: RunOk(s.supported, s.log + [Entered(c)], ResumeAdvance(rec, target))
  {
    forall c: Change | c.status == target
      ensures RunOk(s.supported, s.log + [Entered(c)], ResumeAdvance(rec, target))
    {
      EnteredIs(s.log + [Entered(c)], c);
      if target == C.EXECUTING { StatusGrows(s.log, [Entered(c)], C.APPROVED); }
    }
  }

  lemma AfterDagOk(supported: bool, log: seq<Event>, rec: Record, loaded: seq<Task>)
    requires Executing(log, rec, loaded) && RecordOk(supported, log, rec)
    requires AnyStatus(rec.tasks, TASK_FAILED) || !AnyStatus(rec.tasks, PENDING)
    ensures RunOk(supported, log, AfterDag(rec, loaded))
  {
    hide EnteredStatus, ValidRecord, Aligned, TakenBeforeExecution;
    if !AnyStatus(rec.tasks, TASK_FAILED) {
      forall t | t in rec.tasks ensures t.status.SUCCEEDED? || Rolled(t) {
        assert !t.status.RUNNING?;
        assert t.status != PENDING && t.status != TASK_FAILED;
      }
    }
  }

  lemma DagKeeps(s: Sys, id: nat, rec: Record, loaded: seq<Task>, now: Time)
    requires Inv(s) && RunOk(s.supported, s.log, ResumeDag(rec, loaded))
    ensures Inv(AdvanceDag(s, id, rec, loaded, Proceed(now)))
  {
    hide Inv, RecordOk, Executing, Ready;
    if !AnyStatus(rec.tasks, PENDING) {
      ExecutingWorks(s.log, rec, loaded);
      RecordOfRun(s, rec);
      AfterDagOk(s.supported, s.log, rec, loaded);
      GotoKeeps(s, id, AfterDag(rec, loaded));
    } else if ReadySet(rec) == {} {
      StoppedOk(s, id);
    } else {
      assert WaveOk(rec, ReadySet(rec), map[]) by { ReadyArePending(rec); }
      GotoKeeps(s, id, ResumeWave(rec, loaded, ReadySet(rec), map[]));
    }
  }

  lemma ReadyArePending(rec: Record)
    ensures forall i <- ReadySet(rec) :: i < |rec.tasks| && rec.tasks[i].status.PENDING?
  {
  }

  lemma WaveRun(supported: bool, log: seq<Event>, rec: Record, loaded: seq<Task>, ready: set<nat>, done: map<nat, Option<Task>>)
    ensures RunOk(supported, log, ResumeWave(rec, loaded, ready, done)) <==>
            Executing(log, rec, loaded) && AllSnapshots(rec) && WaveOk(rec, ready, done)
  {
    hide Executing, AllSnapshots, WaveOk;
  }

  lemma WaveKeeps(s: Sys, id: nat, rec: Record, loaded: seq<Task>, ready: set<nat>, done: map<nat, Option<Task>>, x: Input)
    requires Inv(s) && RunOk(s.supported, s.log, ResumeWave(rec, loaded, ready, done))
    ensures Inv(AdvanceWave(s, id, rec, loaded, ready, done, x))
  {
    hide Inv, RunOk, Emit, Goto, Update, WithResults, AfterWave;
    match x
    case Issue(i) =>
      if i in ready && i < |rec.tasks| && (i in done ==> done[i].None?) { IssueKeeps(s, id, rec, loaded, ready, done, i); }
    case Succeeded(i, attempts, execution, output) =>
      if i in done && done[i].None? && i < |rec.tasks| {
        ResultKeeps(s, id, rec, loaded, ready, done, i,
                    rec.tasks[i].(status := SUCCEEDED, attemptCount := attempts, executionId := Some(execution),
                                  outputHash := Some(output), errorCode := None));
      }
    case Failed(i, attempts, code) =>
      if i in done && done[i].None? && i < |rec.tasks| {
        ResultKeeps(s, id, rec, loaded, ready, done, i,
                    rec.tasks[i].(status := TASK_FAILED, attemptCount := attempts, errorCode := Some(code)));
      }
    case Proceed(now) =>
      if forall i <- ready :: i in done && done[i].Some? { WaveStored(s, id, rec, loaded, ready, done, now); }
    case _ =>
  }

  lemma IssueKeeps(s: Sys, id: nat, rec: Record, loaded: seq<Task>, ready: set<nat>, done: map<nat, Option<Task>>, i: nat)
    requires Inv(s) && RunOk(s.supported, s.log, ResumeWave(rec, loaded, ready, done))
    requires i in ready && i < |rec.tasks| && (i in done ==> done[i].None?)
    ensures Inv(Emit(s, id, ExecuteIssued(rec.tasks[i].stepId), ResumeWave(rec, loaded, ready, done[i := None])))
  {
    hide Inv, RunOk, Executing;
    var e := ExecuteIssued(rec.tasks[i].stepId);
    WaveRun(s.supported, s.log, rec, loaded, ready, done);
    WaveRun(s.supported, s.log + [e], rec, loaded, ready, done[i := None]);
    ExecutingGrows(s.log, [e], rec, loaded);
    ExecutingWorks(s.log, rec, loaded);
    assert Stored(rec) in s.log;
    assert EventOk(s.supported, s.log, e);
    EmitKeeps(s, id, e, ResumeWave(rec, loaded, ready, done[i := None]));
  }

  lemma ResultKeeps(s: Sys, id: nat, rec: Record, loaded: seq<Task>, ready: set<nat>, done: map<nat, Option<Task>>, i: nat, t: Task)
    requires Inv(s) && RunOk(s.supported, s.log, ResumeWave(rec, loaded, ready, done)) && i in done && i < |rec.tasks|
    requires SameTask(rec.tasks[i], t) && t.snapshotId == rec.tasks[i].snapshotId && t.snapshotHash == rec.tasks[i].snapshotHash
    requires (t.status.SUCCEEDED? || t.status.TASK_FAILED?) && (ValidTask(rec.tasks[i]) ==> ValidTask(t))
    ensures Inv(Goto(s, id, ResumeWave(rec, loaded, ready, done[i := Some(t)])))
  {
    hide Inv, RunOk, Executing, Goto, AllSnapshots;
    WaveRun(s.supported, s.log, rec, loaded, ready, done);
    WaveRun(s.supported, s.log, rec, loaded, ready, done[i := Some(t)]);
    ExecutingWorks(s.log, rec, loaded);
    TaskOfRun(s, rec, i);
    GotoKeeps(s, id, ResumeWave(rec, loaded, ready, done[i := Some(t)]));
  }

  lemma TaskOfRun(s: Sys, rec: Record, i: nat)
    requires Inv(s) && Known(s.log, rec) && i < |rec.tasks|
    ensures ValidTask(rec.tasks[i])
  {
    KnownOk(s.supported, s.log, rec);
    assert rec.tasks[i] in rec.tasks;
  }

  lemma WaveStored(s: Sys, id: nat, rec: Record, loaded: seq<Task>, ready: set<nat>, done: map<nat, Option<Task>>, now: Time)
    requires Inv(s) && RunOk(s.supported, s.log, ResumeWave(rec, loaded, ready, done))
    ensures Inv(Update(s, id, rec, WithResults(rec, done), now, r => AfterWave(r, loaded, done)))
  {
    hide Inv, Executing, ValidRecord;
    ExecutingWorks(s.log, rec, loaded);
    RecordOfRun(s, rec);
    var u := WithResults(rec, done).(updatedAt := now, version := rec.version + 1);
    if ValidRecord(u) {
      ResultsOk(s.supported, s.log, rec, ready, done, u);
      AfterWaveOk(s, rec, loaded, ready, done, u);
    }
    hide RunOk, RecordOk, Persists, WithResults;
    UpdateKeeps(s, id, rec, WithResults(rec, done), now, r => AfterWave(r, loaded, done));
  }

  lemma ResultsOk(supported: bool, log: seq<Event>, rec: Record, ready: set<nat>, done: map<nat, Option<Task>>, u: Record)
    requires Working(log, rec) && RecordOk(supported, log, rec) && WaveOk(rec, ready, done) && ValidRecord(u)
    requires u == WithResults(rec, done).(updatedAt := u.updatedAt, version := rec.version + 1)
    ensures RecordOk(supported, log, u) && Persists(rec, u)
  {
    forall i | 0 <= i < |u.tasks|
      ensures KeepsSnapshot(rec.tasks[i], u.tasks[i]) && !u.tasks[i].status.RUNNING?
      ensures u.tasks[i].snapshotId.Some? ==> TakenBeforeExecution(log, u.tasks[i].snapshotId.value)
    {
      assert rec.tasks[i] in rec.tasks;
    }
    TaskUpdate(supported, log, rec, u);
  }

  lemma AfterWaveOk(s: Sys, rec: Record, loaded: seq<Task>, ready: set<nat>, done: map<nat, Option<Task>>, u: Record)
    requires Executing(s.log, rec, loaded) && AllSnapshots(rec) && WaveOk(rec, ready, done)
    requires RecordOk(s.supported, s.log, u)
    requires u == WithResults(rec, done).(updatedAt := u.updatedAt, version := rec.version + 1)
    ensures RunOk(s.supported, s.log + [Stored(u)], AfterWave(u, loaded, done))
  {
    hide RecordOk;
    forall i | 0 <= i < |u.tasks| ensures Rolled(rec.tasks[i]) <==> Rolled(u.tasks[i]) {
      if i in done && done[i].Some? { assert i in ready; }
    }
    ExecutingUpdate(s.log, rec, u, loaded);
    RecordGrows(s.supported, s.log, [Stored(u)], u);
    if i :| i in done && done[i].Some? && done[i].value.status.TASK_FAILED? {
      assert u.tasks[i] == done[i].value && u.tasks[i] in u.tasks;
      AfterDagOk(s.supported, s.log + [Stored(u)], u, loaded);
    } else {
      forall t | t in u.tasks ensures t.snapshotId.Some? {
        var i :| 0 <= i < |u.tasks| && u.tasks[i] == t;
        assert rec.tasks[i] in rec.tasks;
      }
    }
  }
}
