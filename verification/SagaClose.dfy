/** Verification, completion, compensation and user requests keep the saga's invariant; so does every action. */
module SagaClose {
  import opened Common
  import opened Plans
  import opened Sandbox
  import opened Workflows
  import opened Saga
  import opened SagaInvariant
  import opened SagaProof
  import opened SagaSteps
  import opened SagaResume
  import C = ChangeState

  lemma MarkVerifyingKeeps(s: Sys, id: nat, rec: Record, loaded: seq<Task>, now: Time)
    requires Inv(s) && Executing(s.log, rec, loaded) && Settled(rec)
    ensures Inv(SetStatus(s, id, rec, VERIFYING, None, now, r => ResumeVerify(r, loaded, {})))
  {
    hide Inv, EnteredStatus;
    PlannedIsSupported(s, rec);
    var u := rec.(status := VERIFYING, lastErrorCode := None, updatedAt := now, version := rec.version + 1);
    var next := (r: Record) => ResumeVerify(r, loaded, {});
    ExecutingUpdate(s.log, rec, u, loaded);
    assert RunOk(s.supported, s.log + [Stored(u)], next(u));
    assert RunOk(s.supported, s.log, next(rec));
    hide RunOk;
    SetStatusKeeps(s, id, rec, VERIFYING, None, now, next);
  }

  /** A run verifies only after its own version of the tasks was stored. */
  lemma VerifiedNow(log: seq<Event>, rec: Record, stepId: string)
    requires Known(log, rec)
    ensures VerifiedAfter(log + [VerifyPassed(stepId)], rec.tasks, stepId)
  {
    var longer := log + [VerifyPassed(stepId)];
    var j :| 0 <= j < |log| && log[j] == Stored(rec);
    assert longer[j] == Stored(rec) && longer[|log|] == VerifyPassed(stepId);
  }

  lemma VerifyPassedKeeps(s: Sys, id: nat, rec: Record, loaded: seq<Task>, passed: set<nat>, i: nat)
    requires Inv(s) && RunOk(s.supported, s.log, ResumeVerify(rec, loaded, passed)) && i < |rec.tasks|
    ensures Inv(Emit(s, id, VerifyPassed(rec.tasks[i].stepId), ResumeVerify(rec, loaded, passed + {i})))
  {
    hide Inv, Executing, VerifiedAfter;
    var e := VerifyPassed(rec.tasks[i].stepId);
    ExecutingWorks(s.log, rec, loaded);
    ExecutingGrows(s.log, [e], rec, loaded);
    VerifiedNow(s.log, rec, rec.tasks[i].stepId);
    forall j | j in passed + {i} ensures j < |rec.tasks| && VerifiedAfter(s.log + [e], rec.tasks, rec.tasks[j].stepId) {
      if j in passed { VerifiedGrows(s.log, [e], rec.tasks, rec.tasks[j].stepId); }
    }
    assert RunOk(s.supported, s.log + [e], ResumeVerify(rec, loaded, passed + {i}));
    hide RunOk;
    EmitKeeps(s, id, e, ResumeVerify(rec, loaded, passed + {i}));
  }

  /** What a run knows while it verifies ... */
  lemma VerifyingRun(supported: bool, log: seq<Event>, pc: PC)
    requires RunOk(supported, log, pc)
    requires pc.ResumeToVerifying? || pc.ResumeMarkVerifying? || pc.ResumeVerify? || pc.ResumeToCompleted?
    ensures Executing(log, pc.rec, pc.loaded) && Settled(pc.rec)
    ensures pc.ResumeVerify? ==>
              forall i <- pc.passed :: i < |pc.rec.tasks| && VerifiedAfter(log, pc.rec.tasks, pc.rec.tasks[i].stepId)
  {
    hide EventRunOk, OtherRunOk, Executing, VerifiedAfter, AllVerified, Settled;
  }

  /** ... and where that lets it go. */
  lemma VerifyingRuns(supported: bool, log: seq<Event>, rec: Record, loaded: seq<Task>)
    requires Executing(log, rec, loaded) && Settled(rec)
    ensures RunOk(supported, log, ResumeMarkVerifying(rec, loaded))
    ensures forall code :: RunOk(supported, log, RollbackRead(rec, code))
    ensures AllVerified(log, rec.tasks) ==> RunOk(supported, log, ResumeToCompleted(rec, loaded))
  {
    hide EventRunOk, AllVerified, Settled, EnteredStatus, WasStored, Follows;
  }

  lemma VerificationKeeps(s: Sys, id: nat, pc: PC, x: Input)
    requires Inv(s) && RunOk(s.supported, s.log, pc)
    requires pc.ResumeToVerifying? || pc.ResumeMarkVerifying? || pc.ResumeVerify? || pc.ResumeToCompleted?
    ensures Inv(AdvanceVerification(s, id, pc, x))
  {
    hide Inv, RunOk, Executing, Settled, VerifiedAfter, AllVerified, SetStatus, Transition, Goto, Emit;
    VerifyingRun(s.supported, s.log, pc);
    VerifyingRuns(s.supported, s.log, pc.rec, pc.loaded);
    match (pc, x)
    case (ResumeToVerifying(rec, loaded), Proceed(now)) =>
      AnyEntered(s, C.VERIFYING, ResumeMarkVerifying(rec, loaded));
      TransitionKeeps(s, id, C.VERIFYING, None, None, rec, ResumeMarkVerifying(rec, loaded));
    case (ResumeMarkVerifying(rec, loaded), Proceed(now)) => MarkVerifyingKeeps(s, id, rec, loaded, now);
    case (ResumeVerify(rec, loaded, passed), Issue(i)) =>
      if i < |rec.tasks| { VerifyPassedKeeps(s, id, rec, loaded, passed, i); }
    case (ResumeVerify(rec, loaded, passed), Failure(code, _)) => GotoKeeps(s, id, RollbackRead(rec, code));
    case (ResumeVerify(rec, loaded, passed), Proceed(now)) =>
      if forall i | 0 <= i < |rec.tasks| :: i in passed {
        AllPassed(s.log, rec, passed);
        GotoKeeps(s, id, ResumeToCompleted(rec, loaded));
      }
    case (ResumeToCompleted(rec, loaded), Proceed(now)) =>
      CompletedNext(s, rec, loaded);
      TransitionKeeps(s, id, C.COMPLETED, None, None, rec, ResumeComplete(rec, loaded));
    case _ =>
  }

  lemma AllPassed(log: seq<Event>, rec: Record, passed: set<nat>)
    requires forall i <- passed :: i < |rec.tasks| && VerifiedAfter(log, rec.tasks, rec.tasks[i].stepId)
    requires forall i | 0 <= i < |rec.tasks| :: i in passed
    ensures AllVerified(log, rec.tasks)
  {
    hide VerifiedAfter;
    forall t | t in rec.tasks ensures VerifiedAfter(log, rec.tasks, t.stepId) {
      var i :| 0 <= i < |rec.tasks| && rec.tasks[i] == t;
      assert i in passed;
    }
  }

  lemma CompletedNext(s: Sys, rec: Record, loaded: seq<Task>)
    requires RunOk(s.supported, s.log, ResumeToCompleted(rec, loaded))
    ensures forall c: Change | c.status == C.COMPLETED :: RunOk(s.supported, s.log + [Entered(c)], ResumeComplete(rec, loaded))
  {
    hide Executing, AllVerified, EnteredStatus;
    forall c: Change | c.status == C.COMPLETED
      ensures RunOk(s.supported, s.log + [Entered(c)], ResumeComplete(rec, loaded))
    {
      EnteredIs(s.log + [Entered(c)], c);
      ExecutingGrows(s.log, [Entered(c)], rec, loaded);
      AllVerifiedGrows(s.log, [Entered(c)], rec.tasks);
    }
  }

  lemma CompletionHolds(s: Sys, rec: Record, loaded: seq<Task>, u: Record)
    requires RunOk(s.supported, s.log, ResumeComplete(rec, loaded))
    requires u.tasks == rec.tasks && u.plan == rec.plan && u.status == COMPLETED
    ensures CompletionOk(s.log, loaded, u)
  {
    hide AllVerified, EnteredStatus;
    if forall t <- u.tasks :: t.status.SUCCEEDED? {
      forall t | t in loaded ensures !Rolled(t) {
        var i :| 0 <= i < |loaded| && loaded[i] == t;
        assert u.tasks[i] in u.tasks && u.tasks[i].status.SUCCEEDED?;
      }
    }
    if forall t <- loaded :: !Rolled(t) {
      forall t | t in u.tasks ensures t.status.SUCCEEDED? {
        var i :| 0 <= i < |u.tasks| && u.tasks[i] == t;
        assert loaded[i] in loaded && !Rolled(loaded[i]);
      }
    }
  }

  lemma CompletedRecordOk(supported: bool, log: seq<Event>, rec: Record, u: Record, loaded: seq<Task>, now: Time)
    requires RecordOk(supported, log, rec) && ValidRecord(u) && !Closed(rec.status) && supported && rec.plan.Some?
    requires u == rec.(status := COMPLETED, lastErrorCode := None, completedAt := Some(now),
                       updatedAt := now, version := rec.version + 1)
    ensures RecordOk(supported, log + [Completing(loaded, u)], u) && Persists(rec, u)
  {
    hide ValidRecord, ValidateStepGraph, TakenBeforeExecution;
    RecordGrows(supported, log, [Completing(loaded, u)], rec);
    assert Completing(loaded, u) in log + [Completing(loaded, u)];
  }

  lemma CompleteKeeps(s: Sys, id: nat, rec: Record, loaded: seq<Task>, now: Time)
    requires Inv(s) && RunOk(s.supported, s.log, ResumeComplete(rec, loaded))
    ensures Inv(Complete(s, id, rec, loaded, now))
  {
    hide Inv, Executing, RecordOk, Persists, CompletionOk, EnteredStatus, AllVerified, ValidRecord;
    ExecutingWorks(s.log, rec, loaded);
    var u := rec.(status := COMPLETED, lastErrorCode := None, completedAt := Some(now),
                  updatedAt := now, version := rec.version + 1);
    if ValidRecord(u) && s.wf.Some? && s.wf.value.version == rec.version {
      SwapFindsOwnCopy(s, rec);
      RecordOfRun(s, rec);
      PlannedIsSupported(s, rec);
      CompletionHolds(s, rec, loaded, u);
      CompletedRecordOk(s.supported, s.log, rec, u, loaded, now);
      var e := Completing(loaded, u);
      EmitKeeps(s, id, e, Stopped);
      var s1 := Emit(s, id, e, Stopped);
      StoreKeeps(s1, id, u, Stopped);
      assert s1.log + [Stored(u)] == s.log + [e, Stored(u)];
      assert s1.runs[id := Stopped] == s.runs[id := Stopped];
    } else {
      StoppedOk(s, id);
    }
  }

  lemma AdvanceResumeKeeps(s: Sys, id: nat, pc: PC, x: Input)
    requires Inv(s) && InResume(pc) && RunOk(s.supported, s.log, pc)
    ensures Inv(AdvanceResume(s, id, pc, x))
  {
    hide Inv, RunOk, EventRunOk, ResumeRunOk, OtherRunOk, Goto, Transition, SetStatus, Loaded, AfterDag, ReadySet, AdvanceCapture, AdvanceWave, AdvanceVerification, Complete;
    if pc.ResumeAdvance? {
      if x.Proceed? { GrantKeeps(s, id, pc.rec, pc.seen, x.now); }
    } else if pc.ResumeSnapshots? {
      ResumeRunIs(s, pc);
      CaptureKeeps(s, id, pc.rec, pc.loaded, pc.taken, x);
    } else if pc.ResumeDag? {
      if x.Proceed? { DagKeeps(s, id, pc.rec, pc.loaded, x.now); }
    } else if pc.ResumeWave? {
      WaveKeeps(s, id, pc.rec, pc.loaded, pc.ready, pc.done, x);
    } else if pc.ResumeComplete? {
      if x.Proceed? { CompleteKeeps(s, id, pc.rec, pc.loaded, x.now); }
    } else if pc.ResumeStart? || pc.ResumeLoad? || pc.ResumeReject? || pc.ResumeChanges? || pc.ResumeReanalyse? {
      if x.Proceed? { AdmissionKeeps(s, id, pc, x.now); }
    } else {
      VerificationKeeps(s, id, pc, x);
    }
  }

  lemma ResumeRunIs(s: Sys, pc: PC)
    requires InResume(pc) && RunOk(s.supported, s.log, pc)
    ensures ResumeRunOk(s.supported, s.log, pc)
  {
  }

  // ---------------------------------------------------------------- rollback, terminal records, users

  lemma CompensatedOk(supported: bool, log: seq<Event>, rec: Record, done: map<nat, Task>, u: Record)
    requires Working(log, rec) && RecordOk(supported, log, rec) && CompensationOk(rec, done) && ValidRecord(u)
    requires u == WithRestored(rec, done).(updatedAt := u.updatedAt, version := rec.version + 1)
    ensures RecordOk(supported, log, u) && Persists(rec, u)
  {
    forall i | 0 <= i < |u.tasks|
      ensures KeepsSnapshot(rec.tasks[i], u.tasks[i]) && !u.tasks[i].status.RUNNING?
      ensures u.tasks[i].snapshotId.Some? ==> TakenBeforeExecution(log, u.tasks[i].snapshotId.value)
    {
      assert rec.tasks[i] in rec.tasks;
    }
    TaskUpdate(supported, log, rec, u);
  }

  lemma CompensateOne(s: Sys, id: nat, rec: Record, code: string, done: map<nat, Task>, i: nat, ok: bool, failure: string)
    requires Inv(s) && Working(s.log, rec) && CompensationOk(rec, done) && i < |rec.tasks|
    ensures Inv(Goto(s, id, RollbackTasks(rec, code, done[i := RestoredTask(rec.tasks[i], ok, failure)])))
  {
    hide Inv, EventRunOk, ResumeRunOk;
    TaskOfRun(s, rec, i);
    var done' := done[i := RestoredTask(rec.tasks[i], ok, failure)];
    assert CompensationOk(rec, done');
    hide CompensationOk, RestoredTask;
    assert OtherRunOk(s.supported, s.log, RollbackTasks(rec, code, done'));
    GotoKeeps(s, id, RollbackTasks(rec, code, done'));
  }

  lemma CompensationStored(s: Sys, id: nat, rec: Record, code: string, done: map<nat, Task>, now: Time)
    requires Inv(s) && Working(s.log, rec) && CompensationOk(rec, done)
    ensures Inv(Update(s, id, rec, WithRestored(rec, done), now, r => RollbackClose(r, code)))
  {
    hide Inv, ValidRecord, CompensationOk, EventRunOk, ResumeRunOk, RecordOk, Persists;
    RecordOfRun(s, rec);
    var u := WithRestored(rec, done).(updatedAt := now, version := rec.version + 1);
    if ValidRecord(u) { CompensatedOk(s.supported, s.log, rec, done, u); }
    assert OtherRunOk(s.supported, s.log + [Stored(u)], RollbackClose(u, code));
    assert RunOk(s.supported, s.log + [Stored(u)], RollbackClose(u, code));
    hide RunOk, OtherRunOk, WithRestored;
    UpdateKeeps(s, id, rec, WithRestored(rec, done), now, r => RollbackClose(r, code));
  }

  /** Where a run that compensates may go. */
  lemma CompensationRuns(supported: bool, log: seq<Event>, pc: PC)
    requires RunOk(supported, log, pc)
    requires pc.RollbackRead? || pc.RollbackEnter? || pc.RollbackMark? || pc.RollbackClose?
    ensures Working(log, pc.rec)
    ensures RunOk(supported, log, RollbackEnter(pc.rec, pc.code)) && RunOk(supported, log, RollbackMark(pc.rec, pc.code))
  {
    hide EventRunOk, ResumeRunOk, Working;
  }

  lemma RollbackKeeps(s: Sys, id: nat, pc: PC, x: Input)
    requires Inv(s) && RunOk(s.supported, s.log, pc)
    requires pc.RollbackRead? || pc.RollbackEnter? || pc.RollbackMark? || pc.RollbackClose?
    ensures Inv(AdvanceCompensation(s, id, pc, x))
  {
    hide Inv, RunOk, Working, Known, SetStatus, Transition, Goto, AnyStatus;
    CompensationRuns(s.supported, s.log, pc);
    match (pc, x)
    case (RollbackRead(rec, code), Proceed(now)) =>
      StoppedOk(s, id);
      GotoKeeps(s, id, RollbackEnter(rec, code));
      GotoKeeps(s, id, RollbackMark(rec, code));
    case (RollbackEnter(rec, code), Proceed(now)) =>
      AnyEntered(s, C.ROLLING_BACK, RollbackMark(rec, code));
      TransitionKeeps(s, id, C.ROLLING_BACK, None, None, rec, RollbackMark(rec, code));
    case (RollbackMark(rec, code), Proceed(now)) => MarkRollbackKeeps(s, id, rec, code, now);
    case (RollbackClose(rec, code), Proceed(now)) => RollbackCloseKeeps(s, id, rec, code, now);
    case _ =>
  }

  lemma RollbackCloseKeeps(s: Sys, id: nat, rec: Record, code: string, now: Time)
    requires Inv(s) && RunOk(s.supported, s.log, RollbackClose(rec, code))
    ensures Inv(AdvanceCompensation(s, id, RollbackClose(rec, code), Proceed(now)))
  {
    hide Inv, Update, SetStatus, Transition, EventRunOk, ResumeRunOk, AnyStatus;
    PlannedIsSupported(s, rec);
    var target := if AnyStatus(rec.tasks, ROLLBACK_FAILED) then C.NEEDS_ATTENTION else C.FAILED;
    var status := if AnyStatus(rec.tasks, ROLLBACK_FAILED) then NEEDS_ATTENTION else FAILED;
    assert RunOk(s.supported, s.log, Close(rec, status, code));
    AnyEntered(s, target, Close(rec, status, code));
    TransitionKeeps(s, id, target, None, None, rec, Close(rec, status, code));
  }

  lemma CompensationKeeps(s: Sys, id: nat, rec: Record, code: string, done: map<nat, Task>, x: Input)
    requires Inv(s) && Working(s.log, rec) && CompensationOk(rec, done)
    ensures Inv(AdvanceRestore(s, id, rec, code, done, x))
  {
    hide Inv, Update, CompensationOk, RestoredTask, WithRestored;
    match x
    case Restored(i) => if NextToRestore(rec, done, i) { CompensateOne(s, id, rec, code, done, i, true, ""); }
    case Failed(i, _, failure) => if NextToRestore(rec, done, i) { CompensateOne(s, id, rec, code, done, i, false, failure); }
    case Proceed(now) =>
      if forall i | 0 <= i < |rec.tasks| :: i in done { CompensationStored(s, id, rec, code, done, now); }
    case _ =>
  }

  lemma CompensatingRun(s: Sys, pc: PC)
    requires pc.RollbackTasks? && RunOk(s.supported, s.log, pc)
    ensures Working(s.log, pc.rec) && CompensationOk(pc.rec, pc.compensated)
  {
  }

  lemma MarkRollbackKeeps(s: Sys, id: nat, rec: Record, code: string, now: Time)
    requires Inv(s) && Working(s.log, rec)
    ensures Inv(SetStatus(s, id, rec, ROLLING_BACK, Some(code), now, r => RollbackTasks(r, code, map[])))
  {
    hide Inv;
    PlannedIsSupported(s, rec);
    var u := rec.(status := ROLLING_BACK, lastErrorCode := Some(code), updatedAt := now, version := rec.version + 1);
    var next := (r: Record) => RollbackTasks(r, code, map[]);
    assert RunOk(s.supported, s.log + [Stored(u)], next(u));
    assert RunOk(s.supported, s.log, next(rec));
    hide RunOk;
    SetStatusKeeps(s, id, rec, ROLLING_BACK, Some(code), now, next);
  }

  lemma CloseKeeps(s: Sys, id: nat, rec: Record, status: RuntimeStatus, code: string, now: Time)
    requires Inv(s) && RunOk(s.supported, s.log, Close(rec, status, code))
    ensures Inv(CloseRecord(s, id, rec, status, code, now))
  {
    hide Inv, ValidRecord, RecordOk, Persists, Known, Update, Goto;
    ClosingRun(s, rec, status, code);
    hide RunOk;
    StoppedOk(s, id);
    var r := rec.(status := status, lastErrorCode := Some(code), completedAt := Some(now));
    var u := r.(updatedAt := now, version := rec.version + 1);
    RecordOfRun(s, rec);
    if ValidRecord(u) { StatusUpdate(s.supported, s.log, rec, u); }
    UpdateKeeps(s, id, rec, r, now, r => Stopped);
  }

  lemma ClosingRun(s: Sys, rec: Record, status: RuntimeStatus, code: string)
    requires RunOk(s.supported, s.log, Close(rec, status, code))
    ensures Known(s.log, rec) && !Closed(rec.status) && Terminal(status) && !status.COMPLETED?
    ensures s.supported || status.DEAD_LETTERED?
    ensures forall l :: RunOk(s.supported, l, Stopped)
  {
  }

  lemma UserKeeps(s: Sys, id: nat, pc: PC, x: Input)
    requires Inv(s) && RunOk(s.supported, s.log, pc) && (pc.UserRetry? || pc.UserMove? || pc.UserCommit? || pc.Stopped?)
    ensures Inv(AdvanceUser(s, id, pc, x))
  {
    hide Inv, RunOk, Goto, Commit;
    StoppedOk(s, id);
    if s.change.Some? && (pc.UserRetry? || pc.UserMove?) {
      UserReads(s, pc);
      var status := s.change.value.status;
      if pc.UserRetry? {
        GotoKeeps(s, id, UserMove(C.SCREENING, pc.expected));
        GotoKeeps(s, id, UserMove(status, pc.expected));
      } else if C.CanTransition(status, pc.target) {
        GotoKeeps(s, id, UserCommit(s.change.value, pc.target, pc.expected));
      }
    } else if pc.UserCommit? {
      CommitKeeps(s, id, pc.current, pc.target, pc.expected);
    }
  }

  /** What a user's request may go on with after reading the change. */
  lemma UserReads(s: Sys, pc: PC)
    requires Inv(s) && s.change.Some? && RunOk(s.supported, s.log, pc)
    ensures forall n :: RunOk(s.supported, s.log, UserMove(C.SCREENING, n))
                        && RunOk(s.supported, s.log, UserMove(s.change.value.status, n))
    ensures pc.UserMove? && C.CanTransition(s.change.value.status, pc.target) ==>
              RunOk(s.supported, s.log, UserCommit(s.change.value, pc.target, pc.expected))
  {
    hide Inv, EnteredStatus, EventRunOk, ResumeRunOk;
    CurrentSeen(s);
    CurrentEntered(s);
  }

  lemma CurrentEntered(s: Sys)
    requires Inv(s) && s.change.Some?
    ensures Entered(s.change.value) in s.log
  {
  }

  lemma AdvanceRollbackKeeps(s: Sys, id: nat, pc: PC, x: Input)
    requires Inv(s) && !InEvent(pc) && !InResume(pc) && RunOk(s.supported, s.log, pc)
    ensures Inv(AdvanceRollback(s, id, pc, x))
  {
    hide Inv, RunOk, EventRunOk, ResumeRunOk, OtherRunOk, AdvanceRestore, CloseRecord, AdvanceUser, AdvanceCompensation;
    if pc.Close? {
      if x.Proceed? { CloseKeeps(s, id, pc.rec, pc.status, pc.code, x.now); }
    } else if pc.RollbackTasks? {
      CompensatingRun(s, pc);
      CompensationKeeps(s, id, pc.rec, pc.code, pc.compensated, x);
    } else if pc.UserRetry? || pc.UserMove? || pc.UserCommit? || pc.Stopped? {
      UserKeeps(s, id, pc, x);
    } else {
      RollbackKeeps(s, id, pc, x);
    }
  }

  // ---------------------------------------------------------------- all actions, all runs

  lemma ActKeepsInv(s: Sys, a: Action)
    requires Inv(s)
    ensures Inv(Act(s, a))
  {
    match a
    case Spawn(id, pc) =>
      if id !in s.runs && Startable(pc) {
        assert RunOk(s.supported, s.log, pc);
        hide Inv, RunOk;
        GotoKeeps(s, id, pc);
      }
    case Crash(id) => if id in s.runs { StoppedOk(s, id); }
    case Go(id, x) =>
      if id in s.runs {
        ThisRun(s, id);
        hide Inv, RunOk, InEvent, InResume, AdvanceEvent, AdvanceResume, AdvanceRollback;
        var pc := s.runs[id];
        if InEvent(pc) { AdvanceEventKeeps(s, id, pc, x); }
        else if InResume(pc) { AdvanceResumeKeeps(s, id, pc, x); }
        else { AdvanceRollbackKeeps(s, id, pc, x); }
      }
  }

  /** Every interleaving of engine runs, crashes and user requests satisfies the invariant. */
  lemma {:induction false} ReachableInv(supported: bool, actions: seq<Action>)
    ensures Inv(Run(supported, actions))
  {
    if actions != [] {
      ReachableInv(supported, actions[..|actions| - 1]);
      hide Inv, Act;
      ActKeepsInv(Run(supported, actions[..|actions| - 1]), actions[|actions| - 1]);
    }
  }
}
