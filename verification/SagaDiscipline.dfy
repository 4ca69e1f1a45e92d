/**
 What holds beside when every user's expected version is at most the version its request reads: a final
 change stays, and a plan hash that was set is never lost.
 */
module SagaDiscipline {
  import opened Common
  import opened Plans
  import opened Sandbox
  import opened Workflows
  import opened Saga
  import opened SagaInvariant
  import opened SagaClose
  import opened SagaTheorems
  import C = ChangeState

  /** A user's read finds at least the version the request expects. */
  predicate Disciplined(s: Sys, a: Action) {
    a.Go? && a.x.Proceed? && a.id in s.runs && s.runs[a.id].UserMove? && s.change.Some? ==>
      s.runs[a.id].expected <= s.change.value.version
  }

  predicate DisciplinedRun(supported: bool, actions: seq<Action>) {
    forall i | 0 <= i < |actions| :: Disciplined(Run(supported, actions[..i]), actions[i])
  }

  /** The change could be left, and with a plan hash only for one with a plan hash. */
  predicate Left(a: Change, b: Change) {
    !C.Final(a.status) && (a.planHash.Some? ==> b.planHash.Some?)
  }

  predicate ExpectsRead(pc: PC) {
    pc.UserCommit? ==> pc.expected <= pc.current.version
  }

  ghost predicate Tame(s: Sys) {
    && (forall id <- s.runs :: ExpectsRead(s.runs[id]))
    && (forall i, j | 0 <= i < j < |s.log| && s.log[i].Entered? && s.log[j].Entered? :: Left(s.log[i].change, s.log[j].change))
    && (forall e <- s.log :: e.Entered? ==>
          s.change.Some? && (e.change == s.change.value || Left(e.change, s.change.value)))
  }

  // ---------------------------------------------------------------- one step

  /** The change is as it was, and the log has no further entry of it. */
  predicate Quiet(s: Sys, s': Sys) {
    && s'.change == s.change && |s.log| <= |s'.log| && s'.log[..|s.log|] == s.log
    && forall k | |s.log| <= k < |s'.log| :: !s'.log[k].Entered?
  }

  /** The change was created or moved, by the one entry added to the log. */
  predicate Moved(s: Sys, s': Sys) {
    && s'.change.Some? && s'.log == s.log + [Entered(s'.change.value)]
    && (s.change.Some? ==> Left(s.change.value, s'.change.value))
  }

  predicate Tidy(s: Sys, s': Sys, id: nat) {
    && (Quiet(s, s') || Moved(s, s'))
    && (forall w <- s'.runs :: ExpectsRead(s'.runs[w]) || (w != id && w in s.runs && s'.runs[w] == s.runs[w]))
  }

  lemma GotoIsTidy(s: Sys, id: nat, pc: PC)
    requires ExpectsRead(pc)
    ensures Tidy(s, Goto(s, id, pc), id)
  {
  }

  lemma EmitIsTidy(s: Sys, id: nat, e: Event, pc: PC)
    requires ExpectsRead(pc) && !e.Entered?
    ensures Tidy(s, Emit(s, id, e, pc), id)
    ensures forall n :: Tidy(s, Emit(s.(nextSnapshot := n), id, e, pc), id)
  {
  }

  lemma UpdateIsTidy(s: Sys, id: nat, rec: Record, r: Record, now: Time, next: Record -> PC)
    requires forall u :: ExpectsRead(next(u))
    ensures Tidy(s, Update(s, id, rec, r, now, next), id)
  {
    hide ValidRecord;
  }

  lemma SetStatusIsTidy(s: Sys, id: nat, rec: Record, status: RuntimeStatus, code: Option<string>, now: Time, next: Record -> PC)
    requires forall u :: ExpectsRead(next(u))
    ensures Tidy(s, SetStatus(s, id, rec, status, code, now, next), id)
  {
    UpdateIsTidy(s, id, rec, rec.(status := status, lastErrorCode := code), now, next);
  }

  lemma TransitionIsTidy(s: Sys, id: nat, target: C.Status, workflow: Option<string>, plan: Option<Plan>, next: PC)
    requires ExpectsRead(next)
    ensures Tidy(s, Transition(s, id, target, workflow, plan, next), id)
  {
    hide C.CanTransition, Left, ExpectsRead, Tidy;
    StopIsTidy(s, id);
    var s' := Transition(s, id, target, workflow, plan, next);
    if s.change.Some? && C.CanTransition(s.change.value.status, target) {
      EdgesLeave(s.change.value.status, target);
      KeepsHash(s.change.value, s'.change.value);
      EntryIsTidy(s, id, s'.change.value, next);
    }
  }

  lemma StopIsTidy(s: Sys, id: nat)
    ensures Tidy(s, Goto(s, id, Stopped), id)
  {
    GotoIsTidy(s, id, Stopped);
  }

  lemma KeepsHash(a: Change, b: Change)
    requires !C.Final(a.status) && (a.planHash.Some? ==> b.planHash.Some?)
    ensures Left(a, b)
  {
  }

  lemma EntryIsTidy(s: Sys, id: nat, c: Change, next: PC)
    requires ExpectsRead(next) && (s.change.Some? ==> Left(s.change.value, c))
    ensures Tidy(s, s.(change := Some(c), log := s.log + [Entered(c)], runs := s.runs[id := next]), id)
  {
    hide Left, ExpectsRead;
  }

  lemma EdgesLeave(from: C.Status, target: C.Status)
    ensures C.CanTransition(from, target) ==> !C.Final(from)
  {
  }

  lemma EventIsTidy(s: Sys, id: nat, pc: PC, x: Input)
    requires InEvent(pc)
    ensures Tidy(s, AdvanceEvent(s, id, pc, x), id) || AdvanceEvent(s, id, pc, x) == s
  {
    hide Tidy, AdvanceIntake, AdvanceScreening, AdvancePlanning, AdvanceApproval;
    if pc.EventStart? || pc.EventBump? || pc.EventCreate? || pc.EventLoaded? || pc.EventAnalyzing? { IntakeIsTidy(s, id, pc, x); }
    else if pc.EventReadChange? || pc.EventScreen? || pc.EventAnalyse? || pc.EventBlock? { ScreeningIsTidy(s, id, pc, x); }
    else if pc.EventAnalysed? || pc.EventToAnalyzing? || pc.EventStorePlan? || pc.EventRead? { PlanningIsTidy(s, id, pc, x); }
    else { ApprovalIsTidy(s, id, pc, x); }
  }

  lemma IntakeIsTidy(s: Sys, id: nat, pc: PC, x: Input)
    ensures Tidy(s, AdvanceIntake(s, id, pc, x), id) || AdvanceIntake(s, id, pc, x) == s
  {
    hide Tidy, Update, SetStatus, AdvanceIntake;
    if x.Proceed? {
      match pc
      case EventStart => StartIsTidy(s, id, x.now);
      case EventBump(rec) => BumpIsTidy(s, id, rec, x.now);
      case EventCreate => CreationIsTidy(s, id, x.now);
      case EventLoaded(rec) => LoadedIsTidy(s, id, rec, x.now);
      case EventAnalyzing(rec) => AnalyzingIsTidy(s, id, rec, x.now);
      case _ => OtherIntake(s, id, pc, x);
    } else {
      OtherIntake(s, id, pc, x);
    }
  }

  lemma OtherIntake(s: Sys, id: nat, pc: PC, x: Input)
    requires !x.Proceed? || !(pc.EventStart? || pc.EventBump? || pc.EventCreate? || pc.EventLoaded? || pc.EventAnalyzing?)
    ensures AdvanceIntake(s, id, pc, x) == s
  {
  }

  lemma StartIsTidy(s: Sys, id: nat, now: Time)
    ensures Tidy(s, AdvanceIntake(s, id, EventStart, Proceed(now)), id)
  {
    hide Tidy, Goto;
    GotoIsTidy(s, id, Stopped);
    GotoIsTidy(s, id, EventCreate);
    if s.wf.Some? { GotoIsTidy(s, id, EventBump(s.wf.value)); }
  }

  lemma BumpIsTidy(s: Sys, id: nat, rec: Record, now: Time)
    ensures Tidy(s, AdvanceIntake(s, id, EventBump(rec), Proceed(now)), id)
  {
    hide Tidy, Update;
    UpdateIsTidy(s, id, rec, rec.(deliveryAttempts := rec.deliveryAttempts + 1), now, r => EventLoaded(r));
  }

  lemma CreationIsTidy(s: Sys, id: nat, now: Time)
    ensures Tidy(s, AdvanceIntake(s, id, EventCreate, Proceed(now)), id)
  {
  }

  lemma LoadedIsTidy(s: Sys, id: nat, rec: Record, now: Time)
    ensures Tidy(s, AdvanceIntake(s, id, EventLoaded(rec), Proceed(now)), id)
  {
  }

  lemma AnalyzingIsTidy(s: Sys, id: nat, rec: Record, now: Time)
    ensures Tidy(s, AdvanceIntake(s, id, EventAnalyzing(rec), Proceed(now)), id)
  {
    hide Tidy, SetStatus;
    SetStatusIsTidy(s, id, rec, ANALYZING, None, now, r => EventReadChange(r));
  }

  lemma ScreeningIsTidy(s: Sys, id: nat, pc: PC, x: Input)
    ensures Tidy(s, AdvanceScreening(s, id, pc, x), id) || AdvanceScreening(s, id, pc, x) == s
  {
    hide ValidateStepGraph, Transition, Tidy, Goto;
    GotoIsTidy(s, id, Stopped);
    if pc.EventReadChange? {
      GotoIsTidy(s, id, EventScreen(pc.rec));
      GotoIsTidy(s, id, AfterScreening(pc.rec));
    } else if pc.EventScreen? {
      TransitionIsTidy(s, id, C.SCREENING, Some(pc.rec.workflowId), None, AfterScreening(pc.rec));
    } else if pc.EventAnalyse? {
      GotoIsTidy(s, id, Close(pc.rec, DEAD_LETTERED, "FLEET_INVALID_RESPONSE"));
      if x.Answer? { GotoIsTidy(s, id, EventAnalysed(pc.rec, x.plan, x.hash)); }
      if x.Failure? {
        GotoIsTidy(s, id, EventBlock(pc.rec, x.code));
        GotoIsTidy(s, id, Close(pc.rec, DEAD_LETTERED, x.code));
      }
    } else if pc.EventBlock? {
      TransitionIsTidy(s, id, C.BLOCKED, None, None, Close(pc.rec, FAILED, pc.code));
    }
  }

  lemma PlanningIsTidy(s: Sys, id: nat, pc: PC, x: Input)
    ensures Tidy(s, AdvancePlanning(s, id, pc, x), id) || AdvancePlanning(s, id, pc, x) == s
  {
    hide Tidy, StorePlan, Transition, Goto;
    GotoIsTidy(s, id, Stopped);
    if pc.EventAnalysed? {
      GotoIsTidy(s, id, EventToAnalyzing(pc.rec, pc.plan, pc.hash));
      GotoIsTidy(s, id, EventStorePlan(pc.rec, pc.plan, pc.hash));
    } else if pc.EventToAnalyzing? {
      TransitionIsTidy(s, id, C.ANALYZING, None, None, EventStorePlan(pc.rec, pc.plan, pc.hash));
    } else if pc.EventStorePlan? && x.Proceed? {
      StorePlanIsTidy(s, id, pc.rec, pc.plan, pc.hash, x.now);
    } else if pc.EventRead? && s.change.Some? {
      GotoIsTidy(s, id, EventAdvance(pc.rec, s.change.value.status));
    }
  }

  lemma StorePlanIsTidy(s: Sys, id: nat, rec: Record, p: Plan, hash: PlanDigest, now: Time)
    ensures Tidy(s, StorePlan(s, id, rec, p, hash, now), id)
  {
    hide Tidy, Update, Goto, Planned, CalculatePlanHash;
    GotoIsTidy(s, id, Close(rec, DEAD_LETTERED, "INVALID_FLEET_PLAN"));
    GotoIsTidy(s, id, Stopped);
    UpdateIsTidy(s, id, rec, Planned(rec, p, now), now, r => EventRead(r));
  }

  lemma ApprovalIsTidy(s: Sys, id: nat, pc: PC, x: Input)
    ensures Tidy(s, AdvanceApproval(s, id, pc, x), id) || AdvanceApproval(s, id, pc, x) == s
  {
    hide Tidy, Transition, Goto, SetStatus;
    GotoIsTidy(s, id, Stopped);
    if pc.EventAdvance? {
      TransitionIsTidy(s, id, C.ANALYZING, None, None, EventAdvance(pc.rec, C.ANALYZING));
      TransitionIsTidy(s, id, C.PLAN_READY, None, pc.rec.plan, EventAdvance(pc.rec, C.PLAN_READY));
      TransitionIsTidy(s, id, C.AWAITING_APPROVAL, None, None, EventAdvance(pc.rec, C.AWAITING_APPROVAL));
      GotoIsTidy(s, id, EventWait(pc.rec));
      if x.Failure? { GotoIsTidy(s, id, Close(pc.rec, DEAD_LETTERED, x.code)); }
    } else if pc.EventWait? && x.Proceed? {
      SetStatusIsTidy(s, id, pc.rec, WAITING_APPROVAL, None, x.now, r => Stopped);
    }
  }

  lemma ResumeIsTidy(s: Sys, id: nat, pc: PC, x: Input)
    requires InResume(pc)
    ensures Tidy(s, AdvanceResume(s, id, pc, x), id) || AdvanceResume(s, id, pc, x) == s
  {
    hide Tidy, InResume, ExpectsRead, Complete, AdvanceAdmission, AdvanceGrant, AdvanceCapture, AdvanceDag, AdvanceWave, AdvanceVerification;
    if pc.ResumeAdvance? { GrantIsTidy(s, id, pc.rec, pc.seen, x); }
    else if pc.ResumeSnapshots? { CaptureIsTidy(s, id, pc.rec, pc.loaded, pc.taken, x); }
    else if pc.ResumeDag? { DagIsTidy(s, id, pc.rec, pc.loaded, x); }
    else if pc.ResumeWave? { WaveIsTidy(s, id, pc.rec, pc.loaded, pc.ready, pc.done, x); }
    else if pc.ResumeComplete? { if x.Proceed? { CompletionIsTidy(s, id, pc.rec, pc.loaded, x.now); } }
    else {
      VerificationIsTidy(s, id, pc, x);
      AdmissionIsTidy(s, id, pc, x);
    }
  }

  lemma AdmissionIsTidy(s: Sys, id: nat, pc: PC, x: Input)
    ensures Tidy(s, AdvanceAdmission(s, id, pc, x), id) || AdvanceAdmission(s, id, pc, x) == s
  {
    hide Tidy, AdvanceAdmission;
    if x.Proceed? && (pc.ResumeStart? || pc.ResumeLoad?) { LoadIsTidy(s, id, pc, x.now); }
    else if x.Proceed? && pc.ResumeReject? { RejectIsTidy(s, id, pc.rec, x.now); }
    else if x.Proceed? && pc.ResumeChanges? { ChangesAreTidy(s, id, pc.rec, pc.seen, x.now); }
    else if x.Proceed? && pc.ResumeReanalyse? { ReanalyseIsTidy(s, id, pc.rec, x.now); }
    else { OtherAdmission(s, id, pc, x); }
  }

  lemma OtherAdmission(s: Sys, id: nat, pc: PC, x: Input)
    requires !x.Proceed? || !(pc.ResumeStart? || pc.ResumeLoad? || pc.ResumeReject? || pc.ResumeChanges? || pc.ResumeReanalyse?)
    ensures AdvanceAdmission(s, id, pc, x) == s
  {
  }

  lemma LoadIsTidy(s: Sys, id: nat, pc: PC, now: Time)
    requires pc.ResumeStart? || pc.ResumeLoad?
    ensures Tidy(s, AdvanceAdmission(s, id, pc, Proceed(now)), id)
  {
    hide Tidy, Goto, Loaded;
    GotoIsTidy(s, id, Stopped);
    if pc.ResumeStart? && s.change.Some? { GotoIsTidy(s, id, ResumeLoad(pc.callback, s.change.value.status)); }
    if pc.ResumeLoad? && s.wf.Some? {
      LoadedReads(pc.callback, pc.seen, s.wf.value);
      GotoIsTidy(s, id, Loaded(pc.callback, pc.seen, s.wf.value));
    }
  }

  lemma RejectIsTidy(s: Sys, id: nat, rec: Record, now: Time)
    ensures Tidy(s, AdvanceAdmission(s, id, ResumeReject(rec), Proceed(now)), id)
  {
    hide Tidy, Transition;
    TransitionIsTidy(s, id, C.REJECTED, None, None, Close(rec, FAILED, "APPROVAL_REJECTED"));
  }

  lemma ReanalyseIsTidy(s: Sys, id: nat, rec: Record, now: Time)
    ensures Tidy(s, AdvanceAdmission(s, id, ResumeReanalyse(rec), Proceed(now)), id)
  {
    hide Tidy, SetStatus;
    SetStatusIsTidy(s, id, rec, ANALYZING, Some("APPROVAL_CHANGES_REQUESTED"), now, r => Stopped);
  }

  lemma ChangesAreTidy(s: Sys, id: nat, rec: Record, seen: C.Status, now: Time)
    ensures Tidy(s, AdvanceAdmission(s, id, ResumeChanges(rec, seen), Proceed(now)), id)
  {
    hide Tidy, Transition, Goto;
    TransitionIsTidy(s, id, C.REJECTED, None, None, ResumeChanges(rec, C.REJECTED));
    TransitionIsTidy(s, id, C.ANALYZING, None, None, ResumeReanalyse(rec));
    GotoIsTidy(s, id, ResumeReanalyse(rec));
  }

  lemma GrantIsTidy(s: Sys, id: nat, rec: Record, seen: C.Status, x: Input)
    ensures Tidy(s, AdvanceGrant(s, id, rec, seen, x), id) || AdvanceGrant(s, id, rec, seen, x) == s
  {
    hide Tidy, SetStatus, Transition, Goto;
    GotoIsTidy(s, id, Stopped);
    TransitionIsTidy(s, id, C.APPROVED, None, None, ResumeAdvance(rec, C.APPROVED));
    TransitionIsTidy(s, id, C.EXECUTING, None, None, ResumeAdvance(rec, C.EXECUTING));
    if x.Proceed? { SetStatusIsTidy(s, id, rec, EXECUTING, None, x.now, r => ResumeSnapshots(r, rec.tasks, map[])); }
  }

  lemma CaptureIsTidy(s: Sys, id: nat, rec: Record, loaded: seq<Task>, taken: map<nat, (nat, ConfigDigest)>, x: Input)
    ensures Tidy(s, AdvanceCapture(s, id, rec, loaded, taken, x), id) || AdvanceCapture(s, id, rec, loaded, taken, x) == s
  {
    hide Tidy, Update, Goto, Emit, WithSnapshots;
    GotoIsTidy(s, id, ResumeDag(rec, loaded));
    if x.Captured? && Missing(rec, x.i) {
      EmitIsTidy(s, id, SnapshotTaken(s.nextSnapshot, rec.tasks[x.i].stepId, x.configuration),
                 ResumeSnapshots(rec, loaded, taken[x.i := (s.nextSnapshot, x.configuration)]));
    } else if x.Proceed? {
      UpdateIsTidy(s, id, rec, WithSnapshots(rec, taken), x.now, r => ResumeDag(r, loaded));
    }
  }

  lemma DagIsTidy(s: Sys, id: nat, rec: Record, loaded: seq<Task>, x: Input)
    ensures Tidy(s, AdvanceDag(s, id, rec, loaded, x), id) || AdvanceDag(s, id, rec, loaded, x) == s
  {
    hide Tidy, Goto, AfterDag, ReadySet;
    AfterDagReads(rec, loaded);
    GotoIsTidy(s, id, AfterDag(rec, loaded));
    GotoIsTidy(s, id, Stopped);
    GotoIsTidy(s, id, ResumeWave(rec, loaded, ReadySet(rec), map[]));
  }

  lemma VerificationIsTidy(s: Sys, id: nat, pc: PC, x: Input)
    ensures Tidy(s, AdvanceVerification(s, id, pc, x), id) || AdvanceVerification(s, id, pc, x) == s
  {
    hide Tidy, SetStatus, Transition, Goto, Emit;
    if pc.ResumeToVerifying? {
      TransitionIsTidy(s, id, C.VERIFYING, None, None, ResumeMarkVerifying(pc.rec, pc.loaded));
    } else if pc.ResumeMarkVerifying? && x.Proceed? {
      SetStatusIsTidy(s, id, pc.rec, VERIFYING, None, x.now, r => ResumeVerify(r, pc.loaded, {}));
    } else if pc.ResumeVerify? {
      VerifyIsTidy(s, id, pc.rec, pc.loaded, pc.passed, x);
    } else if pc.ResumeToCompleted? {
      TransitionIsTidy(s, id, C.COMPLETED, None, None, ResumeComplete(pc.rec, pc.loaded));
    }
  }

  lemma VerifyIsTidy(s: Sys, id: nat, rec: Record, loaded: seq<Task>, passed: set<nat>, x: Input)
    ensures Tidy(s, AdvanceVerification(s, id, ResumeVerify(rec, loaded, passed), x), id)
            || AdvanceVerification(s, id, ResumeVerify(rec, loaded, passed), x) == s
  {
    hide Tidy, Goto, Emit;
    GotoIsTidy(s, id, ResumeToCompleted(rec, loaded));
    match x
    case Issue(i) =>
      if i < |rec.tasks| { EmitIsTidy(s, id, VerifyPassed(rec.tasks[i].stepId), ResumeVerify(rec, loaded, passed + {i})); }
    case Failure(code, _) => GotoIsTidy(s, id, RollbackRead(rec, code));
    case _ =>
  }

  lemma LoadedReads(cb: Callback, seen: C.Status, rec: Record)
    ensures ExpectsRead(Loaded(cb, seen, rec))
  {
  }

  lemma AfterDagReads(rec: Record, loaded: seq<Task>)
    ensures ExpectsRead(AfterDag(rec, loaded)) && forall done :: ExpectsRead(AfterWave(rec, loaded, done))
  {
  }

  lemma CompletionIsTidy(s: Sys, id: nat, rec: Record, loaded: seq<Task>, now: Time)
    ensures Tidy(s, Complete(s, id, rec, loaded, now), id)
  {
    hide ValidRecord;
  }

  lemma WaveIsTidy(s: Sys, id: nat, rec: Record, loaded: seq<Task>, ready: set<nat>, done: map<nat, Option<Task>>, x: Input)
    ensures Tidy(s, AdvanceWave(s, id, rec, loaded, ready, done, x), id) || AdvanceWave(s, id, rec, loaded, ready, done, x) == s
  {
    hide Tidy, Update, Goto, Emit, WithResults, AfterWave;
    match x
    case Issue(i) =>
      if i < |rec.tasks| { EmitIsTidy(s, id, ExecuteIssued(rec.tasks[i].stepId), ResumeWave(rec, loaded, ready, done[i := None])); }
    case Succeeded(i, attempts, execution, output) =>
      if i < |rec.tasks| {
        var t := rec.tasks[i].(status := SUCCEEDED, attemptCount := attempts, executionId := Some(execution),
                               outputHash := Some(output), errorCode := None);
        GotoIsTidy(s, id, ResumeWave(rec, loaded, ready, done[i := Some(t)]));
      }
    case Failed(i, attempts, code) =>
      if i < |rec.tasks| {
        var t := rec.tasks[i].(status := TASK_FAILED, attemptCount := attempts, errorCode := Some(code));
        GotoIsTidy(s, id, ResumeWave(rec, loaded, ready, done[i := Some(t)]));
      }
    case Proceed(now) =>
      forall r ensures ExpectsRead(AfterWave(r, loaded, done)) { AfterDagReads(r, loaded); }
      UpdateIsTidy(s, id, rec, WithResults(rec, done), now, r => AfterWave(r, loaded, done));
    case _ =>
  }

  lemma RollbackIsTidy(s: Sys, id: nat, pc: PC, x: Input)
    requires !pc.UserMove? && !pc.UserCommit?
    ensures Tidy(s, AdvanceRollback(s, id, pc, x), id) || AdvanceRollback(s, id, pc, x) == s
  {
    hide Tidy, AdvanceRestore, AdvanceCompensation, AdvanceUser, CloseRecord;
    match pc
    case RollbackTasks(rec, code, done) => RestoreIsTidy(s, id, rec, code, done, x);
    case Close(rec, status, code) => if x.Proceed? { CloseIsTidy(s, id, rec, status, code, x.now); }
    case _ =>
      UserRetryIsTidy(s, id, pc, x);
      CompensationIsTidy(s, id, pc, x);
  }

  lemma CloseIsTidy(s: Sys, id: nat, rec: Record, status: RuntimeStatus, code: string, now: Time)
    ensures Tidy(s, CloseRecord(s, id, rec, status, code, now), id)
  {
    hide Tidy, Goto, Update;
    GotoIsTidy(s, id, Stopped);
    UpdateIsTidy(s, id, rec, rec.(status := status, lastErrorCode := Some(code), completedAt := Some(now)), now, r => Stopped);
  }

  lemma UserRetryIsTidy(s: Sys, id: nat, pc: PC, x: Input)
    requires !pc.UserMove? && !pc.UserCommit?
    ensures Tidy(s, AdvanceUser(s, id, pc, x), id) || AdvanceUser(s, id, pc, x) == s
  {
    hide Tidy, Goto, Commit;
    GotoIsTidy(s, id, Stopped);
    if pc.UserRetry? {
      GotoIsTidy(s, id, UserMove(C.SCREENING, pc.expected));
      if s.change.Some? { GotoIsTidy(s, id, UserMove(s.change.value.status, pc.expected)); }
    }
  }

  lemma CompensationIsTidy(s: Sys, id: nat, pc: PC, x: Input)
    ensures Tidy(s, AdvanceCompensation(s, id, pc, x), id) || AdvanceCompensation(s, id, pc, x) == s
  {
    hide Tidy, SetStatus, Transition, Goto, AnyStatus;
    StopIsTidy(s, id);
    if pc.RollbackRead? {
      GotoIsTidy(s, id, RollbackEnter(pc.rec, pc.code));
      GotoIsTidy(s, id, RollbackMark(pc.rec, pc.code));
    } else if pc.RollbackEnter? {
      TransitionIsTidy(s, id, C.ROLLING_BACK, None, None, RollbackMark(pc.rec, pc.code));
    } else if pc.RollbackMark? && x.Proceed? {
      SetStatusIsTidy(s, id, pc.rec, ROLLING_BACK, Some(pc.code), x.now, r => RollbackTasks(r, pc.code, map[]));
    } else if pc.RollbackClose? {
      TransitionIsTidy(s, id, C.NEEDS_ATTENTION, None, None, Close(pc.rec, NEEDS_ATTENTION, pc.code));
      TransitionIsTidy(s, id, C.FAILED, None, None, Close(pc.rec, FAILED, pc.code));
    }
  }

  lemma RestoreIsTidy(s: Sys, id: nat, rec: Record, code: string, done: map<nat, Task>, x: Input)
    ensures Tidy(s, AdvanceRestore(s, id, rec, code, done, x), id) || AdvanceRestore(s, id, rec, code, done, x) == s
  {
    hide Tidy, Update, Goto, OrderOf, RestoredTask, WithRestored;
    match x
    case Restored(i) =>
      if i < |rec.tasks| { GotoIsTidy(s, id, RollbackTasks(rec, code, done[i := RestoredTask(rec.tasks[i], true, "")])); }
    case Failed(i, _, failure) =>
      if i < |rec.tasks| { GotoIsTidy(s, id, RollbackTasks(rec, code, done[i := RestoredTask(rec.tasks[i], false, failure)])); }
    case Proceed(now) => UpdateIsTidy(s, id, rec, WithRestored(rec, done), now, r => RollbackClose(r, code));
    case _ =>
  }

  lemma UserReadIsTidy(s: Sys, id: nat, pc: PC, x: Input)
    requires pc.UserMove? && (x.Proceed? && s.change.Some? ==> pc.expected <= s.change.value.version)
    ensures Tidy(s, AdvanceRollback(s, id, pc, x), id) || AdvanceRollback(s, id, pc, x) == s
  {
  }

  /** A request that expects no more than it read finds its own copy stored, or changes nothing. */
  lemma UserCommitIsTidy(s: Sys, id: nat, pc: PC, x: Input)
    requires Inv(s) && pc.UserCommit? && RunOk(s.supported, s.log, pc) && ExpectsRead(pc)
    ensures Tidy(s, AdvanceRollback(s, id, pc, x), id) || AdvanceRollback(s, id, pc, x) == s
  {
    hide LogOk, WorkflowOk, EnteredStatus, EventRunOk, ResumeRunOk;
    if x.Proceed? && s.change.Some? && s.change.value.version == pc.expected {
      assert Entered(pc.current) in s.log;
      assert pc.current == s.change.value;
      assert ExpectsRead(Stopped);
    }
  }

  lemma TidyKeepsTame(s: Sys, s': Sys, id: nat)
    requires Tame(s) && Tidy(s, s', id) && (s.change.Some? ==> Entered(s.change.value) in s.log)
    ensures Tame(s')
  {
    hide ExpectsRead;
    forall w | w in s'.runs ensures ExpectsRead(s'.runs[w]) {
    }
    if Quiet(s, s') {
      assert forall k | 0 <= k < |s.log| :: s'.log[k] == s'.log[..|s.log|][k] == s.log[k];
      assert forall k | 0 <= k < |s'.log| && s'.log[k].Entered? :: k < |s.log|;
    } else {
      var c := s'.change.value;
      forall e | e in s'.log && e.Entered? ensures e.change == c || Left(e.change, c) {
        if e in s.log && s.change.Some? && e.change != s.change.value { assert Left(e.change, s.change.value); }
      }
      forall i, j | 0 <= i < j < |s'.log| && s'.log[i].Entered? && s'.log[j].Entered?
        ensures Left(s'.log[i].change, s'.log[j].change)
      {
        if j == |s.log| { assert s.log[i] in s.log; }
      }
    }
  }

  lemma ActKeepsTame(s: Sys, a: Action)
    requires Inv(s) && Tame(s) && Disciplined(s, a)
    ensures Tame(Act(s, a))
  {
    hide AdvanceEvent, AdvanceResume, AdvanceRollback, Tame, Tidy;
    var id, s' := a.id, Act(s, a);
    assert s' != s ==> Tidy(s, s', id) by {
      match a
      case Spawn(_, pc) => if Startable(pc) { GotoIsTidy(s, id, pc); }
      case Crash(_) => GotoIsTidy(s, id, Stopped);
      case Go(_, x) => if id in s.runs { RunIsTidy(s, id, x); }
    }
    if s' != s {
      if s.change.Some? { CurrentEntered(s); }
      TidyKeepsTame(s, s', id);
    }
  }

  lemma RunIsTidy(s: Sys, id: nat, x: Input)
    requires Inv(s) && Tame(s) && id in s.runs && Disciplined(s, Go(id, x))
    ensures Act(s, Go(id, x)) != s ==> Tidy(s, Act(s, Go(id, x)), id)
  {
    hide AdvanceEvent, AdvanceResume, AdvanceRollback, Tidy, ChangeOk, LogOk, WorkflowOk, RunOk;
    var pc := s.runs[id];
    assert RunOk(s.supported, s.log, pc) && ExpectsRead(pc);
    if InEvent(pc) { EventIsTidy(s, id, pc, x); }
    else if InResume(pc) { ResumeIsTidy(s, id, pc, x); }
    else if pc.UserMove? { UserReadIsTidy(s, id, pc, x); }
    else if pc.UserCommit? { UserCommitIsTidy(s, id, pc, x); }
    else { RollbackIsTidy(s, id, pc, x); }
  }

  // ---------------------------------------------------------------- every disciplined run

  lemma {:induction false} DisciplinedIsTame(supported: bool, actions: seq<Action>)
    requires DisciplinedRun(supported, actions)
    ensures Tame(Run(supported, actions))
  {
    if actions != [] {
      var prefix, last := actions[..|actions| - 1], actions[|actions| - 1];
      assert forall i | 0 <= i < |prefix| :: prefix[..i] == actions[..i];
      DisciplinedIsTame(supported, prefix);
      ReachableInv(supported, prefix);
      hide Inv, Act, Tame;
      ActKeepsTame(Run(supported, prefix), last);
    }
  }

  /** The change's plan hash, once set, is never changed or lost, and is that of every stored record with a plan. */
  lemma PlanHashIsForEver(supported: bool, actions: seq<Action>, i: nat)
    requires DisciplinedRun(supported, actions)
    requires i < |Run(supported, actions).log| && Run(supported, actions).log[i].Entered?
    requires Run(supported, actions).log[i].change.planHash.Some?
    ensures var s, hash := Run(supported, actions), Run(supported, actions).log[i].change.planHash;
            && s.wf.Some? && s.wf.value.planHash == hash
            && s.change.Some? && s.change.value.planHash == hash
            && (forall j | 0 <= j < |s.log| :: s.log[j].Stored? && s.log[j].record.plan.Some? ==> s.log[j].record.planHash == hash)
            && (forall j | i <= j < |s.log| :: s.log[j].Entered? ==> s.log[j].change.planHash == hash)
  {
    PlanHashIsTheWorkflows(supported, actions, i);
    DisciplinedIsTame(supported, actions);
    ReachableInv(supported, actions);
    hide Run, DisciplinedRun, Inv, Tame;
    HashStays(Run(supported, actions), i);
  }

  lemma HashStays(s: Sys, i: nat)
    requires Inv(s) && Tame(s) && i < |s.log| && s.log[i].Entered? && s.log[i].change.planHash.Some?
    requires forall j | 0 <= j < |s.log| :: s.log[j].Entered? ==> s.log[j].change.planHash in {None, s.log[i].change.planHash}
    ensures s.change.Some? && s.change.value.planHash == s.log[i].change.planHash
    ensures forall j | i <= j < |s.log| :: s.log[j].Entered? ==> s.log[j].change.planHash == s.log[i].change.planHash
  {
    hide LogOk, WorkflowOk, RunOk, ExpectsRead;
    assert s.log[i] in s.log;
    var k :| 0 <= k < |s.log| && s.log[k] == Entered(s.change.value);
    forall j | i <= j < |s.log| && s.log[j].Entered? ensures s.log[j].change.planHash == s.log[i].change.planHash {
      if i < j { assert Left(s.log[i].change, s.log[j].change); }
    }
  }

  /** A final change is the last: COMPLETED, FAILED, PARTIAL and CANCELLED are never left. */
  lemma FinalIsForEver(supported: bool, actions: seq<Action>, i: nat)
    requires DisciplinedRun(supported, actions)
    requires i < |Run(supported, actions).log| && Run(supported, actions).log[i].Entered?
    requires C.Final(Run(supported, actions).log[i].change.status)
    ensures Run(supported, actions).change == Some(Run(supported, actions).log[i].change)
    ensures forall j | i < j < |Run(supported, actions).log| :: !Run(supported, actions).log[j].Entered?
  {
    DisciplinedIsTame(supported, actions);
    hide Run, DisciplinedRun;
    assert Run(supported, actions).log[i] in Run(supported, actions).log;
  }

  /** The change of a COMPLETED record is and stays COMPLETED. */
  lemma CompletedChangeIsForEver(supported: bool, actions: seq<Action>, i: nat)
    requires DisciplinedRun(supported, actions)
    requires i < |Run(supported, actions).log| && Run(supported, actions).log[i].Stored?
    requires Run(supported, actions).log[i].record.status.COMPLETED?
    ensures Run(supported, actions).change.Some? && Run(supported, actions).change.value.status == C.COMPLETED
  {
    var log := Run(supported, actions).log;
    CompletedIsSound(supported, actions, i);
    EnteredEarlier(log, i, C.COMPLETED);
    var j :| 0 <= j < i && EnteredAt(log, j, C.COMPLETED);
    FinalIsForEver(supported, actions, j);
  }
}
