/**
 Steps are carried out in order and reported as they were: nothing is executed before its dependencies have
 succeeded, no task is stored as succeeded that was never executed, and a workflow that was given up says
 truthfully whether it could be undone.
 */
module SagaProgress {
  import opened Common
  import opened Plans
  import opened Sandbox
  import opened Workflows
  import opened Saga
  import opened SagaInvariant
  import opened SagaSteps
  import opened SagaClose
  import C = ChangeState

  // ---------------------------------------------------------------- what a log may hold

  /** The step's own task is pending in the record, and every step it depends on has a task that succeeded. */
  predicate IsDue(r: Record, stepId: string) {
    && r.plan.Some? && stepId in Ids(r.plan.value.steps)
    && (exists t <- r.tasks :: t.stepId == stepId && t.status.PENDING?)
    && forall d <- ById(r.plan.value.steps, stepId).dependsOn :: exists t <- r.tasks :: t.stepId == d && t.status.SUCCEEDED?
  }

  /** A succeeded task's step has been executed, and a task's snapshot was taken for that task, with that hash. */
  predicate TaskBacked(log: seq<Event>, t: Task) {
    && (t.status.SUCCEEDED? ==> ExecuteIssued(t.stepId) in log)
    && (t.snapshotId.Some? ==> t.snapshotHash.Some? && SnapshotTaken(t.snapshotId.value, t.stepId, t.snapshotHash.value) in log)
  }

  predicate Backed(log: seq<Event>, tasks: seq<Task>) {
    forall t <- tasks :: TaskBacked(log, t)
  }

  predicate AllRolled(tasks: seq<Task>) {
    forall t <- tasks :: Rolled(t)
  }

  predicate AllUndone(tasks: seq<Task>) {
    forall t <- tasks :: t.status.ROLLED_BACK?
  }

  /** What a workflow may be given up as: after a compensation, by what that achieved, or on a refusal. */
  predicate MayEnd(tasks: seq<Task>, status: RuntimeStatus, code: Option<string>) {
    && (status.FAILED? ==> code == Some("APPROVAL_REJECTED") || AllUndone(tasks))
    && (status.NEEDS_ATTENTION? ==> AllRolled(tasks) && AnyStatus(tasks, ROLLBACK_FAILED))
  }

  ghost predicate EventSound(before: seq<Event>, e: Event) {
    match e
    case ExecuteIssued(stepId) => exists p <- before :: p.Stored? && IsDue(p.record, stepId)
    case Stored(r) => Backed(before, r.tasks) && MayEnd(r.tasks, r.status, r.lastErrorCode)
    case _ => true
  }

  ghost predicate RunSound(log: seq<Event>, pc: PC) {
    match pc
    case EventBlock(rec, _) => rec.plan.None?
    case ResumeWave(rec, _, ready, done) =>
      && (forall i <- ready :: i < |rec.tasks| && IsDue(rec, rec.tasks[i].stepId))
      && (forall i <- done :: i < |rec.tasks| && ExecuteIssued(rec.tasks[i].stepId) in log)
    case RollbackClose(rec, _) => AllRolled(rec.tasks)
    case Close(rec, status, code) => MayEnd(rec.tasks, status, Some(code))
    case _ => true
  }

  predicate Plain(pc: PC) {
    !pc.EventBlock? && !pc.ResumeWave? && !pc.RollbackClose? && !pc.Close?
  }

  ghost predicate LogSound(log: seq<Event>) {
    forall k | 0 <= k < |log| :: EventSound(log[..k], log[k])
  }

  ghost predicate Sound(s: Sys) {
    LogSound(s.log) && forall id <- s.runs :: RunSound(s.log, s.runs[id])
  }

  lemma RunSoundLater(log: seq<Event>, more: seq<Event>, pc: PC)
    requires RunSound(log, pc)
    ensures RunSound(log + more, pc)
  {
    hide IsDue, MayEnd, AllRolled;
  }

  lemma LogGrows(log: seq<Event>, e: Event)
    requires LogSound(log) && EventSound(log, e)
    ensures LogSound(log + [e])
  {
    hide EventSound;
    var all := log + [e];
    forall k | 0 <= k < |all| ensures EventSound(all[..k], all[k]) {
      assert k < |log| ==> all[..k] == log[..k];
      assert k == |log| ==> all[..k] == log;
    }
  }

  // ---------------------------------------------------------------- the calls a run makes

  lemma GotoSound(s: Sys, id: nat, pc: PC)
    requires Sound(s) && RunSound(s.log, pc)
    ensures Sound(Goto(s, id, pc))
  {
    hide RunSound, LogSound;
  }

  lemma PlainSound(s: Sys, id: nat, pc: PC)
    requires Sound(s) && Plain(pc)
    ensures Sound(Goto(s, id, pc))
  {
    assert RunSound(s.log, pc);
    GotoSound(s, id, pc);
  }

  /** One event more, and the run that caused it somewhere else. */
  lemma EventKeeps(s: Sys, s': Sys, id: nat, e: Event)
    requires Sound(s) && EventSound(s.log, e) && s'.log == s.log + [e] && id in s'.runs && RunSound(s'.log, s'.runs[id])
    requires forall w <- s'.runs :: w == id || (w in s.runs && s'.runs[w] == s.runs[w])
    ensures Sound(s')
  {
    hide RunSound, LogSound, EventSound;
    LogGrows(s.log, e);
    forall w | w in s'.runs ensures RunSound(s'.log, s'.runs[w]) {
      if w != id { RunSoundLater(s.log, [e], s.runs[w]); }
    }
  }

  lemma TransitionSound(s: Sys, id: nat, target: C.Status, workflow: Option<string>, plan: Option<Plan>, next: PC)
    requires Sound(s) && RunSound(s.log, next)
    ensures Sound(Transition(s, id, target, workflow, plan, next))
  {
    hide Sound, RunSound, C.CanTransition;
    PlainSound(s, id, Stopped);
    var s' := Transition(s, id, target, workflow, plan, next);
    if s.change.Some? && C.CanTransition(s.change.value.status, target) {
      RunSoundLater(s.log, [Entered(s'.change.value)], next);
      EventKeeps(s, s', id, Entered(s'.change.value));
    }
  }

  lemma UpdateSound(s: Sys, id: nat, rec: Record, r: Record, now: Time, next: Record -> PC)
    requires Sound(s) && Backed(s.log, r.tasks) && MayEnd(r.tasks, r.status, r.lastErrorCode)
    requires var u := r.(updatedAt := now, version := rec.version + 1); RunSound(s.log + [Stored(u)], next(u))
    ensures Sound(Update(s, id, rec, r, now, next))
  {
    hide Sound, RunSound, Backed, MayEnd, ValidRecord;
    PlainSound(s, id, Stopped);
    var u := r.(updatedAt := now, version := rec.version + 1);
    if ValidRecord(u) && s.wf.Some? && s.wf.value.version == rec.version {
      EventKeeps(s, Update(s, id, rec, r, now, next), id, Stored(u));
    }
  }

  lemma KnownBacked(s: Sys, rec: Record)
    requires Sound(s) && Known(s.log, rec)
    ensures Backed(s.log, rec.tasks)
  {
    hide RunSound, MayEnd;
    var k :| 0 <= k < |s.log| && s.log[k] == Stored(rec);
    assert EventSound(s.log[..k], s.log[k]);
  }

  lemma OpenMayEnd(tasks: seq<Task>, status: RuntimeStatus, code: Option<string>)
    requires !Closed(status)
    ensures MayEnd(tasks, status, code)
  {
  }

  lemma SetStatusSound(s: Sys, id: nat, rec: Record, status: RuntimeStatus, code: Option<string>, now: Time, next: Record -> PC)
    requires Sound(s) && Known(s.log, rec) && !Closed(status) && forall u :: Plain(next(u))
    ensures Sound(SetStatus(s, id, rec, status, code, now, next))
  {
    hide Sound, Update, MayEnd, Backed, Known;
    KnownBacked(s, rec);
    OpenMayEnd(rec.tasks, status, code);
    PlainSound(s, id, next(rec));
    var u := rec.(status := status, lastErrorCode := code, updatedAt := now, version := rec.version + 1);
    assert Plain(next(u));
    UpdateSound(s, id, rec, rec.(status := status, lastErrorCode := code), now, next);
  }

  // ---------------------------------------------------------------- event runs

  lemma IntakeSound(s: Sys, id: nat, pc: PC, x: Input)
    requires Sound(s) && RunOk(s.supported, s.log, pc) && InEvent(pc)
    ensures Sound(AdvanceIntake(s, id, pc, x))
  {
    hide Sound, AdvanceIntake, Analysing, Known;
    if !x.Proceed? || !(pc.EventStart? || pc.EventBump? || pc.EventCreate? || pc.EventLoaded? || pc.EventAnalyzing?) {
      NoIntake(s, id, pc, x);
    } else if pc.EventStart? {
      BeginningSound(s, id, x.now);
    } else if pc.EventBump? {
      BumpSound(s, id, pc.rec, x.now);
    } else if pc.EventCreate? {
      CreationSound(s, id, x.now);
    } else if pc.EventLoaded? {
      NewChangeSound(s, id, pc.rec, x.now);
    } else {
      AnalyzingSound(s, id, pc.rec, x.now);
    }
  }

  lemma NoIntake(s: Sys, id: nat, pc: PC, x: Input)
    requires !x.Proceed? || !(pc.EventStart? || pc.EventBump? || pc.EventCreate? || pc.EventLoaded? || pc.EventAnalyzing?)
    ensures AdvanceIntake(s, id, pc, x) == s
  {
  }

  lemma BeginningSound(s: Sys, id: nat, now: Time)
    requires Sound(s)
    ensures Sound(AdvanceIntake(s, id, EventStart, Proceed(now)))
  {
    hide Sound, Goto;
    PlainSound(s, id, EventCreate);
    PlainSound(s, id, Stopped);
    if s.wf.Some? { PlainSound(s, id, EventBump(s.wf.value)); }
  }

  lemma BumpSound(s: Sys, id: nat, rec: Record, now: Time)
    requires Sound(s) && Known(s.log, rec) && !Closed(rec.status)
    ensures Sound(AdvanceIntake(s, id, EventBump(rec), Proceed(now)))
  {
    hide Sound, Update, Known, Backed, MayEnd;
    KnownBacked(s, rec);
    OpenMayEnd(rec.tasks, rec.status, rec.lastErrorCode);
    UpdateSound(s, id, rec, rec.(deliveryAttempts := rec.deliveryAttempts + 1), now, r => EventLoaded(r));
  }

  lemma CreationSound(s: Sys, id: nat, now: Time)
    requires Sound(s)
    ensures Sound(AdvanceIntake(s, id, EventCreate, Proceed(now)))
  {
    hide Sound;
    if s.wf.Some? {
      PlainSound(s, id, EventLoaded(s.wf.value));
    } else {
      EventKeeps(s, AdvanceIntake(s, id, EventCreate, Proceed(now)), id, Stored(EMPTY_RECORD.(startedAt := now, updatedAt := now)));
    }
  }

  lemma NewChangeSound(s: Sys, id: nat, rec: Record, now: Time)
    requires Sound(s)
    ensures Sound(AdvanceIntake(s, id, EventLoaded(rec), Proceed(now)))
  {
    hide Sound;
    PlainSound(s, id, EventAnalyzing(rec));
    GotoSound(s, id, Close(rec, DEAD_LETTERED, "UNSUPPORTED_EVENT_TYPE"));
    if s.supported && s.change.None? {
      EventKeeps(s, AdvanceIntake(s, id, EventLoaded(rec), Proceed(now)), id, Entered(NEW_CHANGE));
    }
  }

  lemma AnalyzingSound(s: Sys, id: nat, rec: Record, now: Time)
    requires Sound(s) && Known(s.log, rec)
    ensures Sound(AdvanceIntake(s, id, EventAnalyzing(rec), Proceed(now)))
  {
    hide Sound, SetStatus, Known;
    SetStatusSound(s, id, rec, ANALYZING, None, now, r => EventReadChange(r));
  }

  lemma ScreeningSound(s: Sys, id: nat, pc: PC, x: Input)
    requires Inv(s) && Sound(s) && RunSound(s.log, pc) && RunOk(s.supported, s.log, pc) && InEvent(pc)
    ensures Sound(AdvanceScreening(s, id, pc, x))
  {
    hide Inv, Sound, Transition, Goto, ValidateStepGraph, Known, AfterScreening;
    PlainSound(s, id, Stopped);
    if pc.EventReadChange? {
      PlainSound(s, id, EventScreen(pc.rec));
      ScreenedSound(s, id, pc.rec);
    } else if pc.EventScreen? {
      ScreenedSound(s, id, pc.rec);
      TransitionSound(s, id, C.SCREENING, Some(pc.rec.workflowId), None, AfterScreening(pc.rec));
    } else if pc.EventAnalyse? {
      AnswerSound(s, id, pc.rec, x);
    } else if pc.EventBlock? {
      Unplanned(s, pc.rec);
      TransitionSound(s, id, C.BLOCKED, None, None, Close(pc.rec, FAILED, pc.code));
    }
  }

  lemma ScreenedSound(s: Sys, id: nat, rec: Record)
    requires Sound(s)
    ensures RunSound(s.log, AfterScreening(rec)) && Sound(Goto(s, id, AfterScreening(rec)))
  {
    hide Sound, Goto;
    PlainSound(s, id, AfterScreening(rec));
  }

  lemma AnswerSound(s: Sys, id: nat, rec: Record, x: Input)
    requires Sound(s) && rec.plan.None?
    ensures Sound(AdvanceScreening(s, id, EventAnalyse(rec), x))
  {
    hide Sound, Goto, ValidateStepGraph;
    PlainSound(s, id, Stopped);
    GotoSound(s, id, Close(rec, DEAD_LETTERED, "FLEET_INVALID_RESPONSE"));
    if x.Answer? { PlainSound(s, id, EventAnalysed(rec, x.plan, x.hash)); }
    if x.Failure? {
      GotoSound(s, id, EventBlock(rec, x.code));
      GotoSound(s, id, Close(rec, DEAD_LETTERED, x.code));
    }
  }

  lemma Unplanned(s: Sys, rec: Record)
    requires Inv(s) && Known(s.log, rec) && rec.plan.None?
    ensures rec.tasks == []
  {
    hide Inv, TakenBeforeExecution;
    RecordOfRun(s, rec);
  }

  lemma PlanningSound(s: Sys, id: nat, pc: PC, x: Input)
    requires Sound(s) && RunOk(s.supported, s.log, pc) && InEvent(pc)
    ensures Sound(AdvancePlanning(s, id, pc, x))
  {
    hide Sound, StorePlan, Transition, Goto, Known, ValidateStepGraph;
    PlainSound(s, id, Stopped);
    if pc.EventAnalysed? {
      PlainSound(s, id, EventToAnalyzing(pc.rec, pc.plan, pc.hash));
      PlainSound(s, id, EventStorePlan(pc.rec, pc.plan, pc.hash));
    } else if pc.EventToAnalyzing? {
      TransitionSound(s, id, C.ANALYZING, None, None, EventStorePlan(pc.rec, pc.plan, pc.hash));
    } else if pc.EventStorePlan? && x.Proceed? {
      StorePlanSound(s, id, pc.rec, pc.plan, pc.hash, x.now);
    } else if pc.EventRead? && s.change.Some? {
      PlainSound(s, id, EventAdvance(pc.rec, s.change.value.status));
    }
  }

  lemma StorePlanSound(s: Sys, id: nat, rec: Record, p: Plan, hash: PlanDigest, now: Time)
    requires Sound(s) && !Closed(rec.status)
    ensures Sound(StorePlan(s, id, rec, p, hash, now))
  {
    hide Sound, Update, Goto, CalculatePlanHash, Planned;
    PlainSound(s, id, Stopped);
    GotoSound(s, id, Close(rec, DEAD_LETTERED, "INVALID_FLEET_PLAN"));
    PlannedSound(s.log, rec, p, now);
    UpdateSound(s, id, rec, Planned(rec, p, now), now, r => EventRead(r));
  }

  lemma PlannedSound(log: seq<Event>, rec: Record, p: Plan, now: Time)
    requires !Closed(rec.status)
    ensures var r := Planned(rec, p, now); Backed(log, r.tasks) && MayEnd(r.tasks, r.status, r.lastErrorCode)
  {
    forall t | t in Planned(rec, p, now).tasks ensures t.status.PENDING? && t.snapshotId.None? {
      var i :| 0 <= i < |p.steps| && t == FreshTask(p.steps[i]);
    }
  }

  lemma ApprovalSound(s: Sys, id: nat, pc: PC, x: Input)
    requires Sound(s) && RunOk(s.supported, s.log, pc) && InEvent(pc)
    ensures Sound(AdvanceApproval(s, id, pc, x))
  {
    hide Sound, Transition, Goto, SetStatus, Known;
    PlainSound(s, id, Stopped);
    if pc.EventAdvance? {
      TransitionSound(s, id, C.ANALYZING, None, None, EventAdvance(pc.rec, C.ANALYZING));
      TransitionSound(s, id, C.PLAN_READY, None, pc.rec.plan, EventAdvance(pc.rec, C.PLAN_READY));
      TransitionSound(s, id, C.AWAITING_APPROVAL, None, None, EventAdvance(pc.rec, C.AWAITING_APPROVAL));
      PlainSound(s, id, EventWait(pc.rec));
      if x.Failure? { GotoSound(s, id, Close(pc.rec, DEAD_LETTERED, x.code)); }
    } else if pc.EventWait? && x.Proceed? {
      SetStatusSound(s, id, pc.rec, WAITING_APPROVAL, None, x.now, r => Stopped);
    }
  }

  lemma EventSteps(s: Sys, id: nat, pc: PC, x: Input)
    requires Inv(s) && Sound(s) && RunSound(s.log, pc) && RunOk(s.supported, s.log, pc) && InEvent(pc)
    ensures Sound(AdvanceEvent(s, id, pc, x))
  {
    hide Inv, Sound, RunSound, RunOk, AdvanceIntake, AdvanceScreening, AdvancePlanning, AdvanceApproval;
    if pc.EventStart? || pc.EventBump? || pc.EventCreate? || pc.EventLoaded? || pc.EventAnalyzing? { IntakeSound(s, id, pc, x); }
    else if pc.EventReadChange? || pc.EventScreen? || pc.EventAnalyse? || pc.EventBlock? { ScreeningSound(s, id, pc, x); }
    else if pc.EventAnalysed? || pc.EventToAnalyzing? || pc.EventStorePlan? || pc.EventRead? { PlanningSound(s, id, pc, x); }
    else { ApprovalSound(s, id, pc, x); }
  }

  // ---------------------------------------------------------------- approval runs

  lemma AdmissionSound(s: Sys, id: nat, pc: PC, x: Input)
    requires Sound(s) && RunOk(s.supported, s.log, pc) && InResume(pc)
    ensures Sound(AdvanceAdmission(s, id, pc, x))
  {
    hide Sound, Transition, Goto, SetStatus, Known, Loaded, Seen, EnteredStatus;
    PlainSound(s, id, Stopped);
    if pc.ResumeStart? && s.change.Some? {
      PlainSound(s, id, ResumeLoad(pc.callback, s.change.value.status));
    } else if pc.ResumeLoad? && s.wf.Some? {
      LoadedSound(s.log, pc.callback, pc.seen, s.wf.value);
      GotoSound(s, id, Loaded(pc.callback, pc.seen, s.wf.value));
    } else if pc.ResumeReject? || pc.ResumeChanges? || pc.ResumeReanalyse? {
      RefusalSound(s, id, pc, x);
    }
  }

  lemma RefusalSound(s: Sys, id: nat, pc: PC, x: Input)
    requires Sound(s) && (pc.ResumeReject? || pc.ResumeChanges? || pc.ResumeReanalyse?) && Known(s.log, pc.rec)
    ensures Sound(AdvanceAdmission(s, id, pc, x))
  {
    hide Sound, Transition, Goto, SetStatus, Known;
    if pc.ResumeReject? {
      TransitionSound(s, id, C.REJECTED, None, None, Close(pc.rec, FAILED, "APPROVAL_REJECTED"));
    } else if pc.ResumeChanges? {
      TransitionSound(s, id, C.REJECTED, None, None, ResumeChanges(pc.rec, C.REJECTED));
      TransitionSound(s, id, C.ANALYZING, None, None, ResumeReanalyse(pc.rec));
      PlainSound(s, id, ResumeReanalyse(pc.rec));
    } else if x.Proceed? {
      SetStatusSound(s, id, pc.rec, ANALYZING, Some("APPROVAL_CHANGES_REQUESTED"), x.now, r => Stopped);
    }
  }

  lemma LoadedSound(log: seq<Event>, cb: Callback, seen: C.Status, rec: Record)
    ensures RunSound(log, Loaded(cb, seen, rec))
  {
  }

  lemma GrantSound(s: Sys, id: nat, rec: Record, seen: C.Status, x: Input)
    requires Sound(s) && Known(s.log, rec)
    ensures Sound(AdvanceGrant(s, id, rec, seen, x))
  {
    hide Sound, Transition, Goto, SetStatus, Known;
    PlainSound(s, id, Stopped);
    TransitionSound(s, id, C.APPROVED, None, None, ResumeAdvance(rec, C.APPROVED));
    TransitionSound(s, id, C.EXECUTING, None, None, ResumeAdvance(rec, C.EXECUTING));
    if x.Proceed? { SetStatusSound(s, id, rec, EXECUTING, None, x.now, r => ResumeSnapshots(r, rec.tasks, map[])); }
  }

  /** Rewriting tasks one by one. */
  lemma RewrittenBacked(log: seq<Event>, tasks: seq<Task>, tasks': seq<Task>)
    requires Backed(log, tasks) && |tasks'| == |tasks|
    requires forall i | 0 <= i < |tasks| && TaskBacked(log, tasks[i]) :: TaskBacked(log, tasks'[i])
    ensures Backed(log, tasks')
  {
    hide TaskBacked;
    forall t | t in tasks' ensures TaskBacked(log, t) {
      var i :| 0 <= i < |tasks'| && tasks'[i] == t;
      assert tasks[i] in tasks;
    }
  }

  lemma CaptureSound(s: Sys, id: nat, rec: Record, loaded: seq<Task>, taken: map<nat, (nat, ConfigDigest)>, x: Input)
    requires Sound(s) && Known(s.log, rec) && !Closed(rec.status)
    requires forall i <- taken :: i < |rec.tasks| && SnapshotTaken(taken[i].0, rec.tasks[i].stepId, taken[i].1) in s.log
    ensures Sound(AdvanceCapture(s, id, rec, loaded, taken, x))
  {
    hide Sound, Update, Goto, Known, Backed;
    PlainSound(s, id, ResumeDag(rec, loaded));
    if x.Captured? {
      if Missing(rec, x.i) && x.i !in taken { EventKeeps(s, AdvanceCapture(s, id, rec, loaded, taken, x), id, SnapshotTaken(s.nextSnapshot, rec.tasks[x.i].stepId, x.configuration)); }
    } else if x.Proceed? {
      KnownBacked(s, rec);
      var r := WithSnapshots(rec, taken);
      RewrittenBacked(s.log, rec.tasks, r.tasks);
      OpenMayEnd(r.tasks, r.status, r.lastErrorCode);
      UpdateSound(s, id, rec, r, x.now, r => ResumeDag(r, loaded));
    }
  }

  /** What the engine takes for ready is due, tasks being the plan's steps position by position. */
  lemma ReadyIsDue(rec: Record, i: nat)
    requires Ready(rec, i)
    ensures IsDue(rec, rec.tasks[i].stepId)
  {
    assert rec.tasks[i] in rec.tasks;
  }

  lemma DagSound(s: Sys, id: nat, rec: Record, loaded: seq<Task>, x: Input)
    requires Sound(s)
    ensures Sound(AdvanceDag(s, id, rec, loaded, x))
  {
    hide Sound, Goto, Ready, IsDue;
    PlainSound(s, id, Stopped);
    PlainSound(s, id, AfterDag(rec, loaded));
    forall i | i in ReadySet(rec) ensures i < |rec.tasks| && IsDue(rec, rec.tasks[i].stepId) { ReadyIsDue(rec, i); }
    GotoSound(s, id, ResumeWave(rec, loaded, ReadySet(rec), map[]));
  }

  lemma WaveSound(s: Sys, id: nat, rec: Record, loaded: seq<Task>, ready: set<nat>, done: map<nat, Option<Task>>, x: Input)
    requires Sound(s) && RunSound(s.log, ResumeWave(rec, loaded, ready, done)) && Known(s.log, rec) && !Closed(rec.status)
    requires WaveOk(rec, ready, done)
    ensures Sound(AdvanceWave(s, id, rec, loaded, ready, done, x))
  {
    hide Sound, Update, Goto, IsDue, WithResults, AfterWave, WaveOk;
    match x
    case Issue(i) => IssueSound(s, id, rec, loaded, ready, done, i);
    case Succeeded(i, attempts, execution, output) =>
      if i in done && i < |rec.tasks| {
        var t := rec.tasks[i].(status := SUCCEEDED, attemptCount := attempts, executionId := Some(execution),
                               outputHash := Some(output), errorCode := None);
        GotoSound(s, id, ResumeWave(rec, loaded, ready, done[i := Some(t)]));
      }
    case Failed(i, attempts, code) =>
      if i in done && i < |rec.tasks| {
        var t := rec.tasks[i].(status := TASK_FAILED, attemptCount := attempts, errorCode := Some(code));
        GotoSound(s, id, ResumeWave(rec, loaded, ready, done[i := Some(t)]));
      }
    case Proceed(now) => ResultsSound(s, id, rec, loaded, ready, done, now);
    case _ =>
  }

  lemma IssueSound(s: Sys, id: nat, rec: Record, loaded: seq<Task>, ready: set<nat>, done: map<nat, Option<Task>>, i: nat)
    requires Sound(s) && RunSound(s.log, ResumeWave(rec, loaded, ready, done)) && Known(s.log, rec)
    ensures Sound(AdvanceWave(s, id, rec, loaded, ready, done, Issue(i)))
  {
    hide Sound, IsDue;
    if i in ready && i < |rec.tasks| && (i in done ==> done[i].None?) {
      var e := ExecuteIssued(rec.tasks[i].stepId);
      assert Stored(rec) in s.log && IsDue(rec, rec.tasks[i].stepId);
      assert EventSound(s.log, e);
      EventKeeps(s, AdvanceWave(s, id, rec, loaded, ready, done, Issue(i)), id, e);
    }
  }

  lemma ResultsSound(s: Sys, id: nat, rec: Record, loaded: seq<Task>, ready: set<nat>, done: map<nat, Option<Task>>, now: Time)
    requires Sound(s) && RunSound(s.log, ResumeWave(rec, loaded, ready, done)) && Known(s.log, rec) && !Closed(rec.status)
    requires WaveOk(rec, ready, done)
    ensures Sound(Update(s, id, rec, WithResults(rec, done), now, r => AfterWave(r, loaded, done)))
  {
    hide Sound, Update, IsDue, Backed, FirstError;
    KnownBacked(s, rec);
    var r := WithResults(rec, done);
    RewrittenBacked(s.log, rec.tasks, r.tasks);
    OpenMayEnd(r.tasks, r.status, r.lastErrorCode);
    UpdateSound(s, id, rec, r, now, r => AfterWave(r, loaded, done));
  }

  lemma VerificationSound(s: Sys, id: nat, pc: PC, x: Input)
    requires Sound(s) && RunOk(s.supported, s.log, pc)
    requires pc.ResumeToVerifying? || pc.ResumeMarkVerifying? || pc.ResumeVerify? || pc.ResumeToCompleted?
    ensures Sound(AdvanceVerification(s, id, pc, x))
  {
    hide Sound, Transition, Goto, SetStatus, Follows, WasStored, EnteredStatus, Settled, AllVerified, VerifiedAfter, Known;
    if pc.ResumeToVerifying? {
      TransitionSound(s, id, C.VERIFYING, None, None, ResumeMarkVerifying(pc.rec, pc.loaded));
    } else if pc.ResumeMarkVerifying? && x.Proceed? {
      SetStatusSound(s, id, pc.rec, VERIFYING, None, x.now, r => ResumeVerify(r, pc.loaded, {}));
    } else if pc.ResumeVerify? {
      VerifySound(s, id, pc.rec, pc.loaded, pc.passed, x);
    } else if pc.ResumeToCompleted? {
      TransitionSound(s, id, C.COMPLETED, None, None, ResumeComplete(pc.rec, pc.loaded));
    }
  }

  lemma VerifySound(s: Sys, id: nat, rec: Record, loaded: seq<Task>, passed: set<nat>, x: Input)
    requires Sound(s)
    ensures Sound(AdvanceVerification(s, id, ResumeVerify(rec, loaded, passed), x))
  {
    hide Sound, Goto;
    PlainSound(s, id, ResumeToCompleted(rec, loaded));
    if x.Failure? { PlainSound(s, id, RollbackRead(rec, x.code)); }
    if x.Issue? && x.i < |rec.tasks| {
      EventKeeps(s, AdvanceVerification(s, id, ResumeVerify(rec, loaded, passed), x), id, VerifyPassed(rec.tasks[x.i].stepId));
    }
  }

  lemma CompleteSound(s: Sys, id: nat, rec: Record, loaded: seq<Task>, now: Time)
    requires Sound(s) && Known(s.log, rec)
    ensures Sound(Complete(s, id, rec, loaded, now))
  {
    hide Sound, ValidRecord, Known, Backed;
    PlainSound(s, id, Stopped);
    KnownBacked(s, rec);
    var s' := Complete(s, id, rec, loaded, now);
    if s'.log != s.log {
      var u := s'.wf.value;
      var s1 := s.(log := s.log + [Completing(loaded, u)], runs := s.runs[id := Stopped]);
      EventKeeps(s, s1, id, Completing(loaded, u));
      BackedLater(s.log, Completing(loaded, u), u.tasks);
      assert s1.log + [Stored(u)] == s'.log;
      EventKeeps(s1, s', id, Stored(u));
    }
  }

  lemma BackedLater(log: seq<Event>, e: Event, tasks: seq<Task>)
    requires Backed(log, tasks)
    ensures Backed(log + [e], tasks)
  {
  }

  lemma ResumeSteps(s: Sys, id: nat, pc: PC, x: Input)
    requires Sound(s) && RunSound(s.log, pc) && RunOk(s.supported, s.log, pc) && InResume(pc)
    ensures Sound(AdvanceResume(s, id, pc, x))
  {
    hide Sound, RunSound, AdvanceAdmission, AdvanceGrant, AdvanceCapture, AdvanceDag, AdvanceWave, AdvanceVerification, Complete;
    hide Follows, WasStored, EnteredStatus, Settled, AllVerified, VerifiedAfter, AllSnapshots, WaveOk, Known, Seen;
    if pc.ResumeAdvance? { GrantSound(s, id, pc.rec, pc.seen, x); }
    else if pc.ResumeSnapshots? { CaptureSound(s, id, pc.rec, pc.loaded, pc.taken, x); }
    else if pc.ResumeDag? { DagSound(s, id, pc.rec, pc.loaded, x); }
    else if pc.ResumeWave? { WaveSound(s, id, pc.rec, pc.loaded, pc.ready, pc.done, x); }
    else if pc.ResumeComplete? { if x.Proceed? { CompleteSound(s, id, pc.rec, pc.loaded, x.now); } }
    else if pc.ResumeToVerifying? || pc.ResumeMarkVerifying? || pc.ResumeVerify? || pc.ResumeToCompleted? { VerificationSound(s, id, pc, x); }
    else { AdmissionSound(s, id, pc, x); }
  }

  // ---------------------------------------------------------------- compensation, terminal records, users

  lemma CompensationSound(s: Sys, id: nat, pc: PC, x: Input)
    requires Sound(s) && RunSound(s.log, pc) && RunOk(s.supported, s.log, pc) && !InEvent(pc) && !InResume(pc)
    ensures Sound(AdvanceCompensation(s, id, pc, x))
  {
    hide Sound, Transition, Goto, SetStatus, Known;
    PlainSound(s, id, Stopped);
    if pc.RollbackRead? {
      PlainSound(s, id, RollbackEnter(pc.rec, pc.code));
      PlainSound(s, id, RollbackMark(pc.rec, pc.code));
    } else if pc.RollbackEnter? {
      TransitionSound(s, id, C.ROLLING_BACK, None, None, RollbackMark(pc.rec, pc.code));
    } else if pc.RollbackMark? && x.Proceed? {
      SetStatusSound(s, id, pc.rec, ROLLING_BACK, Some(pc.code), x.now, r => RollbackTasks(r, pc.code, map[]));
    } else if pc.RollbackClose? {
      RolledEnds(pc.rec, pc.code);
      if AnyStatus(pc.rec.tasks, ROLLBACK_FAILED) {
        TransitionSound(s, id, C.NEEDS_ATTENTION, None, None, Close(pc.rec, NEEDS_ATTENTION, pc.code));
      } else {
        TransitionSound(s, id, C.FAILED, None, None, Close(pc.rec, FAILED, pc.code));
      }
    }
  }

  lemma RolledEnds(rec: Record, code: string)
    requires AllRolled(rec.tasks)
    ensures MayEnd(rec.tasks, if AnyStatus(rec.tasks, ROLLBACK_FAILED) then NEEDS_ATTENTION else FAILED, Some(code))
  {
  }

  lemma RestoreSound(s: Sys, id: nat, rec: Record, code: string, done: map<nat, Task>, x: Input)
    requires Sound(s) && Known(s.log, rec) && !Closed(rec.status) && CompensationOk(rec, done)
    ensures Sound(AdvanceRestore(s, id, rec, code, done, x))
  {
    hide Sound, Update, Goto, Known, RestoredTask, Backed, CompensationOk;
    match x
    case Restored(i) =>
      if NextToRestore(rec, done, i) { PlainSound(s, id, RollbackTasks(rec, code, done[i := RestoredTask(rec.tasks[i], true, "")])); }
    case Failed(i, _, failure) =>
      if NextToRestore(rec, done, i) { PlainSound(s, id, RollbackTasks(rec, code, done[i := RestoredTask(rec.tasks[i], false, failure)])); }
    case Proceed(now) =>
      if forall i | 0 <= i < |rec.tasks| :: i in done { RestoredSound(s, id, rec, code, done, now); }
    case _ =>
  }

  lemma RestoredSound(s: Sys, id: nat, rec: Record, code: string, done: map<nat, Task>, now: Time)
    requires Sound(s) && Known(s.log, rec) && !Closed(rec.status) && CompensationOk(rec, done)
    requires forall i | 0 <= i < |rec.tasks| :: i in done
    ensures Sound(Update(s, id, rec, WithRestored(rec, done), now, r => RollbackClose(r, code)))
  {
    hide Sound, Update, Backed, Known;
    KnownBacked(s, rec);
    var r := WithRestored(rec, done);
    RewrittenBacked(s.log, rec.tasks, r.tasks);
    forall t | t in r.tasks ensures Rolled(t) {
      var i :| 0 <= i < |r.tasks| && r.tasks[i] == t;
      assert i in done;
    }
    OpenMayEnd(r.tasks, r.status, r.lastErrorCode);
    UpdateSound(s, id, rec, r, now, r => RollbackClose(r, code));
  }

  lemma CloseSound(s: Sys, id: nat, rec: Record, status: RuntimeStatus, code: string, now: Time)
    requires Sound(s) && Known(s.log, rec) && MayEnd(rec.tasks, status, Some(code))
    ensures Sound(CloseRecord(s, id, rec, status, code, now))
  {
    hide Sound, Update, Goto, Known, MayEnd, Backed;
    PlainSound(s, id, Stopped);
    KnownBacked(s, rec);
    UpdateSound(s, id, rec, rec.(status := status, lastErrorCode := Some(code), completedAt := Some(now)), now, r => Stopped);
  }

  lemma UserSound(s: Sys, id: nat, pc: PC, x: Input)
    requires Sound(s)
    ensures Sound(AdvanceUser(s, id, pc, x))
  {
    hide Sound, Goto, C.CanTransition, Commit;
    PlainSound(s, id, Stopped);
    if pc.UserCommit? {
      CommitSound(s, id, pc.current, pc.target, pc.expected);
    } else if s.change.Some? && (pc.UserRetry? || pc.UserMove?) {
      PlainSound(s, id, UserMove(C.SCREENING, pc.expected));
      PlainSound(s, id, UserMove(s.change.value.status, pc.expected));
      if pc.UserMove? { PlainSound(s, id, UserCommit(s.change.value, pc.target, pc.expected)); }
    }
  }

  lemma CommitSound(s: Sys, id: nat, current: Change, target: C.Status, expected: nat)
    requires Sound(s)
    ensures Sound(Commit(s, id, current, target, expected))
  {
    hide Sound;
    PlainSound(s, id, Stopped);
    if s.change.Some? && s.change.value.version == expected {
      EventKeeps(s, Commit(s, id, current, target, expected), id, Entered(current.(status := target, version := expected + 1)));
    }
  }

  lemma OtherSteps(s: Sys, id: nat, pc: PC, x: Input)
    requires Sound(s) && RunSound(s.log, pc) && RunOk(s.supported, s.log, pc) && !InEvent(pc) && !InResume(pc)
    ensures Sound(AdvanceRollback(s, id, pc, x))
  {
    hide Sound, AdvanceRestore, AdvanceCompensation, AdvanceUser, CloseRecord, CompensationOk, Known, EnteredStatus, MayEnd, IsDue;
    if pc.RollbackTasks? { RestoreSound(s, id, pc.rec, pc.code, pc.compensated, x); }
    else if pc.Close? { if x.Proceed? { CloseSound(s, id, pc.rec, pc.status, pc.code, x.now); } }
    else if pc.UserRetry? || pc.UserMove? || pc.UserCommit? || pc.Stopped? { UserSound(s, id, pc, x); }
    else { CompensationSound(s, id, pc, x); }
  }

  // ---------------------------------------------------------------- every run

  lemma ActSound(s: Sys, a: Action)
    requires Inv(s) && Sound(s)
    ensures Sound(Act(s, a))
  {
    hide Inv, Sound, AdvanceEvent, AdvanceResume, AdvanceRollback, InEvent, InResume;
    match a
    case Spawn(id, pc) => if Startable(pc) { PlainSound(s, id, pc); }
    case Crash(id) => PlainSound(s, id, Stopped);
    case Go(id, x) =>
      if id in s.runs {
        var pc := s.runs[id];
        ThisRun(s, id);
        ThisSound(s, id);
        if InEvent(pc) { EventSteps(s, id, pc, x); }
        else if InResume(pc) { ResumeSteps(s, id, pc, x); }
        else { OtherSteps(s, id, pc, x); }
      }
  }

  lemma ThisSound(s: Sys, id: nat)
    requires Sound(s) && id in s.runs
    ensures RunSound(s.log, s.runs[id])
  {
  }

  lemma {:induction false} EveryLogIsSound(supported: bool, actions: seq<Action>)
    ensures Sound(Run(supported, actions))
  {
    if actions != [] {
      EveryLogIsSound(supported, actions[..|actions| - 1]);
      ReachableInv(supported, actions[..|actions| - 1]);
      hide Inv, Sound, Act;
      ActSound(Run(supported, actions[..|actions| - 1]), actions[|actions| - 1]);
    }
  }

  // ---------------------------------------------------------------- the theorems

  /**
   A step is executed only when a stored record has its own task pending and the tasks of everything it depends on
   succeeded; so those were executed before.
   */
  lemma DependenciesComeFirst(supported: bool, actions: seq<Action>, k: nat)
    requires k < |Run(supported, actions).log| && Run(supported, actions).log[k].ExecuteIssued?
    ensures var log := Run(supported, actions).log;
            exists m :: && 0 <= m < k && log[m].Stored? && IsDue(log[m].record, log[k].stepId)
                        && forall d <- ById(log[m].record.plan.value.steps, log[k].stepId).dependsOn :: ExecuteIssued(d) in log[..m]
  {
    var log := Run(supported, actions).log;
    EveryLogIsSound(supported, actions);
    hide Run, IsDue;
    assert EventSound(log[..k], log[k]);
    var p :| p in log[..k] && p.Stored? && IsDue(p.record, log[k].stepId);
    var m :| 0 <= m < k && log[m] == p;
    assert EventSound(log[..m], log[m]);
    DueIsExecuted(log[..m], p.record, log[k].stepId);
  }

  lemma DueIsExecuted(log: seq<Event>, r: Record, stepId: string)
    requires IsDue(r, stepId) && Backed(log, r.tasks)
    ensures forall d <- ById(r.plan.value.steps, stepId).dependsOn :: ExecuteIssued(d) in log
  {
  }

  /** The snapshot a stored task names was taken for that task, and its hash is what was taken. */
  lemma SnapshotsAreTheirOwn(supported: bool, actions: seq<Action>, i: nat, t: Task)
    requires i < |Run(supported, actions).log| && Run(supported, actions).log[i].Stored?
    requires t in Run(supported, actions).log[i].record.tasks && t.snapshotId.Some?
    ensures t.snapshotHash.Some?
    ensures SnapshotTaken(t.snapshotId.value, t.stepId, t.snapshotHash.value) in Run(supported, actions).log[..i]
  {
    EveryLogIsSound(supported, actions);
    hide Run;
    assert EventSound(Run(supported, actions).log[..i], Run(supported, actions).log[i]);
  }

  /** Whatever a stored record calls succeeded has been executed before. */
  lemma SuccessWasExecuted(supported: bool, actions: seq<Action>, i: nat, t: Task)
    requires i < |Run(supported, actions).log| && Run(supported, actions).log[i].Stored?
    requires t in Run(supported, actions).log[i].record.tasks && t.status.SUCCEEDED?
    ensures ExecuteIssued(t.stepId) in Run(supported, actions).log[..i]
  {
    EveryLogIsSound(supported, actions);
    hide Run;
    assert EventSound(Run(supported, actions).log[..i], Run(supported, actions).log[i]);
  }

  /**
   A workflow is stored FAILED only on a refusal or with every task rolled back, and NEEDS_ATTENTION only when every
   task went through compensation and some could not be restored.
   */
  lemma EndingsAreTrue(supported: bool, actions: seq<Action>, i: nat)
    requires i < |Run(supported, actions).log| && Run(supported, actions).log[i].Stored?
    ensures var r := Run(supported, actions).log[i].record;
            && (r.status.FAILED? ==> r.lastErrorCode == Some("APPROVAL_REJECTED") || forall t <- r.tasks :: t.status.ROLLED_BACK?)
            && (r.status.NEEDS_ATTENTION? ==> (forall t <- r.tasks :: t.status.ROLLED_BACK? || t.status.ROLLBACK_FAILED?)
                                              && exists t <- r.tasks :: t.status.ROLLBACK_FAILED?)
  {
    EveryLogIsSound(supported, actions);
    hide Run;
    assert EventSound(Run(supported, actions).log[..i], Run(supported, actions).log[i]);
  }
}
