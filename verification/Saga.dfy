/**
 One workflow's engine runs as a state machine. Any number of `process_event` and `resume_approval`
 runs and user requests interleave; each action is one call to a repository or to a remote service,
 and any run may stop between two calls. An engine's status transition is one action, because the engine
 expects the version it has just read: `Transitions.OwnVersionIsAtomic` shows that such a read-then-commit
 takes effect on the stored record or not at all, whatever others expect. A user's request reads and
 commits in two actions and expects any version it likes.
 */
module Saga {
  import opened Common
  import opened Plans
  import opened Sandbox
  import opened Workflows
  import opened Executor
  import C = ChangeState

  type Change = C.Change<PlanDigest>

  datatype Decision = GRANTED | REFUSED | CHANGES_REQUESTED

  datatype Callback = Callback(approvalId: string, planHash: PlanDigest, planVersion: nat, decision: Decision)

  /** Where a run is, with the locals it carries. `loaded` is the task list `resume_approval` read from the store. */
  datatype PC =
    | EventStart
    | EventBump(rec: Record)
    | EventCreate
    | EventLoaded(rec: Record)
    | EventAnalyzing(rec: Record)
    | EventReadChange(rec: Record)
    | EventScreen(rec: Record)
    | EventAnalyse(rec: Record)
    | EventBlock(rec: Record, code: string)
    | EventAnalysed(rec: Record, plan: Plan, hash: PlanDigest)
    | EventToAnalyzing(rec: Record, plan: Plan, hash: PlanDigest)
    | EventStorePlan(rec: Record, plan: Plan, hash: PlanDigest)
    | EventRead(rec: Record)
    | EventAdvance(rec: Record, seen: C.Status)
    | EventWait(rec: Record)
    | ResumeStart(callback: Callback)
    | ResumeLoad(callback: Callback, seen: C.Status)
    | ResumeReject(rec: Record)
    | ResumeChanges(rec: Record, seen: C.Status)
    | ResumeReanalyse(rec: Record)
    | ResumeAdvance(rec: Record, seen: C.Status)
    | ResumeSnapshots(rec: Record, loaded: seq<Task>, taken: map<nat, (nat, ConfigDigest)>)
    | ResumeDag(rec: Record, loaded: seq<Task>)
    | ResumeWave(rec: Record, loaded: seq<Task>, ready: set<nat>, done: map<nat, Option<Task>>)
    | ResumeToVerifying(rec: Record, loaded: seq<Task>)
    | ResumeMarkVerifying(rec: Record, loaded: seq<Task>)
    | ResumeVerify(rec: Record, loaded: seq<Task>, passed: set<nat>)
    | ResumeToCompleted(rec: Record, loaded: seq<Task>)
    | ResumeComplete(rec: Record, loaded: seq<Task>)
    | RollbackRead(rec: Record, code: string)
    | RollbackEnter(rec: Record, code: string)
    | RollbackMark(rec: Record, code: string)
    | RollbackTasks(rec: Record, code: string, compensated: map<nat, Task>)
    | RollbackClose(rec: Record, code: string)
    | Close(rec: Record, status: RuntimeStatus, code: string)
    | UserRetry(expected: nat)
    | UserMove(target: C.Status, expected: nat)
    | UserCommit(current: Change, target: C.Status, expected: nat)
    | Stopped

  /** What the outside world answers to the pending call. */
  datatype Input =
    | Proceed(now: Time)
    | Answer(plan: Plan, hash: PlanDigest)
    | Failure(code: string, transient: bool)
    | Captured(i: nat, configuration: ConfigDigest)
    | Issue(i: nat)
    | Succeeded(i: nat, attempts: nat, execution: string, output: OutputDigest)
    | Failed(i: nat, attempts: nat, code: string)
    | Restored(i: nat)

  /** Everything observable, in order. */
  datatype Event =
    | Entered(change: Change)
    | Stored(record: Record)
    | SnapshotTaken(id: nat, stepId: string, hash: ConfigDigest)
    | ExecuteIssued(stepId: string)
    | VerifyPassed(stepId: string)
    | Completing(loaded: seq<Task>, record: Record)

  /** `supported` says whether the event's type is the one the engine handles. */
  datatype Sys = Sys(supported: bool, change: Option<Change>, wf: Option<Record>,
                     runs: map<nat, PC>, nextSnapshot: nat, log: seq<Event>)

  datatype Action = Spawn(id: nat, pc: PC) | Go(id: nat, x: Input) | Crash(id: nat)

  const EMPTY_RECORD := Record("tenant", "change", "workflow", "event", RECEIVED, 1, None, None, None, None,
                               [], None, 0, 0, None, 1)

  const NEW_CHANGE: Change := C.Change("tenant", "change", C.RECEIVED, None, 0, None, 0, 0, 1)

  // ---------------------------------------------------------------- the calls a run makes

  function Goto(s: Sys, id: nat, pc: PC): Sys {
    s.(runs := s.runs[id := pc])
  }

  function Emit(s: Sys, id: nat, e: Event, pc: PC): Sys {
    s.(log := s.log + [e], runs := s.runs[id := pc])
  }

  /** `_update_record`: revalidate, then compare and swap on the version of the run's own copy. */
  function Update(s: Sys, id: nat, rec: Record, r: Record, now: Time, next: Record -> PC): Sys {
    var updated := r.(updatedAt := now, version := rec.version + 1);
    if ValidRecord(updated) && s.wf.Some? && s.wf.value.version == rec.version then
      s.(wf := Some(updated), log := s.log + [Stored(updated)], runs := s.runs[id := next(updated)])
    else Goto(s, id, Stopped)
  }

  /** `_set_runtime_status`: no call at all when nothing would change. */
  function SetStatus(s: Sys, id: nat, rec: Record, status: RuntimeStatus, code: Option<string>, now: Time,
                     next: Record -> PC): Sys {
    if rec.status == status && rec.lastErrorCode == code then Goto(s, id, next(rec))
    else Update(s, id, rec, rec.(status := status, lastErrorCode := code), now, next)
  }

  /** `_transition`: a table edge from the stored status, or the run raises. */
  function Transition(s: Sys, id: nat, target: C.Status, workflow: Option<string>, plan: Option<Plan>, next: PC): Sys {
    if s.change.Some? && C.CanTransition(s.change.value.status, target) then
      var c := s.change.value;
      var c' := c.(status := target, version := c.version + 1,
                   workflowId := if workflow.Some? then workflow else c.workflowId,
                   planVersion := if plan.Some? then plan.value.version else c.planVersion,
                   planHash := if plan.Some? then Some(CalculatePlanHash(plan.value)) else c.planHash);
      s.(change := Some(c'), log := s.log + [Entered(c')], runs := s.runs[id := next])
    else Goto(s, id, Stopped)
  }

  // ---------------------------------------------------------------- process_event

  function FreshTask(step: Step): Task {
    var system := SystemForTool(step.toolName);
    Task(step.stepId, if system.Some? then system.value else "", PENDING, 0, None, None, None, None, None)
  }

  function AfterScreening(rec: Record): PC {
    if rec.plan.None? then EventAnalyse(rec) else EventRead(rec)
  }

  /** The plan, one fresh task per step in the plan's order, and an approval that lapses in thirty minutes. */
  function Planned(rec: Record, p: Plan, now: Time): Record {
    rec.(plan := Some(p), planHash := Some(CalculatePlanHash(p)),
         tasks := seq(|p.steps|, i requires 0 <= i < |p.steps| => FreshTask(p.steps[i])),
         approvalId := Some("approval_" + rec.workflowId), approvalExpiresAt := Some(now + 1800))
  }

  function StorePlan(s: Sys, id: nat, rec: Record, p: Plan, hash: PlanDigest, now: Time): Sys {
    if p.tenantId != rec.tenantId || p.changeId != rec.changeId || hash != CalculatePlanHash(p) then
      Goto(s, id, Close(rec, DEAD_LETTERED, "INVALID_FLEET_PLAN"))
    else if exists step <- p.steps :: SystemForTool(step.toolName).None? then Goto(s, id, Stopped)
    else
      Update(s, id, rec, Planned(rec, p, now), now, r => EventRead(r))
  }

  function AdvanceEvent(s: Sys, id: nat, pc: PC, x: Input): Sys {
    if pc.EventStart? || pc.EventBump? || pc.EventCreate? || pc.EventLoaded? || pc.EventAnalyzing? then AdvanceIntake(s, id, pc, x)
    else if pc.EventReadChange? || pc.EventScreen? || pc.EventAnalyse? || pc.EventBlock? then AdvanceScreening(s, id, pc, x)
    else if pc.EventAnalysed? || pc.EventToAnalyzing? || pc.EventStorePlan? || pc.EventRead? then AdvancePlanning(s, id, pc, x)
    else AdvanceApproval(s, id, pc, x)
  }

  function AdvanceIntake(s: Sys, id: nat, pc: PC, x: Input): Sys {
    match (pc, x)
    case (EventStart, Proceed(now)) =>
      if s.wf.None? then Goto(s, id, EventCreate)
      else if s.wf.value.status.RECEIVED? || s.wf.value.status.ANALYZING? then Goto(s, id, EventBump(s.wf.value))
      else Goto(s, id, Stopped)
    case (EventBump(rec), Proceed(now)) =>
      Update(s, id, rec, rec.(deliveryAttempts := rec.deliveryAttempts + 1), now, r => EventLoaded(r))
    case (EventCreate, Proceed(now)) =>
      if s.wf.Some? then Goto(s, id, EventLoaded(s.wf.value))
      else
        var r := EMPTY_RECORD.(startedAt := now, updatedAt := now);
        s.(wf := Some(r), log := s.log + [Stored(r)], runs := s.runs[id := EventLoaded(r)])
    case (EventLoaded(rec), Proceed(now)) =>
      if !s.supported then Goto(s, id, Close(rec, DEAD_LETTERED, "UNSUPPORTED_EVENT_TYPE"))
      else if s.change.Some? then Goto(s, id, EventAnalyzing(rec))
      else
        s.(change := Some(NEW_CHANGE), log := s.log + [Entered(NEW_CHANGE)], runs := s.runs[id := EventAnalyzing(rec)])
    case (EventAnalyzing(rec), Proceed(now)) => SetStatus(s, id, rec, ANALYZING, None, now, r => EventReadChange(r))
    case _ => s
  }

  function AdvanceScreening(s: Sys, id: nat, pc: PC, x: Input): Sys {
    match (pc, x)
    case (EventReadChange(rec), Proceed(now)) =>
      if s.change.None? then Goto(s, id, Stopped)
      else Goto(s, id, if s.change.value.status == C.RECEIVED then EventScreen(rec) else AfterScreening(rec))
    case (EventScreen(rec), Proceed(now)) =>
      Transition(s, id, C.SCREENING, Some(rec.workflowId), None, AfterScreening(rec))
    case (EventAnalyse(rec), Answer(p, hash)) =>
      Goto(s, id, if ValidateStepGraph(p.steps).Ok? then EventAnalysed(rec, p, hash)
                  else Close(rec, DEAD_LETTERED, "FLEET_INVALID_RESPONSE"))
    case (EventAnalyse(rec), Failure(code, transient)) =>
      Goto(s, id, if code == "PROMPT_INJECTION_BLOCKED" then EventBlock(rec, code)
                  else if transient then Stopped else Close(rec, DEAD_LETTERED, code))
    case (EventBlock(rec, code), Proceed(now)) => Transition(s, id, C.BLOCKED, None, None, Close(rec, FAILED, code))
    case _ => s
  }

  function AdvancePlanning(s: Sys, id: nat, pc: PC, x: Input): Sys {
    match (pc, x)
    case (EventAnalysed(rec, p, hash), Proceed(now)) =>
      if s.change.None? then Goto(s, id, Stopped)
      else Goto(s, id, if s.change.value.status == C.SCREENING then EventToAnalyzing(rec, p, hash)
                       else EventStorePlan(rec, p, hash))
    case (EventToAnalyzing(rec, p, hash), Proceed(now)) =>
      Transition(s, id, C.ANALYZING, None, None, EventStorePlan(rec, p, hash))
    case (EventStorePlan(rec, p, hash), Proceed(now)) => StorePlan(s, id, rec, p, hash, now)
    case (EventRead(rec), Proceed(now)) =>
      Goto(s, id, if s.change.None? then Stopped else EventAdvance(rec, s.change.value.status))
    case _ => s
  }

  function AdvanceApproval(s: Sys, id: nat, pc: PC, x: Input): Sys {
    match (pc, x)
    case (EventAdvance(rec, seen), Proceed(now)) =>
      if seen == C.SCREENING then Transition(s, id, C.ANALYZING, None, None, EventAdvance(rec, C.ANALYZING))
      else if seen == C.ANALYZING then Transition(s, id, C.PLAN_READY, None, rec.plan, EventAdvance(rec, C.PLAN_READY))
      else if seen == C.PLAN_READY then
        Transition(s, id, C.AWAITING_APPROVAL, None, None, EventAdvance(rec, C.AWAITING_APPROVAL))
      else if seen == C.AWAITING_APPROVAL && rec.approvalId.Some? && rec.approvalExpiresAt.Some? then
        Goto(s, id, EventWait(rec))
      else Goto(s, id, Stopped)
    case (EventAdvance(rec, seen), Failure(code, transient)) =>
      Goto(s, id, if seen == C.AWAITING_APPROVAL && !transient then Close(rec, DEAD_LETTERED, code) else Stopped)
    case (EventWait(rec), Proceed(now)) => SetStatus(s, id, rec, WAITING_APPROVAL, None, now, r => Stopped)
    case _ => s
  }

  // ---------------------------------------------------------------- resume_approval

  function Loaded(cb: Callback, seen: C.Status, rec: Record): PC {
    if Closed(rec.status) || rec.plan.None? || rec.approvalId != Some(cb.approvalId)
       || rec.planHash != Some(cb.planHash) || rec.plan.value.version != cb.planVersion then Stopped
    else match cb.decision
      case REFUSED => if seen == C.AWAITING_APPROVAL then ResumeReject(rec) else Close(rec, FAILED, "APPROVAL_REJECTED")
      case CHANGES_REQUESTED => ResumeChanges(rec, seen)
      case GRANTED => ResumeAdvance(rec, seen)
  }

  predicate Missing(rec: Record, i: nat) {
    i < |rec.tasks| && rec.tasks[i].snapshotId.None?
  }

  function WithSnapshots(rec: Record, taken: map<nat, (nat, ConfigDigest)>): Record {
    rec.(tasks := seq(|rec.tasks|, i requires 0 <= i < |rec.tasks| =>
           if Missing(rec, i) && i in taken
           then rec.tasks[i].(snapshotId := Some(taken[i].0), snapshotHash := Some(taken[i].1))
           else rec.tasks[i]))
  }

  predicate AnyStatus(tasks: seq<Task>, status: TaskStatus) {
    exists t <- tasks :: t.status == status
  }

  function ErrorOr(rec: Record): string {
    if rec.lastErrorCode.Some? then rec.lastErrorCode.value else "TOOL_EXECUTION_FAILED"
  }

  function AfterDag(rec: Record, loaded: seq<Task>): PC {
    if AnyStatus(rec.tasks, TASK_FAILED) then RollbackRead(rec, ErrorOr(rec)) else ResumeToVerifying(rec, loaded)
  }

  /** A pending task is ready when every dependency of its step has a succeeded task. */
  predicate Ready(rec: Record, i: nat) {
    && i < |rec.tasks| && rec.tasks[i].status.PENDING?
    && rec.plan.Some? && rec.tasks[i].stepId in Ids(rec.plan.value.steps)
    && forall d <- ById(rec.plan.value.steps, rec.tasks[i].stepId).dependsOn ::
         exists t <- rec.tasks :: t.stepId == d && t.status.SUCCEEDED?
  }

  function ReadySet(rec: Record): set<nat> {
    set i: nat | i < |rec.tasks| && Ready(rec, i)
  }

  function WithResults(rec: Record, done: map<nat, Option<Task>>): Record {
    var tasks := seq(|rec.tasks|, i requires 0 <= i < |rec.tasks| =>
                       if i in done && done[i].Some? then done[i].value else rec.tasks[i]);
    rec.(tasks := tasks, lastErrorCode := FirstError(tasks, done, 0))
  }

  function FirstError(tasks: seq<Task>, done: map<nat, Option<Task>>, from: nat): Option<string>
    decreases |tasks| - from
  {
    if from >= |tasks| then None
    else if from in done && done[from].Some? && done[from].value.status.TASK_FAILED? then done[from].value.errorCode
    else FirstError(tasks, done, from + 1)
  }

  function AfterWave(rec: Record, loaded: seq<Task>, done: map<nat, Option<Task>>): PC {
    if exists i <- done :: done[i].Some? && done[i].value.status.TASK_FAILED? then AfterDag(rec, loaded)
    else ResumeDag(rec, loaded)
  }

  function AdvanceResume(s: Sys, id: nat, pc: PC, x: Input): Sys {
    match pc
    case ResumeAdvance(rec, seen) => AdvanceGrant(s, id, rec, seen, x)
    case ResumeSnapshots(rec, loaded, taken) => AdvanceCapture(s, id, rec, loaded, taken, x)
    case ResumeDag(rec, loaded) => AdvanceDag(s, id, rec, loaded, x)
    case ResumeWave(rec, loaded, ready, done) => AdvanceWave(s, id, rec, loaded, ready, done, x)
    case ResumeComplete(rec, loaded) => if x.Proceed? then Complete(s, id, rec, loaded, x.now) else s
    case _ =>
      if pc.ResumeToVerifying? || pc.ResumeMarkVerifying? || pc.ResumeVerify? || pc.ResumeToCompleted?
      then AdvanceVerification(s, id, pc, x) else AdvanceAdmission(s, id, pc, x)
  }

  function AdvanceAdmission(s: Sys, id: nat, pc: PC, x: Input): Sys {
    match (pc, x)
    case (ResumeStart(cb), Proceed(now)) =>
      Goto(s, id, if s.change.None? || s.change.value.workflowId.None? then Stopped
                  else ResumeLoad(cb, s.change.value.status))
    case (ResumeLoad(cb, seen), Proceed(now)) =>
      Goto(s, id, if s.wf.None? then Stopped else Loaded(cb, seen, s.wf.value))
    case (ResumeReject(rec), Proceed(now)) =>
      Transition(s, id, C.REJECTED, None, None, Close(rec, FAILED, "APPROVAL_REJECTED"))
    case (ResumeChanges(rec, seen), Proceed(now)) =>
      if seen == C.AWAITING_APPROVAL then Transition(s, id, C.REJECTED, None, None, ResumeChanges(rec, C.REJECTED))
      else if seen == C.REJECTED then Transition(s, id, C.ANALYZING, None, None, ResumeReanalyse(rec))
      else Goto(s, id, ResumeReanalyse(rec))
    case (ResumeReanalyse(rec), Proceed(now)) =>
      SetStatus(s, id, rec, ANALYZING, Some("APPROVAL_CHANGES_REQUESTED"), now, r => Stopped)
    case _ => s
  }

  function AdvanceGrant(s: Sys, id: nat, rec: Record, seen: C.Status, x: Input): Sys {
    if !x.Proceed? then s
    else if seen == C.AWAITING_APPROVAL then Transition(s, id, C.APPROVED, None, None, ResumeAdvance(rec, C.APPROVED))
    else if seen == C.APPROVED then Transition(s, id, C.EXECUTING, None, None, ResumeAdvance(rec, C.EXECUTING))
    else if seen == C.EXECUTING then
      SetStatus(s, id, rec, EXECUTING, None, x.now, r => ResumeSnapshots(r, rec.tasks, map[]))
    else Goto(s, id, Stopped)
  }

  function AdvanceCapture(s: Sys, id: nat, rec: Record, loaded: seq<Task>, taken: map<nat, (nat, ConfigDigest)>, x: Input): Sys {
    match x
    case Captured(i, hash) =>
      if Missing(rec, i) && i !in taken then
        Emit(s.(nextSnapshot := s.nextSnapshot + 1), id, SnapshotTaken(s.nextSnapshot, rec.tasks[i].stepId, hash),
             ResumeSnapshots(rec, loaded, taken[i := (s.nextSnapshot, hash)]))
      else s
    case Proceed(now) =>
      if forall i | 0 <= i < |rec.tasks| :: !Missing(rec, i) then Goto(s, id, ResumeDag(rec, loaded))
      else if forall i | 0 <= i < |rec.tasks| :: Missing(rec, i) ==> i in taken then
        Update(s, id, rec, WithSnapshots(rec, taken), now, r => ResumeDag(r, loaded))
      else s
    case _ => s
  }

  function AdvanceDag(s: Sys, id: nat, rec: Record, loaded: seq<Task>, x: Input): Sys {
    if !x.Proceed? then s
    else
      Goto(s, id, if !AnyStatus(rec.tasks, PENDING) then AfterDag(rec, loaded)
                  else if ReadySet(rec) == {} then Stopped
                  else ResumeWave(rec, loaded, ReadySet(rec), map[]))
  }

  function AdvanceVerification(s: Sys, id: nat, pc: PC, x: Input): Sys {
    match (pc, x)
    case (ResumeToVerifying(rec, loaded), Proceed(now)) =>
      Transition(s, id, C.VERIFYING, None, None, ResumeMarkVerifying(rec, loaded))
    case (ResumeMarkVerifying(rec, loaded), Proceed(now)) =>
      SetStatus(s, id, rec, VERIFYING, None, now, r => ResumeVerify(r, loaded, {}))
    case (ResumeVerify(rec, loaded, passed), Issue(i)) =>
      if i < |rec.tasks| then
        Emit(s, id, VerifyPassed(rec.tasks[i].stepId), ResumeVerify(rec, loaded, passed + {i}))
      else s
    case (ResumeVerify(rec, loaded, passed), Failure(code, _)) => Goto(s, id, RollbackRead(rec, code))
    case (ResumeVerify(rec, loaded, passed), Proceed(now)) =>
      if forall i | 0 <= i < |rec.tasks| :: i in passed then Goto(s, id, ResumeToCompleted(rec, loaded)) else s
    case (ResumeToCompleted(rec, loaded), Proceed(now)) =>
      Transition(s, id, C.COMPLETED, None, None, ResumeComplete(rec, loaded))
    case _ => s
  }

  function AdvanceWave(s: Sys, id: nat, rec: Record, loaded: seq<Task>, ready: set<nat>,
                       done: map<nat, Option<Task>>, x: Input): Sys {
    match x
    case Issue(i) =>
      if i in ready && i < |rec.tasks| && (i in done ==> done[i].None?) then
        Emit(s, id, ExecuteIssued(rec.tasks[i].stepId), ResumeWave(rec, loaded, ready, done[i := None]))
      else s
    case Succeeded(i, attempts, execution, output) =>
      if i in done && done[i].None? && i < |rec.tasks| then
        var t := rec.tasks[i].(status := SUCCEEDED, attemptCount := attempts, executionId := Some(execution),
                               outputHash := Some(output), errorCode := None);
        Goto(s, id, ResumeWave(rec, loaded, ready, done[i := Some(t)]))
      else s
    case Failed(i, attempts, code) =>
      if i in done && done[i].None? && i < |rec.tasks| then
        var t := rec.tasks[i].(status := TASK_FAILED, attemptCount := attempts, errorCode := Some(code));
        Goto(s, id, ResumeWave(rec, loaded, ready, done[i := Some(t)]))
      else s
    case Proceed(now) =>
      if forall i <- ready :: i in done && done[i].Some? then
        Update(s, id, rec, WithResults(rec, done), now, r => AfterWave(r, loaded, done))
      else s
    case _ => s
  }

  /** The final `_terminal(record, COMPLETED, None)`. */
  function Complete(s: Sys, id: nat, rec: Record, loaded: seq<Task>, now: Time): Sys {
    var updated := rec.(status := COMPLETED, lastErrorCode := None, completedAt := Some(now),
                        updatedAt := now, version := rec.version + 1);
    if ValidRecord(updated) && s.wf.Some? && s.wf.value.version == rec.version then
      s.(wf := Some(updated), log := s.log + [Completing(loaded, updated), Stored(updated)],
         runs := s.runs[id := Stopped])
    else Goto(s, id, Stopped)
  }

  // ---------------------------------------------------------------- rollback, terminal records, users

  function OrderOf(rec: Record, i: nat): int
    requires i < |rec.tasks|
  {
    if rec.plan.Some? && rec.tasks[i].stepId in Ids(rec.plan.value.steps)
    then ById(rec.plan.value.steps, rec.tasks[i].stepId).order else 0
  }

  /** Tasks are compensated one at a time, highest order first. */
  predicate NextToRestore(rec: Record, done: map<nat, Task>, i: nat) {
    && i < |rec.tasks| && i !in done
    && forall j | 0 <= j < |rec.tasks| && j !in done :: OrderOf(rec, j) <= OrderOf(rec, i)
  }

  function RestoredTask(t: Task, ok: bool, code: string): Task {
    if t.snapshotId.None? || t.snapshotHash.None? then t.(status := ROLLBACK_FAILED, errorCode := Some("SNAPSHOT_MISSING"))
    else if ok then t.(status := ROLLED_BACK, errorCode := None)
    else t.(status := ROLLBACK_FAILED, errorCode := Some(code))
  }

  function WithRestored(rec: Record, done: map<nat, Task>): Record {
    rec.(tasks := seq(|rec.tasks|, i requires 0 <= i < |rec.tasks| => if i in done then done[i] else rec.tasks[i]))
  }

  function AdvanceRollback(s: Sys, id: nat, pc: PC, x: Input): Sys {
    match pc
    case RollbackTasks(rec, code, done) => AdvanceRestore(s, id, rec, code, done, x)
    case Close(rec, status, code) => if x.Proceed? then CloseRecord(s, id, rec, status, code, x.now) else s
    case _ =>
      if pc.UserRetry? || pc.UserMove? || pc.UserCommit? || pc.Stopped? then AdvanceUser(s, id, pc, x)
      else AdvanceCompensation(s, id, pc, x)
  }

  function AdvanceCompensation(s: Sys, id: nat, pc: PC, x: Input): Sys {
    match (pc, x)
    case (RollbackRead(rec, code), Proceed(now)) =>
      Goto(s, id, if s.change.None? then Stopped
                  else if s.change.value.status == C.EXECUTING || s.change.value.status == C.VERIFYING
                  then RollbackEnter(rec, code) else RollbackMark(rec, code))
    case (RollbackEnter(rec, code), Proceed(now)) =>
      Transition(s, id, C.ROLLING_BACK, None, None, RollbackMark(rec, code))
    case (RollbackMark(rec, code), Proceed(now)) =>
      SetStatus(s, id, rec, ROLLING_BACK, Some(code), now, r => RollbackTasks(r, code, map[]))
    case (RollbackClose(rec, code), Proceed(now)) =>
      if AnyStatus(rec.tasks, ROLLBACK_FAILED)
      then Transition(s, id, C.NEEDS_ATTENTION, None, None, Close(rec, NEEDS_ATTENTION, code))
      else Transition(s, id, C.FAILED, None, None, Close(rec, FAILED, code))
    case _ => s
  }

  function AdvanceRestore(s: Sys, id: nat, rec: Record, code: string, done: map<nat, Task>, x: Input): Sys {
    match x
    case Restored(i) =>
      if NextToRestore(rec, done, i) then
        Goto(s, id, RollbackTasks(rec, code, done[i := RestoredTask(rec.tasks[i], true, "")]))
      else s
    case Failed(i, _, failure) =>
      if NextToRestore(rec, done, i) then
        Goto(s, id, RollbackTasks(rec, code, done[i := RestoredTask(rec.tasks[i], false, failure)]))
      else s
    case Proceed(now) =>
      if forall i | 0 <= i < |rec.tasks| :: i in done then
        Update(s, id, rec, WithRestored(rec, done), now, r => RollbackClose(r, code))
      else s
    case _ => s
  }

  /** `_terminal`, for every status but COMPLETED. */
  function CloseRecord(s: Sys, id: nat, rec: Record, status: RuntimeStatus, code: string, now: Time): Sys {
    if rec.status == status && rec.completedAt.Some? then Goto(s, id, Stopped)
    else Update(s, id, rec, rec.(status := status, lastErrorCode := Some(code), completedAt := Some(now)), now, r => Stopped)
  }

  function AdvanceUser(s: Sys, id: nat, pc: PC, x: Input): Sys {
    match (pc, x)
    case (UserRetry(expected), Proceed(now)) =>
      Goto(s, id, if s.change.None? then Stopped
                  else if s.change.value.status == C.BLOCKED || s.change.value.status == C.NEEDS_ATTENTION
                  then UserMove(C.SCREENING, expected) else UserMove(s.change.value.status, expected))
    case (UserMove(target, expected), Proceed(now)) =>
      Goto(s, id, if s.change.Some? && C.CanTransition(s.change.value.status, target)
                  then UserCommit(s.change.value, target, expected) else Stopped)
    case (UserCommit(current, target, expected), Proceed(now)) => Commit(s, id, current, target, expected)
    case _ => s
  }

  /** The commit of a user's transition: compare and swap on the version the request expects, from the copy it read. */
  function Commit(s: Sys, id: nat, current: Change, target: C.Status, expected: nat): Sys {
    if s.change.Some? && s.change.value.version == expected then
      var c' := current.(status := target, version := expected + 1);
      s.(change := Some(c'), log := s.log + [Entered(c')], runs := s.runs[id := Stopped])
    else Goto(s, id, Stopped)
  }

  predicate InEvent(pc: PC) {
    || pc.EventStart? || pc.EventBump? || pc.EventCreate? || pc.EventLoaded? || pc.EventAnalyzing?
    || pc.EventReadChange? || pc.EventScreen? || pc.EventAnalyse? || pc.EventBlock? || pc.EventAnalysed?
    || pc.EventToAnalyzing? || pc.EventStorePlan? || pc.EventRead? || pc.EventAdvance? || pc.EventWait?
  }

  predicate InResume(pc: PC) {
    || pc.ResumeStart? || pc.ResumeLoad? || pc.ResumeReject? || pc.ResumeChanges? || pc.ResumeReanalyse?
    || pc.ResumeAdvance? || pc.ResumeSnapshots? || pc.ResumeDag? || pc.ResumeWave? || pc.ResumeToVerifying?
    || pc.ResumeMarkVerifying? || pc.ResumeVerify? || pc.ResumeToCompleted? || pc.ResumeComplete?
  }

  predicate Startable(pc: PC) {
    pc.EventStart? || pc.ResumeStart? || pc.UserRetry? || (pc.UserMove? && pc.target == C.CANCELLED)
  }

  function Act(s: Sys, a: Action): Sys {
    match a
    case Spawn(id, pc) => if id !in s.runs && Startable(pc) then Goto(s, id, pc) else s
    case Crash(id) => if id in s.runs then Goto(s, id, Stopped) else s
    case Go(id, x) =>
      if id !in s.runs then s
      else
        var pc := s.runs[id];
        if InEvent(pc) then AdvanceEvent(s, id, pc, x)
        else if InResume(pc) then AdvanceResume(s, id, pc, x)
        else AdvanceRollback(s, id, pc, x)
  }

  function Start(supported: bool): Sys {
    Sys(supported, None, None, map[], 0, [])
  }

  function Run(supported: bool, actions: seq<Action>): Sys {
    if actions == [] then Start(supported)
    else Act(Run(supported, actions[..|actions| - 1]), actions[|actions| - 1])
  }
}
