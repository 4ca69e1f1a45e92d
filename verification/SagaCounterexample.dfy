/**
 A COMPLETED record whose task was never restored is reachable. A duplicate approval callback reads the
 change while it is EXECUTING and the record after a failed compensation was stored; the second run
 finds nothing pending and nothing FAILED, and the table lets NEEDS_ATTENTION go to VERIFYING.
 */
module SagaCounterexample {
  import opened Common
  import opened Plans
  import opened Sandbox
  import opened Workflows
  import opened Executor
  import opened Saga
  import C = ChangeState

  const GO := Proceed(0)

  ghost predicate Reaches(s: Sys) {
    exists actions :: Run(true, actions) == s
  }

  lemma Do(s: Sys, a: Action) returns (t: Sys)
    requires Reaches(s)
    ensures t == Act(s, a) && Reaches(t)
  {
    hide Act;
    t := Act(s, a);
    var actions :| Run(true, actions) == s;
    assert (actions + [a])[..|actions|] == actions;
    assert Run(true, actions + [a]) == t;
  }

  /** A reachable state in which run `id` is at `pc`. */
  ghost predicate On(s: Sys, others: map<nat, PC>, id: nat, status: C.Status, r: Record, pc: PC) {
    && Reaches(s) && s.supported && s.change.Some? && s.change.value.status == status
    && s.change.value.workflowId.Some? && s.wf == Some(r) && s.runs == others[id := pc]
  }

  /** A stored record of a one-step plan. */
  predicate One(r: Record, status: RuntimeStatus, task: TaskStatus) {
    && ValidRecord(r) && r.startedAt == 0 && r.status == status && r.plan.Some? && r.approvalId.Some?
    && |r.tasks| == 1 && r.tasks[0].status == task && ValidateStepGraph(r.plan.value.steps).Ok?
    && |r.plan.value.steps| == 1
  }

  function Marked(r: Record, status: RuntimeStatus, code: Option<string>): Record {
    r.(status := status, lastErrorCode := code, updatedAt := 0, version := r.version + 1)
  }

  function Retasked(r: Record, t: Task, code: Option<string>): Record {
    r.(tasks := [t], lastErrorCode := code, updatedAt := 0, version := r.version + 1)
  }

  lemma MarkedIsOne(r: Record, was: RuntimeStatus, task: TaskStatus, status: RuntimeStatus, code: Option<string>)
    requires One(r, was, task) && !Terminal(was) && !Terminal(status)
    ensures One(Marked(r, status, code), status, task)
    ensures r.status == was && |r.tasks| == 1 && r.tasks[0].status == task && ValidRecord(Marked(r, status, code))
  {
  }

  lemma RetaskedIsOne(r: Record, t: Task, code: Option<string>)
    requires r.tasks != [] && One(r, r.status, r.tasks[0].status) && t.stepId == r.tasks[0].stepId && ValidTask(t)
    ensures One(Retasked(r, t, code), r.status, t.status) && ValidRecord(Retasked(r, t, code))
  {
    var u := Retasked(r, t, code);
    assert u.tasks[0] == t && r.tasks == [r.tasks[0]];
    assert TaskIds(u.tasks) == {t.stepId} == TaskIds(r.tasks);
  }

  function Grant(r: Record): Callback
    requires r.plan.Some? && r.approvalId.Some?
  {
    Callback(r.approvalId.value, CalculatePlanHash(r.plan.value), r.plan.value.version, GRANTED)
  }

  /** Either of two running runs can be the one in focus. */
  lemma Swap(s: Sys, others: map<nat, PC>, i: nat, pc: PC, j: nat, pc': PC, status: C.Status, r: Record)
    requires i != j && On(s, others[i := pc], j, status, r, pc')
    ensures On(s, others[j := pc'], i, status, r, pc)
  {
    hide Reaches;
    assert others[i := pc][j := pc'] == others[j := pc'][i := pc];
  }

  // ---------------------------------------------------------------- the event run

  lemma Received() returns (t: Sys)
    ensures Reaches(t) && t.supported && t.change == Some(NEW_CHANGE) && t.wf == Some(EMPTY_RECORD)
    ensures t.runs == map[0 := EventAnalyzing(EMPTY_RECORD)]
  {
    hide AdvanceResume, AdvanceRollback, Reaches;
    t := Start(true);
    StartReached();
    t := Do(t, Spawn(0, EventStart));
    assert t.runs == map[0 := EventStart];
    t := Do(t, Go(0, GO));
    assert t.runs == map[0 := EventCreate];
    t := Do(t, Go(0, GO));
    assert t.wf == Some(EMPTY_RECORD) && t.runs == map[0 := EventLoaded(EMPTY_RECORD)];
    t := Do(t, Go(0, GO));
  }

  lemma Screened() returns (t: Sys, r: Record)
    ensures On(t, map[], 0, C.SCREENING, r, EventAnalyse(r)) && ValidRecord(r) && t.change.value.planHash.None?
    ensures r == EMPTY_RECORD.(status := ANALYZING, version := 2)
  {
    hide AdvanceResume, AdvanceRollback, Reaches;
    t := Received();
    t, r := MarkedAnalyzing(t);
    hide ValidRecord;
    t := Do(t, Go(0, GO));
    assert t.runs == map[0 := EventScreen(r)];
    t := Do(t, Go(0, GO));
  }

  lemma MarkedAnalyzing(s: Sys) returns (t: Sys, r: Record)
    requires Reaches(s) && s.supported && s.change == Some(NEW_CHANGE) && s.wf == Some(EMPTY_RECORD)
    requires s.runs == map[0 := EventAnalyzing(EMPTY_RECORD)]
    ensures Reaches(t) && t.supported && t.change == Some(NEW_CHANGE) && t.wf == Some(r)
    ensures t.runs == map[0 := EventReadChange(r)]
    ensures r == EMPTY_RECORD.(status := ANALYZING, version := 2) && ValidRecord(r)
  {
    hide AdvanceResume, AdvanceRollback, Reaches;
    r := EMPTY_RECORD.(status := ANALYZING, version := 2);
    t := Do(s, Go(0, GO));
  }

  lemma StartReached()
    ensures Reaches(Start(true))
  {
    assert Run(true, []) == Start(true);
  }

  lemma Answered(s: Sys, r: Record, p: Plan) returns (t: Sys)
    requires On(s, map[], 0, C.SCREENING, r, EventAnalyse(r)) && ValidateStepGraph(p.steps).Ok?
    ensures On(t, map[], 0, C.ANALYZING, r, EventStorePlan(r, p, CalculatePlanHash(p)))
    ensures t.change.value.planHash == s.change.value.planHash
  {
    hide ValidateStepGraph, StorePlan, AdvanceResume, AdvanceRollback, Reaches;
    t := Do(s, Go(0, Answer(p, CalculatePlanHash(p))));
    t := Do(t, Go(0, GO));
    t := Do(t, Go(0, GO));
  }

  lemma PlannedIsOne(r: Record, p: Plan)
    requires ValidRecord(r) && r.startedAt == 0 && r.status == ANALYZING
    requires p.tenantId == r.tenantId && p.changeId == r.changeId
    requires ValidateStepGraph(p.steps).Ok? && |p.steps| == 1
    ensures var u := Planned(r, p, 0).(updatedAt := 0, version := r.version + 1);
            One(u, ANALYZING, PENDING) && u.tasks[0].snapshotId.None? && u.plan == Some(p)
  {
    var u := Planned(r, p, 0).(updatedAt := 0, version := r.version + 1);
    assert u.tasks == [FreshTask(p.steps[0])];
    assert TaskIds(u.tasks) == {p.steps[0].stepId} == Ids(p.steps) by {
      assert u.tasks[0].stepId == p.steps[0].stepId;
    }
  }

  lemma PlanStored(s: Sys, r: Record, p: Plan) returns (t: Sys, u: Record)
    requires On(s, map[], 0, C.ANALYZING, r, EventStorePlan(r, p, CalculatePlanHash(p)))
    requires ValidRecord(r) && r.startedAt == 0 && r.status == ANALYZING
    requires p.tenantId == r.tenantId && p.changeId == r.changeId
    requires ValidateStepGraph(p.steps).Ok? && |p.steps| == 1 && SystemForTool(p.steps[0].toolName).Some?
    ensures On(t, map[], 0, C.ANALYZING, u, EventAdvance(u, C.ANALYZING)) && t.change == s.change
    ensures One(u, ANALYZING, PENDING) && u.tasks[0].snapshotId.None? && u.plan == Some(p)
  {
    hide ValidRecord, ValidateStepGraph, SystemForTool, Planned, AdvanceResume, AdvanceRollback, Reaches;
    PlannedIsOne(r, p);
    u := Planned(r, p, 0).(updatedAt := 0, version := r.version + 1);
    t := Do(s, Go(0, GO));
    assert On(t, map[], 0, C.ANALYZING, u, EventRead(u));
    t := Do(t, Go(0, GO));
  }

  lemma Requested(s: Sys, r: Record) returns (t: Sys)
    requires On(s, map[], 0, C.ANALYZING, r, EventAdvance(r, C.ANALYZING))
    ensures On(t, map[], 0, C.AWAITING_APPROVAL, r, EventAdvance(r, C.AWAITING_APPROVAL))
  {
    hide ValidRecord, AdvanceResume, AdvanceRollback, Reaches;
    t := Do(s, Go(0, GO));
    t := Do(t, Go(0, GO));
  }

  // ---------------------------------------------------------------- the first callback and its duplicate

  lemma Called(s: Sys, others: map<nat, PC>, at: nat, pc: PC, id: nat, status: C.Status, r: Record) returns (t: Sys)
    requires On(s, others, at, status, r, pc) && id !in others && id != at && r.plan.Some? && r.approvalId.Some?
    ensures On(t, others[at := pc], id, status, r, ResumeStart(Grant(r)))
  {
    hide AdvanceEvent, AdvanceResume, AdvanceRollback, Reaches;
    t := Do(s, Spawn(id, ResumeStart(Grant(r))));
  }

  lemma ReadChange(s: Sys, others: map<nat, PC>, id: nat, status: C.Status, r: Record) returns (t: Sys)
    requires r.plan.Some? && r.approvalId.Some? && On(s, others, id, status, r, ResumeStart(Grant(r)))
    ensures On(t, others, id, status, r, ResumeLoad(Grant(r), status))
  {
    hide AdvanceEvent, AdvanceRollback, Reaches, Loaded;
    t := Do(s, Go(id, GO));
  }

  lemma Loads(s: Sys, others: map<nat, PC>, id: nat, status: C.Status, seen: C.Status, r: Record, ts: TaskStatus) returns (t: Sys)
    requires One(r, r.status, ts) && !Closed(r.status) && On(s, others, id, status, r, ResumeLoad(Grant(r), seen))
    ensures On(t, others, id, status, r, ResumeAdvance(r, seen))
  {
    hide AdvanceEvent, AdvanceRollback, Reaches;
    t := Do(s, Go(id, GO));
  }

  lemma Approved(s: Sys, others: map<nat, PC>, r: Record) returns (t: Sys)
    requires On(s, others, 1, C.AWAITING_APPROVAL, r, ResumeAdvance(r, C.AWAITING_APPROVAL))
    ensures On(t, others, 1, C.EXECUTING, r, ResumeAdvance(r, C.EXECUTING))
  {
    hide On, Act;
    t := Granted(s, others, r, C.AWAITING_APPROVAL, C.APPROVED);
    t := Granted(t, others, r, C.APPROVED, C.EXECUTING);
  }

  lemma Granted(s: Sys, others: map<nat, PC>, r: Record, seen: C.Status, target: C.Status) returns (t: Sys)
    requires (seen == C.AWAITING_APPROVAL && target == C.APPROVED) || (seen == C.APPROVED && target == C.EXECUTING)
    requires On(s, others, 1, seen, r, ResumeAdvance(r, seen))
    ensures On(t, others, 1, target, r, ResumeAdvance(r, target))
  {
    hide AdvanceEvent, AdvanceRollback, Reaches;
    t := Do(s, Go(1, GO));
  }

  lemma Executing(s: Sys, others: map<nat, PC>, id: nat, status: C.Status, r: Record, ts: TaskStatus)
    returns (t: Sys, u: Record)
    requires One(r, r.status, ts) && !Terminal(r.status) && r.status != EXECUTING
    requires On(s, others, id, status, r, ResumeAdvance(r, C.EXECUTING))
    ensures One(u, EXECUTING, ts) && u.tasks == r.tasks && On(t, others, id, status, u, ResumeSnapshots(u, u.tasks, map[]))
    ensures u == Marked(r, EXECUTING, None) && t.change == s.change
  {
    hide One, ValidRecord, AdvanceEvent, AdvanceRollback, Reaches;
    u := Marked(r, EXECUTING, None);
    MarkedIsOne(r, r.status, ts, EXECUTING, None);
    t := Do(s, Go(id, GO));
  }

  lemma Captured1(s: Sys, others: map<nat, PC>, r: Record, hash: ConfigDigest) returns (t: Sys)
    requires |r.tasks| == 1 && r.tasks[0].snapshotId.None?
    requires On(s, others, 1, C.EXECUTING, r, ResumeSnapshots(r, r.tasks, map[]))
    ensures On(t, others, 1, C.EXECUTING, r, ResumeSnapshots(r, r.tasks, map[0 := (s.nextSnapshot, hash)]))
  {
    hide AdvanceEvent, AdvanceRollback, Reaches;
    t := Do(s, Go(1, Captured(0, hash)));
  }

  lemma Snapshotted(s: Sys, others: map<nat, PC>, r: Record, n: nat, hash: ConfigDigest) returns (t: Sys, u: Record)
    requires One(r, EXECUTING, PENDING) && r.tasks[0].snapshotId.None?
    requires On(s, others, 1, C.EXECUTING, r, ResumeSnapshots(r, r.tasks, map[0 := (n, hash)]))
    ensures One(u, EXECUTING, PENDING) && u.tasks[0].snapshotId.Some? && Grant(u) == Grant(r)
    ensures On(t, others, 1, C.EXECUTING, u, ResumeDag(u, r.tasks))
  {
    hide ValidRecord, ValidateStepGraph, WithSnapshots, AdvanceEvent, AdvanceRollback, Reaches;
    var task := r.tasks[0].(snapshotId := Some(n), snapshotHash := Some(hash));
    u := Retasked(r, task, r.lastErrorCode);
    OneTaskIsValid(r);
    RetaskedIsOne(r, task, r.lastErrorCode);
    SnapshotOfOne(r, map[0 := (n, hash)]);
    assert WithSnapshots(r, map[0 := (n, hash)]).(updatedAt := 0, version := r.version + 1) == u;
    assert Missing(r, 0);
    t := Do(s, Go(1, GO));
  }

  lemma OneTaskIsValid(r: Record)
    requires ValidRecord(r) && |r.tasks| == 1
    ensures ValidTask(r.tasks[0])
  {
  }

  lemma SnapshotOfOne(r: Record, taken: map<nat, (nat, ConfigDigest)>)
    requires |r.tasks| == 1 && r.tasks[0].snapshotId.None? && 0 in taken
    ensures WithSnapshots(r, taken)
            == r.(tasks := [r.tasks[0].(snapshotId := Some(taken[0].0), snapshotHash := Some(taken[0].1))])
  {
    assert WithSnapshots(r, taken).tasks
           == [r.tasks[0].(snapshotId := Some(taken[0].0), snapshotHash := Some(taken[0].1))];
  }

  lemma NothingEarlier(steps: seq<Step>, d: string)
    requires |steps| == 1
    ensures !EarlierDependency(steps, 0, d)
  {
  }

  lemma OneIsReady(r: Record)
    requires One(r, EXECUTING, PENDING)
    ensures AnyStatus(r.tasks, PENDING) && ReadySet(r) == {0}
  {
    assert r.tasks[0] in r.tasks;
    assert r.tasks[0].stepId in TaskIds(r.tasks);
    var steps := r.plan.value.steps;
    ValidatorIsExact(steps);
    assert steps[0].stepId in Ids(steps) && ById(steps, r.tasks[0].stepId) == steps[0];
    forall d ensures d !in steps[0].dependsOn { NothingEarlier(steps, d); }
    assert Ready(r, 0);
  }

  lemma Issued(s: Sys, others: map<nat, PC>, r: Record, loaded: seq<Task>) returns (t: Sys)
    requires One(r, EXECUTING, PENDING) && On(s, others, 1, C.EXECUTING, r, ResumeDag(r, loaded))
    ensures On(t, others, 1, C.EXECUTING, r, ResumeWave(r, loaded, {0}, map[0 := None]))
  {
    hide Loaded, WithSnapshots, Complete, Transition, ValidRecord, ValidateStepGraph, ReadySet, AdvanceEvent, AdvanceRollback, Reaches;
    OneIsReady(r);
    t := Do(s, Go(1, GO));
    assert On(t, others, 1, C.EXECUTING, r, ResumeWave(r, loaded, {0}, map[]));
    t := Do(t, Go(1, Issue(0)));
  }

  function FailedTask(t: Task): Task {
    t.(status := TASK_FAILED, attemptCount := 1, errorCode := Some("TOOL_EXECUTION_FAILED"))
  }

  lemma FailedOfOne(r: Record, loaded: seq<Task>)
    requires One(r, EXECUTING, PENDING)
    ensures var done, u := map[0 := Some(FailedTask(r.tasks[0]))], Retasked(r, FailedTask(r.tasks[0]), Some("TOOL_EXECUTION_FAILED"));
            && WithResults(r, done).(updatedAt := 0, version := r.version + 1) == u
            && AfterWave(u, loaded, done) == RollbackRead(u, "TOOL_EXECUTION_FAILED")
            && One(u, EXECUTING, TASK_FAILED)
  {
    var task := FailedTask(r.tasks[0]);
    var done, u := map[0 := Some(task)], Retasked(r, task, Some("TOOL_EXECUTION_FAILED"));
    RetaskedIsOne(r, task, Some("TOOL_EXECUTION_FAILED"));
    assert WithResults(r, done).tasks == [task];
    assert FirstError([task], done, 0) == Some("TOOL_EXECUTION_FAILED");
    assert u.tasks[0] == task && AnyStatus(u.tasks, TASK_FAILED);
  }

  lemma ExecutionFails(s: Sys, others: map<nat, PC>, r: Record, loaded: seq<Task>) returns (t: Sys, u: Record)
    requires One(r, EXECUTING, PENDING)
    requires On(s, others, 1, C.EXECUTING, r, ResumeWave(r, loaded, {0}, map[0 := None]))
    ensures On(t, others, 1, C.EXECUTING, u, RollbackRead(u, "TOOL_EXECUTION_FAILED")) && One(u, EXECUTING, TASK_FAILED)
    ensures Grant(u) == Grant(r) && u.tasks[0].snapshotId == r.tasks[0].snapshotId
  {
    hide Loaded, WithSnapshots, Complete, Transition, ValidRecord, ValidateStepGraph, WithResults, AfterWave, AdvanceEvent, AdvanceRollback, Reaches;
    u := Retasked(r, FailedTask(r.tasks[0]), Some("TOOL_EXECUTION_FAILED"));
    FailedOfOne(r, loaded);
    var done := map[0 := Some(FailedTask(r.tasks[0]))];
    t := Do(s, Go(1, Failed(0, 1, "TOOL_EXECUTION_FAILED")));
    assert map[0 := None][0 := Some(FailedTask(r.tasks[0]))] == done;
    assert On(t, others, 1, C.EXECUTING, r, ResumeWave(r, loaded, {0}, done));
    t := Do(t, Go(1, GO));
  }

  // ---------------------------------------------------------------- compensation fails

  lemma RollbackBegins(s: Sys, others: map<nat, PC>, r: Record, code: string) returns (t: Sys)
    requires On(s, others, 1, C.EXECUTING, r, RollbackRead(r, code))
    ensures On(t, others, 1, C.EXECUTING, r, RollbackEnter(r, code))
  {
    hide AdvanceEvent, AdvanceResume, WithRestored, NextToRestore, Transition, Reaches;
    t := Do(s, Go(1, GO));
  }

  lemma RollsBack(s: Sys, others: map<nat, PC>, r: Record, code: string) returns (t: Sys)
    requires On(s, others, 1, C.EXECUTING, r, RollbackEnter(r, code))
    ensures On(t, others, 1, C.ROLLING_BACK, r, RollbackMark(r, code))
  {
    hide AdvanceEvent, AdvanceResume, WithRestored, NextToRestore, Reaches;
    t := Do(s, Go(1, GO));
  }

  lemma RollingBack(s: Sys, others: map<nat, PC>, r: Record, code: string) returns (t: Sys, u: Record)
    requires One(r, EXECUTING, TASK_FAILED) && On(s, others, 1, C.ROLLING_BACK, r, RollbackMark(r, code))
    ensures One(u, ROLLING_BACK, TASK_FAILED) && Grant(u) == Grant(r) && u.tasks == r.tasks
    ensures On(t, others, 1, C.ROLLING_BACK, u, RollbackTasks(u, code, map[]))
  {
    hide One, AdvanceEvent, AdvanceResume, WithRestored, NextToRestore, RestoredTask, ValidRecord, Transition, Reaches;
    u := Marked(r, ROLLING_BACK, Some(code));
    MarkedIsOne(r, EXECUTING, TASK_FAILED, ROLLING_BACK, Some(code));
    t := Do(s, Go(1, GO));
  }

  lemma StuckOfOne(r: Record)
    requires One(r, ROLLING_BACK, TASK_FAILED)
    ensures NextToRestore(r, map[], 0)
    ensures var task := RestoredTask(r.tasks[0], false, "SANDBOX_UNAVAILABLE");
            && WithRestored(r, map[0 := task]).(updatedAt := 0, version := r.version + 1) == Retasked(r, task, r.lastErrorCode)
            && One(Retasked(r, task, r.lastErrorCode), ROLLING_BACK, ROLLBACK_FAILED)
            && task.snapshotId == r.tasks[0].snapshotId && ValidRecord(Retasked(r, task, r.lastErrorCode))
  {
    var task := RestoredTask(r.tasks[0], false, "SANDBOX_UNAVAILABLE");
    OneTaskIsValid(r);
    RetaskedIsOne(r, task, r.lastErrorCode);
    assert WithRestored(r, map[0 := task]).tasks == [task];
  }

  lemma Stuck(s: Sys, others: map<nat, PC>, r: Record, code: string) returns (t: Sys, u: Record)
    requires One(r, ROLLING_BACK, TASK_FAILED) && On(s, others, 1, C.ROLLING_BACK, r, RollbackTasks(r, code, map[]))
    ensures One(u, ROLLING_BACK, ROLLBACK_FAILED) && Grant(u) == Grant(r) && u.tasks[0].snapshotId == r.tasks[0].snapshotId
    ensures On(t, others, 1, C.ROLLING_BACK, u, RollbackClose(u, code))
  {
    hide OrderOf, Transition, ValidRecord, ValidateStepGraph, AdvanceEvent, AdvanceResume, WithRestored, NextToRestore, RestoredTask, Reaches;
    StuckOfOne(r);
    var task := RestoredTask(r.tasks[0], false, "SANDBOX_UNAVAILABLE");
    u := Retasked(r, task, r.lastErrorCode);
    t := Do(s, Go(1, Failed(0, 1, "SANDBOX_UNAVAILABLE")));
    assert On(t, others, 1, C.ROLLING_BACK, r, RollbackTasks(r, code, map[0 := task]));
    t := Do(t, Go(1, GO));
  }

  lemma NeedsAttention(s: Sys, others: map<nat, PC>, r: Record, code: string) returns (t: Sys)
    requires One(r, ROLLING_BACK, ROLLBACK_FAILED) && On(s, others, 1, C.ROLLING_BACK, r, RollbackClose(r, code))
    ensures On(t, others, 1, C.NEEDS_ATTENTION, r, Close(r, NEEDS_ATTENTION, code))
  {
    hide ValidRecord, ValidateStepGraph, AdvanceEvent, AdvanceResume, Reaches;
    assert r.tasks[0] in r.tasks;
    t := Do(s, Go(1, GO));
  }

  // ---------------------------------------------------------------- the duplicate completes

  lemma NothingToDo(s: Sys, others: map<nat, PC>, r: Record) returns (t: Sys)
    requires |r.tasks| == 1 && r.tasks[0].status.ROLLBACK_FAILED? && r.tasks[0].snapshotId.Some?
    requires On(s, others, 2, C.NEEDS_ATTENTION, r, ResumeSnapshots(r, r.tasks, map[]))
    ensures On(t, others, 2, C.NEEDS_ATTENTION, r, ResumeToVerifying(r, r.tasks)) && t.change == s.change
  {
    hide Loaded, WithSnapshots, Transition, AdvanceWave, Complete, ValidRecord, ValidateStepGraph, ReadySet, AdvanceEvent, AdvanceRollback, Reaches;
    t := NothingToCapture(s, others, r);
    hide AdvanceCapture;
    t := Do(t, Go(2, GO));
  }

  lemma NothingToCapture(s: Sys, others: map<nat, PC>, r: Record) returns (t: Sys)
    requires |r.tasks| == 1 && r.tasks[0].snapshotId.Some?
    requires On(s, others, 2, C.NEEDS_ATTENTION, r, ResumeSnapshots(r, r.tasks, map[]))
    ensures On(t, others, 2, C.NEEDS_ATTENTION, r, ResumeDag(r, r.tasks)) && t.change == s.change
  {
    hide Loaded, WithSnapshots, Transition, AdvanceDag, AdvanceWave, Complete, ValidRecord, ValidateStepGraph, ReadySet, AdvanceEvent, AdvanceRollback, Reaches;
    t := Do(s, Go(2, GO));
  }

  lemma Verifying(s: Sys, others: map<nat, PC>, r: Record, loaded: seq<Task>) returns (t: Sys, u: Record)
    requires One(r, EXECUTING, ROLLBACK_FAILED)
    requires On(s, others, 2, C.NEEDS_ATTENTION, r, ResumeToVerifying(r, loaded))
    ensures u.tasks == r.tasks && One(u, VERIFYING, ROLLBACK_FAILED) && On(t, others, 2, C.VERIFYING, u, ResumeVerify(u, loaded, {}))
    ensures t.change.value.version == s.change.value.version + 1
  {
    hide Loaded, WithSnapshots, AdvanceWave, Complete, One, ValidRecord, ValidateStepGraph, ReadySet, AdvanceEvent, AdvanceRollback, Reaches;
    u := Marked(r, VERIFYING, None);
    MarkedIsOne(r, EXECUTING, ROLLBACK_FAILED, VERIFYING, None);
    t := Do(s, Go(2, GO));
    assert On(t, others, 2, C.VERIFYING, r, ResumeMarkVerifying(r, loaded));
    t := Do(t, Go(2, GO));
  }

  lemma Verified(s: Sys, others: map<nat, PC>, r: Record, loaded: seq<Task>) returns (t: Sys)
    requires |r.tasks| == 1 && On(s, others, 2, C.VERIFYING, r, ResumeVerify(r, loaded, {}))
    ensures On(t, others, 2, C.VERIFYING, r, ResumeToCompleted(r, loaded)) && t.change == s.change
  {
    hide AdvanceAdmission, AdvanceGrant, AdvanceCapture, AdvanceDag, AdvanceWave, Complete, Transition, SetStatus;
    hide AdvanceEvent, AdvanceRollback, Reaches;
    t := Do(s, Go(2, Issue(0)));
    assert {} + {0} == {0};
    assert On(t, others, 2, C.VERIFYING, r, ResumeVerify(r, loaded, {0}));
    t := Do(t, Go(2, GO));
  }

  lemma ChangeCompletes(s: Sys, others: map<nat, PC>, r: Record, loaded: seq<Task>) returns (t: Sys)
    requires On(s, others, 2, C.VERIFYING, r, ResumeToCompleted(r, loaded))
    ensures On(t, others, 2, C.COMPLETED, r, ResumeComplete(r, loaded))
    ensures t.change.value.version == s.change.value.version + 1
  {
    hide Loaded, WithSnapshots, ReadySet, AdvanceWave, Complete, AdvanceEvent, AdvanceRollback, Reaches;
    t := Do(s, Go(2, GO));
  }

  lemma Completes(s: Sys, others: map<nat, PC>, r: Record, loaded: seq<Task>) returns (t: Sys)
    requires One(r, VERIFYING, ROLLBACK_FAILED)
    requires On(s, others, 2, C.COMPLETED, r, ResumeComplete(r, loaded))
    ensures Reaches(t) && t.change.Some? && t.change.value.status == C.COMPLETED
    ensures t.wf.Some? && t.wf.value.status == COMPLETED && t.wf.value.tasks == r.tasks
    ensures t.change == s.change && t.runs == others[2 := Stopped]
  {
    hide ValidateStepGraph, ReadySet, AdvanceEvent, AdvanceRollback, Reaches;
    t := Do(s, Go(2, GO));
  }

  // ---------------------------------------------------------------- the whole run

  /** The fleet's answer can be any plan of one supported step. */
  predicate Answerable(p: Plan) {
    && ValidateStepGraph(p.steps).Ok? && |p.steps| == 1 && SystemForTool(p.steps[0].toolName).Some?
    && p.tenantId == EMPTY_RECORD.tenantId && p.changeId == EMPTY_RECORD.changeId
  }

  lemma UntilExecuting(p: Plan) returns (s: Sys, r: Record, others: map<nat, PC>)
    requires Answerable(p)
    ensures One(r, EXECUTING, PENDING) && r.tasks[0].snapshotId.None? && others.Keys == {0}
    ensures On(s, others, 1, C.EXECUTING, r, ResumeSnapshots(r, r.tasks, map[]))
  {
    hide ValidateStepGraph, On, Act;
    s, r := Screened();
    s := Answered(s, r, p);
    s, r := PlanStored(s, r, p);
    s := Requested(s, r);
    others := map[0 := EventAdvance(r, C.AWAITING_APPROVAL)];
    s := Called(s, map[], 0, EventAdvance(r, C.AWAITING_APPROVAL), 1, C.AWAITING_APPROVAL, r);
    assert map[][0 := EventAdvance(r, C.AWAITING_APPROVAL)] == others;
    s := ReadChange(s, others, 1, C.AWAITING_APPROVAL, r);
    s := Loads(s, others, 1, C.AWAITING_APPROVAL, C.AWAITING_APPROVAL, r, PENDING);
    s := Approved(s, others, r);
    s, r := Executing(s, others, 1, C.EXECUTING, r, PENDING);
  }

  /** The duplicate reads the change while it is EXECUTING; then the first run fails and fails to compensate. */
  lemma UntilStuck(s0: Sys, r0: Record, others: map<nat, PC>) returns (s: Sys, r: Record, twin: map<nat, PC>, cb: Callback)
    requires One(r0, EXECUTING, PENDING) && r0.tasks[0].snapshotId.None? && 1 !in others && 2 !in others
    requires On(s0, others, 1, C.EXECUTING, r0, ResumeSnapshots(r0, r0.tasks, map[]))
    ensures One(r, ROLLING_BACK, ROLLBACK_FAILED) && r.tasks[0].snapshotId.Some? && cb == Grant(r)
    ensures twin == others[2 := ResumeLoad(cb, C.EXECUTING)]
    ensures On(s, twin, 1, C.ROLLING_BACK, r, RollbackClose(r, "TOOL_EXECUTION_FAILED"))
  {
    hide ValidRecord, ValidateStepGraph, On, Act;
    s, r, cb := s0, r0, Grant(r0);
    s := Called(s, others, 1, ResumeSnapshots(r, r.tasks, map[]), 2, C.EXECUTING, r);
    s := ReadChange(s, others[1 := ResumeSnapshots(r, r.tasks, map[])], 2, C.EXECUTING, r);
    twin := others[2 := ResumeLoad(cb, C.EXECUTING)];
    Swap(s, others, 1, ResumeSnapshots(r, r.tasks, map[]), 2, ResumeLoad(cb, C.EXECUTING), C.EXECUTING, r);
    var loaded, document := r.tasks, ConfigDigest.Sha256(Configuration("crm", "old", None, ""));
    var n := s.nextSnapshot;
    s := Captured1(s, twin, r, document);
    s, r := Snapshotted(s, twin, r, n, document);
    s := Issued(s, twin, r, loaded);
    s, r := ExecutionFails(s, twin, r, loaded);
    s := RollbackBegins(s, twin, r, "TOOL_EXECUTION_FAILED");
    s := RollsBack(s, twin, r, "TOOL_EXECUTION_FAILED");
    s, r := RollingBack(s, twin, r, "TOOL_EXECUTION_FAILED");
    s, r := Stuck(s, twin, r, "TOOL_EXECUTION_FAILED");
  }

  /** The duplicate loads the compensated record before the first run closes the change. */
  lemma UntilAttention(s0: Sys, r: Record, others: map<nat, PC>, twin: map<nat, PC>, code: string)
    returns (s: Sys, first: map<nat, PC>)
    requires One(r, ROLLING_BACK, ROLLBACK_FAILED)
    requires twin == others[2 := ResumeLoad(Grant(r), C.EXECUTING)] && 1 !in others && 2 !in others
    requires On(s0, twin, 1, C.ROLLING_BACK, r, RollbackClose(r, code))
    ensures first == others[1 := Close(r, NEEDS_ATTENTION, code)]
    ensures On(s, first, 2, C.NEEDS_ATTENTION, r, ResumeAdvance(r, C.EXECUTING))
  {
    hide ValidRecord, ValidateStepGraph, On, Act;
    first := others[1 := RollbackClose(r, code)];
    Swap(s0, others, 2, ResumeLoad(Grant(r), C.EXECUTING), 1, RollbackClose(r, code), C.ROLLING_BACK, r);
    s := Loads(s0, first, 2, C.ROLLING_BACK, C.EXECUTING, r, ROLLBACK_FAILED);
    Swap(s, others, 1, RollbackClose(r, code), 2, ResumeAdvance(r, C.EXECUTING), C.ROLLING_BACK, r);
    s := NeedsAttention(s, others[2 := ResumeAdvance(r, C.EXECUTING)], r, code);
    Swap(s, others, 2, ResumeAdvance(r, C.EXECUTING), 1, Close(r, NEEDS_ATTENTION, code), C.NEEDS_ATTENTION, r);
    first := others[1 := Close(r, NEEDS_ATTENTION, code)];
  }

  /** The duplicate finds nothing to do, and completes two versions of the change later. */
  lemma UntilCompleted(s0: Sys, r0: Record, others: map<nat, PC>) returns (s: Sys)
    requires One(r0, ROLLING_BACK, ROLLBACK_FAILED) && r0.tasks[0].snapshotId.Some? && 2 !in others
    requires On(s0, others, 2, C.NEEDS_ATTENTION, r0, ResumeAdvance(r0, C.EXECUTING))
    ensures Reaches(s) && s.change.Some? && s.change.value.status == C.COMPLETED
    ensures s.change.value.version == s0.change.value.version + 2 && s.runs == others[2 := Stopped]
    ensures s.wf.Some? && s.wf.value.status == COMPLETED && s.wf.value.tasks == r0.tasks
  {
    hide ValidRecord, ValidateStepGraph, Act, Reaches;
    var r := r0;
    s, r := Executing(s0, others, 2, C.NEEDS_ATTENTION, r, ROLLBACK_FAILED);
    s := NothingToDo(s, others, r);
    var loaded := r.tasks;
    s, r := Verifying(s, others, r, loaded);
    s := Verified(s, others, r, loaded);
    s := ChangeCompletes(s, others, r, loaded);
    s := Completes(s, others, r, loaded);
  }

  /** For every such plan some run ends COMPLETED, record and change, with its task never restored. */
  lemma CompletedWithoutSuccess(p: Plan)
    requires Answerable(p)
    ensures exists actions ::
              var s := Run(true, actions);
              && s.change.Some? && s.change.value.status == C.COMPLETED && s.wf.Some? && s.wf.value.status == COMPLETED
              && s.wf.value.tasks != [] && forall t <- s.wf.value.tasks :: t.status == ROLLBACK_FAILED
  {
    hide ValidateStepGraph, ValidRecord, On, Act;
    var s, r, others := UntilExecuting(p);
    var twin, cb;
    s, r, twin, cb := UntilStuck(s, r, others);
    s, others := UntilAttention(s, r, others, twin, "TOOL_EXECUTION_FAILED");
    s := UntilCompleted(s, r, others);
    hide Run;
    var actions :| Run(true, actions) == s;
    assert r.tasks[0] in s.wf.value.tasks;
  }
}
