/**
 One workflow run on its own: `resume_approval` from the captured snapshots to the closed record. The
 sandboxes are values that the run's calls change; the network decides, call by call, whether the effect
 happens and whether the reply arrives. Nothing else writes while the run is going.
 */
module Engine {
  import opened Common
  import opened Plans
  import opened Sandbox
  import opened Workflows
  import opened Dag
  import opened Executor
  import opened Retry
  import opened Effects
  import C = ChangeState

  /** What becomes of one remote call: effect and reply, effect only, or neither. */
  datatype Reply =
    | Delivered(executionId: string, passed: bool)
    | Lost(code: string, transient: bool)
    | Unreached(code: string, transient: bool)

  datatype EngineError =
    | PlanMissing | ApprovalIdMissing | SnapshotTransient(code: string) | SnapshotCaptureFailed
    | DagProgressBlocked | InvalidRecord | Conflict(error: WorkflowError) | InvalidTransition | UnknownSystem

  /** A remote call's failure as the engine sees it. */
  datatype CallError = CallError(code: string, transient: bool)

  /** A run's executions and verifications, in order: the wave that starts a step, how it ended, what was verified. */
  datatype Event = Issued(round: nat, stepId: string) | Finished(stepId: string, ok: bool) | Verified(stepId: string, ok: bool)

  function StepOf(record: Record, id: string): Step
    requires record.plan.Some? && id in Ids(record.plan.value.steps)
  {
    ById(record.plan.value.steps, id)
  }

  /** Tasks and plan steps correspond, and the plan is a non-empty one the validator accepts. */
  ghost predicate Aligned(r: Record) {
    && r.plan.Some? && WellFormed(r.plan.value.steps)
    && |r.tasks| == |r.plan.value.steps| > 0
    && forall i | 0 <= i < |r.tasks| :: r.tasks[i].stepId == r.plan.value.steps[i].stepId
  }

  lemma AlignedFacts(r: Record)
    requires Aligned(r)
    ensures TaskIds(r.tasks) == Ids(r.plan.value.steps)
    ensures forall i, j | 0 <= i < j < |r.tasks| :: r.tasks[i].stepId != r.tasks[j].stepId
  {
    forall i | 0 <= i < |r.tasks| ensures r.tasks[i].stepId in Ids(r.plan.value.steps) {
      assert r.plan.value.steps[i] in r.plan.value.steps;
    }
    forall s | s in r.plan.value.steps ensures s.stepId in TaskIds(r.tasks) {
      var i :| 0 <= i < |r.plan.value.steps| && r.plan.value.steps[i] == s;
      assert r.tasks[i] in r.tasks;
    }
  }

  // ---------------------------------------------------------------- tasks by step

  /** `{task.step_id: task for task in tasks}`: a later task with the same identifier wins. */
  function ByStep(tasks: seq<Task>): (m: map<string, Task>)
    ensures m.Keys == TaskIds(tasks)
    ensures forall id <- m :: m[id].stepId == id && m[id] in tasks
  {
    if tasks == [] then map[]
    else
      assert tasks == tasks[..|tasks| - 1] + [tasks[|tasks| - 1]];
      ByStep(tasks[..|tasks| - 1])[tasks[|tasks| - 1].stepId := tasks[|tasks| - 1]]
  }

  lemma {:induction false} ByStepFinds(tasks: seq<Task>, i: nat)
    requires i < |tasks| && forall i, j | 0 <= i < j < |tasks| :: tasks[i].stepId != tasks[j].stepId
    ensures ByStep(tasks)[tasks[i].stepId] == tasks[i]
  {
    if i < |tasks| - 1 {
      var init := tasks[..|tasks| - 1];
      assert init[i] == tasks[i];
      ByStepFinds(init, i);
    }
  }

  /** `tuple(by_step[task.step_id] for task in tasks)`. */
  function InOrder(tasks: seq<Task>, byStep: map<string, Task>): (r: seq<Task>)
    requires forall t <- tasks :: t.stepId in byStep
    ensures |r| == |tasks| && forall i | 0 <= i < |tasks| :: r[i] == byStep[tasks[i].stepId]
  {
    seq(|tasks|, i requires 0 <= i < |tasks| => byStep[tasks[i].stepId])
  }

  function WithStatus(byStep: map<string, Task>, status: TaskStatus): set<string> {
    set id <- byStep | byStep[id].status == status
  }

  // ---------------------------------------------------------------- sorting for rollback

  function OrderOf(steps: seq<Step>, t: Task): int {
    if t.stepId in Ids(steps) then ById(steps, t.stepId).order else 0
  }

  predicate Descending(steps: seq<Step>, tasks: seq<Task>) {
    forall i, j | 0 <= i < j < |tasks| :: OrderOf(steps, tasks[i]) >= OrderOf(steps, tasks[j])
  }

  function Insert(steps: seq<Step>, sorted: seq<Task>, t: Task): seq<Task> {
    if sorted == [] || OrderOf(steps, sorted[|sorted| - 1]) >= OrderOf(steps, t) then sorted + [t]
    else Insert(steps, sorted[..|sorted| - 1], t) + [sorted[|sorted| - 1]]
  }

  /** `sorted(tasks, key=order, reverse=True)`. */
  function SortedDown(steps: seq<Step>, tasks: seq<Task>): seq<Task> {
    if tasks == [] then [] else Insert(steps, SortedDown(steps, tasks[..|tasks| - 1]), tasks[|tasks| - 1])
  }

  lemma {:induction false} InsertSorts(steps: seq<Step>, sorted: seq<Task>, t: Task)
    requires Descending(steps, sorted)
    ensures Descending(steps, Insert(steps, sorted, t))
    ensures multiset(Insert(steps, sorted, t)) == multiset(sorted) + multiset{t}
  {
    hide OrderOf;
    if sorted != [] && OrderOf(steps, sorted[|sorted| - 1]) < OrderOf(steps, t) {
      var init, last := sorted[..|sorted| - 1], sorted[|sorted| - 1];
      InsertSorts(steps, init, t);
      assert sorted == init + [last];
      var r := Insert(steps, init, t);
      forall u | u in r ensures OrderOf(steps, u) >= OrderOf(steps, last) {
        assert u in multiset(r);
      }
    }
  }

  /** The rollback order is a permutation of the tasks, highest plan order first. */
  lemma {:induction false} SortedDownSorts(steps: seq<Step>, tasks: seq<Task>)
    ensures multiset(SortedDown(steps, tasks)) == multiset(tasks)
    ensures Descending(steps, SortedDown(steps, tasks))
    ensures forall t :: t in SortedDown(steps, tasks) <==> t in tasks
  {
    hide OrderOf, Insert;
    if tasks != [] {
      var init, last := tasks[..|tasks| - 1], tasks[|tasks| - 1];
      SortedDownSorts(steps, init);
      InsertSorts(steps, SortedDown(steps, init), last);
      assert tasks == init + [last];
    }
    forall t ensures t in SortedDown(steps, tasks) <==> t in tasks {
      assert t in multiset(SortedDown(steps, tasks)) <==> t in multiset(tasks);
    }
  }

  // ---------------------------------------------------------------- what the DAG loop keeps

  /** A finished task differs from the pending one only in its result. */
  predicate FinishedFrom(task: Task, done: Task, maximumAttempts: nat) {
    && done.stepId == task.stepId && done.systemId == task.systemId
    && done.snapshotId == task.snapshotId && done.snapshotHash == task.snapshotHash
    && (done.status.SUCCEEDED? || done.status.TASK_FAILED?)
    && (ValidTask(task) ==> ValidTask(done)) && task.attemptCount < done.attemptCount
    && done.attemptCount <= if task.attemptCount < maximumAttempts then maximumAttempts else task.attemptCount + 1
  }

  /** One wave's events: each ready step is started once, and every success was observed. */
  ghost predicate WaveLog(log: seq<Event>, round: nat, ready: set<string>, results: map<string, Task>) {
    && (forall k | 0 <= k < |log| && log[k].Issued? :: log[k].round == round && log[k].stepId in ready)
    && (forall j, k | 0 <= j < k < |log| && log[j].Issued? && log[k].Issued? :: log[j].stepId != log[k].stepId)
    && (forall id <- results :: Issued(round, id) in log && Finished(id, results[id].status.SUCCEEDED?) in log)
  }

  /** The step had succeeded before the run or has done so since. */
  ghost predicate HasSucceeded(start: map<string, Task>, log: seq<Event>, id: string) {
    (id in start && start[id].status.SUCCEEDED?) || Finished(id, true) in log
  }

  /** Every started step was pending, had all its dependencies succeeded by then, and starts only once. */
  ghost predicate Orderly(steps: seq<Step>, start: map<string, Task>, log: seq<Event>) {
    && (forall k | 0 <= k < |log| && log[k].Issued? ::
          && log[k].stepId in Ids(steps) && log[k].stepId in start && start[log[k].stepId].status.PENDING?
          && forall d <- ById(steps, log[k].stepId).dependsOn :: HasSucceeded(start, log[..k], d))
    && (forall j, k | 0 <= j < k < |log| && log[j].Issued? && log[k].Issued? :: log[j].stepId != log[k].stepId)
  }

  ghost predicate DagInv(steps: seq<Step>, start: map<string, Task>, byStep: map<string, Task>, log: seq<Event>) {
    && byStep.Keys == start.Keys
    && (forall id <- start :: !start[id].status.PENDING? ==> byStep[id] == start[id])
    && (forall id <- byStep :: byStep[id].status.SUCCEEDED? ==> HasSucceeded(start, log, id))
    && (forall e <- log :: e.Issued? ==> e.stepId in byStep && !byStep[e.stepId].status.PENDING?)
    && Orderly(steps, start, log)
  }

  lemma WaveIsOrderly(steps: seq<Step>, start: map<string, Task>, byStep: map<string, Task>, log: seq<Event>,
                      wave: seq<Event>, round: nat, results: map<string, Task>)
    requires start.Keys == Ids(steps) && DagInv(steps, start, byStep, log)
    requires results.Keys == Ready(steps, WithStatus(byStep, PENDING), WithStatus(byStep, SUCCEEDED))
    requires WaveLog(wave, round, results.Keys, results)
    ensures Orderly(steps, start, log + wave)
  {
    hide ById;
    var all := log + wave;
    forall k | 0 <= k < |all| && all[k].Issued?
      ensures all[k].stepId in Ids(steps) && all[k].stepId in start && start[all[k].stepId].status.PENDING?
      ensures forall d <- ById(steps, all[k].stepId).dependsOn :: HasSucceeded(start, all[..k], d)
    {
      if k < |log| {
        assert all[..k] == log[..k];
      } else {
        assert all[k] == wave[k - |log|] && all[..k] == log + wave[..k - |log|];
      }
    }
    forall j, k | 0 <= j < k < |all| && all[j].Issued? && all[k].Issued? ensures all[j].stepId != all[k].stepId {
      if k >= |log| {
        assert all[k] == wave[k - |log|];
        if j < |log| { assert log[j] in log; } else { assert all[j] == wave[j - |log|]; }
      }
    }
  }

  lemma WaveKeepsInv(steps: seq<Step>, start: map<string, Task>, byStep: map<string, Task>, log: seq<Event>,
                     wave: seq<Event>, round: nat, results: map<string, Task>, maximumAttempts: nat)
    requires start.Keys == Ids(steps) && DagInv(steps, start, byStep, log)
    requires results.Keys == Ready(steps, WithStatus(byStep, PENDING), WithStatus(byStep, SUCCEEDED))
    requires WaveLog(wave, round, results.Keys, results)
    requires forall id <- results :: FinishedFrom(byStep[id], results[id], maximumAttempts)
    ensures DagInv(steps, start, byStep + results, log + wave)
  {
    WaveIsOrderly(steps, start, byStep, log, wave, round, results);
    hide Orderly, ById, DependenciesIn;
    var after, all := byStep + results, log + wave;
    forall id | id in after && after[id].status.SUCCEEDED? ensures HasSucceeded(start, all, id) {
      if id in results { assert Finished(id, true) in wave; }
    }
    forall e | e in all && e.Issued? ensures e.stepId in after && !after[e.stepId].status.PENDING? {
      if e !in log {
        var k :| 0 <= k < |wave| && wave[k] == e;
      }
    }
  }

  /** Pending or succeeded, with the succeeded steps closed under dependencies. */
  ghost predicate Progressing(steps: seq<Step>, byStep: map<string, Task>) {
    && byStep.Keys == Ids(steps)
    && (forall id <- byStep :: byStep[id].status.PENDING? || byStep[id].status.SUCCEEDED?)
    && DependencyClosed(steps, WithStatus(byStep, SUCCEEDED))
  }

  lemma WaveProgresses(steps: seq<Step>, byStep: map<string, Task>, results: map<string, Task>, maximumAttempts: nat)
    requires WellFormed(steps) && Progressing(steps, byStep)
    requires results.Keys == Ready(steps, WithStatus(byStep, PENDING), WithStatus(byStep, SUCCEEDED))
    requires forall id <- results :: FinishedFrom(byStep[id], results[id], maximumAttempts)
    ensures DependencyClosed(steps, WithStatus(byStep + results, SUCCEEDED))
    ensures WithStatus(byStep + results, TASK_FAILED) == {} ==> Progressing(steps, byStep + results)
  {
    hide ById;
    var before, after := WithStatus(byStep, SUCCEEDED), WithStatus(byStep + results, SUCCEEDED);
    assert before <= after;
    forall id | id in after ensures DependenciesIn(steps, id, after) {
      assert DependenciesIn(steps, id, before);
    }
    forall id | id in byStep && WithStatus(byStep + results, TASK_FAILED) == {}
      ensures (byStep + results)[id].status.PENDING? || (byStep + results)[id].status.SUCCEEDED?
    {
      if id in results { assert id !in WithStatus(byStep + results, TASK_FAILED); }
    }
  }

  /** Without a failure, round `k` runs exactly the steps of depth `k`. */
  ghost predicate OnSchedule(steps: seq<Step>, byStep: map<string, Task>, log: seq<Event>, rounds: nat)
    requires WellFormed(steps)
  {
    && byStep.Keys == Ids(steps)
    && (WithStatus(byStep, TASK_FAILED) == {} ==>
          && WithStatus(byStep, SUCCEEDED) == UpToDepth(steps, rounds)
          && WithStatus(byStep, PENDING) == Ids(steps) - UpToDepth(steps, rounds)
          && (rounds > 0 ==> UpToDepth(steps, rounds - 1) != Ids(steps))
          && forall id <- UpToDepth(steps, rounds) :: Issued(Depth(steps, id), id) in log)
    && (forall e <- log :: e.Issued? ==> e.stepId in Ids(steps) && e.round == Depth(steps, e.stepId))
  }

  lemma WaveIsOnSchedule(steps: seq<Step>, byStep: map<string, Task>, log: seq<Event>, wave: seq<Event>, rounds: nat,
                         results: map<string, Task>, maximumAttempts: nat)
    requires WellFormed(steps) && OnSchedule(steps, byStep, log, rounds) && WithStatus(byStep, TASK_FAILED) == {}
    requires results.Keys == Ready(steps, WithStatus(byStep, PENDING), WithStatus(byStep, SUCCEEDED)) != {}
    requires WaveLog(wave, rounds + 1, results.Keys, results)
    requires forall id <- results :: FinishedFrom(byStep[id], results[id], maximumAttempts)
    ensures OnSchedule(steps, byStep + results, log + wave, rounds + 1)
  {
    hide Depth, WellFormed, FinishedFrom, Ready;
    WaveIsDepth(steps, rounds);
    var after := byStep + results;
    forall e | e in log + wave && e.Issued? ensures e.stepId in Ids(steps) && e.round == Depth(steps, e.stepId) {
      if e !in log { var k :| 0 <= k < |wave| && wave[k] == e; }
    }
    if WithStatus(after, TASK_FAILED) == {} {
      CleanWave(byStep, results, maximumAttempts);
      assert WithStatus(after, SUCCEEDED) == UpToDepth(steps, rounds + 1);
      assert WithStatus(after, PENDING) == Ids(steps) - UpToDepth(steps, rounds + 1);
    }
  }

  /** A wave without failure moves exactly its tasks from pending to succeeded. */
  lemma CleanWave(byStep: map<string, Task>, results: map<string, Task>, maximumAttempts: nat)
    requires forall id <- results :: id in byStep && FinishedFrom(byStep[id], results[id], maximumAttempts)
    requires WithStatus(byStep + results, TASK_FAILED) == {}
    ensures WithStatus(byStep + results, SUCCEEDED) == WithStatus(byStep, SUCCEEDED) + results.Keys
    ensures WithStatus(byStep + results, PENDING) == WithStatus(byStep, PENDING) - results.Keys
  {
    forall id | id in results ensures results[id].status.SUCCEEDED? {
      assert id !in WithStatus(byStep + results, TASK_FAILED);
    }
  }

  // ---------------------------------------------------------------- the loop's state

  predicate SamePlace(a: Task, b: Task) {
    a.stepId == b.stepId && a.systemId == b.systemId && a.snapshotId == b.snapshotId && a.snapshotHash == b.snapshotHash
  }

  ghost predicate SamePlaces(a: map<string, Task>, b: map<string, Task>) {
    a.Keys == b.Keys && forall id <- a :: SamePlace(a[id], b[id])
  }

  /** The plan of a stored record passed the step-graph validator when it was built. */
  ghost predicate HasGraph(r: Record) {
    ValidRecord(r) && r.plan.Some? && WellFormed(r.plan.value.steps)
  }

  ghost predicate AllPending(tasks: map<string, Task>) {
    forall id <- tasks :: tasks[id].status.PENDING?
  }

  /** The run's copy of the record and its dictionary agree. */
  ghost predicate Agree(record: Record, current: Record, byStep: map<string, Task>, rounds: nat) {
    && ValidRecord(current) && current.plan == record.plan && SamePlaces(ByStep(record.tasks), byStep)
    && if rounds == 0 then current == record && byStep == ByStep(record.tasks)
       else current.tasks == InOrder(record.tasks, byStep)
  }

  ghost predicate Closes(steps: seq<Step>, start: map<string, Task>, byStep: map<string, Task>) {
    Progressing(steps, start) ==>
      && DependencyClosed(steps, WithStatus(byStep, SUCCEEDED))
      && (WithStatus(byStep, TASK_FAILED) == {} ==> Progressing(steps, byStep))
  }

  ghost predicate OnTime(steps: seq<Step>, start: map<string, Task>, byStep: map<string, Task>, log: seq<Event>, rounds: nat)
    requires WellFormed(steps)
  {
    AllPending(start) ==> OnSchedule(steps, byStep, log, rounds)
  }

  /** What holds whenever `_execute_dag` tests for pending tasks, and when it returns. */
  ghost predicate DagState(record: Record, current: Record, byStep: map<string, Task>, log: seq<Event>, rounds: nat)
    requires HasGraph(record)
  {
    var steps, start := record.plan.value.steps, ByStep(record.tasks);
    && Agree(record, current, byStep, rounds) && DagInv(steps, start, byStep, log)
    && Closes(steps, start, byStep) && OnTime(steps, start, byStep, log, rounds)
  }

  lemma DagStarts(record: Record)
    requires HasGraph(record)
    ensures DagState(record, record, ByStep(record.tasks), [], 0)
  {
    var steps, start := record.plan.value.steps, ByStep(record.tasks);
    if AllPending(start) { WaveIsDepth(steps, 0); }
    if Progressing(steps, start) { assert WithStatus(start, TASK_FAILED) == {}; }
  }

  /** The failures are those the run started with: the loop goes on only then. */
  ghost predicate NoNewFailure(start: map<string, Task>, byStep: map<string, Task>) {
    forall id <- byStep :: byStep[id].status.TASK_FAILED? ==> id in start && start[id].status.TASK_FAILED?
  }

  lemma DagAdvances(record: Record, current: Record, byStep: map<string, Task>, log: seq<Event>, rounds: nat,
                    wave: seq<Event>, results: map<string, Task>, maximumAttempts: nat, updated: Record)
    requires HasGraph(record) && DagState(record, current, byStep, log, rounds)
    requires NoNewFailure(ByStep(record.tasks), byStep)
    requires WithStatus(byStep, PENDING) <= Ids(record.plan.value.steps)
    requires results.Keys == Ready(record.plan.value.steps, WithStatus(byStep, PENDING), WithStatus(byStep, SUCCEEDED)) != {}
    requires WaveLog(wave, rounds + 1, results.Keys, results)
    requires forall id <- results :: id in byStep && FinishedFrom(byStep[id], results[id], maximumAttempts)
    requires forall t <- current.tasks :: t.stepId in byStep + results
    requires ValidRecord(updated) && updated.plan == record.plan
    requires updated.tasks == InOrder(current.tasks, byStep + results)
    ensures DagState(record, updated, byStep + results, log + wave, rounds + 1)
  {
    hide HasGraph, Agree, WaveLog, DagInv, OnSchedule, AllPending, Progressing, Closes, Ready, FinishedFrom, NoNewFailure, Ids, ByStep, InOrder;
    GraphKeys(record);
    var steps, start := record.plan.value.steps, ByStep(record.tasks);
    WaveKeepsInv(steps, start, byStep, log, wave, rounds + 1, results, maximumAttempts);
    AgreeAdvances(record, current, byStep, rounds, results, maximumAttempts, updated);
    ClosesAdvances(steps, start, byStep, results, maximumAttempts);
    if AllPending(start) {
      NoFailureWhenPending(start, byStep);
      WaveIsOnSchedule(steps, byStep, log, wave, rounds, results, maximumAttempts);
    }
  }

  lemma GraphKeys(record: Record)
    requires HasGraph(record)
    ensures record.plan.Some? && WellFormed(record.plan.value.steps)
    ensures ByStep(record.tasks).Keys == Ids(record.plan.value.steps)
  {
  }

  lemma NoFailureWhenPending(start: map<string, Task>, byStep: map<string, Task>)
    requires AllPending(start) && NoNewFailure(start, byStep)
    ensures WithStatus(byStep, TASK_FAILED) == {}
  {
  }

  lemma ClosesAdvances(steps: seq<Step>, start: map<string, Task>, byStep: map<string, Task>,
                       results: map<string, Task>, maximumAttempts: nat)
    requires WellFormed(steps) && Closes(steps, start, byStep) && NoNewFailure(start, byStep)
    requires WithStatus(byStep, PENDING) <= Ids(steps)
    requires results.Keys == Ready(steps, WithStatus(byStep, PENDING), WithStatus(byStep, SUCCEEDED))
    requires forall id <- results :: FinishedFrom(byStep[id], results[id], maximumAttempts)
    ensures Closes(steps, start, byStep + results)
  {
    hide WellFormed, DependencyClosed, Ready, FinishedFrom;
    if Progressing(steps, start) {
      assert WithStatus(byStep, TASK_FAILED) == {};
      WaveProgresses(steps, byStep, results, maximumAttempts);
    }
  }

  lemma AgreeAdvances(record: Record, current: Record, byStep: map<string, Task>, rounds: nat,
                      results: map<string, Task>, maximumAttempts: nat, updated: Record)
    requires Agree(record, current, byStep, rounds)
    requires forall id <- results :: id in byStep && FinishedFrom(byStep[id], results[id], maximumAttempts)
    requires forall t <- current.tasks :: t.stepId in byStep + results
    requires ValidRecord(updated) && updated.plan == record.plan
    requires updated.tasks == InOrder(current.tasks, byStep + results)
    ensures Agree(record, updated, byStep + results, rounds + 1)
  {
    hide ValidRecord, ByStep;
    assert (byStep + results).Keys == byStep.Keys;
    SameTaskOrder(record, current, byStep, byStep + results, rounds);
  }

  lemma DagFacts(record: Record, current: Record, byStep: map<string, Task>, log: seq<Event>, rounds: nat)
    requires HasGraph(record) && DagState(record, current, byStep, log, rounds)
    ensures current.plan == record.plan && current.plan.Some? && byStep.Keys == Ids(record.plan.value.steps)
    ensures WithStatus(byStep, PENDING) <= Ids(record.plan.value.steps)
    ensures forall id <- byStep :: byStep[id].stepId == id && StepOf(record, id).stepId == id
    ensures forall t <- current.tasks :: t.stepId in byStep
    ensures Orderly(record.plan.value.steps, ByStep(record.tasks), log)
  {
    hide Orderly, OnTime, Closes, WellFormed, ById, StepOf;
    GraphKeys(record);
    forall id | id in byStep ensures byStep[id].stepId == id && StepOf(record, id).stepId == id {
      StepHasId(record, id);
    }
    TasksHaveSteps(record, current, byStep, rounds);
  }

  lemma StepHasId(record: Record, id: string)
    requires HasGraph(record) && id in Ids(record.plan.value.steps)
    ensures StepOf(record, id).stepId == id
  {
    DependencyFacts(record.plan.value.steps, id);
  }

  lemma TasksHaveSteps(record: Record, current: Record, byStep: map<string, Task>, rounds: nat)
    requires Agree(record, current, byStep, rounds)
    ensures forall t <- current.tasks :: t.stepId in byStep
  {
    hide ValidRecord;
    if rounds > 0 {
      forall t | t in current.tasks ensures t.stepId in byStep {
        var i :| 0 <= i < |current.tasks| && current.tasks[i] == t;
        assert record.tasks[i] in record.tasks;
      }
    }
  }

  /** A run that may go on and has something pending has something ready. */
  lemma NeverBlocked(record: Record, current: Record, byStep: map<string, Task>, log: seq<Event>, rounds: nat)
    requires HasGraph(record) && DagState(record, current, byStep, log, rounds)
    requires NoNewFailure(ByStep(record.tasks), byStep) && WithStatus(byStep, PENDING) != {}
    requires WithStatus(byStep, PENDING) <= Ids(record.plan.value.steps)
    ensures Progressing(record.plan.value.steps, ByStep(record.tasks)) ==>
              Ready(record.plan.value.steps, WithStatus(byStep, PENDING), WithStatus(byStep, SUCCEEDED)) != {}
  {
    hide OnTime, ValidRecord, WellFormed, Ready;
    var steps, start := record.plan.value.steps, ByStep(record.tasks);
    if Progressing(steps, start) {
      NoFailureYet(steps, start, byStep);
      var id :| id in WithStatus(byStep, PENDING);
      assert WithStatus(byStep, PENDING) + WithStatus(byStep, SUCCEEDED) == Ids(steps);
      SomethingIsReady(steps, WithStatus(byStep, PENDING), WithStatus(byStep, SUCCEEDED), id);
    }
  }

  lemma NoFailureYet(steps: seq<Step>, start: map<string, Task>, byStep: map<string, Task>)
    requires Progressing(steps, start) && NoNewFailure(start, byStep)
    ensures WithStatus(byStep, TASK_FAILED) == {}
  {
  }

  lemma ReadyIsPending(steps: seq<Step>, byStep: map<string, Task>)
    requires WithStatus(byStep, PENDING) <= Ids(steps)
    ensures Ready(steps, WithStatus(byStep, PENDING), WithStatus(byStep, SUCCEEDED)) <= WithStatus(byStep, PENDING) <= byStep.Keys
  {
  }

  /** One wave leaves fewer pending tasks, and its failures are the only new ones. */
  lemma WaveCounts(start: map<string, Task>, byStep: map<string, Task>, results: map<string, Task>, maximumAttempts: nat)
    requires results != map[] && results.Keys <= WithStatus(byStep, PENDING)
    requires forall id <- results :: id in byStep && FinishedFrom(byStep[id], results[id], maximumAttempts)
    ensures WithStatus(byStep + results, PENDING) < WithStatus(byStep, PENDING)
    ensures if exists id <- results :: results[id].status.TASK_FAILED? then WithStatus(byStep + results, TASK_FAILED) != {}
            else NoNewFailure(start, byStep) ==> NoNewFailure(start, byStep + results)
  {
    var after := byStep + results;
    var some :| some in results;
    assert some in WithStatus(byStep, PENDING) && some !in WithStatus(after, PENDING);
    if exists id <- results :: results[id].status.TASK_FAILED? {
      var id :| id in results && results[id].status.TASK_FAILED?;
      assert id in WithStatus(after, TASK_FAILED);
    }
  }

  lemma SameTaskOrder(record: Record, current: Record, byStep: map<string, Task>, after: map<string, Task>, rounds: nat)
    requires SamePlaces(ByStep(record.tasks), byStep) && after.Keys == byStep.Keys
    requires if rounds == 0 then current == record else current.tasks == InOrder(record.tasks, byStep)
    requires forall t <- current.tasks :: t.stepId in after
    ensures forall t <- record.tasks :: t.stepId in after
    ensures InOrder(current.tasks, after) == InOrder(record.tasks, after)
  {
    hide ByStep, InOrder, WithStatus;
    if rounds > 0 {
      forall t | t in record.tasks ensures t.stepId in after {
        var i :| 0 <= i < |record.tasks| && record.tasks[i] == t;
        assert current.tasks[i].stepId == t.stepId && current.tasks[i] in current.tasks;
      }
    }
  }

  // ---------------------------------------------------------------- snapshots and compensation

  ghost predicate SameSnapshots(a: map<string, Box>, b: map<string, Box>) {
    a.Keys == b.Keys && forall system <- a :: b[system].snapshots == a[system].snapshots
  }

  /** What executions do: snapshots stay, and each system's table and configuration gain patches for steps carried out on it. */
  ghost predicate Worked(a: map<string, Box>, b: map<string, Box>, tenant: string, steps: seq<Step>) {
    SameSnapshots(a, b) && forall system <- a :: Grew(a[system], b[system], tenant, KeysOn(steps, system))
  }

  lemma WorkedOn(a: map<string, Box>, b: map<string, Box>, c: map<string, Box>, tenant: string, steps: seq<Step>)
    ensures Worked(a, a, tenant, steps)
    ensures Worked(a, b, tenant, steps) && Worked(b, c, tenant, steps) ==> Worked(a, c, tenant, steps)
  {
    hide Grew, KeysOn;
    forall system | system in a ensures Grew(a[system], a[system], tenant, KeysOn(steps, system)) {
      NothingEffected(a[system], a[system], tenant, KeysOn(steps, system));
    }
    if Worked(a, b, tenant, steps) && Worked(b, c, tenant, steps) {
      forall system | system in a ensures Grew(a[system], c[system], tenant, KeysOn(steps, system)) {
        GrewOn(a[system], b[system], c[system], tenant, KeysOn(steps, system));
      }
    }
  }

  lemma WorkedWider(a: map<string, Box>, b: map<string, Box>, tenant: string, step: Step, steps: seq<Step>)
    requires Worked(a, b, tenant, [step]) && step in steps
    ensures Worked(a, b, tenant, steps)
  {
    hide Effected;
    forall system | system in a ensures Grew(a[system], b[system], tenant, KeysOn(steps, system)) {
      var results :| Effected(a[system], b[system], tenant, results) && KeysOf(results) <= KeysOn([step], system);
      assert KeysOn([step], system) <= KeysOn(steps, system);
    }
  }

  lemma WorkedKeys(a: map<string, Box>, b: map<string, Box>, tenant: string, steps: seq<Step>)
    requires Worked(a, b, tenant, steps)
    ensures a.Keys == b.Keys && SameSnapshots(a, b)
  {
  }

  lemma WorkedKeepsTook(a: map<string, Box>, b: map<string, Box>, tenant: string, steps: seq<Step>, step: Step, t: Task)
    requires Worked(a, b, tenant, steps) && Took(a, tenant, step, t)
    ensures Took(b, tenant, step, t)
  {
    hide Took;
    TookStays(a, b, tenant, step, t);
  }

  /** Every succeeded task's patch is recorded in its system. */
  ghost predicate AllTook(boxes: map<string, Box>, tenant: string, steps: seq<Step>, tasks: map<string, Task>) {
    forall id <- tasks | tasks[id].status.SUCCEEDED? :: id in Ids(steps) && Took(boxes, tenant, ById(steps, id), tasks[id])
  }

  lemma AllTookStays(a: map<string, Box>, b: map<string, Box>, tenant: string, steps: seq<Step>,
                     tasks: map<string, Task>)
    requires Worked(a, b, tenant, steps) && AllTook(a, tenant, steps, tasks)
    ensures AllTook(b, tenant, steps, tasks)
  {
    hide Worked, Took;
    forall id | id in tasks && tasks[id].status.SUCCEEDED? ensures id in Ids(steps) && Took(b, tenant, ById(steps, id), tasks[id]) {
      WorkedKeepsTook(a, b, tenant, steps, ById(steps, id), tasks[id]);
    }
  }

  lemma AllTookMore(boxes: map<string, Box>, tenant: string, steps: seq<Step>, tasks: map<string, Task>, results: map<string, Task>)
    requires AllTook(boxes, tenant, steps, tasks) && AllTook(boxes, tenant, steps, results)
    ensures AllTook(boxes, tenant, steps, tasks + results)
  {
    hide Took;
  }

  lemma OneMoreTook(boxes: map<string, Box>, tenant: string, steps: seq<Step>, tasks: map<string, Task>, id: string, t: Task)
    requires AllTook(boxes, tenant, steps, tasks) && id in Ids(steps)
    requires t.status.SUCCEEDED? ==> Took(boxes, tenant, ById(steps, id), t)
    ensures AllTook(boxes, tenant, steps, tasks[id := t])
  {
    hide Took;
  }

  lemma WaveTook(a: map<string, Box>, b: map<string, Box>, tenant: string, steps: seq<Step>, tasks: map<string, Task>,
                 results: map<string, Task>)
    requires Worked(a, b, tenant, steps) && AllTook(b, tenant, steps, results)
    ensures AllTook(a, tenant, steps, tasks) ==> AllTook(b, tenant, steps, tasks + results)
  {
    hide Worked, AllTook;
    if AllTook(a, tenant, steps, tasks) {
      AllTookStays(a, b, tenant, steps, tasks);
      AllTookMore(b, tenant, steps, tasks, results);
    }
  }

  lemma StepIn(steps: seq<Step>, id: string)
    requires id in Ids(steps)
    ensures ById(steps, id) in steps
  {
    if steps[|steps| - 1].stepId != id { StepIn(steps[..|steps| - 1], id); }
  }

  /** The task's snapshot is stored at its system, with the configuration the task's hash is the digest of. */
  ghost predicate OnFile(boxes: map<string, Box>, tenant: string, t: Task) {
    && t.systemId in boxes && t.snapshotId.Some? && (tenant, t.snapshotId.value) in boxes[t.systemId].snapshots
    && t.snapshotHash == Some(ConfigDigest.Sha256(boxes[t.systemId].snapshots[(tenant, t.snapshotId.value)].configuration))
  }

  /** No stored snapshot has an identifier from `n` on. */
  ghost predicate Fresh(boxes: map<string, Box>, n: nat) {
    forall system <- boxes, key <- boxes[system].snapshots :: key.1 < n
  }

  /** Nothing but new snapshots: configurations and stored snapshots are as before. */
  ghost predicate Extends(a: map<string, Box>, b: map<string, Box>, tenant: string) {
    && a.Keys == b.Keys
    && forall system <- a ::
         && Current(b[system], tenant) == Current(a[system], tenant) && b[system].executions == a[system].executions
         && forall key <- a[system].snapshots :: key in b[system].snapshots && b[system].snapshots[key] == a[system].snapshots[key]
  }

  lemma SnapshotExtends(a: map<string, Box>, tenant: string, n: nat, task: Task)
    requires Fresh(a, n) && task.systemId in a
    ensures var box, hash := a[task.systemId], ConfigDigest.Sha256(Current(a[task.systemId], tenant));
            var b := a[task.systemId := Snapshotted(box, tenant, n)];
            && Fresh(b, n + 1) && Extends(a, b, tenant) && Captured(box, tenant, n).hash == hash
            && OnFile(b, tenant, task.(snapshotId := Some(n), snapshotHash := Some(hash)))
  {
    var b := a[task.systemId := Snapshotted(a[task.systemId], tenant, n)];
    forall system, key | system in b && key in b[system].snapshots ensures key.1 < n + 1 {
      if key in a[system].snapshots { assert key.1 < n; }
    }
  }

  lemma ExtendsItself(a: map<string, Box>, tenant: string)
    ensures Extends(a, a, tenant)
  {
  }

  lemma ExtendsOn(a: map<string, Box>, b: map<string, Box>, c: map<string, Box>, tenant: string)
    requires Extends(a, b, tenant) && Extends(b, c, tenant)
    ensures Extends(a, c, tenant)
  {
  }

  /** A task before and after capture: a missing snapshot is taken of the configuration in place, others are kept. */
  ghost predicate CapturedFrom(t: Task, captured: Task, boxes: map<string, Box>, tenant: string) {
    && captured == t.(snapshotId := captured.snapshotId, snapshotHash := captured.snapshotHash)
    && if t.snapshotId.Some? then captured == t
       else && OnFile(boxes, tenant, captured)
            && captured.snapshotHash == Some(ConfigDigest.Sha256(Current(boxes[t.systemId], tenant)))
  }

  lemma CapturedNow(t: Task, taken: (nat, ConfigDigest), a: map<string, Box>, b: map<string, Box>, tenant: string)
    requires t.systemId in a && t.snapshotId.None? && Extends(a, b, tenant)
    requires OnFile(b, tenant, t.(snapshotId := Some(taken.0), snapshotHash := Some(taken.1)))
    requires taken.1 == ConfigDigest.Sha256(Current(a[t.systemId], tenant))
    ensures CapturedFrom(t, t.(snapshotId := Some(taken.0), snapshotHash := Some(taken.1)), b, tenant)
  {
  }

  lemma CapturedStays(t: Task, captured: Task, a: map<string, Box>, b: map<string, Box>, tenant: string)
    requires CapturedFrom(t, captured, a, tenant) && Extends(a, b, tenant)
    ensures CapturedFrom(t, captured, b, tenant)
  {
  }

  ghost predicate CaptureState(tasks: seq<Task>, byStep: map<string, Task>, i: nat, boxes: map<string, Box>, tenant: string) {
    && (forall t <- tasks :: t.stepId in byStep)
    && forall j | 0 <= j < |tasks| ::
         if j < i then CapturedFrom(tasks[j], byStep[tasks[j].stepId], boxes, tenant) && byStep[tasks[j].stepId].snapshotId.Some?
         else byStep[tasks[j].stepId] == tasks[j]
  }

  /** `after` is `before` with a snapshot for every task. */
  ghost predicate AllCaptured(before: Record, after: Record, boxes: map<string, Box>, tenant: string) {
    && Aligned(after) && after.plan == before.plan && |after.tasks| == |before.tasks|
    && forall i | 0 <= i < |before.tasks| ::
         CapturedFrom(before.tasks[i], after.tasks[i], boxes, tenant) && after.tasks[i].snapshotId.Some?
  }

  lemma NothingMissing(record: Record, boxes: map<string, Box>, tenant: string)
    requires Aligned(record) && forall t <- record.tasks :: t.snapshotId.Some?
    ensures AllCaptured(record, record, boxes, tenant)
  {
  }

  lemma CaptureStarts(record: Record, boxes: map<string, Box>, tenant: string)
    requires Aligned(record)
    ensures CaptureState(record.tasks, ByStep(record.tasks), 0, boxes, tenant)
  {
    hide WellFormed;
    AlignedFacts(record);
    forall j | 0 <= j < |record.tasks| ensures ByStep(record.tasks)[record.tasks[j].stepId] == record.tasks[j] {
      ByStepFinds(record.tasks, j);
    }
  }

  lemma CaptureAdvances(record: Record, byStep: map<string, Task>, i: nat, a: map<string, Box>, b: map<string, Box>,
                        tenant: string, captured: Task)
    requires Aligned(record) && i < |record.tasks| && CaptureState(record.tasks, byStep, i, a, tenant)
    requires Extends(a, b, tenant) && CapturedFrom(record.tasks[i], captured, b, tenant) && captured.snapshotId.Some?
    ensures CaptureState(record.tasks, byStep[record.tasks[i].stepId := captured], i + 1, b, tenant)
  {
    hide Aligned, CapturedFrom, Extends;
    AlignedFacts(record);
    forall j | 0 <= j < i ensures CapturedFrom(record.tasks[j], byStep[record.tasks[j].stepId], b, tenant) {
      CapturedStays(record.tasks[j], byStep[record.tasks[j].stepId], a, b, tenant);
    }
  }

  lemma AlreadyCaptured(record: Record, byStep: map<string, Task>, i: nat, boxes: map<string, Box>, tenant: string)
    requires i < |record.tasks| && CaptureState(record.tasks, byStep, i, boxes, tenant)
    requires record.tasks[i].snapshotId.Some?
    ensures CaptureState(record.tasks, byStep, i + 1, boxes, tenant)
  {
  }

  lemma CaptureEnds(record: Record, byStep: map<string, Task>, boxes: map<string, Box>, tenant: string)
    requires Aligned(record) && CaptureState(record.tasks, byStep, |record.tasks|, boxes, tenant)
    ensures forall t <- record.tasks :: t.stepId in byStep
    ensures forall after: Record | after.plan == record.plan && after.tasks == InOrder(record.tasks, byStep) ::
              AllCaptured(record, after, boxes, tenant)
  {
    hide WellFormed, OnFile, InOrder;
  }

  /** `base` is each system's configuration at capture time: recorded in a task's hash, or still in place. */
  ghost predicate Baseline(tasks: seq<Task>, boxes: map<string, Box>, tenant: string, base: map<string, Configuration>) {
    && base.Keys == boxes.Keys == SYSTEMS
    && forall t <- tasks | t.systemId in SYSTEMS ::
         if t.snapshotId.Some? then t.snapshotHash == Some(ConfigDigest.Sha256(base[t.systemId]))
         else Current(boxes[t.systemId], tenant) == base[t.systemId]
  }

  /** Every system named by a task has the configuration `base` gives it. */
  ghost predicate PutBack(tasks: seq<Task>, boxes: map<string, Box>, tenant: string, base: map<string, Configuration>) {
    forall t <- tasks :: t.systemId in boxes && t.systemId in base && Current(boxes[t.systemId], tenant) == base[t.systemId]
  }

  ghost predicate HashesOf(tasks: seq<Task>, base: map<string, Configuration>) {
    forall t <- tasks | t.systemId in base :: t.snapshotHash == Some(ConfigDigest.Sha256(base[t.systemId]))
  }

  lemma CaptureRecordsBaseline(before: Record, after: Record, a: map<string, Box>, b: map<string, Box>, tenant: string,
                               base: map<string, Configuration>)
    requires Baseline(before.tasks, a, tenant, base) && Extends(a, b, tenant) && AllCaptured(before, after, b, tenant)
    ensures HashesOf(after.tasks, base)
  {
    hide Aligned, OnFile;
    forall i | 0 <= i < |after.tasks| && after.tasks[i].systemId in base
      ensures after.tasks[i].snapshotHash == Some(ConfigDigest.Sha256(base[after.tasks[i].systemId]))
    {
      assert before.tasks[i] in before.tasks;
    }
  }

  lemma DagKeepsPlaces(record: Record, current: Record, byStep: map<string, Task>, log: seq<Event>, rounds: nat)
    requires HasGraph(record) && Aligned(record) && DagState(record, current, byStep, log, rounds)
    ensures Aligned(current) && HasGraph(current) && |current.tasks| == |record.tasks| && current.plan == record.plan
    ensures forall i | 0 <= i < |record.tasks| :: SamePlace(record.tasks[i], current.tasks[i])
    ensures forall i | 0 <= i < |record.tasks| ::
              record.tasks[i].stepId in byStep && current.tasks[i] == byStep[record.tasks[i].stepId]
  {
    hide DagInv, Closes, OnTime, WellFormed, ValidRecord, ByStep;
    AlignedFacts(record);
    forall i | 0 <= i < |record.tasks|
      ensures SamePlace(record.tasks[i], current.tasks[i])
      ensures record.tasks[i].stepId in byStep && current.tasks[i] == byStep[record.tasks[i].stepId]
    {
      ByStepFinds(record.tasks, i);
      assert record.tasks[i] in record.tasks;
    }
  }

  lemma HashesFollow(a: seq<Task>, b: seq<Task>, base: map<string, Configuration>)
    requires HashesOf(a, base) && |a| == |b| && forall i | 0 <= i < |a| :: SamePlace(a[i], b[i])
    ensures HashesOf(b, base)
  {
    forall i | 0 <= i < |b| && b[i].systemId in base
      ensures b[i].snapshotHash == Some(ConfigDigest.Sha256(base[b[i].systemId]))
    {
      assert a[i] in a;
    }
  }

  /** The task's system has the configuration its snapshot hash is the digest of. */
  ghost predicate RestoredTo(t: Task, boxes: map<string, Box>, tenant: string) {
    t.systemId in boxes && t.snapshotHash == Some(ConfigDigest.Sha256(Current(boxes[t.systemId], tenant)))
  }

  ghost predicate OthersUntouched(a: map<string, Box>, b: map<string, Box>, system: string) {
    a.Keys == b.Keys && forall other <- a | other != system :: b[other] == a[other]
  }

  ghost predicate DistinctIds(tasks: seq<Task>) {
    forall i, j | 0 <= i < j < |tasks| :: tasks[i].stepId != tasks[j].stepId
  }

  /** None of the tasks from the `j`-th to the `k`-th is on the `j`-th task's system. */
  predicate LatestOnSystem(sorted: seq<Task>, j: nat, k: nat)
    requires j < k <= |sorted|
  {
    forall m | j < m < k :: sorted[m].systemId != sorted[j].systemId
  }

  /** The first `k` tasks of the rollback order have been dealt with. */
  predicate Dealt(sorted: seq<Task>, byStep: map<string, Task>, k: nat)
    requires k <= |sorted|
  {
    && (forall t <- sorted :: t.stepId in byStep && byStep[t.stepId].stepId == t.stepId)
    && forall j | 0 <= j < k :: byStep[sorted[j].stepId].status.ROLLED_BACK? || byStep[sorted[j].stepId].status.ROLLBACK_FAILED?
  }

  ghost predicate SomeStuck(sorted: seq<Task>, byStep: map<string, Task>, k: nat)
    requires k <= |sorted| && Dealt(sorted, byStep, k)
  {
    exists j :: 0 <= j < k && byStep[sorted[j].stepId].status.ROLLBACK_FAILED?
  }

  ghost predicate AllRestored(sorted: seq<Task>, byStep: map<string, Task>, k: nat, boxes: map<string, Box>, tenant: string)
    requires k <= |sorted| && Dealt(sorted, byStep, k)
  {
    forall j | 0 <= j < k ::
      byStep[sorted[j].stepId].status.ROLLED_BACK? && (LatestOnSystem(sorted, j, k) ==> RestoredTo(sorted[j], boxes, tenant))
  }

  ghost predicate RollState(sorted: seq<Task>, byStep: map<string, Task>, k: nat, failed: bool,
                            boxes: map<string, Box>, tenant: string)
    requires k <= |sorted|
  {
    Dealt(sorted, byStep, k) && if failed then SomeStuck(sorted, byStep, k) else AllRestored(sorted, byStep, k, boxes, tenant)
  }

  lemma RollAdvances(sorted: seq<Task>, byStep: map<string, Task>, k: nat, failed: bool, a: map<string, Box>,
                     b: map<string, Box>, tenant: string, done: Task)
    requires k < |sorted| && DistinctIds(sorted) && RollState(sorted, byStep, k, failed, a, tenant)
    requires OthersUntouched(a, b, sorted[k].systemId)
    requires done.status.ROLLED_BACK? || done.status.ROLLBACK_FAILED?
    requires done.status.ROLLED_BACK? ==> RestoredTo(sorted[k], b, tenant)
    requires done.stepId == sorted[k].stepId
    ensures RollState(sorted, byStep[sorted[k].stepId := done], k + 1, failed || done.status.ROLLBACK_FAILED?, b, tenant)
  {
    hide DistinctIds, OthersUntouched, RestoredTo, Dealt, SomeStuck, AllRestored;
    DealtAdvances(sorted, byStep, k, done);
    var after := byStep[sorted[k].stepId := done];
    if failed || done.status.ROLLBACK_FAILED? {
      StuckAdvances(sorted, byStep, k, done);
    } else {
      RestoredAdvances(sorted, byStep, k, a, b, tenant, done);
    }
  }

  lemma DealtAdvances(sorted: seq<Task>, byStep: map<string, Task>, k: nat, done: Task)
    requires k < |sorted| && DistinctIds(sorted) && Dealt(sorted, byStep, k) && done.stepId == sorted[k].stepId
    requires done.status.ROLLED_BACK? || done.status.ROLLBACK_FAILED?
    ensures Dealt(sorted, byStep[sorted[k].stepId := done], k + 1)
    ensures forall j | 0 <= j < k :: byStep[sorted[k].stepId := done][sorted[j].stepId] == byStep[sorted[j].stepId]
  {
  }

  lemma StuckAdvances(sorted: seq<Task>, byStep: map<string, Task>, k: nat, done: Task)
    requires k < |sorted| && Dealt(sorted, byStep, k) && Dealt(sorted, byStep[sorted[k].stepId := done], k + 1)
    requires forall j | 0 <= j < k :: byStep[sorted[k].stepId := done][sorted[j].stepId] == byStep[sorted[j].stepId]
    requires SomeStuck(sorted, byStep, k) || done.status.ROLLBACK_FAILED?
    ensures SomeStuck(sorted, byStep[sorted[k].stepId := done], k + 1)
  {
    var after := byStep[sorted[k].stepId := done];
    assert after[sorted[k].stepId] == done;
    if SomeStuck(sorted, byStep, k) {
      var j :| 0 <= j < k && byStep[sorted[j].stepId].status.ROLLBACK_FAILED?;
      assert after[sorted[j].stepId].status.ROLLBACK_FAILED?;
    }
  }

  lemma RestoredAdvances(sorted: seq<Task>, byStep: map<string, Task>, k: nat, a: map<string, Box>, b: map<string, Box>,
                         tenant: string, done: Task)
    requires k < |sorted| && Dealt(sorted, byStep, k) && Dealt(sorted, byStep[sorted[k].stepId := done], k + 1)
    requires forall j | 0 <= j < k :: byStep[sorted[k].stepId := done][sorted[j].stepId] == byStep[sorted[j].stepId]
    requires AllRestored(sorted, byStep, k, a, tenant) && OthersUntouched(a, b, sorted[k].systemId)
    requires done.status.ROLLED_BACK? && RestoredTo(sorted[k], b, tenant)
    ensures AllRestored(sorted, byStep[sorted[k].stepId := done], k + 1, b, tenant)
  {
    hide OthersUntouched, RestoredTo, LatestOnSystem;
    forall j | 0 <= j < k + 1 && LatestOnSystem(sorted, j, k + 1) ensures RestoredTo(sorted[j], b, tenant) {
      if j < k {
        LatestBefore(sorted, j, k);
        RestoredStays(sorted[j], a, b, tenant, sorted[k].systemId);
      }
    }
  }

  lemma LatestBefore(sorted: seq<Task>, j: nat, k: nat)
    requires j < k < |sorted| && LatestOnSystem(sorted, j, k + 1)
    ensures LatestOnSystem(sorted, j, k) && sorted[k].systemId != sorted[j].systemId
  {
  }

  lemma RestoredStays(t: Task, a: map<string, Box>, b: map<string, Box>, tenant: string, system: string)
    requires RestoredTo(t, a, tenant) && OthersUntouched(a, b, system) && t.systemId != system
    ensures RestoredTo(t, b, tenant)
  {
  }

  /** No task on the same system comes earlier in the plan. */
  ghost predicate FirstOnSystem(steps: seq<Step>, tasks: seq<Task>, t: Task) {
    forall u <- tasks | u.systemId == t.systemId :: OrderOf(steps, t) <= OrderOf(steps, u)
  }

  /** What compensation leaves: closed as FAILED only with everything put back. */
  ghost predicate Compensated(record: Record, tasks: seq<Task>, failed: bool, boxes: map<string, Box>, tenant: string)
    requires record.plan.Some?
  {
    && |tasks| == |record.tasks|
    && (failed <==> exists t <- tasks :: t.status.ROLLBACK_FAILED?)
    && (!failed ==> forall t <- tasks :: t.status.ROLLED_BACK?)
    && (!failed ==> forall t <- record.tasks | FirstOnSystem(record.plan.value.steps, record.tasks, t) ::
                      RestoredTo(t, boxes, tenant))
  }

  lemma SortedIsDistinct(steps: seq<Step>, tasks: seq<Task>)
    requires DistinctIds(tasks)
    ensures DistinctIds(SortedDown(steps, tasks))
  {
    hide SortedDown;
    SortedDownSorts(steps, tasks);
    var sorted := SortedDown(steps, tasks);
    forall i, j | 0 <= i < j < |sorted| ensures sorted[i].stepId != sorted[j].stepId {
      assert sorted[i] in tasks && sorted[j] in tasks;
      var p :| 0 <= p < |tasks| && tasks[p] == sorted[i];
      var q :| 0 <= q < |tasks| && tasks[q] == sorted[j];
      if p == q {
        TwiceInMultiset(sorted, i, j);
        OnceInMultiset(tasks, p);
      }
    }
  }

  /** Every call from the `from`-th on takes effect and is answered. */
  ghost predicate Reliable(network: nat -> Reply, from: nat) {
    forall n: nat | n >= from :: network(n).Delivered?
  }

  lemma RestoreEffects(boxes: map<string, Box>, tenant: string, task: Task)
    requires task.systemId in boxes && task.snapshotId.Some?
    ensures var (box, result) := Restored(boxes[task.systemId], tenant, task.snapshotId.value);
            && OthersUntouched(boxes, boxes[task.systemId := box], task.systemId)
            && SameSnapshots(boxes, boxes[task.systemId := box])
            && (OnFile(boxes, tenant, task) ==> result.Ok? && RestoredTo(task, boxes[task.systemId := box], tenant))
  {
  }

  lemma TouchEffects(boxes: map<string, Box>, tenant: string, system: string)
    requires system in boxes
    ensures var b := boxes[system := Touched(boxes[system], tenant)];
            && OthersUntouched(boxes, b, system) && SameSnapshots(boxes, b)
            && Current(b[system], tenant) == Current(boxes[system], tenant)
  {
  }

  lemma OnFileStays(a: map<string, Box>, b: map<string, Box>, tenant: string, t: Task)
    requires SameSnapshots(a, b)
    ensures OnFile(a, tenant, t) <==> OnFile(b, tenant, t)
  {
  }

  lemma TwiceInMultiset(s: seq<Task>, i: nat, j: nat)
    requires i < j < |s| && s[i] == s[j]
    ensures multiset(s)[s[i]] >= 2
  {
    assert s == s[..i] + [s[i]] + s[i + 1..j] + [s[j]] + s[j + 1..];
  }

  lemma OnceInMultiset(s: seq<Task>, p: nat)
    requires p < |s| && DistinctIds(s)
    ensures multiset(s)[s[p]] == 1
  {
    assert s == s[..p] + [s[p]] + s[p + 1..];
    assert s[p] !in s[..p] && s[p] !in s[p + 1..];
  }

  lemma LowestComesLast(steps: seq<Step>, tasks: seq<Task>, j: nat, m: nat)
    requires WellFormed(steps) && DistinctIds(tasks) && (forall t <- tasks :: t.stepId in Ids(steps))
    requires j < m < |SortedDown(steps, tasks)|
    requires FirstOnSystem(steps, tasks, SortedDown(steps, tasks)[j])
    ensures SortedDown(steps, tasks)[m].systemId != SortedDown(steps, tasks)[j].systemId
  {
    hide SortedDown, WellFormed, Ids;
    SortedDownSorts(steps, tasks);
    SortedIsDistinct(steps, tasks);
    var a, b := SortedDown(steps, tasks)[j], SortedDown(steps, tasks)[m];
    assert a in tasks && b in tasks;
    OrderIsInjective(steps, a.stepId, b.stepId);
  }

  lemma RollEnds(record: Record, byStep: map<string, Task>, failed: bool, boxes: map<string, Box>, tenant: string)
    requires Aligned(record)
    requires RollState(SortedDown(record.plan.value.steps, record.tasks), byStep,
                       |SortedDown(record.plan.value.steps, record.tasks)|, failed, boxes, tenant)
    ensures forall t <- record.tasks :: t.stepId in byStep && byStep[t.stepId].stepId == t.stepId
    ensures Compensated(record, InOrder(record.tasks, byStep), failed, boxes, tenant)
  {
    hide SortedDown, WellFormed, Ids, RestoredTo, FirstOnSystem;
    AlignedFacts(record);
    var steps, sorted := record.plan.value.steps, SortedDown(record.plan.value.steps, record.tasks);
    SortedDownSorts(steps, record.tasks);
    var after := InOrder(record.tasks, byStep);
    forall i | 0 <= i < |after|
      ensures after[i].status.ROLLED_BACK? || after[i].status.ROLLBACK_FAILED?
      ensures !failed ==> after[i].status.ROLLED_BACK?
    {
      assert record.tasks[i] in sorted;
      var j :| 0 <= j < |sorted| && sorted[j] == record.tasks[i];
    }
    if failed {
      var j :| 0 <= j < |sorted| && byStep[sorted[j].stepId].status.ROLLBACK_FAILED?;
      assert sorted[j] in record.tasks;
      var i :| 0 <= i < |record.tasks| && record.tasks[i] == sorted[j];
      assert after[i] in after;
    } else {
      forall t | t in record.tasks && FirstOnSystem(steps, record.tasks, t) ensures RestoredTo(t, boxes, tenant) {
        var j :| 0 <= j < |sorted| && sorted[j] == t;
        forall m | j < m < |sorted| ensures sorted[m].systemId != sorted[j].systemId {
          LowestComesLast(steps, record.tasks, j, m);
        }
      }
    }
  }

  function FirstFailure(tasks: seq<Task>, results: map<string, Task>): Option<string> {
    if tasks == [] then None
    else if tasks[0].stepId in results && results[tasks[0].stepId].status.TASK_FAILED? then results[tasks[0].stepId].errorCode
    else FirstFailure(tasks[1..], results)
  }

  predicate FailsWith(tasks: map<string, Task>, id: string, code: Option<string>) {
    id in tasks && tasks[id].status.TASK_FAILED? && tasks[id].errorCode == code
  }

  /** The code is that of one of these tasks, and the task has failed. */
  ghost predicate NamesFailure(tasks: map<string, Task>, ids: set<string>, code: Option<string>) {
    exists id <- ids :: FailsWith(tasks, id, code)
  }

  lemma {:induction false} FirstFailureIsFailure(tasks: seq<Task>, results: map<string, Task>)
    ensures if exists t <- tasks :: t.stepId in results && results[t.stepId].status.TASK_FAILED?
            then exists id <- results :: FailsWith(results, id, FirstFailure(tasks, results))
            else FirstFailure(tasks, results) == None
  {
    if tasks != [] && !(tasks[0].stepId in results && results[tasks[0].stepId].status.TASK_FAILED?) {
      FirstFailureIsFailure(tasks[1..], results);
      assert tasks == [tasks[0]] + tasks[1..];
    } else if tasks != [] {
      assert FailsWith(results, tasks[0].stepId, FirstFailure(tasks, results));
    }
  }

  /** The stored error code is that of a task that failed in this wave; without one it is cleared. */
  lemma FailureIsNamed(record: Record, current: Record, byStep: map<string, Task>, log: seq<Event>, rounds: nat, results: map<string, Task>)
    requires HasGraph(record) && DagState(record, current, byStep, log, rounds) && results.Keys <= byStep.Keys
    ensures if exists id <- results :: results[id].status.TASK_FAILED?
            then NamesFailure(byStep + results, results.Keys, FirstFailure(current.tasks, results))
            else FirstFailure(current.tasks, results) == None
  {
    hide ValidRecord, WellFormed, DagInv, Closes, OnTime, Agree;
    FirstFailureIsFailure(current.tasks, results);
    if exists id <- results :: results[id].status.TASK_FAILED? {
      var id :| id in results && results[id].status.TASK_FAILED?;
      HasTask(record, current, byStep, rounds, id);
      var code := FirstFailure(current.tasks, results);
      var x :| x in results && FailsWith(results, x, code);
      assert FailsWith(byStep + results, x, code);
    }
  }

  lemma HasTask(record: Record, current: Record, byStep: map<string, Task>, rounds: nat, id: string)
    requires Agree(record, current, byStep, rounds) && id in byStep
    ensures exists t <- current.tasks :: t.stepId == id
  {
    hide ValidRecord;
    var t :| t in record.tasks && t.stepId == id;
    if rounds > 0 {
      var i :| 0 <= i < |record.tasks| && record.tasks[i] == t;
      assert current.tasks[i] in current.tasks && current.tasks[i].stepId == id;
    }
  }

  // ---------------------------------------------------------------- executions, on values

  /** One `gateway.execute`: what it leaves in the sandboxes and what the engine sees of it. */
  function Executed(boxes: map<string, Box>, tenant: string, step: Step, reply: Reply)
    : (map<string, Box>, Result<(string, OutputDigest), CallError>)
  {
    var patch, tool := PatchOf(step.arguments, step.idempotencyKey), SystemForTool(step.toolName);
    if patch.None? || tool.None? || tool.value !in boxes then (boxes, Err(CallError("VALIDATION", false)))
    else if reply.Unreached? then (boxes, Err(CallError(reply.code, reply.transient)))
    else
      var (box, result) := Applied(boxes[tool.value], tenant, patch.value);
      (boxes[tool.value := box],
       if reply.Lost? then Err(CallError(reply.code, reply.transient))
       else match result
            case Ok(output) =>
              if Answers(patch.value, output) then Ok((reply.executionId, OutputSha256(output))) else Err(CallError("VALIDATION", true))
            case Err(error) => Err(CallError(if error.Transient? then "TRANSIENT" else "PERMANENT", true)))
  }

  /**
   The gateway turns whatever a sandbox refuses into a 5xx answer, and the engine asks again after any 5xx:
   of the answers that arrive only a refusal of the arguments themselves is final.
   */
  lemma RefusalsAreAskedAgain(boxes: map<string, Box>, tenant: string, step: Step, reply: Reply)
    requires reply.Delivered?
    ensures var r := Executed(boxes, tenant, step, reply).1;
            r.Err? ==> (r.error.transient <==> PatchOf(step.arguments, step.idempotencyKey).Some?
                                               && SystemForTool(step.toolName).Some? && SystemForTool(step.toolName).value in boxes)
  {
  }

  /** A conflict is no better the next time, but is asked for until the attempts run out. */
  lemma {:induction false} ConflictsUseUpAttempts(boxes: map<string, Box>, tenant: string, step: Step, network: nat -> Reply, call: nat,
                                                  attempt: nat, maximum: nat, system: string)
    requires SystemForTool(step.toolName) == Some(system) && system in boxes
    requires PatchOf(step.arguments, step.idempotencyKey).Some? && Reliable(network, call)
    requires (tenant, step.idempotencyKey) !in boxes[system].executions && Failures(boxes[system], tenant) == 0
    requires Current(boxes[system], tenant).field != PatchOf(step.arguments, step.idempotencyKey).value.oldField
    ensures var (after, result, last) := Attempted(boxes, tenant, step, network, call, attempt, maximum);
            result == Err(CallError("PERMANENT", true)) && last == (if attempt < maximum then maximum else attempt + 1)
    decreases maximum - attempt
  {
    hide PatchOf;
    PatchHasKey(step);
    var (after, result) := Executed(boxes, tenant, step, network(call));
    if attempt + 1 < maximum {
      ConflictsUseUpAttempts(after, tenant, step, network, call + 1, attempt + 1, maximum, system);
    }
  }

  /** Attempts after the `attempt`-th, answered from call number `call` on; the last result and its attempt's number. */
  function Attempted(boxes: map<string, Box>, tenant: string, step: Step, network: nat -> Reply, call: nat, attempt: nat, maximum: nat)
    : (map<string, Box>, Result<(string, OutputDigest), CallError>, nat)
    decreases maximum - attempt
  {
    var (after, result) := Executed(boxes, tenant, step, network(call));
    if result.Ok? || !ShouldRetry(maximum, result.error.transient, attempt + 1) then (after, result, attempt + 1)
    else Attempted(after, tenant, step, network, call + 1, attempt + 1, maximum)
  }

  function TaskAfter(task: Task, result: Result<(string, OutputDigest), CallError>, attempts: nat): Task {
    match result
    case Ok(r) => task.(status := SUCCEEDED, attemptCount := attempts, executionId := Some(r.0), outputHash := Some(r.1), errorCode := None)
    case Err(e) => task.(status := TASK_FAILED, attemptCount := attempts, errorCode := Some(e.code))
  }

  lemma {:induction false} AttemptedFacts(boxes: map<string, Box>, tenant: string, step: Step, network: nat -> Reply, call: nat,
                                          attempt: nat, maximum: nat)
    ensures var (after, result, last) := Attempted(boxes, tenant, step, network, call, attempt, maximum);
            && Worked(boxes, after, tenant, [step]) && attempt < last
            && last <= if attempt < maximum then maximum else attempt + 1
    decreases maximum - attempt
  {
    hide PatchOf, Applied, Worked;
    var (after, result) := Executed(boxes, tenant, step, network(call));
    ExecutedWorks(boxes, tenant, step, network(call));
    if result.Err? && ShouldRetry(maximum, result.error.transient, attempt + 1) {
      AttemptedFacts(after, tenant, step, network, call + 1, attempt + 1, maximum);
      WorkedOn(boxes, after, Attempted(after, tenant, step, network, call + 1, attempt + 1, maximum).0, tenant, [step]);
    }
  }

  /** The tasks of a wave run in this order: what they leave, how they end, and the next call. */
  function Waved(boxes: map<string, Box>, tenant: string, steps: seq<Step>, byStep: map<string, Task>, order: seq<string>,
                 network: nat -> Reply, call: nat, maximum: nat)
    : (map<string, Box>, map<string, Task>, nat)
    requires forall id <- order :: id in Ids(steps) && id in byStep
    decreases |order|
  {
    if order == [] then (boxes, map[], call)
    else
      var id, (before, results, next) :=
        order[|order| - 1], Waved(boxes, tenant, steps, byStep, order[..|order| - 1], network, call, maximum);
      var (after, result, last) := Attempted(before, tenant, ById(steps, id), network, next, byStep[id].attemptCount, maximum);
      AttemptedFacts(before, tenant, ById(steps, id), network, next, byStep[id].attemptCount, maximum);
      (after, results[id := TaskAfter(byStep[id], result, last)], next + last - byStep[id].attemptCount)
  }

  /** Each identifier of the set once. */
  ghost predicate Enumerates(order: seq<string>, ids: set<string>) {
    && (set id <- order) == ids
    && forall i, j | 0 <= i < j < |order| :: order[i] != order[j]
  }

  lemma WavedOn(boxes: map<string, Box>, tenant: string, steps: seq<Step>, byStep: map<string, Task>, order: seq<string>,
                network: nat -> Reply, call: nat, maximum: nat, id: string, done: set<string>)
    requires (forall x <- order :: x in Ids(steps) && x in byStep) && id in Ids(steps) && id in byStep
    requires Enumerates(order, done) && id !in done
    ensures forall x <- order + [id] :: x in Ids(steps) && x in byStep
    ensures Enumerates(order + [id], done + {id})
    ensures var (before, results, next) := Waved(boxes, tenant, steps, byStep, order, network, call, maximum);
            var (after, result, last) := Attempted(before, tenant, ById(steps, id), network, next, byStep[id].attemptCount, maximum);
            && last > byStep[id].attemptCount
            && Waved(boxes, tenant, steps, byStep, order + [id], network, call, maximum)
               == (after, results[id := TaskAfter(byStep[id], result, last)], next + last - byStep[id].attemptCount)
  {
    hide Attempted, ById, Ids, TaskAfter;
    assert (order + [id])[..|order|] == order;
    var (before, results, next) := Waved(boxes, tenant, steps, byStep, order, network, call, maximum);
    AttemptedFacts(before, tenant, ById(steps, id), network, next, byStep[id].attemptCount, maximum);
  }

  /** For some order of its tasks, each once, this is what the wave left, answered and called. */
  ghost predicate IsWave(boxes0: map<string, Box>, call0: nat, tenant: string, steps: seq<Step>, byStep: map<string, Task>,
                         network: nat -> Reply, maximum: nat, order: seq<string>, boxes: map<string, Box>,
                         results: map<string, Task>, call: nat) {
    && Enumerates(order, results.Keys) && (forall id <- order :: id in Ids(steps) && id in byStep)
    && (boxes, results, call) == Waved(boxes0, tenant, steps, byStep, order, network, call0, maximum)
  }

  lemma WaveStarts(boxes: map<string, Box>, call: nat, tenant: string, steps: seq<Step>, byStep: map<string, Task>,
                   network: nat -> Reply, maximum: nat)
    ensures IsWave(boxes, call, tenant, steps, byStep, network, maximum, [], boxes, map[], call)
    ensures Worked(boxes, boxes, tenant, steps) && AllTook(boxes, tenant, steps, map[])
  {
    hide Worked;
    WorkedOn(boxes, boxes, boxes, tenant, steps);
    var none: map<string, Task> := map[];
    assert none.Keys == {};
  }

  lemma WaveGoesOn(boxes0: map<string, Box>, call0: nat, tenant: string, steps: seq<Step>, byStep: map<string, Task>,
                   network: nat -> Reply, maximum: nat, order: seq<string>, boxes: map<string, Box>,
                   results: map<string, Task>, call: nat, id: string, after: map<string, Box>, t: Task, next: nat)
    requires IsWave(boxes0, call0, tenant, steps, byStep, network, maximum, order, boxes, results, call)
    requires Worked(boxes0, boxes, tenant, steps) && AllTook(boxes, tenant, steps, results)
    requires id in Ids(steps) && id in byStep && id !in results
    requires var (b, result, last) := Attempted(boxes, tenant, ById(steps, id), network, call, byStep[id].attemptCount, maximum);
             after == b && t == TaskAfter(byStep[id], result, last) && next == call + last - byStep[id].attemptCount
    requires Worked(boxes, after, tenant, [ById(steps, id)])
    requires t.status.SUCCEEDED? ==> Took(after, tenant, ById(steps, id), t)
    ensures IsWave(boxes0, call0, tenant, steps, byStep, network, maximum, order + [id], after, results[id := t], next)
    ensures Worked(boxes0, after, tenant, steps) && AllTook(after, tenant, steps, results[id := t])
  {
    hide IsWave, Worked, Took, AllTook, ById, Ids, Attempted, TaskAfter;
    WaveLengthens(boxes0, call0, tenant, steps, byStep, network, maximum, order, boxes, results, call, id, after, t, next);
    StepIn(steps, id);
    WorkedWider(boxes, after, tenant, ById(steps, id), steps);
    WorkedOn(boxes0, boxes, after, tenant, steps);
    AllTookStays(boxes, after, tenant, steps, results);
    OneMoreTook(after, tenant, steps, results, id, t);
  }

  lemma WaveLengthens(boxes0: map<string, Box>, call0: nat, tenant: string, steps: seq<Step>, byStep: map<string, Task>,
                      network: nat -> Reply, maximum: nat, order: seq<string>, boxes: map<string, Box>,
                      results: map<string, Task>, call: nat, id: string, after: map<string, Box>, t: Task, next: nat)
    requires IsWave(boxes0, call0, tenant, steps, byStep, network, maximum, order, boxes, results, call)
    requires id in Ids(steps) && id in byStep && id !in results
    requires var (b, result, last) := Attempted(boxes, tenant, ById(steps, id), network, call, byStep[id].attemptCount, maximum);
             after == b && t == TaskAfter(byStep[id], result, last) && next == call + last - byStep[id].attemptCount
    ensures IsWave(boxes0, call0, tenant, steps, byStep, network, maximum, order + [id], after, results[id := t], next)
  {
    hide ById, Ids, Attempted, TaskAfter, Enumerates;
    WavedOn(boxes0, tenant, steps, byStep, order, network, call0, maximum, id, results.Keys);
    assert results[id := t].Keys == results.Keys + {id};
  }

  lemma ExecutedWorks(boxes: map<string, Box>, tenant: string, step: Step, reply: Reply)
    ensures Worked(boxes, Executed(boxes, tenant, step, reply).0, tenant, [step])
  {
    hide Applied, Worked, PatchOf;
    var patch, tool := PatchOf(step.arguments, step.idempotencyKey), SystemForTool(step.toolName);
    WorkedOn(boxes, boxes, boxes, tenant, [step]);
    if patch.Some? && tool.Some? && tool.value in boxes {
      PatchHasKey(step);
      PatchWorks(boxes, tenant, tool.value, step, patch.value);
    }
  }

  /** When nothing failed, every task succeeded and, if the successes took effect, each took effect. */
  lemma ConcludedTasks(record: Record, boxes: map<string, Box>, tenant: string)
    requires HasGraph(record) && Aligned(record)
    ensures Concluded(record.plan.value.steps, ByStep(record.tasks)) && (forall t <- record.tasks :: !t.status.TASK_FAILED?) ==>
              && (forall t <- record.tasks :: t.status.SUCCEEDED?)
              && (AllTook(boxes, tenant, record.plan.value.steps, ByStep(record.tasks)) ==>
                    forall t <- record.tasks ::
                      t.stepId in Ids(record.plan.value.steps) && Took(boxes, tenant, ById(record.plan.value.steps, t.stepId), t))
  {
    hide ValidRecord, WellFormed, DependencyClosed, Took, ByStep, ById;
    AlignedFacts(record);
    var tasks := ByStep(record.tasks);
    if Concluded(record.plan.value.steps, tasks) && forall t <- record.tasks :: !t.status.TASK_FAILED? {
      assert WithStatus(tasks, TASK_FAILED) == {};
      forall t | t in record.tasks ensures t.status.SUCCEEDED? && t.stepId in tasks && tasks[t.stepId] == t {
        var i :| 0 <= i < |record.tasks| && record.tasks[i] == t;
        ByStepFinds(record.tasks, i);
        assert t.stepId in WithStatus(tasks, SUCCEEDED);
      }
    }
  }

  lemma PatchHasKey(step: Step)
    ensures var q := PatchOf(step.arguments, step.idempotencyKey);
            q.Some? ==> q.value.idempotencyKey == step.idempotencyKey
  {
  }

  lemma PatchWorks(boxes: map<string, Box>, tenant: string, system: string, step: Step, q: FieldPatchRequest)
    requires system in boxes && On(step, system) && q.idempotencyKey == step.idempotencyKey
    ensures Worked(boxes, boxes[system := Applied(boxes[system], tenant, q).0], tenant, [step])
  {
    hide Applied, Grew;
    AppliedKeepsSnapshots(boxes[system], tenant, q);
    AppliedGrows(boxes[system], tenant, q);
    assert KeysOn([step], system) == {q.idempotencyKey} by { assert step in [step]; }
    forall other | other in boxes
      ensures Grew(boxes[other], boxes[system := Applied(boxes[system], tenant, q).0][other], tenant, KeysOn([step], other))
    {
      if other != system { NothingEffected(boxes[other], boxes[other], tenant, KeysOn([step], other)); }
    }
  }

  /** A success means the step's patch is recorded, by this attempt or an earlier one. */
  lemma ExecutedTakes(boxes: map<string, Box>, tenant: string, step: Step, reply: Reply, t: Task)
    requires Executed(boxes, tenant, step, reply).1.Ok?
    requires t.outputHash == Some(Executed(boxes, tenant, step, reply).1.value.1)
    ensures Took(Executed(boxes, tenant, step, reply).0, tenant, step, t)
  {
    hide PatchOf;
    PatchHasKey(step);
  }

  lemma {:induction false} AttemptedTakes(boxes: map<string, Box>, tenant: string, step: Step, network: nat -> Reply, call: nat,
                                          attempt: nat, maximum: nat, task: Task)
    ensures var (after, result, last) := Attempted(boxes, tenant, step, network, call, attempt, maximum);
            result.Ok? ==> Took(after, tenant, step, TaskAfter(task, result, last))
    decreases maximum - attempt
  {
    hide Executed, Took;
    var (after, result) := Executed(boxes, tenant, step, network(call));
    if result.Ok? {
      ExecutedTakes(boxes, tenant, step, network(call), TaskAfter(task, result, attempt + 1));
    } else if ShouldRetry(maximum, result.error.transient, attempt + 1) {
      AttemptedTakes(after, tenant, step, network, call + 1, attempt + 1, maximum, task);
    }
  }

  /** Nothing of this key has happened yet in `b0`; in `b` either still nothing, or exactly one patch. */
  predicate PatchedAtMostOnce(b0: Box, b: Box, tenant: string, q: FieldPatchRequest) {
    var key := (tenant, q.idempotencyKey);
    || (Current(b, tenant) == Current(b0, tenant) && (key in b.executions <==> key in b0.executions))
    || (key !in b0.executions && key in b.executions && Rewritten(Current(b0, tenant), Current(b, tenant), q.newField))
  }

  lemma AppliedPatchesOnce(b0: Box, b: Box, tenant: string, q: FieldPatchRequest)
    requires PatchedAtMostOnce(b0, b, tenant, q)
    ensures PatchedAtMostOnce(b0, Applied(b, tenant, q).0, tenant, q)
  {
    AnswersMeanPatched(b, tenant, q);
    hide Patched, Rewritten;
    if (tenant, q.idempotencyKey) in b.executions {
      assert Applied(b, tenant, q).0 == b;
    }
  }

  lemma ExecutedPatchesOnce(b0: Box, boxes: map<string, Box>, tenant: string, step: Step, reply: Reply, system: string, q: FieldPatchRequest)
    requires SystemForTool(step.toolName) == Some(system) && PatchOf(step.arguments, step.idempotencyKey) == Some(q)
    requires system in boxes && PatchedAtMostOnce(b0, boxes[system], tenant, q)
    ensures system in Executed(boxes, tenant, step, reply).0
    ensures PatchedAtMostOnce(b0, Executed(boxes, tenant, step, reply).0[system], tenant, q)
    ensures forall other <- boxes | other != system :: other in Executed(boxes, tenant, step, reply).0
                                                      && Executed(boxes, tenant, step, reply).0[other] == boxes[other]
  {
    hide PatchOf, SystemForTool, Applied, PatchedAtMostOnce;
    AppliedPatchesOnce(b0, boxes[system], tenant, q);
  }

  /** However many replies are lost and attempts repeated, a task patches its system at most once and no other. */
  lemma {:induction false} RetriesPatchOnce(b0: Box, boxes: map<string, Box>, tenant: string, step: Step, network: nat -> Reply,
                                            call: nat, attempt: nat, maximum: nat, system: string, q: FieldPatchRequest)
    requires SystemForTool(step.toolName) == Some(system) && PatchOf(step.arguments, step.idempotencyKey) == Some(q)
    requires system in boxes && PatchedAtMostOnce(b0, boxes[system], tenant, q)
    ensures var after := Attempted(boxes, tenant, step, network, call, attempt, maximum).0;
            && system in after && PatchedAtMostOnce(b0, after[system], tenant, q)
            && forall other <- boxes | other != system :: other in after && after[other] == boxes[other]
    decreases maximum - attempt
  {
    hide PatchOf, SystemForTool, Executed, PatchedAtMostOnce;
    ExecutedPatchesOnce(b0, boxes, tenant, step, network(call), system, q);
    var (after, result) := Executed(boxes, tenant, step, network(call));
    if result.Err? && ShouldRetry(maximum, result.error.transient, attempt + 1) {
      RetriesPatchOnce(b0, after, tenant, step, network, call + 1, attempt + 1, maximum, system, q);
    }
  }

  /** Asking for one verification: attempts after the `attempt`-th, from call number `call` on; the answer and the next call. */
  function Checked(network: nat -> Reply, call: nat, attempt: nat, maximum: nat): (Result<bool, CallError>, nat)
    decreases maximum - attempt
  {
    var reply := network(call);
    if reply.Delivered? then (Ok(reply.passed), call + 1)
    else if !ShouldRetry(maximum, reply.transient, attempt + 1) then (Err(CallError(reply.code, reply.transient)), call + 1)
    else Checked(network, call + 1, attempt + 1, maximum)
  }

  /** A verification passes exactly when the first answer among its attempts does. */
  lemma {:induction false} CheckedPasses(network: nat -> Reply, call: nat, attempt: nat, maximum: nat)
    ensures var (result, next) := Checked(network, call, attempt, maximum);
            && call < next && next - call <= (if attempt < maximum then maximum - attempt else 1)
            && (forall n | call <= n < next - 1 :: !network(n).Delivered? && network(n).transient)
            && (result == Ok(true) <==> network(next - 1).Delivered? && network(next - 1).passed)
    decreases maximum - attempt
  {
    if !network(call).Delivered? && ShouldRetry(maximum, network(call).transient, attempt + 1) {
      CheckedPasses(network, call + 1, attempt + 1, maximum);
    }
  }

  /** The code of the first task in order whose verification failed. */
  function FirstProblem(tasks: seq<Task>, results: seq<Result<bool, CallError>>): Option<string>
    requires |tasks| == |results|
  {
    if tasks == [] then None
    else if results[0].Err? then Some(results[0].error.code)
    else if !results[0].value then Some(Upper(tasks[0].systemId) + "_VERIFICATION_FAILED")
    else FirstProblem(tasks[1..], results[1..])
  }

  lemma NoProblem()
    ensures FirstProblem([], []) == None
  {
  }

  /** With the earlier ones passed, the next one decides unless there was a problem already. */
  lemma {:induction false} NextProblem(tasks: seq<Task>, results: seq<Result<bool, CallError>>, task: Task, result: Result<bool, CallError>)
    requires |tasks| == |results|
    ensures FirstProblem(tasks + [task], results + [result])
            == if FirstProblem(tasks, results).Some? then FirstProblem(tasks, results)
               else if result.Err? then Some(result.error.code)
               else if !result.value then Some(Upper(task.systemId) + "_VERIFICATION_FAILED") else None
  {
    if tasks != [] {
      NextProblem(tasks[1..], results[1..], task, result);
      assert (tasks + [task])[1..] == tasks[1..] + [task] && (results + [result])[1..] == results[1..] + [result];
    }
  }

  ghost predicate NoVerdict(log: seq<Event>) {
    forall e <- log :: !e.Verified?
  }

  lemma NothingVerified()
    ensures NoVerdict([])
  {
  }

  lemma VerdictsAdd(a: seq<Event>, b: seq<Event>)
    ensures NoVerdict(a + b) <==> NoVerdict(a) && NoVerdict(b)
  {
    if NoVerdict(a + b) {
      forall e | e in a ensures !e.Verified? { assert e in a + b; }
      forall e | e in b ensures !e.Verified? { assert e in a + b; }
    }
  }

  // ---------------------------------------------------------------- a store that accepts the run's writes

  /** The run's copy is the stored, open, valid version, and the clock never reads earlier than its start. */
  ghost predicate Held(m: map<RecordKey, Record>, clock: nat -> Time, r: Record) {
    && ValidRecord(r) && !Terminal(r.status) && RecordKeyOf(r) in m && m[RecordKeyOf(r)].version == r.version
    && forall n: nat :: clock(n) >= r.startedAt
  }

  function Stamped(r: Record, at: Time, previous: nat): Record {
    r.(updatedAt := at, version := previous + 1)
  }

  /** An update of a held record that passes validation at any time from its start. */
  ghost predicate Storable(record: Record, updated: Record) {
    && RecordKeyOf(updated) == RecordKeyOf(record) && updated.startedAt == record.startedAt
    && forall t: Time | t >= record.startedAt :: ValidRecord(Stamped(updated, t, record.version))
  }

  lemma StatusStorable(record: Record, status: RuntimeStatus, code: Option<string>, completed: Option<Time>)
    requires ValidRecord(record) && (Terminal(status) <==> completed.Some?)
    ensures Storable(record, record.(status := status, lastErrorCode := code, completedAt := completed))
  {
  }

  lemma TasksStorable(record: Record, byStep: map<string, Task>, code: Option<string>)
    requires ValidRecord(record) && record.plan.Some?
    requires forall t <- record.tasks :: t.stepId in byStep && byStep[t.stepId].stepId == t.stepId && ValidTask(byStep[t.stepId])
    ensures Storable(record, record.(tasks := InOrder(record.tasks, byStep), lastErrorCode := code))
  {
    hide Terminal, ValidTask;
    var tasks := InOrder(record.tasks, byStep);
    assert TaskIds(tasks) == TaskIds(record.tasks) by {
      forall t | t in record.tasks ensures t.stepId in TaskIds(tasks) {
        var i :| 0 <= i < |record.tasks| && record.tasks[i] == t;
        assert tasks[i] in tasks;
      }
      forall t | t in tasks ensures t.stepId in TaskIds(record.tasks) {
        var i :| 0 <= i < |tasks| && tasks[i] == t;
        assert record.tasks[i] in record.tasks;
      }
    }
    forall t | t in tasks ensures ValidTask(t) {
      var i :| 0 <= i < |tasks| && tasks[i] == t;
      assert record.tasks[i] in record.tasks;
    }
  }

  predicate AllValid(byStep: map<string, Task>) {
    forall id <- byStep :: ValidTask(byStep[id])
  }

  lemma HeldTasksValid(record: Record)
    requires ValidRecord(record)
    ensures AllValid(ByStep(record.tasks))
  {
  }

  /** The run may start: its record is held, approved, and pending or succeeded throughout. */
  ghost predicate Startable(m: map<RecordKey, Record>, clock: nat -> Time, r: Record) {
    && Held(m, clock, r) && r.approvalId.Some? && r.plan.Some?
    && Progressing(r.plan.value.steps, ByStep(r.tasks))
  }

  predicate OnSystems(tasks: seq<Task>) {
    forall t <- tasks :: t.systemId in SYSTEMS
  }

  class WorkflowEngine {
    const tenant: string
    const maximumAttempts: nat
    const network: nat -> Reply
    const clock: nat -> Time
    const workflows: InMemoryWorkflowRepository
    var calls: nat
    var ticks: nat
    var nextSnapshot: nat
    var sandboxes: map<string, Box>
    var change: C.Status
    ghost var log: seq<Event>

    /** The three sandboxes exist, and no stored snapshot has an identifier yet to be drawn. */
    ghost predicate Valid()
      reads this, workflows
    {
      sandboxes.Keys == SYSTEMS && workflows.Valid() && Fresh(sandboxes, nextSnapshot)
    }

    constructor (tenant: string, maximumAttempts: nat, network: nat -> Reply, clock: nat -> Time,
                 workflows: InMemoryWorkflowRepository, sandboxes: map<string, Box>, nextSnapshot: nat, change: C.Status)
      requires sandboxes.Keys == SYSTEMS && workflows.Valid() && Fresh(sandboxes, nextSnapshot)
      ensures Valid() && log == [] && this.workflows == workflows && this.sandboxes == sandboxes && this.change == change
    {
      this.tenant, this.maximumAttempts, this.network, this.clock := tenant, maximumAttempts, network, clock;
      this.workflows, this.sandboxes, this.nextSnapshot, this.change := workflows, sandboxes, nextSnapshot, change;
      calls, ticks, log := 0, 0, [];
    }

    method Call() returns (reply: Reply)
      modifies this`calls
      ensures reply == network(old(calls)) && calls == old(calls) + 1
    {
      reply := network(calls);
      calls := calls + 1;
    }

    /** `_update_record`: revalidate, then compare and swap on the version of the caller's copy. */
    method UpdateRecord(record: Record, updated: Record) returns (r: Result<Record, EngineError>)
      requires workflows.Valid()
      modifies this`ticks, workflows
      ensures workflows.Valid()
      ensures r.Ok? ==>
                && ValidRecord(r.value) && r.value.version == record.version + 1
                && r.value == updated.(updatedAt := r.value.updatedAt, version := r.value.version)
                && RecordKeyOf(r.value) in workflows.workflows && workflows.workflows[RecordKeyOf(r.value)] == r.value
      ensures r.Err? ==> r.error.InvalidRecord? || r.error.Conflict?
      ensures var key, stored := RecordKeyOf(updated), updated.(updatedAt := clock(old(ticks)), version := record.version + 1);
              r.Ok? <==> ValidRecord(stored) && key in old(workflows.workflows)
                         && old(workflows.workflows)[key].version == record.version
      ensures Held(old(workflows.workflows), clock, record) && Storable(record, updated) ==>
                r.Ok? && (!Terminal(updated.status) ==> Held(workflows.workflows, clock, r.value))
    {
      hide ValidRecord, Terminal;
      var stored := Stamped(updated, clock(ticks), record.version);
      ticks := ticks + 1;
      if !ValidRecord(stored) { return Err(InvalidRecord); }
      var result := workflows.Update(stored, record.version);
      r := if result.Ok? then Ok(result.value) else Err(Conflict(result.error));
    }

    /** One `gateway.execute` and the sandbox patch behind it. */
    method Execute(step: Step) returns (r: Result<(string, OutputDigest), CallError>)
      modifies this`calls, this`sandboxes
      ensures (sandboxes, r) == Executed(old(sandboxes), tenant, step, network(old(calls))) && calls == old(calls) + 1
    {
      hide Applied, PatchOf, SystemForTool;
      var reply := Call();
      var patch, tool := PatchOf(step.arguments, step.idempotencyKey), SystemForTool(step.toolName);
      if patch.None? || tool.None? || tool.value !in sandboxes { return Err(CallError("VALIDATION", false)); }
      if reply.Unreached? { return Err(CallError(reply.code, reply.transient)); }
      var (box, result) := Applied(sandboxes[tool.value], tenant, patch.value);
      sandboxes := sandboxes[tool.value := box];
      if reply.Lost? { return Err(CallError(reply.code, reply.transient)); }
      if result.Err? { return Err(CallError(if result.error.Transient? then "TRANSIENT" else "PERMANENT", true)); }
      if !Answers(patch.value, result.value) { return Err(CallError("VALIDATION", true)); }
      r := Ok((reply.executionId, OutputSha256(result.value)));
    }

    /** `_execute_task`: attempts until success, a permanent failure, or the last allowed attempt. */
    method ExecuteTask(record: Record, task: Task, step: Step, ghost round: nat) returns (r: Result<Task, EngineError>)
      requires task.stepId == step.stepId
      modifies this`calls, this`sandboxes, this`log
      ensures r.Err? <==> record.approvalId.None?
      ensures r.Err? ==> r.error.ApprovalIdMissing? && log == old(log) && sandboxes == old(sandboxes)
      ensures r.Ok? ==>
                var (after, result, last) :=
                  Attempted(old(sandboxes), tenant, step, network, old(calls), task.attemptCount, maximumAttempts);
                && sandboxes == after && r.value == TaskAfter(task, result, last)
                && calls == old(calls) + last - task.attemptCount
      ensures Worked(old(sandboxes), sandboxes, tenant, [step])
      ensures r.Ok? && r.value.status.SUCCEEDED? ==> Took(sandboxes, tenant, step, r.value)
      ensures r.Ok? ==> FinishedFrom(task, r.value, maximumAttempts)
                        && log == old(log) + [Issued(round, step.stepId), Finished(step.stepId, r.value.status.SUCCEEDED?)]
    {
      hide Executed, Worked, Took;
      WorkedOn(sandboxes, sandboxes, sandboxes, tenant, [step]);
      if record.approvalId.None? { return Err(ApprovalIdMissing); }
      AttemptedFacts(sandboxes, tenant, step, network, calls, task.attemptCount, maximumAttempts);
      AttemptedTakes(sandboxes, tenant, step, network, calls, task.attemptCount, maximumAttempts, task);
      log := log + [Issued(round, step.stepId)];
      var attempt := task.attemptCount;
      while true
        modifies this`calls, this`sandboxes, this`log
        invariant log == old(log) + [Issued(round, step.stepId)]
        invariant task.attemptCount <= attempt && calls == old(calls) + attempt - task.attemptCount
        invariant Attempted(sandboxes, tenant, step, network, calls, attempt, maximumAttempts)
                  == Attempted(old(sandboxes), tenant, step, network, old(calls), task.attemptCount, maximumAttempts)
        invariant task.attemptCount < attempt ==> attempt < maximumAttempts
        decreases maximumAttempts - attempt
      {
        attempt := attempt + 1;
        var result := Execute(step);
        if result.Ok? {
          log := log + [Finished(step.stepId, true)];
          return Ok(task.(status := SUCCEEDED, attemptCount := attempt, executionId := Some(result.value.0),
                          outputHash := Some(result.value.1), errorCode := None));
        }
        if !ShouldRetry(maximumAttempts, result.error.transient, attempt) {
          log := log + [Finished(step.stepId, false)];
          return Ok(task.(status := TASK_FAILED, attemptCount := attempt, errorCode := Some(result.error.code)));
        }
      }
    }

    /** The gathered tasks of one wave, in any order. */
    method ExecuteWave(record: Record, byStep: map<string, Task>, ready: set<string>, ghost round: nat)
      returns (r: Result<map<string, Task>, EngineError>, ghost order: seq<string>)
      requires record.plan.Some? && ready <= Ids(record.plan.value.steps) && ready <= byStep.Keys
      requires forall id <- byStep :: byStep[id].stepId == id
      requires forall id <- ready :: StepOf(record, id).stepId == id
      modifies this`calls, this`sandboxes, this`log
      ensures Worked(old(sandboxes), sandboxes, tenant, record.plan.value.steps)
      ensures r.Ok? ==> AllTook(sandboxes, tenant, record.plan.value.steps, r.value)
      ensures old(log) <= log && NoVerdict(log[|old(log)|..])
      ensures r.Err? ==> r.error.ApprovalIdMissing? && record.approvalId.None? && log == old(log)
      ensures r.Ok? ==> && r.value.Keys == ready && WaveLog(log[|old(log)|..], round, ready, r.value)
                        && forall id <- ready :: FinishedFrom(byStep[id], r.value[id], maximumAttempts)
      ensures r.Ok? ==> IsWave(old(sandboxes), old(calls), tenant, record.plan.value.steps, byStep, network, maximumAttempts,
                               order, sandboxes, r.value, calls)
    {
      hide WaveLog, FinishedFrom, ById, Ids, Worked, Took, AllTook, Attempted, TaskAfter, IsWave;
      var results: map<string, Task> := map[];
      ghost var wave: seq<Event> := [];
      ghost var steps := record.plan.value.steps;
      order := [];
      WaveLogStarts(round, results);
      WaveStarts(sandboxes, calls, tenant, steps, byStep, network, maximumAttempts);
      while ready - results.Keys != {}
        modifies this`calls, this`sandboxes, this`log
        invariant results.Keys <= ready
        invariant IsWave(old(sandboxes), old(calls), tenant, steps, byStep, network, maximumAttempts, order, sandboxes, results, calls)
        invariant Worked(old(sandboxes), sandboxes, tenant, steps) && AllTook(sandboxes, tenant, steps, results)
        invariant record.approvalId.None? ==> wave == []
        invariant log == old(log) + wave && WaveLog(wave, round, results.Keys, results) && NoVerdict(wave)
        invariant forall id <- results :: FinishedFrom(byStep[id], results[id], maximumAttempts)
        decreases ready - results.Keys
      {
        var id :| id in ready - results.Keys;
        ghost var boxes, before := sandboxes, calls;
        var done := ExecuteTask(record, byStep[id], StepOf(record, id), round);
        if done.Err? {
          assert log[|old(log)|..] == wave;
          r := Err(done.error);
          return;
        }
        WaveGoesOn(old(sandboxes), old(calls), tenant, steps, byStep, network, maximumAttempts, order, boxes, results, before,
                   id, sandboxes, done.value, calls);
        VerdictsAdd(wave, [Issued(round, id), Finished(id, done.value.status.SUCCEEDED?)]);
        WaveLogGrows(wave, round, results, id, done.value);
        results, order := results[id := done.value], order + [id];
        wave := wave + [Issued(round, id), Finished(id, done.value.status.SUCCEEDED?)];
      }
      assert forall id <- ready :: id !in ready - results.Keys;
      assert results.Keys == ready && log[|old(log)|..] == wave;
      r := Ok(results);
    }

    /** One turn of the `_execute_dag` loop: gather the ready tasks, then store their results. */
    method RunWave(ghost record: Record, current: Record, byStep: map<string, Task>, ready: set<string>,
                   rounds: nat, ghost earlier: seq<Event>)
      returns (r: Result<Record, EngineError>, after: map<string, Task>, failed: bool)
      requires workflows.Valid() && HasGraph(record) && DagState(record, current, byStep, earlier, rounds)
      requires NoNewFailure(ByStep(record.tasks), byStep) && WithStatus(byStep, PENDING) <= Ids(record.plan.value.steps)
      requires ready == Ready(record.plan.value.steps, WithStatus(byStep, PENDING), WithStatus(byStep, SUCCEEDED)) != {}
      modifies this`calls, this`ticks, this`sandboxes, this`log, workflows
      ensures workflows.Valid() && old(log) <= log && NoVerdict(log[|old(log)|..])
      ensures Worked(old(sandboxes), sandboxes, tenant, record.plan.value.steps)
      ensures r.Ok? && AllTook(old(sandboxes), tenant, record.plan.value.steps, byStep) ==>
                AllTook(sandboxes, tenant, record.plan.value.steps, after)
      ensures Orderly(record.plan.value.steps, ByStep(record.tasks), earlier + log[|old(log)|..])
      ensures r != Err(DagProgressBlocked)
      ensures r.Ok? ==>
                && DagState(record, r.value, after, earlier + log[|old(log)|..], rounds + 1)
                && WithStatus(after, PENDING) < WithStatus(byStep, PENDING)
                && (if failed then WithStatus(after, TASK_FAILED) != {} else NoNewFailure(ByStep(record.tasks), after))
                && if failed then NamesFailure(after, ready, r.value.lastErrorCode) else r.value.lastErrorCode.None?
      ensures Held(old(workflows.workflows), clock, current) && current.approvalId.Some? && AllValid(byStep) ==>
                r.Ok? && Held(workflows.workflows, clock, r.value) && r.value.approvalId.Some? && AllValid(after)
    {
      hide Worked, AllTook, HasGraph, ValidRecord, DagState, NoNewFailure, WellFormed, WaveLog, FinishedFrom, Ready, Ids, ById, ByStep, InOrder, WithStatus, Orderly, Held, Storable, NoVerdict, NamesFailure, FirstFailure, IsWave;
      after, failed := byStep, false;
      DagFacts(record, current, byStep, earlier, rounds);
      ReadyIsPending(record.plan.value.steps, byStep);
      var results, order := ExecuteWave(current, byStep, ready, rounds + 1);
      if results.Err? {
        assert earlier + log[|old(log)|..] == earlier;
        return Err(results.error), after, false;
      }
      WaveTook(old(sandboxes), sandboxes, tenant, record.plan.value.steps, byStep, results.value);
      WaveIsOrderlyToo(record, current, byStep, earlier, rounds, log[|old(log)|..], results.value);
      WaveCounts(ByStep(record.tasks), byStep, results.value, maximumAttempts);
      after := byStep + results.value;
      WaveStorable(current, byStep, results.value, maximumAttempts, workflows.workflows, clock,
                   FirstFailure(current.tasks, results.value));
      r := UpdateRecord(current, current.(tasks := InOrder(current.tasks, after),
                                          lastErrorCode := FirstFailure(current.tasks, results.value)));
      if r.Ok? {
        DagAdvances(record, current, byStep, earlier, rounds, log[|old(log)|..], results.value, maximumAttempts, r.value);
      }
      failed := exists id <- results.value :: results.value[id].status.TASK_FAILED?;
      FailureIsNamed(record, current, byStep, earlier, rounds, results.value);
    }

    /** `_execute_dag`. */
    method ExecuteDag(record: Record) returns (r: Result<Record, EngineError>, rounds: nat)
      requires workflows.Valid() && HasGraph(record)
      modifies this`calls, this`ticks, this`sandboxes, this`log, workflows
      ensures workflows.Valid() && old(log) <= log && NoVerdict(log[|old(log)|..])
      ensures Worked(old(sandboxes), sandboxes, tenant, record.plan.value.steps)
      ensures r.Ok? && AllTook(old(sandboxes), tenant, record.plan.value.steps, ByStep(record.tasks)) ==>
                AllTook(sandboxes, tenant, record.plan.value.steps, ByStep(r.value.tasks))
      ensures Orderly(record.plan.value.steps, ByStep(record.tasks), log[|old(log)|..])
      ensures Progressing(record.plan.value.steps, ByStep(record.tasks)) ==> r != Err(DagProgressBlocked)
      ensures r.Ok? ==>
                && DagState(record, r.value, ByStep(r.value.tasks), log[|old(log)|..], rounds)
                && (WithStatus(ByStep(r.value.tasks), PENDING) == {} || WithStatus(ByStep(r.value.tasks), TASK_FAILED) != {})
      ensures r.Ok? && Progressing(record.plan.value.steps, ByStep(record.tasks)) ==>
                Concluded(record.plan.value.steps, ByStep(r.value.tasks))
      ensures r.Ok? && AllPending(ByStep(record.tasks)) && WithStatus(ByStep(r.value.tasks), TASK_FAILED) == {} ==>
                InRounds(record.plan.value.steps, log[|old(log)|..], rounds)
      ensures Held(old(workflows.workflows), clock, record) && record.approvalId.Some?
              && Progressing(record.plan.value.steps, ByStep(record.tasks)) ==>
                r.Ok? && Held(workflows.workflows, clock, r.value)
    {
      hide Worked, AllTook, Concluded, InRounds, AllPending, NoVerdict, AllValid, Held, HasGraph, ValidRecord, DagState, NoNewFailure, WellFormed, Ready, Ids, ByStep, WithStatus, Orderly, Progressing;
      GraphKeys(record);
      DagStarts(record);
      WorkedOn(sandboxes, sandboxes, sandboxes, tenant, record.plan.value.steps);
      FailsLikeItself(ByStep(record.tasks));
      GraphTasksValid(record);
      var steps, byStep, current := record.plan.value.steps, ByStep(record.tasks), record;
      rounds := 0;
      assert log[|old(log)|..] == [];
      NothingVerified();
      while true
        modifies this`calls, this`ticks, this`sandboxes, this`log, workflows
        invariant workflows.Valid() && old(log) <= log && NoVerdict(log[|old(log)|..])
        invariant Worked(old(sandboxes), sandboxes, tenant, steps)
        invariant AllTook(old(sandboxes), tenant, steps, ByStep(record.tasks)) ==> AllTook(sandboxes, tenant, steps, byStep)
        invariant DagState(record, current, byStep, log[|old(log)|..], rounds)
        invariant NoNewFailure(ByStep(record.tasks), byStep)
        invariant Held(old(workflows.workflows), clock, record) && record.approvalId.Some? ==>
                    Held(workflows.workflows, clock, current) && current.approvalId.Some? && AllValid(byStep)
        decreases WithStatus(byStep, PENDING)
      {
        DagFacts(record, current, byStep, log[|old(log)|..], rounds);
        var pending := WithStatus(byStep, PENDING);
        if pending == {} { break; }
        NeverBlocked(record, current, byStep, log[|old(log)|..], rounds);
        var ready := Ready(steps, pending, WithStatus(byStep, SUCCEEDED));
        if ready == {} { return Err(DagProgressBlocked), rounds; }
        ghost var before, boxes := log, sandboxes;
        var updated, after, failed := RunWave(record, current, byStep, ready, rounds, log[|old(log)|..]);
        assert log[|old(log)|..] == before[|old(log)|..] + log[|before|..];
        VerdictsAdd(before[|old(log)|..], log[|before|..]);
        WorkedOn(old(sandboxes), boxes, sandboxes, tenant, steps);
        if updated.Err? { return updated, rounds; }
        current, byStep, rounds := updated.value, after, rounds + 1;
        if failed {
          DagFacts(record, current, byStep, log[|old(log)|..], rounds);
          break;
        }
      }
      r := Ok(current);
      DictionaryIsStored(record, current, byStep, log[|old(log)|..], rounds);
      DagConcludes(record, current, byStep, log[|old(log)|..], rounds);
    }

    /** One snapshot call; a lost reply leaves its snapshot behind. */
    method TakeSnapshot(task: Task) returns (r: Result<(nat, ConfigDigest), EngineError>)
      requires Valid()
      modifies this`calls, this`nextSnapshot, this`sandboxes
      ensures Valid() && Extends(old(sandboxes), sandboxes, tenant)
      ensures r.Err? ==> r.error.SnapshotTransient? || r.error.SnapshotCaptureFailed?
      ensures r.Ok? ==> task.systemId in sandboxes
                        && OnFile(sandboxes, tenant, task.(snapshotId := Some(r.value.0), snapshotHash := Some(r.value.1)))
                        && r.value.1 == ConfigDigest.Sha256(Current(old(sandboxes)[task.systemId], tenant))
    {
      hide Fresh, Extends, OnFile, Snapshotted, Captured;
      ExtendsItself(sandboxes, tenant);
      if task.systemId !in sandboxes { return Err(SnapshotCaptureFailed); }
      SnapshotExtends(sandboxes, tenant, nextSnapshot, task);
      var reply := Call();
      if reply.Unreached? {
        return Err(if reply.transient then SnapshotTransient(reply.code) else SnapshotCaptureFailed);
      }
      var id, box := nextSnapshot, sandboxes[task.systemId];
      nextSnapshot := nextSnapshot + 1;
      sandboxes := sandboxes[task.systemId := Snapshotted(box, tenant, id)];
      if reply.Lost? { return Err(if reply.transient then SnapshotTransient(reply.code) else SnapshotCaptureFailed); }
      r := Ok((id, Captured(box, tenant, id).hash));
    }

    /** `_capture_snapshots`: every task without a snapshot gets one; nothing is stored unless all succeed. */
    method CaptureSnapshots(record: Record) returns (r: Result<Record, EngineError>)
      requires Valid() && Aligned(record)
      modifies this`calls, this`ticks, this`nextSnapshot, this`sandboxes, workflows
      ensures Valid() && Extends(old(sandboxes), sandboxes, tenant)
      ensures r.Err? ==> !r.error.DagProgressBlocked?
      ensures r.Ok? ==> AllCaptured(record, r.value, sandboxes, tenant) && r.value.approvalId == record.approvalId
                        && (ValidRecord(record) ==> ValidRecord(r.value))
      ensures Held(old(workflows.workflows), clock, record) ==>
                if r.Ok? then Held(workflows.workflows, clock, r.value) else r.error.SnapshotTransient? || r.error.SnapshotCaptureFailed?
    {
      hide Aligned, OnFile, ValidRecord, ByStep, Fresh, Extends, CapturedFrom, CaptureState, AllCaptured, TaskIds, InOrder, Held, Storable;
      ExtendsItself(sandboxes, tenant);
      if forall t <- record.tasks :: t.snapshotId.Some? {
        NothingMissing(record, sandboxes, tenant);
        return Ok(record);
      }
      var byStep, error: Option<EngineError>, i := ByStep(record.tasks), None, 0;
      CaptureStarts(record, sandboxes, tenant);
      while i < |record.tasks|
        modifies this`calls, this`nextSnapshot, this`sandboxes
        invariant 0 <= i <= |record.tasks|
        invariant Valid() && Extends(old(sandboxes), sandboxes, tenant)
        invariant error.Some? ==> error.value.SnapshotTransient? || error.value.SnapshotCaptureFailed?
        invariant error.None? ==> CaptureState(record.tasks, byStep, i, sandboxes, tenant)
      {
        var task := record.tasks[i];
        ghost var boxes := sandboxes;
        if task.snapshotId.None? {
          var result := TakeSnapshot(task);
          ExtendsOn(old(sandboxes), boxes, sandboxes, tenant);
          if result.Ok? {
            var captured := task.(snapshotId := Some(result.value.0), snapshotHash := Some(result.value.1));
            if error.None? {
              CapturedNow(task, result.value, boxes, sandboxes, tenant);
              CaptureAdvances(record, byStep, i, boxes, sandboxes, tenant, captured);
            }
            byStep := byStep[task.stepId := captured];
          } else if error.None? {
            error := Some(result.error);
          }
        } else if error.None? {
          AlreadyCaptured(record, byStep, i, sandboxes, tenant);
        }
        i := i + 1;
      }
      if error.Some? { return Err(error.value); }
      CaptureEnds(record, byStep, sandboxes, tenant);
      CaptureStorable(record, byStep, sandboxes, tenant, workflows.workflows, clock);
      r := UpdateRecord(record, record.(tasks := InOrder(record.tasks, byStep)));
    }

    /** One task of `_rollback`: restore its snapshot, then compare the digest of what is in place. */
    method Restore(task: Task) returns (r: Result<Option<string>, EngineError>)
      modifies this`calls, this`sandboxes
      ensures calls >= old(calls)
      ensures OthersUntouched(old(sandboxes), sandboxes, task.systemId) && SameSnapshots(old(sandboxes), sandboxes)
      ensures r == Ok(None) ==> RestoredTo(task, sandboxes, tenant)
      ensures Reliable(network, old(calls)) && OnFile(old(sandboxes), tenant, task) ==> r == Ok(None)
      ensures r.Err? ==> r.error.UnknownSystem? && task.systemId !in old(sandboxes)
    {
      hide Restored, OnFile, Touched, Current, OthersUntouched, SameSnapshots;
      SnapshotsStay(sandboxes, sandboxes, sandboxes);
      UntouchedTwice(sandboxes, sandboxes, sandboxes, task.systemId);
      OnFileMeans(sandboxes, tenant, task);
      if task.snapshotId.None? || task.snapshotHash.None? { return Ok(Some("SNAPSHOT_MISSING")); }
      if task.systemId !in sandboxes { return Err(UnknownSystem); }
      var reply := Call();
      if reply.Unreached? { return Ok(Some(reply.code)); }
      RestoreEffects(sandboxes, tenant, task);
      var (box, result) := Restored(sandboxes[task.systemId], tenant, task.snapshotId.value);
      sandboxes := sandboxes[task.systemId := box];
      if reply.Lost? { return Ok(Some(reply.code)); }
      if result.Err? { return Ok(Some("SANDBOX_REJECTED")); }
      ghost var restored := sandboxes;
      reply := Call();
      if reply.Unreached? { return Ok(Some(reply.code)); }
      TouchEffects(sandboxes, tenant, task.systemId);
      sandboxes := sandboxes[task.systemId := Touched(sandboxes[task.systemId], tenant)];
      SnapshotsStay(old(sandboxes), restored, sandboxes);
      UntouchedTwice(old(sandboxes), restored, sandboxes, task.systemId);
      if reply.Lost? { return Ok(Some(reply.code)); }
      if ConfigDigest.Sha256(Current(sandboxes[task.systemId], tenant)) != task.snapshotHash.value {
        return Ok(Some("RESTORE_HASH_MISMATCH"));
      }
      r := Ok(None);
    }

    method SetRuntimeStatus(record: Record, status: RuntimeStatus, code: Option<string>)
      returns (r: Result<Record, EngineError>)
      requires workflows.Valid()
      modifies this`ticks, workflows
      ensures workflows.Valid()
      ensures r.Ok? ==> r.value.status == status && r.value.lastErrorCode == code && SameWork(record, r.value)
                        && (ValidRecord(record) ==> ValidRecord(r.value))
      ensures Held(old(workflows.workflows), clock, record) && !Terminal(status) ==> r.Ok? && Held(workflows.workflows, clock, r.value)
      ensures r.Err? ==> !r.error.DagProgressBlocked?
    {
      hide ValidRecord, Storable;
      HeldStorable(workflows.workflows, clock, record, status, code, None);
      if record.status == status && record.lastErrorCode == code { return Ok(record); }
      r := UpdateRecord(record, record.(status := status, lastErrorCode := code));
    }

    method Transition(target: C.Status) returns (ok: bool)
      modifies this`change
      ensures ok == C.CanTransition(old(change), target) && change == if ok then target else old(change)
    {
      ok := C.CanTransition(change, target);
      if ok { change := target; }
    }

    method MakeTerminal(record: Record, status: RuntimeStatus, code: Option<string>) returns (r: Result<Record, EngineError>)
      requires workflows.Valid()
      modifies this`ticks, workflows
      ensures workflows.Valid()
      ensures r.Ok? ==> r.value.status == status && SameWork(record, r.value)
      ensures r.Ok? ==> if record.status == status && record.completedAt.Some? then r.value == record
                        else r.value.lastErrorCode == code && r.value.completedAt.Some?
      ensures r.Err? ==> !r.error.DagProgressBlocked?
      ensures Held(old(workflows.workflows), clock, record) && Terminal(status) ==> r.Ok?
    {
      hide ValidRecord, Storable;
      HeldStorable(workflows.workflows, clock, record, status, code, Some(clock(ticks)));
      if record.status == status && record.completedAt.Some? { return Ok(record); }
      r := UpdateRecord(record, record.(status := status, lastErrorCode := code, completedAt := Some(clock(ticks))));
    }

    /** The loop of `_rollback`: every task once, highest plan order first, whatever happened before. */
    method RestoreAll(record: Record) returns (r: Result<map<string, Task>, EngineError>, failed: bool)
      requires Aligned(record)
      modifies this`calls, this`sandboxes
      ensures SameSnapshots(old(sandboxes), sandboxes)
      ensures r.Err? ==> r.error.UnknownSystem? && exists t <- record.tasks :: t.systemId !in old(sandboxes)
      ensures record.plan.Some?
      ensures r.Ok? ==>
                && (forall t <- record.tasks :: t.stepId in r.value && r.value[t.stepId].stepId == t.stepId)
                && (ValidRecord(record) ==> AllValid(r.value))
                && Compensated(record, InOrder(record.tasks, r.value), failed, sandboxes, tenant)
      ensures r.Ok? && Reliable(network, old(calls)) && (forall t <- record.tasks :: OnFile(old(sandboxes), tenant, t)) ==> !failed
    {
      hide Aligned, OnFile, RestoredTo, RollState, Compensated, SortedDown, ByStep, InOrder, SameSnapshots, OthersUntouched, Reliable, TaskIds, ValidRecord, AllValid;
      SnapshotsStay(sandboxes, sandboxes, sandboxes);
      RollStarts(record, sandboxes, tenant);
      ReliableLater(network, old(calls));
      var sorted := SortedDown(record.plan.value.steps, record.tasks);
      var byStep, k := ByStep(record.tasks), 0;
      failed := false;
      if ValidRecord(record) { HeldTasksValid(record); }
      while k < |sorted|
        modifies this`calls, this`sandboxes
        invariant 0 <= k <= |sorted| && calls >= old(calls)
        invariant SameSnapshots(old(sandboxes), sandboxes)
        invariant RollState(sorted, byStep, k, failed, sandboxes, tenant)
        invariant ValidRecord(record) ==> AllValid(byStep)
        invariant Reliable(network, old(calls)) && (forall t <- record.tasks :: OnFile(old(sandboxes), tenant, t)) ==> !failed
      {
        var task := sorted[k];
        ghost var boxes := sandboxes;
        OnFileStays(old(sandboxes), boxes, tenant, task);
        var problem := Restore(task);
        SnapshotsStay(old(sandboxes), boxes, sandboxes);
        SameSnapshotsKeys(old(sandboxes), boxes);
        if problem.Err? { return Err(problem.error), failed; }
        var done := if problem.value.None? then task.(status := ROLLED_BACK, errorCode := None)
                    else task.(status := ROLLBACK_FAILED, errorCode := problem.value);
        ClosedTaskValid(record, byStep, task, problem.value);
        RollAdvances(sorted, byStep, k, failed, boxes, sandboxes, tenant, done);
        failed := failed || problem.value.Some?;
        byStep := byStep[task.stepId := done];
        k := k + 1;
      }
      RollEnds(record, byStep, failed, sandboxes, tenant);
      r := Ok(byStep);
    }

    /** `_rollback`. */
    method Rollback(record: Record, code: string) returns (r: Result<Record, EngineError>)
      requires workflows.Valid() && Aligned(record)
      modifies this`calls, this`ticks, this`sandboxes, this`change, workflows
      ensures workflows.Valid() && SameSnapshots(old(sandboxes), sandboxes)
      ensures r.Ok? ==>
                && (r.value.status.FAILED? || r.value.status.NEEDS_ATTENTION?) && r.value.plan == record.plan
                && r.value.lastErrorCode == Some(code) && r.value.completedAt.Some?
                && change == (if r.value.status.FAILED? then C.FAILED else C.NEEDS_ATTENTION)
                && Compensated(record, r.value.tasks, r.value.status.NEEDS_ATTENTION?, sandboxes, tenant)
      ensures r.Ok? && Reliable(network, old(calls)) && (forall t <- record.tasks :: OnFile(old(sandboxes), tenant, t)) ==>
                r.value.status.FAILED?
      ensures r.Err? ==> !r.error.DagProgressBlocked?
      ensures Held(old(workflows.workflows), clock, record) && (old(change) == C.EXECUTING || old(change) == C.VERIFYING)
              && (forall t <- record.tasks :: t.systemId in old(sandboxes)) ==>
                r.Ok?
    {
      hide Aligned, OnFile, Compensated, InOrder, SameSnapshots, Reliable, Held, Storable, ValidRecord, AllValid, C.CanTransition;
      RollbackEdges();
      SnapshotsStay(sandboxes, sandboxes, sandboxes);
      if change == C.EXECUTING || change == C.VERIFYING {
        var entered := Transition(C.ROLLING_BACK);
        if !entered { return Err(InvalidTransition); }
      }
      var marked := SetRuntimeStatus(record, ROLLING_BACK, Some(code));
      if marked.Err? { return marked; }
      if Held(old(workflows.workflows), clock, record) { HeldIsValid(old(workflows.workflows), clock, record); }
      var restored, failed := RestoreAll(record);
      if restored.Err? { return Err(restored.error); }
      RollStorable(record, marked.value, restored.value, workflows.workflows, clock);
      r := CloseRollback(marked.value, marked.value.(tasks := InOrder(record.tasks, restored.value)), failed, code);
    }

    /** The end of `_rollback`: store the tasks, then close the change and the record. */
    method CloseRollback(record: Record, restored: Record, failed: bool, code: string) returns (r: Result<Record, EngineError>)
      requires workflows.Valid()
      modifies this`ticks, this`change, workflows
      ensures workflows.Valid()
      ensures r.Ok? ==> SameWork(restored, r.value)
                        && r.value.status == (if failed then NEEDS_ATTENTION else FAILED)
                        && (!Terminal(restored.status) ==> r.value.lastErrorCode == Some(code) && r.value.completedAt.Some?)
                        && change == (if failed then C.NEEDS_ATTENTION else C.FAILED)
      ensures r.Err? ==> !r.error.DagProgressBlocked?
      ensures Held(old(workflows.workflows), clock, record) && Storable(record, restored) && !Terminal(restored.status)
              && old(change) == C.ROLLING_BACK ==>
                r.Ok?
    {
      hide Held, Storable, ValidRecord, C.CanTransition;
      RollbackEdges();
      var updated := UpdateRecord(record, restored);
      if updated.Err? { return updated; }
      var closed := Transition(if failed then C.NEEDS_ATTENTION else C.FAILED);
      if !closed { return Err(InvalidTransition); }
      r := MakeTerminal(updated.value, if failed then NEEDS_ATTENTION else FAILED, Some(code));
    }

    /** `_verify_task`: a lost answer is asked for again while attempts last. */
    method VerifyTask(step: Step) returns (r: Result<bool, CallError>)
      modifies this`calls, this`log
      ensures log == old(log) + [Verified(step.stepId, r == Ok(true))]
      ensures (r, calls) == if "new_field" !in step.arguments then (Err(CallError("VERIFICATION_ARGUMENT_MISSING", false)), old(calls))
                            else Checked(network, old(calls), 0, maximumAttempts)
    {
      if "new_field" !in step.arguments {
        log := log + [Verified(step.stepId, false)];
        return Err(CallError("VERIFICATION_ARGUMENT_MISSING", false));
      }
      var attempt := 0;
      while true
        modifies this`calls, this`log
        invariant log == old(log)
        invariant attempt > 0 ==> attempt < maximumAttempts
        invariant Checked(network, calls, attempt, maximumAttempts) == Checked(network, old(calls), 0, maximumAttempts)
        decreases maximumAttempts - attempt
      {
        attempt := attempt + 1;
        var reply := Call();
        if reply.Delivered? {
          log := log + [Verified(step.stepId, reply.passed)];
          return Ok(reply.passed);
        }
        if !ShouldRetry(maximumAttempts, reply.transient, attempt) {
          log := log + [Verified(step.stepId, false)];
          return Err(CallError(reply.code, reply.transient));
        }
      }
    }

    /** `_verify`: all systems are asked; the first task in order that did not pass names the error. */
    method Verify(record: Record) returns (error: Option<string>, ghost results: seq<Result<bool, CallError>>)
      requires Aligned(record)
      modifies this`calls, this`log
      ensures |results| == |record.tasks| && error == FirstProblem(record.tasks, results)
      ensures old(log) <= log && |log| == |old(log)| + |results|
      ensures forall j | 0 <= j < |results| :: log[|old(log)| + j] == Verified(record.tasks[j].stepId, results[j] == Ok(true))
      ensures error.None? <==> forall t <- record.tasks :: Verified(t.stepId, true) in log[|old(log)|..]
    {
      hide Aligned, ById, Ids, FirstProblem;
      AlignedFacts(record);
      error, results := None, [];
      NoProblem();
      var i := 0;
      ghost var verdicts: seq<Event> := [];
      while i < |record.tasks|
        modifies this`calls, this`log
        invariant 0 <= i <= |record.tasks| && |verdicts| == |results| == i && log == old(log) + verdicts
        invariant forall j | 0 <= j < i :: verdicts[j] == Verified(record.tasks[j].stepId, results[j] == Ok(true))
        invariant error == FirstProblem(record.tasks[..i], results)
        invariant error.None? <==> forall j | 0 <= j < i :: results[j] == Ok(true)
      {
        var task := record.tasks[i];
        StepOfTask(record, i);
        var result := VerifyTask(StepOf(record, task.stepId));
        NextProblem(record.tasks[..i], results, task, result);
        assert record.tasks[..i] + [task] == record.tasks[..i + 1];
        if error.None? && result.Err? { error := Some(result.error.code); }
        else if error.None? && !result.value { error := Some(Upper(task.systemId) + "_VERIFICATION_FAILED"); }
        verdicts, results := verdicts + [Verified(task.stepId, result == Ok(true))], results + [result];
        i := i + 1;
      }
      assert log[|old(log)|..] == verdicts && record.tasks[..i] == record.tasks;
      AllVerifiedIff(record, verdicts);
    }

    /** From the approval to the executed graph: status, snapshots, waves. */
    method Work(record: Record, ghost base: map<string, Configuration>) returns (r: Result<Record, EngineError>)
      requires Valid() && HasGraph(record) && Aligned(record)
      modifies this`calls, this`ticks, this`nextSnapshot, this`sandboxes, this`log, workflows
      ensures workflows.Valid() && sandboxes.Keys == SYSTEMS && old(log) <= log && NoVerdict(log[|old(log)|..])
      ensures r.Ok? ==> HasGraph(r.value) && Aligned(r.value) && Corresponding(record.tasks, r.value.tasks) && r.value.plan == record.plan
      ensures r.Ok? ==> Grown(old(sandboxes), sandboxes, tenant, record.plan.value.steps)
      ensures r.Ok? && Progressing(record.plan.value.steps, ByStep(record.tasks)) ==>
                Concluded(record.plan.value.steps, ByStep(r.value.tasks))
      ensures r.Ok? && AllTook(old(sandboxes), tenant, record.plan.value.steps, ByStep(record.tasks)) ==>
                AllTook(sandboxes, tenant, record.plan.value.steps, ByStep(r.value.tasks))
      ensures r.Ok? && Baseline(record.tasks, old(sandboxes), tenant, base) ==> HashesOf(r.value.tasks, base)
      ensures Progressing(record.plan.value.steps, ByStep(record.tasks)) ==> r != Err(DagProgressBlocked)
      ensures Startable(old(workflows.workflows), clock, record) ==>
                if r.Ok? then Held(workflows.workflows, clock, r.value) else r.error.SnapshotTransient? || r.error.SnapshotCaptureFailed?
    {
      hide NoVerdict, Aligned, Progressing, ValidRecord, Held, Baseline, HashesOf, Extends, AllCaptured, DagState, Fresh, Worked, Grown, AllTook, Concluded, InRounds, AllPending, WithStatus, WellFormed, Orderly, ByStep, Corresponding;
      NothingVerified();
      assert log[|old(log)|..] == [];
      var marked := SetRuntimeStatus(record, EXECUTING, None);
      if marked.Err? { return marked; }
      SameWorkAligned(record, marked.value);
      var captured := CaptureSnapshots(marked.value);
      if captured.Err? { return captured; }
      CaptureKeepsProgress(marked.value, captured.value, sandboxes, tenant);
      if Baseline(record.tasks, old(sandboxes), tenant, base) {
        CaptureRecordsBaseline(marked.value, captured.value, old(sandboxes), sandboxes, tenant, base);
      }
      ghost var boxes := sandboxes;
      ExtendsKeys(old(sandboxes), boxes, tenant);
      ghost var before := log;
      var rounds;
      r, rounds := ExecuteDag(captured.value);
      WorkedKeys(boxes, sandboxes, tenant, record.plan.value.steps);
      ExtendedThenWorked(old(sandboxes), boxes, sandboxes, tenant, record.plan.value.steps);
      if r.Ok? {
        CaptureKeepsTook(marked.value, captured.value, old(sandboxes), boxes, tenant);
        DagKeepsPlaces(captured.value, r.value, ByStep(r.value.tasks), log[|before|..], rounds);
        SystemsFollow(marked.value, captured.value, r.value);
        if HashesOf(captured.value.tasks, base) { HashesFollow(captured.value.tasks, r.value.tasks, base); }
      }
    }

    /** `resume_approval` once the change is EXECUTING. `base` is what every system held when it was captured. */
    method RunApproved(record: Record, ghost base: map<string, Configuration>) returns (r: Result<Record, EngineError>)
      requires Valid() && HasGraph(record) && Aligned(record)
      modifies this, workflows
      ensures workflows.Valid()
      ensures r.Ok? ==> r.value.status.COMPLETED? || r.value.status.FAILED? || r.value.status.NEEDS_ATTENTION?
      ensures r.Ok? && r.value.status.COMPLETED? ==>
                && change == C.COMPLETED && (forall t <- r.value.tasks :: !t.status.TASK_FAILED?)
                && Grown(old(sandboxes), sandboxes, tenant, record.plan.value.steps)
      ensures r.Ok? && r.value.status.COMPLETED? && Progressing(record.plan.value.steps, ByStep(record.tasks)) ==>
                forall t <- r.value.tasks :: t.status.SUCCEEDED?
      ensures r.Ok? && r.value.status.COMPLETED? && Progressing(record.plan.value.steps, ByStep(record.tasks))
              && AllTook(old(sandboxes), tenant, record.plan.value.steps, ByStep(record.tasks)) ==>
                forall t <- r.value.tasks ::
                  t.stepId in Ids(record.plan.value.steps) && Took(sandboxes, tenant, StepOf(record, t.stepId), t)
      ensures r.Ok? && r.value.status.COMPLETED? && Progressing(record.plan.value.steps, ByStep(record.tasks))
              && AllTook(old(sandboxes), tenant, record.plan.value.steps, ByStep(record.tasks)) ==>
                TookEffect(old(sandboxes), sandboxes, tenant, record.plan.value.steps)
      ensures old(log) <= log
      ensures r.Ok? ==> (r.value.status.COMPLETED? <==> forall t <- record.tasks :: Verified(t.stepId, true) in log[|old(log)|..])
      ensures r.Ok? ==> (r.value.status.COMPLETED? <==> r.value.lastErrorCode.None?)
      ensures r.Ok? && !r.value.status.COMPLETED? ==>
                (r.value.status.NEEDS_ATTENTION? <==> exists t <- r.value.tasks :: t.status.ROLLBACK_FAILED?)
      ensures r.Ok? && r.value.status.FAILED? && Baseline(record.tasks, old(sandboxes), tenant, base) ==>
                PutBack(record.tasks, sandboxes, tenant, base)
      ensures Progressing(record.plan.value.steps, ByStep(record.tasks)) ==> r != Err(DagProgressBlocked)
      ensures Startable(old(workflows.workflows), clock, record) && old(change) == C.EXECUTING && OnSystems(record.tasks) ==>
                r.Ok? || r.error.SnapshotTransient? || r.error.SnapshotCaptureFailed?
    {
      hide Grown, TookEffect, AllTook, Took, Concluded, ById, Ids, NoVerdict, Aligned, Progressing, ValidRecord, Held, OnSystems, PutBack, Baseline, HashesOf, WellFormed, ByStep, Corresponding, Fresh;
      var executed := Work(record, base);
      if executed.Err? { return executed; }
      ConcludedTasks(executed.value, sandboxes, tenant);
      ghost var worked := log;
      if exists t <- executed.value.tasks :: t.status.TASK_FAILED? {
        NoVerdictNoPass(record, log[|old(log)|..]);
        var code := if executed.value.lastErrorCode.Some? then executed.value.lastErrorCode.value else "TOOL_EXECUTION_FAILED";
        r := Compensate(record, executed.value, code, base, old(sandboxes));
        return;
      }
      if forall t <- executed.value.tasks ::
           t.stepId in Ids(executed.value.plan.value.steps) && Took(sandboxes, tenant, ById(executed.value.plan.value.steps, t.stepId), t) {
        GrownTookEffect(old(sandboxes), sandboxes, tenant, executed.value);
      }
      r := VerifyAndClose(record, executed.value, base, old(sandboxes));
      assert log[|old(log)|..] == worked[|old(log)|..] + log[|worked|..];
      VerdictsAdd(worked[|old(log)|..], log[|worked|..]);
      VerdictsAreLate(record, executed.value, worked[|old(log)|..], log[|worked|..]);
    }

    /** A run with no failed task: verify every system, then complete or compensate. */
    method VerifyAndClose(ghost record: Record, executed: Record, ghost base: map<string, Configuration>,
                          ghost start: map<string, Box>)
      returns (r: Result<Record, EngineError>)
      requires workflows.Valid() && sandboxes.Keys == SYSTEMS && Aligned(executed)
      requires Corresponding(record.tasks, executed.tasks)
      requires Baseline(record.tasks, start, tenant, base) ==> HashesOf(executed.tasks, base)
      modifies this`calls, this`ticks, this`sandboxes, this`change, this`log, workflows
      ensures workflows.Valid() && old(log) <= log
      ensures r.Ok? ==> r.value.status.COMPLETED? || r.value.status.FAILED? || r.value.status.NEEDS_ATTENTION?
      ensures r.Ok? && r.value.status.COMPLETED? ==>
                change == C.COMPLETED && r.value.tasks == executed.tasks && sandboxes == old(sandboxes)
      ensures r.Ok? ==> (r.value.status.COMPLETED? <==> r.value.lastErrorCode.None?)
      ensures r.Ok? ==> (r.value.status.COMPLETED? <==> forall t <- executed.tasks :: Verified(t.stepId, true) in log[|old(log)|..])
      ensures r.Ok? && !r.value.status.COMPLETED? ==>
                (r.value.status.NEEDS_ATTENTION? <==> exists t <- r.value.tasks :: t.status.ROLLBACK_FAILED?)
      ensures r.Ok? && r.value.status.FAILED? && Baseline(record.tasks, start, tenant, base) ==>
                PutBack(record.tasks, sandboxes, tenant, base)
      ensures r.Err? ==> !r.error.DagProgressBlocked?
      ensures Held(old(workflows.workflows), clock, executed) && old(change) == C.EXECUTING && OnSystems(record.tasks) ==>
                r.Ok?
    {
      hide Aligned, ValidRecord, Held, OnSystems, PutBack, Baseline, HashesOf, Corresponding, C.CanTransition;
      ClosingEdges();
      var entered := Transition(C.VERIFYING);
      if !entered { return Err(InvalidTransition); }
      var verifying := SetRuntimeStatus(executed, VERIFYING, None);
      if verifying.Err? { return verifying; }
      SameWorkAligned(executed, verifying.value);
      var error, results := Verify(verifying.value);
      if error.Some? {
        r := Compensate(record, verifying.value, error.value, base, start);
        return;
      }
      var closed := Transition(C.COMPLETED);
      if !closed { return Err(InvalidTransition); }
      r := MakeTerminal(verifying.value, COMPLETED, None);
    }

    /** `_rollback` of a record whose snapshots were captured from `record`'s systems. */
    method Compensate(ghost record: Record, executed: Record, code: string, ghost base: map<string, Configuration>,
                      ghost start: map<string, Box>)
      returns (r: Result<Record, EngineError>)
      requires workflows.Valid() && sandboxes.Keys == SYSTEMS && Aligned(executed)
      requires Corresponding(record.tasks, executed.tasks)
      requires Baseline(record.tasks, start, tenant, base) ==> HashesOf(executed.tasks, base)
      modifies this`calls, this`ticks, this`sandboxes, this`change, workflows
      ensures workflows.Valid()
      ensures r.Ok? ==> (r.value.status.FAILED? || r.value.status.NEEDS_ATTENTION?) && r.value.lastErrorCode == Some(code)
      ensures r.Ok? ==> (r.value.status.NEEDS_ATTENTION? <==> exists t <- r.value.tasks :: t.status.ROLLBACK_FAILED?)
      ensures r.Ok? && r.value.status.FAILED? && Baseline(record.tasks, start, tenant, base) ==>
                PutBack(record.tasks, sandboxes, tenant, base)
      ensures r.Err? ==> !r.error.DagProgressBlocked?
      ensures Held(old(workflows.workflows), clock, executed) && (old(change) == C.EXECUTING || old(change) == C.VERIFYING)
              && OnSystems(record.tasks) ==>
                r.Ok?
    {
      hide Held, HashesOf, SameSnapshots, Current, WellFormed, RestoredTo, FirstOnSystem, OrderOf;
      ghost var boxes := sandboxes;
      r := Rollback(executed, code);
      SameSnapshotsKeys(boxes, sandboxes);
      if r.Ok? && r.value.status.FAILED? && Baseline(record.tasks, start, tenant, base) {
        CompensationRestores(record, executed, r.value.tasks, sandboxes, tenant, base);
      }
    }
  }

  function Upper(s: string): string {
    seq(|s|, i requires 0 <= i < |s| => if 'a' <= s[i] <= 'z' then (s[i] as int - 32) as char else s[i])
  }

  lemma StepOfTask(record: Record, i: nat)
    requires Aligned(record) && i < |record.tasks|
    ensures record.plan.Some? && record.tasks[i].stepId in Ids(record.plan.value.steps)
    ensures StepOf(record, record.tasks[i].stepId).stepId == record.tasks[i].stepId
  {
    hide WellFormed;
    AlignedFacts(record);
    assert record.tasks[i] in record.tasks;
    DependencyFacts(record.plan.value.steps, record.tasks[i].stepId);
  }

  lemma AllVerifiedIff(record: Record, verdicts: seq<Event>)
    requires Aligned(record) && |verdicts| == |record.tasks|
    requires forall j | 0 <= j < |verdicts| :: verdicts[j].Verified? && verdicts[j].stepId == record.tasks[j].stepId
    ensures (forall j | 0 <= j < |verdicts| :: verdicts[j].ok)
            <==> forall t <- record.tasks :: Verified(t.stepId, true) in verdicts
  {
    hide WellFormed;
    AlignedFacts(record);
    if forall j | 0 <= j < |verdicts| :: verdicts[j].ok {
      forall t | t in record.tasks ensures Verified(t.stepId, true) in verdicts {
        var j :| 0 <= j < |record.tasks| && record.tasks[j] == t;
        assert verdicts[j] == Verified(t.stepId, true);
      }
    }
    if forall t <- record.tasks :: Verified(t.stepId, true) in verdicts {
      forall j | 0 <= j < |verdicts| ensures verdicts[j].ok {
        assert record.tasks[j] in record.tasks;
        var m :| 0 <= m < |verdicts| && verdicts[m] == Verified(record.tasks[j].stepId, true);
        assert record.tasks[m].stepId == record.tasks[j].stepId;
      }
    }
  }

  ghost predicate Corresponding(a: seq<Task>, b: seq<Task>) {
    |a| == |b| && forall i | 0 <= i < |a| :: a[i].stepId == b[i].stepId && a[i].systemId == b[i].systemId
  }

  lemma SameWorkAligned(a: Record, b: Record)
    requires SameWork(a, b)
    ensures Aligned(a) ==> Aligned(b)
    ensures HasGraph(a) && ValidRecord(b) ==> HasGraph(b)
  {
  }

  lemma ExtendsKeys(a: map<string, Box>, b: map<string, Box>, tenant: string)
    requires Extends(a, b, tenant)
    ensures a.Keys == b.Keys
  {
  }

  lemma SameSnapshotsKeys(a: map<string, Box>, b: map<string, Box>)
    requires SameSnapshots(a, b)
    ensures a.Keys == b.Keys
  {
  }

  lemma NoVerdictNoPass(record: Record, log: seq<Event>)
    requires Aligned(record) && NoVerdict(log)
    ensures !forall t <- record.tasks :: Verified(t.stepId, true) in log
  {
    hide WellFormed;
    AlignedFacts(record);
    assert record.tasks[0] in record.tasks;
  }

  lemma VerdictsAreLate(record: Record, verifying: Record, worked: seq<Event>, verdicts: seq<Event>)
    requires Corresponding(record.tasks, verifying.tasks) && NoVerdict(worked)
    ensures (forall t <- record.tasks :: Verified(t.stepId, true) in worked + verdicts)
            <==> forall t <- verifying.tasks :: Verified(t.stepId, true) in verdicts
  {
    if forall t <- record.tasks :: Verified(t.stepId, true) in worked + verdicts {
      forall t | t in verifying.tasks ensures Verified(t.stepId, true) in verdicts {
        var i :| 0 <= i < |verifying.tasks| && verifying.tasks[i] == t;
        assert record.tasks[i] in record.tasks;
      }
    }
    if forall t <- verifying.tasks :: Verified(t.stepId, true) in verdicts {
      forall t | t in record.tasks ensures Verified(t.stepId, true) in worked + verdicts {
        var i :| 0 <= i < |record.tasks| && record.tasks[i] == t;
        assert verifying.tasks[i] in verifying.tasks;
      }
    }
  }

  lemma SystemsFollow(record: Record, captured: Record, executed: Record)
    requires Corresponding(record.tasks, captured.tasks) && |executed.tasks| == |captured.tasks|
    requires forall i | 0 <= i < |captured.tasks| :: SamePlace(captured.tasks[i], executed.tasks[i])
    ensures Corresponding(record.tasks, executed.tasks)
  {
  }

  /** Each system's table and configuration have gained patches for steps carried out on it, and nothing else. */
  ghost predicate Grown(a: map<string, Box>, b: map<string, Box>, tenant: string, steps: seq<Step>) {
    a.Keys == b.Keys && forall system <- a :: Grew(a[system], b[system], tenant, KeysOn(steps, system))
  }

  /** Every system with a step not yet recorded holds the new field of one of its steps; every other is as it was. */
  ghost predicate TookEffect(a: map<string, Box>, b: map<string, Box>, tenant: string, steps: seq<Step>) {
    a.Keys == b.Keys && forall system <- a ::
      if exists step <- steps :: On(step, system) && Unrecorded(a[system], tenant, step)
      then HoldsAStepsField(b[system], tenant, steps, system)
      else Current(b[system], tenant) == Current(a[system], tenant)
  }

  lemma GrownTookEffect(a: map<string, Box>, b: map<string, Box>, tenant: string, record: Record)
    requires Aligned(record) && Grown(a, b, tenant, record.plan.value.steps)
    requires forall t <- record.tasks ::
               t.stepId in Ids(record.plan.value.steps) && Took(b, tenant, ById(record.plan.value.steps, t.stepId), t)
    ensures TookEffect(a, b, tenant, record.plan.value.steps)
  {
    hide WellFormed, Took, Grew, HoldsAStepsField, Current;
    var steps := record.plan.value.steps;
    forall i | 0 <= i < |steps| ensures Took(b, tenant, steps[i], record.tasks[i]) {
      assert record.tasks[i] in record.tasks;
      StepAt(steps, i);
    }
    forall system | system in a
      ensures if exists step <- steps :: On(step, system) && Unrecorded(a[system], tenant, step)
              then HoldsAStepsField(b[system], tenant, steps, system)
              else Current(b[system], tenant) == Current(a[system], tenant)
    {
      RecordedStepsHold(a[system], b[system], tenant, steps, system, b, record.tasks);
    }
  }

  lemma StepAt(steps: seq<Step>, i: nat)
    requires WellFormed(steps) && i < |steps|
    ensures steps[i].stepId in Ids(steps) && ById(steps, steps[i].stepId) == steps[i]
  {
    ByIdFinds(steps, i);
  }

  lemma ExtendedThenWorked(a: map<string, Box>, b: map<string, Box>, c: map<string, Box>, tenant: string, steps: seq<Step>)
    requires Extends(a, b, tenant) && Worked(b, c, tenant, steps)
    ensures Grown(a, c, tenant, steps)
  {
    hide Grew, KeysOn;
    forall system | system in a ensures Grew(a[system], c[system], tenant, KeysOn(steps, system)) {
      NothingEffected(a[system], b[system], tenant, KeysOn(steps, system));
      GrewOn(a[system], b[system], c[system], tenant, KeysOn(steps, system));
    }
  }

  lemma CaptureKeepsTook(before: Record, after: Record, a: map<string, Box>, b: map<string, Box>, tenant: string)
    requires HasGraph(before) && Aligned(before) && AllCaptured(before, after, b, tenant) && Extends(a, b, tenant)
    ensures AllTook(a, tenant, before.plan.value.steps, ByStep(before.tasks)) ==>
              AllTook(b, tenant, before.plan.value.steps, ByStep(after.tasks))
  {
    hide ValidRecord, WellFormed, OnFile, Ids, ById, ByStep, PatchOf, SystemForTool, Answers;
    AlignedFacts(before);
    AlignedFacts(after);
    var steps := before.plan.value.steps;
    if AllTook(a, tenant, steps, ByStep(before.tasks)) {
      forall id | id in ByStep(after.tasks) && ByStep(after.tasks)[id].status.SUCCEEDED?
        ensures id in Ids(steps) && Took(b, tenant, ById(steps, id), ByStep(after.tasks)[id])
      {
        var i :| 0 <= i < |after.tasks| && after.tasks[i] == ByStep(after.tasks)[id];
        ByStepFinds(before.tasks, i);
        ByStepFinds(after.tasks, i);
        assert Took(a, tenant, ById(steps, id), before.tasks[i]);
      }
    }
  }

  /** Snapshots change nothing about which steps are pending or have succeeded. */
  lemma CaptureKeepsProgress(before: Record, after: Record, boxes: map<string, Box>, tenant: string)
    requires HasGraph(before) && Aligned(before) && ValidRecord(after) && AllCaptured(before, after, boxes, tenant)
    ensures HasGraph(after) && Aligned(after) && Corresponding(before.tasks, after.tasks) && after.plan == before.plan
    ensures Progressing(before.plan.value.steps, ByStep(before.tasks)) ==> Progressing(after.plan.value.steps, ByStep(after.tasks))
  {
    hide ValidRecord, WellFormed, OnFile, Ids, ByStep, DependencyClosed;
    AlignedFacts(before);
    AlignedFacts(after);
    var a, b := ByStep(before.tasks), ByStep(after.tasks);
    forall id | id in a ensures a[id].status == b[id].status {
      var i :| 0 <= i < |before.tasks| && before.tasks[i] == a[id];
      ByStepFinds(before.tasks, i);
      ByStepFinds(after.tasks, i);
    }
    assert WithStatus(a, SUCCEEDED) == WithStatus(b, SUCCEEDED);
  }

  lemma {:induction false} FirstExists(steps: seq<Step>, tasks: seq<Task>, t: Task) returns (u: Task)
    requires t in tasks && forall v <- tasks :: OrderOf(steps, v) >= 0
    ensures u in tasks && u.systemId == t.systemId && FirstOnSystem(steps, tasks, u)
    decreases OrderOf(steps, t)
  {
    hide OrderOf;
    if FirstOnSystem(steps, tasks, t) {
      u := t;
    } else {
      var v :| v in tasks && v.systemId == t.systemId && OrderOf(steps, v) < OrderOf(steps, t);
      u := FirstExists(steps, tasks, v);
    }
  }

  lemma OrdersArePositive(record: Record)
    requires Aligned(record)
    ensures forall t <- record.tasks :: OrderOf(record.plan.value.steps, t) >= 0
  {
    forall t | t in record.tasks ensures OrderOf(record.plan.value.steps, t) >= 0 {
      if t.stepId in Ids(record.plan.value.steps) { DependencyFacts(record.plan.value.steps, t.stepId); }
    }
  }

  lemma CompensationRestores(record: Record, executed: Record, tasks: seq<Task>, boxes: map<string, Box>, tenant: string,
                             base: map<string, Configuration>)
    requires Aligned(executed) && Corresponding(record.tasks, executed.tasks)
    requires Compensated(executed, tasks, false, boxes, tenant)
    requires HashesOf(executed.tasks, base) && base.Keys == boxes.Keys
    ensures PutBack(record.tasks, boxes, tenant, base)
  {
    hide FirstOnSystem, OrderOf, WellFormed;
    OrdersArePositive(executed);
    forall t | t in record.tasks
      ensures t.systemId in boxes && t.systemId in base && Current(boxes[t.systemId], tenant) == base[t.systemId]
    {
      var i :| 0 <= i < |record.tasks| && record.tasks[i] == t;
      var u := FirstExists(executed.plan.value.steps, executed.tasks, executed.tasks[i]);
      assert RestoredTo(u, boxes, tenant);
    }
  }

  /** Same plan, same tasks, same approval. */
  predicate SameWork(a: Record, b: Record) {
    b.plan == a.plan && b.tasks == a.tasks && b.approvalId == a.approvalId
  }

  lemma ReliableLater(network: nat -> Reply, from: nat)
    ensures forall later: nat | later >= from && Reliable(network, from) :: Reliable(network, later)
  {
  }

  lemma RollStarts(record: Record, boxes: map<string, Box>, tenant: string)
    requires Aligned(record)
    ensures record.plan.Some? && DistinctIds(SortedDown(record.plan.value.steps, record.tasks))
    ensures forall t :: t in SortedDown(record.plan.value.steps, record.tasks) <==> t in record.tasks
    ensures RollState(SortedDown(record.plan.value.steps, record.tasks), ByStep(record.tasks), 0, false, boxes, tenant)
  {
    hide SortedDown, WellFormed, ByStep;
    AlignedFacts(record);
    SortedIsDistinct(record.plan.value.steps, record.tasks);
    SortedDownSorts(record.plan.value.steps, record.tasks);
  }

  lemma UntouchedTwice(a: map<string, Box>, b: map<string, Box>, c: map<string, Box>, system: string)
    ensures OthersUntouched(a, a, system)
    ensures OthersUntouched(a, b, system) && OthersUntouched(b, c, system) ==> OthersUntouched(a, c, system)
  {
  }

  lemma OnFileMeans(boxes: map<string, Box>, tenant: string, t: Task)
    ensures OnFile(boxes, tenant, t) ==> t.snapshotId.Some? && t.snapshotHash.Some? && t.systemId in boxes
  {
  }

  lemma HeldStorable(m: map<RecordKey, Record>, clock: nat -> Time, record: Record, status: RuntimeStatus, code: Option<string>,
                     completed: Option<Time>)
    ensures Held(m, clock, record) && (Terminal(status) <==> completed.Some?) ==>
              && Storable(record, record.(status := status, lastErrorCode := code, completedAt := completed))
              && record.completedAt.None?
    ensures record.completedAt.None? ==> record.(completedAt := None) == record
  {
    if Held(m, clock, record) && (Terminal(status) <==> completed.Some?) { StatusStorable(record, status, code, completed); }
  }

  lemma HeldIsValid(m: map<RecordKey, Record>, clock: nat -> Time, record: Record)
    requires Held(m, clock, record)
    ensures ValidRecord(record)
  {
  }

  lemma ClosingEdges()
    ensures C.CanTransition(C.EXECUTING, C.VERIFYING) && C.CanTransition(C.VERIFYING, C.COMPLETED)
  {
  }

  lemma RollbackEdges()
    ensures C.CanTransition(C.EXECUTING, C.ROLLING_BACK) && C.CanTransition(C.VERIFYING, C.ROLLING_BACK)
    ensures C.CanTransition(C.ROLLING_BACK, C.FAILED) && C.CanTransition(C.ROLLING_BACK, C.NEEDS_ATTENTION)
  {
  }

  lemma ClosedTaskValid(record: Record, byStep: map<string, Task>, task: Task, problem: Option<string>)
    requires task in record.tasks
    ensures ValidRecord(record) && AllValid(byStep) ==>
              AllValid(byStep[task.stepId := if problem.None? then task.(status := ROLLED_BACK, errorCode := None)
                                             else task.(status := ROLLBACK_FAILED, errorCode := problem)])
  {
  }

  lemma RollStorable(record: Record, marked: Record, byStep: map<string, Task>, m: map<RecordKey, Record>, clock: nat -> Time)
    requires record.plan.Some? && SameWork(record, marked)
    requires forall t <- record.tasks :: t.stepId in byStep && byStep[t.stepId].stepId == t.stepId
    ensures Held(m, clock, marked) && AllValid(byStep) ==>
              !Terminal(marked.status) && Storable(marked, marked.(tasks := InOrder(record.tasks, byStep)))
  {
    hide InOrder, Storable, ValidRecord;
    if Held(m, clock, marked) && AllValid(byStep) {
      TasksStorable(marked, byStep, marked.lastErrorCode);
      assert marked.(tasks := InOrder(record.tasks, byStep), lastErrorCode := marked.lastErrorCode)
             == marked.(tasks := InOrder(record.tasks, byStep));
    }
  }

  lemma CaptureStorable(record: Record, byStep: map<string, Task>, boxes: map<string, Box>, tenant: string,
                        m: map<RecordKey, Record>, clock: nat -> Time)
    requires Aligned(record) && CaptureState(record.tasks, byStep, |record.tasks|, boxes, tenant)
    requires forall t <- record.tasks :: t.stepId in byStep
    ensures Held(m, clock, record) ==>
              !Terminal(record.status) && Storable(record, record.(tasks := InOrder(record.tasks, byStep)))
  {
    hide InOrder, Storable, WellFormed, OnFile;
    if Held(m, clock, record) {
      forall t | t in record.tasks ensures byStep[t.stepId].stepId == t.stepId && ValidTask(byStep[t.stepId]) {
        var i :| 0 <= i < |record.tasks| && record.tasks[i] == t;
        assert CapturedFrom(t, byStep[t.stepId], boxes, tenant) && ValidTask(t);
      }
      TasksStorable(record, byStep, record.lastErrorCode);
      assert record.(tasks := InOrder(record.tasks, byStep), lastErrorCode := record.lastErrorCode)
             == record.(tasks := InOrder(record.tasks, byStep));
    }
  }

  lemma WaveStorable(current: Record, byStep: map<string, Task>, results: map<string, Task>, maximumAttempts: nat,
                     m: map<RecordKey, Record>, clock: nat -> Time, code: Option<string>)
    requires current.plan.Some? && (forall t <- current.tasks :: t.stepId in byStep) && results.Keys <= byStep.Keys
    requires forall id <- byStep :: byStep[id].stepId == id
    requires forall id <- results :: FinishedFrom(byStep[id], results[id], maximumAttempts)
    ensures forall t <- current.tasks :: t.stepId in byStep + results
    ensures Held(m, clock, current) && AllValid(byStep) ==>
              && AllValid(byStep + results) && !Terminal(current.status)
              && Storable(current, current.(tasks := InOrder(current.tasks, byStep + results), lastErrorCode := code))
  {
    hide InOrder, Storable, ValidRecord;
    if Held(m, clock, current) && AllValid(byStep) {
      TasksStorable(current, byStep + results, code);
    }
  }

  lemma WaveIsOrderlyToo(record: Record, current: Record, byStep: map<string, Task>, log: seq<Event>, rounds: nat,
                         wave: seq<Event>, results: map<string, Task>)
    requires HasGraph(record) && DagState(record, current, byStep, log, rounds)
    requires WithStatus(byStep, PENDING) <= Ids(record.plan.value.steps)
    requires results.Keys == Ready(record.plan.value.steps, WithStatus(byStep, PENDING), WithStatus(byStep, SUCCEEDED))
    requires WaveLog(wave, rounds + 1, results.Keys, results)
    ensures Orderly(record.plan.value.steps, ByStep(record.tasks), log + wave)
  {
    hide Agree, Closes, OnTime, WaveLog, DagInv, Ready, Orderly;
    GraphKeys(record);
    WaveIsOrderly(record.plan.value.steps, ByStep(record.tasks), byStep, log, wave, rounds + 1, results);
  }

  lemma GraphTasksValid(record: Record)
    requires HasGraph(record)
    ensures AllValid(ByStep(record.tasks))
  {
    HeldTasksValid(record);
  }

  lemma FailsLikeItself(tasks: map<string, Task>)
    ensures NoNewFailure(tasks, tasks)
  {
  }

  lemma SnapshotsStay(a: map<string, Box>, b: map<string, Box>, c: map<string, Box>)
    ensures SameSnapshots(a, a)
    ensures SameSnapshots(a, b) && SameSnapshots(b, c) ==> SameSnapshots(a, c)
  {
  }

  lemma AppliedKeepsSnapshots(b: Box, tenant: string, q: FieldPatchRequest)
    ensures Applied(b, tenant, q).0.snapshots == b.snapshots
  {
  }

  lemma WaveLogStarts(round: nat, results: map<string, Task>)
    requires results == map[]
    ensures WaveLog([], round, results.Keys, results)
  {
  }

  lemma WaveLogGrows(log: seq<Event>, round: nat, results: map<string, Task>, id: string, done: Task)
    requires WaveLog(log, round, results.Keys, results) && id !in results
    ensures results[id := done].Keys == results.Keys + {id}
    ensures WaveLog(log + [Issued(round, id), Finished(id, done.status.SUCCEEDED?)], round, results[id := done].Keys,
                    results[id := done])
  {
    assert results[id := done].Keys == results.Keys + {id};
    var all := log + [Issued(round, id), Finished(id, done.status.SUCCEEDED?)];
    assert all[|log|] == Issued(round, id) && all[|log| + 1] == Finished(id, done.status.SUCCEEDED?);
  }

  // ---------------------------------------------------------------- what `ExecuteDag` established

  /** The successes are closed under dependencies, and everything has succeeded or something has failed. */
  ghost predicate Concluded(steps: seq<Step>, tasks: map<string, Task>) {
    && DependencyClosed(steps, WithStatus(tasks, SUCCEEDED))
    && (WithStatus(tasks, SUCCEEDED) == Ids(steps) || WithStatus(tasks, TASK_FAILED) != {})
  }

  /** Each step was started in the round of its depth, and the rounds are as many as the plan's longest chain has steps. */
  ghost predicate InRounds(steps: seq<Step>, log: seq<Event>, rounds: nat) {
    && WellFormed(steps) && LongestChain(steps, rounds)
    && (forall e <- log :: e.Issued? ==> e.stepId in Ids(steps) && e.round == Depth(steps, e.stepId))
    && forall id <- Ids(steps) :: Issued(Depth(steps, id), id) in log
  }

  /** From a closed start the run ends with every step succeeded, or with a failure and the successes still closed. */
  lemma DagOutcome(record: Record, current: Record, byStep: map<string, Task>, log: seq<Event>, rounds: nat)
    requires HasGraph(record) && DagState(record, current, byStep, log, rounds)
    requires Progressing(record.plan.value.steps, ByStep(record.tasks))
    requires WithStatus(byStep, PENDING) == {} || WithStatus(byStep, TASK_FAILED) != {}
    ensures Concluded(record.plan.value.steps, byStep)
  {
    hide WellFormed, DependencyClosed, DagInv, OnTime, Agree;
    var steps := record.plan.value.steps;
    if WithStatus(byStep, TASK_FAILED) == {} {
      forall id | id in byStep ensures id in WithStatus(byStep, SUCCEEDED) {
        assert id !in WithStatus(byStep, PENDING);
      }
    }
  }

  /** With everything pending and nothing failing, each step runs in the round of its depth; the rounds are the longest chain. */
  lemma ScheduleIsOptimal(record: Record, current: Record, byStep: map<string, Task>, log: seq<Event>, rounds: nat)
    requires HasGraph(record) && DagState(record, current, byStep, log, rounds)
    requires AllPending(ByStep(record.tasks))
    requires WithStatus(byStep, PENDING) == {} && WithStatus(byStep, TASK_FAILED) == {}
    ensures InRounds(record.plan.value.steps, log, rounds)
  {
    hide WellFormed, DagInv, Closes, Agree, LongestChain, Depth;
    var steps := record.plan.value.steps;
    forall id | id in Ids(steps) ensures id in UpToDepth(steps, rounds) {
      assert id !in WithStatus(byStep, PENDING);
    }
    assert UpToDepth(steps, rounds) == Ids(steps);
    LastDepthIsLongestChain(steps, rounds);
  }

  lemma DagConcludes(record: Record, current: Record, byStep: map<string, Task>, log: seq<Event>, rounds: nat)
    requires HasGraph(record) && DagState(record, current, byStep, log, rounds)
    requires WithStatus(byStep, PENDING) == {} || WithStatus(byStep, TASK_FAILED) != {}
    ensures Progressing(record.plan.value.steps, ByStep(record.tasks)) ==> Concluded(record.plan.value.steps, byStep)
    ensures AllPending(ByStep(record.tasks)) && WithStatus(byStep, TASK_FAILED) == {} ==>
              InRounds(record.plan.value.steps, log, rounds)
  {
    hide HasGraph, DagState, Progressing, Concluded, InRounds, AllPending, ByStep, WithStatus;
    GraphKeys(record);
    if Progressing(record.plan.value.steps, ByStep(record.tasks)) { DagOutcome(record, current, byStep, log, rounds); }
    if AllPending(ByStep(record.tasks)) && WithStatus(byStep, TASK_FAILED) == {} {
      ScheduleIsOptimal(record, current, byStep, log, rounds);
    }
  }

  /** The tasks stored are the run's dictionary. */
  lemma DictionaryIsStored(record: Record, current: Record, byStep: map<string, Task>, log: seq<Event>, rounds: nat)
    requires HasGraph(record) && DagState(record, current, byStep, log, rounds)
    ensures ByStep(current.tasks) == byStep
  {
    hide DagInv, OnTime, Closes, WellFormed, ValidRecord;
    if rounds > 0 { DictionaryInOrder(record.tasks, byStep); }
  }

  lemma {:induction false} DictionaryInOrder(tasks: seq<Task>, byStep: map<string, Task>)
    requires forall t <- tasks :: t.stepId in byStep && byStep[t.stepId].stepId == t.stepId
    ensures ByStep(InOrder(tasks, byStep)) == map id | id in TaskIds(tasks) :: byStep[id]
  {
    if tasks != [] {
      var init, last := tasks[..|tasks| - 1], tasks[|tasks| - 1];
      DictionaryInOrder(init, byStep);
      LastInOrder(tasks, byStep);
      LastTaskId(tasks);
      hide InOrder, TaskIds;
    }
  }

  lemma LastTaskId(tasks: seq<Task>)
    requires tasks != []
    ensures TaskIds(tasks) == TaskIds(tasks[..|tasks| - 1]) + {tasks[|tasks| - 1].stepId}
  {
    assert tasks == tasks[..|tasks| - 1] + [tasks[|tasks| - 1]];
  }

  lemma LastInOrder(tasks: seq<Task>, byStep: map<string, Task>)
    requires tasks != [] && forall t <- tasks :: t.stepId in byStep
    ensures var n := |tasks| - 1;
            InOrder(tasks, byStep)[n] == byStep[tasks[n].stepId] && InOrder(tasks, byStep)[..n] == InOrder(tasks[..n], byStep)
  {
  }
}
