/** What every reachable state of the saga satisfies, stated as what each event of the log may rely on. */
module SagaInvariant {
  import opened Common
  import opened Plans
  import opened Workflows
  import opened Saga
  import C = ChangeState

  // ---------------------------------------------------------------- facts about a log

  ghost predicate EnteredStatus(log: seq<Event>, status: C.Status) {
    exists e <- log :: e.Entered? && e.change.status == status
  }

  /** `resume_approval` may act on APPROVED or EXECUTING only after an approval. */
  ghost predicate Seen(log: seq<Event>, status: C.Status) {
    status == C.EXECUTING || status == C.APPROVED ==> EnteredStatus(log, C.APPROVED)
  }

  predicate AllSnapshots(r: Record) {
    r.plan.Some? && forall t <- r.tasks :: t.snapshotId.Some?
  }

  predicate NothingExecuted(log: seq<Event>) {
    forall e <- log :: !e.ExecuteIssued?
  }

  /** The snapshot exists and nothing had been executed when it was taken. */
  ghost predicate TakenBeforeExecution(log: seq<Event>, id: nat) {
    exists k :: 0 <= k < |log| && log[k].SnapshotTaken? && log[k].id == id && NothingExecuted(log[..k])
  }

  /** A verification of the step passed after a record with exactly these tasks was stored. */
  ghost predicate VerifiedAfter(log: seq<Event>, tasks: seq<Task>, stepId: string) {
    exists j, k :: 0 <= j < k < |log| && log[j].Stored? && log[j].record.tasks == tasks && log[k] == VerifyPassed(stepId)
  }

  ghost predicate AllVerified(log: seq<Event>, tasks: seq<Task>) {
    forall t <- tasks :: VerifiedAfter(log, tasks, t.stepId)
  }

  /** Some stored record had exactly these tasks. */
  ghost predicate WasStored(log: seq<Event>, tasks: seq<Task>) {
    exists e <- log :: e.Stored? && e.record.tasks == tasks
  }

  predicate Rolled(t: Task) {
    t.status.ROLLED_BACK? || t.status.ROLLBACK_FAILED?
  }

  predicate SameTask(a: Task, b: Task) {
    a.stepId == b.stepId && a.systemId == b.systemId
  }

  predicate KeepsSnapshot(a: Task, b: Task) {
    SameTask(a, b) && (a.snapshotId.Some? ==> b.snapshotId == a.snapshotId && b.snapshotHash == a.snapshotHash)
  }

  predicate SameIdentity(a: Record, b: Record) {
    a.tenantId == b.tenantId && a.changeId == b.changeId && a.workflowId == b.workflowId && a.eventId == b.eventId
  }

  /** What an earlier stored version fixes for every later one. */
  ghost predicate Persists(a: Record, b: Record) {
    && SameIdentity(a, b)
    && a.version <= b.version
    && (a.version == b.version ==> a == b)
    && (a.plan.Some? ==> b.plan == a.plan && b.planHash == a.planHash && b.approvalId == a.approvalId
                         && |b.tasks| == |a.tasks|
                         && forall i | 0 <= i < |a.tasks| :: KeepsSnapshot(a.tasks[i], b.tasks[i]))
    && (a.completedAt.Some? ==> b.completedAt.Some?)
    && (Closed(a.status) ==> a == b)
  }

  /** Tasks follow the plan's steps position by position. */
  ghost predicate Aligned(r: Record) {
    r.plan.Some? ==>
      && r.approvalId.Some? && r.approvalExpiresAt.Some?
      && ValidateStepGraph(r.plan.value.steps).Ok?
      && |r.tasks| == |r.plan.value.steps|
      && forall i | 0 <= i < |r.tasks| :: r.tasks[i].stepId == r.plan.value.steps[i].stepId
  }

  ghost predicate RecordOk(supported: bool, log: seq<Event>, r: Record) {
    && ValidRecord(r) && Aligned(r) && SameIdentity(r, EMPTY_RECORD)
    && (forall t <- r.tasks :: !t.status.RUNNING?)
    && (forall t <- r.tasks :: t.snapshotId.Some? ==> TakenBeforeExecution(log, t.snapshotId.value))
    && (!supported ==> r.plan.None? && (r.status.RECEIVED? || r.status.DEAD_LETTERED?))
    && (r.status.COMPLETED? ==> exists loaded :: Completing(loaded, r) in log)
  }

  ghost predicate CompletionOk(log: seq<Event>, loaded: seq<Task>, r: Record) {
    && r.status.COMPLETED? && r.plan.Some? && WasStored(log, loaded)
    && EnteredStatus(log, C.COMPLETED)
    && AllVerified(log, r.tasks)
    && ((forall t <- r.tasks :: t.status.SUCCEEDED?) <==> (forall t <- loaded :: !Rolled(t)))
  }

  ghost predicate EventOk(supported: bool, before: seq<Event>, e: Event) {
    match e
    case Entered(c) =>
      && (c.status == C.EXECUTING ==> EnteredStatus(before, C.APPROVED))
      && (c.status == C.APPROVED ==> EnteredStatus(before, C.AWAITING_APPROVAL))
      && (forall p <- before :: p.Entered? ==> p.change.version < c.version)
      && (c.planHash.Some? ==> exists p <- before :: p.Stored? && p.record.planHash == c.planHash)
    case Stored(r) =>
      RecordOk(supported, before, r) && (forall p <- before :: p.Stored? ==> Persists(p.record, r) && p.record.version < r.version)
    case SnapshotTaken(id, _, _) => forall p <- before :: p.SnapshotTaken? ==> p.id < id
    case ExecuteIssued(_) => exists p <- before :: p.Stored? && AllSnapshots(p.record)
    case VerifyPassed(_) => true
    case Completing(loaded, r) => CompletionOk(before, loaded, r)
  }

  ghost predicate LogOk(supported: bool, log: seq<Event>) {
    forall i | 0 <= i < |log| :: EventOk(supported, log[..i], log[i])
  }

  // ---------------------------------------------------------------- facts about a run

  /** The run's copy is some stored version. */
  predicate Known(log: seq<Event>, r: Record) {
    Stored(r) in log
  }

  ghost predicate Working(log: seq<Event>, r: Record) {
    Known(log, r) && !Closed(r.status) && r.plan.Some?
  }

  /** A task list derived from the loaded one keeps who was rolled back. */
  ghost predicate Follows(loaded: seq<Task>, tasks: seq<Task>) {
    |loaded| == |tasks| && forall i | 0 <= i < |tasks| :: Rolled(loaded[i]) <==> Rolled(tasks[i])
  }

  ghost predicate Executing(log: seq<Event>, r: Record, loaded: seq<Task>) {
    Working(log, r) && Follows(loaded, r.tasks) && WasStored(log, loaded) && EnteredStatus(log, C.APPROVED)
  }

  ghost predicate Settled(r: Record) {
    forall t <- r.tasks :: t.status.SUCCEEDED? || Rolled(t)
  }

  ghost predicate ResultOk(before: Task, after: Task) {
    && SameTask(before, after) && after.snapshotId == before.snapshotId && after.snapshotHash == before.snapshotHash
    && ValidTask(after) && (after.status.SUCCEEDED? || after.status.TASK_FAILED?)
  }

  ghost predicate WaveOk(r: Record, ready: set<nat>, done: map<nat, Option<Task>>) {
    && (forall i <- ready :: i < |r.tasks| && r.tasks[i].status.PENDING?)
    && done.Keys <= ready
    && forall i <- done :: done[i].Some? ==> ResultOk(r.tasks[i], done[i].value)
  }

  ghost predicate CompensationOk(r: Record, done: map<nat, Task>) {
    forall i <- done :: i < |r.tasks| && ValidTask(done[i]) && SameTask(r.tasks[i], done[i]) && Rolled(done[i])
                        && done[i].snapshotId == r.tasks[i].snapshotId && done[i].snapshotHash == r.tasks[i].snapshotHash
  }

  ghost predicate EventRunOk(supported: bool, log: seq<Event>, pc: PC) {
    match pc
    case EventBump(r) => Known(log, r) && (r.status.RECEIVED? || r.status.ANALYZING?)
    case EventLoaded(r) => Known(log, r)
    case EventAnalyzing(r) => Known(log, r) && supported
    case EventReadChange(r) => Analysing(supported, log, r)
    case EventScreen(r) => Analysing(supported, log, r)
    case EventAnalyse(r) => Analysing(supported, log, r) && r.plan.None?
    case EventBlock(r, _) => Analysing(supported, log, r)
    case EventAnalysed(r, p, _) => Analysing(supported, log, r) && r.plan.None? && ValidateStepGraph(p.steps).Ok?
    case EventToAnalyzing(r, p, _) => Analysing(supported, log, r) && r.plan.None? && ValidateStepGraph(p.steps).Ok?
    case EventStorePlan(r, p, _) => Analysing(supported, log, r) && r.plan.None? && ValidateStepGraph(p.steps).Ok?
    case EventRead(r) => Analysing(supported, log, r) && r.plan.Some?
    case EventAdvance(r, _) => Analysing(supported, log, r) && r.plan.Some?
    case EventWait(r) => Analysing(supported, log, r) && r.plan.Some?
    case _ => true
  }

  ghost predicate ResumeRunOk(supported: bool, log: seq<Event>, pc: PC) {
    match pc
    case ResumeLoad(_, seen) => Seen(log, seen)
    case ResumeReject(r) => Working(log, r)
    case ResumeChanges(r, _) => Working(log, r)
    case ResumeReanalyse(r) => Working(log, r)
    case ResumeAdvance(r, seen) => Working(log, r) && Seen(log, seen)
    case ResumeSnapshots(r, loaded, taken) =>
      Executing(log, r, loaded) && forall i <- taken :: i < |r.tasks| && SnapshotTaken(taken[i].0, r.tasks[i].stepId, taken[i].1) in log
    case ResumeDag(r, loaded) => Executing(log, r, loaded) && AllSnapshots(r)
    case ResumeWave(r, loaded, ready, done) => Executing(log, r, loaded) && AllSnapshots(r) && WaveOk(r, ready, done)
    case ResumeToVerifying(r, loaded) => Executing(log, r, loaded) && Settled(r)
    case ResumeMarkVerifying(r, loaded) => Executing(log, r, loaded) && Settled(r)
    case ResumeVerify(r, loaded, passed) =>
      Executing(log, r, loaded) && Settled(r)
      && forall i <- passed :: i < |r.tasks| && VerifiedAfter(log, r.tasks, r.tasks[i].stepId)
    case ResumeToCompleted(r, loaded) => Executing(log, r, loaded) && Settled(r) && AllVerified(log, r.tasks)
    case ResumeComplete(r, loaded) =>
      Executing(log, r, loaded) && Settled(r) && AllVerified(log, r.tasks) && EnteredStatus(log, C.COMPLETED)
    case _ => true
  }

  ghost predicate OtherRunOk(supported: bool, log: seq<Event>, pc: PC) {
    match pc
    case RollbackRead(r, _) => Working(log, r)
    case RollbackEnter(r, _) => Working(log, r)
    case RollbackMark(r, _) => Working(log, r)
    case RollbackTasks(r, _, done) => Working(log, r) && CompensationOk(r, done)
    case RollbackClose(r, _) => Working(log, r)
    case Close(r, status, _) =>
      Known(log, r) && !Closed(r.status) && Terminal(status) && !status.COMPLETED?
      && (supported || status.DEAD_LETTERED?)
    case UserMove(target, _) => Seen(log, target)
    case UserCommit(current, target, _) =>
      Seen(log, target) && Entered(current) in log && C.CanTransition(current.status, target)
    case _ => true
  }

  ghost predicate RunOk(supported: bool, log: seq<Event>, pc: PC) {
    && (InEvent(pc) ==> EventRunOk(supported, log, pc))
    && (InResume(pc) ==> ResumeRunOk(supported, log, pc))
    && (!InEvent(pc) && !InResume(pc) ==> OtherRunOk(supported, log, pc))
  }

  ghost predicate Analysing(supported: bool, log: seq<Event>, r: Record) {
    Known(log, r) && supported && r.status.ANALYZING?
  }

  // ---------------------------------------------------------------- the invariant

  ghost predicate ChangeOk(s: Sys) {
    && (s.change.None? ==> forall e <- s.log :: !e.Entered?)
    && (s.change.Some? ==>
          && Entered(s.change.value) in s.log
          && forall e <- s.log :: e.Entered? ==> e.change == s.change.value || e.change.version < s.change.value.version)
  }

  ghost predicate WorkflowOk(s: Sys) {
    && (s.wf.None? ==> forall e <- s.log :: !e.Stored?)
    && (s.wf.Some? ==> Known(s.log, s.wf.value) && forall e <- s.log :: e.Stored? ==> Persists(e.record, s.wf.value))
  }

  ghost predicate Inv(s: Sys) {
    && LogOk(s.supported, s.log)
    && ChangeOk(s) && WorkflowOk(s)
    && (forall e <- s.log :: e.SnapshotTaken? ==> e.id < s.nextSnapshot)
    && (forall id <- s.runs :: RunOk(s.supported, s.log, s.runs[id]))
  }
}
