/** Durable workflow records, their validators, and the versioned workflow repository. */
module Workflows {
  import opened Common
  import opened Plans
  import opened Sandbox

  datatype RuntimeStatus =
    | RECEIVED | ANALYZING | WAITING_APPROVAL | EXECUTING | VERIFYING | ROLLING_BACK
    | COMPLETED | FAILED | NEEDS_ATTENTION | DEAD_LETTERED

  datatype TaskStatus = PENDING | RUNNING | SUCCEEDED | TASK_FAILED | ROLLED_BACK | ROLLBACK_FAILED

  datatype Task = Task(
    stepId: string, systemId: string, status: TaskStatus, attemptCount: nat,
    snapshotId: Option<nat>, snapshotHash: Option<ConfigDigest>, executionId: Option<string>,
    outputHash: Option<OutputDigest>, errorCode: Option<string>)

  predicate ValidTask(t: Task) {
    && (t.snapshotId.None? <==> t.snapshotHash.None?)
    && (t.status.SUCCEEDED? ==> t.executionId.Some? && t.outputHash.Some?)
    && (t.status.TASK_FAILED? || t.status.ROLLBACK_FAILED? ==> t.errorCode.Some?)
  }

  datatype Record = Record(
    tenantId: string, changeId: string, workflowId: string, eventId: string, status: RuntimeStatus,
    deliveryAttempts: nat, plan: Option<Plan>, planHash: Option<PlanDigest>, approvalId: Option<string>,
    approvalExpiresAt: Option<Time>, tasks: seq<Task>, lastErrorCode: Option<string>,
    startedAt: Time, updatedAt: Time, completedAt: Option<Time>, version: nat)

  predicate Terminal(s: RuntimeStatus) {
    s.COMPLETED? || s.FAILED? || s.NEEDS_ATTENTION? || s.DEAD_LETTERED?
  }

  /** The statuses that `resume_approval` and `process_event` both return unchanged. */
  predicate Closed(s: RuntimeStatus) {
    s.COMPLETED? || s.FAILED? || s.NEEDS_ATTENTION?
  }

  function TaskIds(tasks: seq<Task>): set<string> {
    set t <- tasks :: t.stepId
  }

  predicate ValidRecord(r: Record) {
    && r.startedAt <= r.updatedAt
    && (r.plan.None? <==> r.planHash.None?)
    && (r.plan.Some? ==>
          && r.plan.value.tenantId == r.tenantId && r.plan.value.changeId == r.changeId
          && r.planHash == Some(CalculatePlanHash(r.plan.value))
          && TaskIds(r.tasks) == Ids(r.plan.value.steps))
    && (r.plan.None? ==> r.tasks == [])
    && (Terminal(r.status) <==> r.completedAt.Some?)
    && (forall t <- r.tasks :: ValidTask(t))
  }

  type RecordKey = (string, string, string)

  function RecordKeyOf(r: Record): RecordKey {
    (r.tenantId, r.changeId, r.workflowId)
  }

  datatype WorkflowError = WorkflowNotFound | WorkflowConflict

  datatype DeadLetter = DeadLetter(tenantId: string, deadLetterId: string, errorCode: string, inputHash: string)

  class InMemoryWorkflowRepository {
    var workflows: map<RecordKey, Record>
    var deadLetters: map<(string, string), DeadLetter>

    /** Every record is stored under its own key. */
    ghost predicate Valid()
      reads this
    {
      forall key <- workflows :: RecordKeyOf(workflows[key]) == key
    }

    constructor ()
      ensures Valid() && workflows == map[] && deadLetters == map[]
    {
      workflows, deadLetters := map[], map[];
    }

    /** The first record under a key wins; a second event under that key is a collision. */
    method CreateOrGet(record: Record) returns (r: Result<Record, WorkflowError>)
      requires Valid()
      modifies this`workflows
      ensures Valid()
      ensures var key := RecordKeyOf(record);
              if key !in old(workflows) then r == Ok(record) && workflows == old(workflows)[key := record]
              else workflows == old(workflows) &&
                   r == if workflows[key].eventId == record.eventId then Ok(workflows[key]) else Err(WorkflowConflict)
    {
      var key := (record.tenantId, record.changeId, record.workflowId);
      if key in workflows {
        if workflows[key].eventId != record.eventId { return Err(WorkflowConflict); }
        return Ok(workflows[key]);
      }
      workflows := workflows[key := record];
      r := Ok(record);
    }

    method Get(tenantId: string, changeId: string, workflowId: string) returns (r: Result<Record, WorkflowError>)
      ensures var key := (tenantId, changeId, workflowId);
              r == if key in workflows then Ok(workflows[key]) else Err(WorkflowNotFound)
    {
      var key := (tenantId, changeId, workflowId);
      if key !in workflows { return Err(WorkflowNotFound); }
      r := Ok(workflows[key]);
    }

    /** Compare and swap: stores exactly when the caller's copy is the stored version and adds one to it. */
    method Update(record: Record, expectedVersion: int) returns (r: Result<Record, WorkflowError>)
      requires Valid()
      modifies this`workflows
      ensures Valid()
      ensures var key := RecordKeyOf(record);
              var swaps := key in old(workflows) && old(workflows)[key].version == expectedVersion
                           && record.version == expectedVersion + 1;
              && workflows == (if swaps then old(workflows)[key := record] else old(workflows))
              && r == (if key !in old(workflows) then Err(WorkflowNotFound)
                       else if swaps then Ok(record) else Err(WorkflowConflict))
    {
      var key := (record.tenantId, record.changeId, record.workflowId);
      if key !in workflows { return Err(WorkflowNotFound); }
      var current := workflows[key];
      if current.version != expectedVersion || record.version != expectedVersion + 1 {
        return Err(WorkflowConflict);
      }
      workflows := workflows[key := record];
      r := Ok(record);
    }

    method RecordDeadLetter(letter: DeadLetter) returns (r: Result<DeadLetter, WorkflowError>)
      modifies this`deadLetters
      ensures var key := (letter.tenantId, letter.deadLetterId);
              if key !in old(deadLetters) then r == Ok(letter) && deadLetters == old(deadLetters)[key := letter]
              else deadLetters == old(deadLetters) &&
                   r == if deadLetters[key].inputHash == letter.inputHash then Ok(deadLetters[key]) else Err(WorkflowConflict)
    {
      var key := (letter.tenantId, letter.deadLetterId);
      if key in deadLetters {
        if deadLetters[key].inputHash != letter.inputHash { return Err(WorkflowConflict); }
        return Ok(deadLetters[key]);
      }
      deadLetters := deadLetters[key := letter];
      r := Ok(letter);
    }
  }
}
