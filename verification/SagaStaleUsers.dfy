/**
 Users who expect a version later than the one their request reads. Such a request commits its old copy over
 whatever has been stored by then: it can lose the plan hash, and it can leave a final status.
 */
module SagaStaleUsers {
  import opened Common
  import opened Plans
  import opened Workflows
  import opened Saga
  import opened SagaInvariant
  import opened SagaDiscipline
  import opened SagaCounterexample
  import C = ChangeState

  /** A user has read `current` and may commit next. */
  predicate Pending(s: Sys, id: nat, current: Change, target: C.Status, expected: nat) {
    id in s.runs && s.runs[id] == UserCommit(current, target, expected) && s.change.Some?
  }

  /** The commit would find its version stored, from an older copy, and the stored change has something to lose. */
  predicate Overwrites(s: Sys, current: Change, expected: nat)
    requires s.change.Some?
  {
    && s.change.value.version == expected && current.version < expected
    && (C.Final(s.change.value.status) || (s.change.value.planHash.Some? && current.planHash.None?))
  }

  /** Exactly then a user's commit leaves a final change or loses a plan hash. */
  lemma CommitLosesExactly(s: Sys, id: nat, current: Change, target: C.Status, expected: nat)
    requires Inv(s) && Pending(s, id, current, target, expected)
    ensures var s' := Act(s, Go(id, GO));
            s'.change.Some? && (s'.change == s.change || Left(s.change.value, s'.change.value) <==> !Overwrites(s, current, expected))
  {
    hide LogOk, WorkflowOk, EventRunOk, ResumeRunOk, EnteredStatus;
    assert RunOk(s.supported, s.log, UserCommit(current, target, expected));
    assert Entered(current) in s.log && C.CanTransition(current.status, target);
    EdgesLeave(current.status, target);
    hide C.CanTransition;
  }

  lemma CommitIsBlind(s: Sys, id: nat, current: Change, target: C.Status, expected: nat)
    requires Pending(s, id, current, target, expected) && s.change.value.version == expected
    ensures var s' := Act(s, Go(id, GO));
            s'.change == Some(current.(status := target, version := expected + 1)) && s'.wf == s.wf
  {
    hide AdvanceEvent, AdvanceResume;
  }

  /** A user's cancel is asked for and reads the change, while run `at` waits. */
  lemma CancelReads(s: Sys, others: map<nat, PC>, at: nat, status: C.Status, r: Record, pc: PC, id: nat, expected: nat) returns (t: Sys)
    requires On(s, others, at, status, r, pc) && id !in others && id != at && C.CanTransition(status, C.CANCELLED)
    ensures On(t, others[id := UserCommit(s.change.value, C.CANCELLED, expected)], at, status, r, pc) && t.change == s.change
  {
    hide AdvanceEvent, AdvanceResume, AdvanceCompensation, AdvanceRestore, CloseRecord, C.CanTransition, Reaches;
    t := Do(s, Spawn(id, UserMove(C.CANCELLED, expected)));
    assert t.runs == others[at := pc][id := UserMove(C.CANCELLED, expected)] && t.change == s.change;
    t := Do(t, Go(id, GO));
    assert others[at := pc][id := UserCommit(s.change.value, C.CANCELLED, expected)]
           == others[id := UserCommit(s.change.value, C.CANCELLED, expected)][at := pc];
  }

  lemma PlanReady(s: Sys, others: map<nat, PC>, r: Record) returns (t: Sys)
    requires On(s, others, 0, C.ANALYZING, r, EventAdvance(r, C.ANALYZING)) && r.plan.Some?
    ensures Reaches(t) && t.change.Some? && t.change.value.version == s.change.value.version + 1
    ensures t.change.value.planHash == Some(CalculatePlanHash(r.plan.value))
    ensures t.runs == others[0 := EventAdvance(r, C.PLAN_READY)]
  {
    hide AdvanceIntake, AdvanceScreening, AdvancePlanning, AdvanceResume, AdvanceRollback, Reaches;
    t := Do(s, Go(0, GO));
  }

  lemma OnHasChange(s: Sys, others: map<nat, PC>, id: nat, status: C.Status, r: Record, pc: PC)
    requires On(s, others, id, status, r, pc)
    ensures s.change.Some? && s.change.value.status == status
  {
  }

  /** A cancel reads a change that is being analysed and expects the version at which its plan will be ready. */
  lemma StaleCancelLosesThePlanHash(p: Plan)
    requires Answerable(p)
    ensures exists actions, id, current: Change ::
              var s := Run(true, actions);
              && Pending(s, id, current, C.CANCELLED, current.version + 1)
              && s.change.value.planHash == Some(CalculatePlanHash(p))
              && Act(s, Go(id, GO)).change == Some(current.(status := C.CANCELLED, version := current.version + 2))
              && current.planHash.None?
  {
    hide Answerable, Act, Run;
    var s, current := CancelWhilePlanReady(p);
    CommitIsBlind(s, 1, current, C.CANCELLED, current.version + 1);
    var actions :| Run(true, actions) == s;
    assert Pending(Run(true, actions), 1, current, C.CANCELLED, current.version + 1);
  }

  /** The cancel has read the change before its plan was ready, and is about to commit. */
  lemma CancelWhilePlanReady(p: Plan) returns (s: Sys, current: Change)
    requires Answerable(p)
    ensures Reaches(s) && Pending(s, 1, current, C.CANCELLED, current.version + 1) && s.change.value.version == current.version + 1
    ensures s.change.value.planHash == Some(CalculatePlanHash(p)) && current.planHash.None?
  {
    hide ValidateStepGraph, ValidRecord, On, Reaches;
    var r;
    s, r := Screened();
    s := Answered(s, r, p);
    s, r := PlanStored(s, r, p);
    OnHasChange(s, map[], 0, C.ANALYZING, r, EventAdvance(r, C.ANALYZING));
    current := s.change.value;
    s := CancelReads(s, map[], 0, C.ANALYZING, r, EventAdvance(r, C.ANALYZING), 1, current.version + 1);
    s := PlanReady(s, map[][1 := UserCommit(current, C.CANCELLED, current.version + 1)], r);
  }

  lemma AttentionReached(p: Plan) returns (s: Sys, r: Record, others: map<nat, PC>)
    requires Answerable(p)
    ensures One(r, ROLLING_BACK, ROLLBACK_FAILED) && r.tasks[0].snapshotId.Some? && others.Keys == {0, 1}
    ensures On(s, others, 2, C.NEEDS_ATTENTION, r, ResumeAdvance(r, C.EXECUTING))
  {
    hide ValidateStepGraph, ValidRecord, On;
    var twin, cb;
    s, r, others := UntilExecuting(p);
    s, r, twin, cb := UntilStuck(s, r, others);
    s, others := UntilAttention(s, r, others, twin, "TOOL_EXECUTION_FAILED");
  }

  lemma CompletedWhilePending(p: Plan) returns (s: Sys, current: Change)
    requires Answerable(p)
    ensures Reaches(s) && Pending(s, 3, current, C.CANCELLED, current.version + 2) && s.change.value.version == current.version + 2
    ensures s.change.value.status == C.COMPLETED && s.wf.Some? && s.wf.value.status == COMPLETED
  {
    hide ValidateStepGraph, ValidRecord, On, One, Reaches;
    var r, others;
    s, r, others := AttentionReached(p);
    OnHasChange(s, others, 2, C.NEEDS_ATTENTION, r, ResumeAdvance(r, C.EXECUTING));
    current := s.change.value;
    s := CancelReads(s, others, 2, C.NEEDS_ATTENTION, r, ResumeAdvance(r, C.EXECUTING), 3, current.version + 2);
    s := UntilCompleted(s, r, others[3 := UserCommit(current, C.CANCELLED, current.version + 2)]);
  }

  /** A cancel reads a change in need of attention and expects the version at which the duplicate run completes it. */
  lemma StaleCancelOverwritesCompletion(p: Plan)
    requires Answerable(p)
    ensures exists actions, id, current: Change ::
              var s := Run(true, actions);
              && Pending(s, id, current, C.CANCELLED, current.version + 2)
              && s.change.value.status == C.COMPLETED && s.wf.Some? && s.wf.value.status == COMPLETED
              && Act(s, Go(id, GO)).change == Some(current.(status := C.CANCELLED, version := current.version + 3))
              && Act(s, Go(id, GO)).wf == s.wf
  {
    hide Answerable, Act, Run;
    var s, current := CompletedWhilePending(p);
    CommitIsBlind(s, 3, current, C.CANCELLED, current.version + 2);
    var actions :| Run(true, actions) == s;
    assert Pending(Run(true, actions), 3, current, C.CANCELLED, current.version + 2);
  }
}
