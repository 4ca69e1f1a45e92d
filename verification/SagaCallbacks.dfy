/**
 What a run does is what it was started for. Only a run started with a granted approval of a stored plan enters
 APPROVED or executes anything; one started with a refusal or a request for changes does nothing but record it.
 */
module SagaCallbacks {
  import opened Common
  import opened Plans
  import opened Sandbox
  import opened Workflows
  import opened Saga
  import opened SagaInvariant
  import opened SagaProof
  import opened SagaSteps
  import opened SagaClose
  import C = ChangeState

  /** What each run was started with. */
  function Starts(supported: bool, actions: seq<Action>): map<nat, PC> {
    if actions == [] then map[]
    else
      var before, last := actions[..|actions| - 1], actions[|actions| - 1];
      var starts := Starts(supported, before);
      if last.Spawn? && Startable(last.pc) && last.id !in Run(supported, before).runs then starts[last.id := last.pc] else starts
  }

  /** The events one action adds to the log. */
  function Added(s: Sys, a: Action): seq<Event> {
    if |s.log| <= |Act(s, a).log| then Act(s, a).log[|s.log|..] else []
  }

  /** Some stored record has the callback's approval, plan hash and plan version. */
  ghost predicate Matches(log: seq<Event>, cb: Callback) {
    exists e <- log :: e.Stored? && Quotes(cb, e.record)
  }

  predicate Quotes(cb: Callback, r: Record) {
    && r.approvalId == Some(cb.approvalId) && r.planHash == Some(cb.planHash)
    && r.plan.Some? && r.plan.value.version == cb.planVersion
  }

  /** What a run may add to the log, by what its callback decided. */
  predicate AllowedBy(decision: Decision, e: Event) {
    match decision
    case GRANTED => true
    case REFUSED =>
      || (e.Entered? && e.change.status == C.REJECTED)
      || (e.Stored? && e.record.status.FAILED? && e.record.lastErrorCode == Some("APPROVAL_REJECTED"))
    case CHANGES_REQUESTED =>
      || (e.Entered? && e.change.status in {C.REJECTED, C.ANALYZING})
      || (e.Stored? && e.record.status.ANALYZING? && e.record.lastErrorCode == Some("APPROVAL_CHANGES_REQUESTED"))
  }

  predicate Early(status: C.Status) {
    status in {C.RECEIVED, C.SCREENING, C.BLOCKED, C.ANALYZING, C.PLAN_READY, C.AWAITING_APPROVAL}
  }

  /** The change carries hash and version of the plan of some stored record. */
  ghost predicate HasStoredPlan(log: seq<Event>, c: Change) {
    exists e <- log :: e.Stored? && e.record.plan.Some? && c.planHash.Some? && c.planHash == e.record.planHash
                       && c.planVersion == e.record.plan.value.version
  }

  /** A cancel leads to CANCELLED; a retry to SCREENING or to a status the change has had. */
  ghost predicate UserTarget(start: PC, log: seq<Event>, target: C.Status) {
    if start.UserMove? then target == start.target else start.UserRetry? && (target == C.SCREENING || EnteredStatus(log, target))
  }

  /** ... and by what it was started with: a callback that quotes a stored record, an event, or a user's request. */
  ghost predicate Allowed(start: PC, log: seq<Event>, e: Event) {
    if start.ResumeStart? then Matches(log, start.callback) && AllowedBy(start.callback.decision, e)
    else if start.EventStart? then
      e.Stored? || (e.Entered? && Early(e.change.status) && (e.change.status == C.PLAN_READY ==> HasStoredPlan(log, e.change)))
    else e.Entered? && UserTarget(start, log, e.change.status)
  }

  predicate InUser(pc: PC) {
    pc.UserRetry? || pc.UserMove? || pc.UserCommit?
  }

  /** Where a granted run goes once it has found its record. */
  predicate Working(pc: PC) {
    || pc.ResumeAdvance? || pc.ResumeSnapshots? || pc.ResumeDag? || pc.ResumeWave? || pc.ResumeToVerifying?
    || pc.ResumeMarkVerifying? || pc.ResumeVerify? || pc.ResumeToCompleted? || pc.ResumeComplete?
    || pc.RollbackRead? || pc.RollbackEnter? || pc.RollbackMark? || pc.RollbackTasks? || pc.RollbackClose? || pc.Close?
  }

  /** Where a run may be, by what it was started with. */
  ghost predicate Fits(start: PC, log: seq<Event>, pc: PC) {
    || pc.Stopped?
    || (start.EventStart? && (InEvent(pc) || pc.Close?))
    || (InUser(start) && InUser(pc) && (if pc.UserRetry? then pc == start else UserTarget(start, log, pc.target)))
    || (start.ResumeStart? && (pc == start || (pc.ResumeLoad? && pc.callback == start.callback)))
    || (start.ResumeStart? && Matches(log, start.callback) &&
          match start.callback.decision
          case GRANTED => Working(pc)
          case REFUSED => pc.ResumeReject? || (pc.Close? && pc.status == FAILED && pc.code == "APPROVAL_REJECTED")
          case CHANGES_REQUESTED => pc.ResumeChanges? || pc.ResumeReanalyse?)
  }

  lemma FitsLater(start: PC, log: seq<Event>, more: seq<Event>, pc: PC)
    requires Fits(start, log, pc)
    ensures Fits(start, log + more, pc)
  {
    hide Matches, InEvent, Working, UserTarget;
    if start.ResumeStart? && Matches(log, start.callback) { MatchesLater(log, more, start.callback); }
    if (pc.UserMove? || pc.UserCommit?) && UserTarget(start, log, pc.target) { TargetLater(start, log, more, pc.target); }
  }

  lemma MatchesLater(log: seq<Event>, more: seq<Event>, cb: Callback)
    requires Matches(log, cb)
    ensures Matches(log + more, cb)
  {
    var e :| e in log && e.Stored? && Quotes(cb, e.record);
    assert e in log + more;
  }

  lemma TargetLater(start: PC, log: seq<Event>, more: seq<Event>, target: C.Status)
    requires UserTarget(start, log, target)
    ensures UserTarget(start, log + more, target)
  {
    hide EnteredStatus;
    if EnteredStatus(log, target) { StatusGrows(log, more, target); }
  }

  // ---------------------------------------------------------------- one step

  /** The step is run `id`'s own: it adds only what its start allows and leaves the run where its start may be. */
  ghost predicate Tells(s: Sys, s': Sys, id: nat, start: PC) {
    && |s.log| <= |s'.log| && s'.log[..|s.log|] == s.log
    && (forall k | |s.log| <= k < |s'.log| :: Allowed(start, s.log, s'.log[k]))
    && s'.runs.Keys == s.runs.Keys + {id} && (forall w <- s.runs | w != id :: s'.runs[w] == s.runs[w])
    && Fits(start, s'.log, s'.runs[id])
  }

  lemma GotoTells(s: Sys, id: nat, pc: PC, start: PC)
    requires Fits(start, s.log, pc)
    ensures Tells(s, Goto(s, id, pc), id, start)
  {
    hide Fits, Allowed;
  }

  lemma StopTells(s: Sys, id: nat, start: PC)
    ensures Tells(s, Goto(s, id, Stopped), id, start)
  {
    assert Fits(start, s.log, Stopped);
    GotoTells(s, id, Stopped, start);
  }

  lemma EmitTells(s: Sys, s1: Sys, id: nat, e: Event, pc: PC, start: PC)
    requires Fits(start, s.log, pc) && Allowed(start, s.log, e) && s1.log == s.log && s1.runs == s.runs
    ensures Tells(s, Emit(s1, id, e, pc), id, start)
  {
    FitsLater(start, s.log, [e], pc);
    hide Fits, Allowed;
  }

  lemma UpdateTells(s: Sys, id: nat, rec: Record, r: Record, now: Time, next: Record -> PC, start: PC)
    requires forall u :: Fits(start, s.log, next(u))
    requires Allowed(start, s.log, Stored(r.(updatedAt := now, version := rec.version + 1)))
    ensures Tells(s, Update(s, id, rec, r, now, next), id, start)
  {
    hide Fits, Allowed, ValidRecord;
    var u := r.(updatedAt := now, version := rec.version + 1);
    FitsLater(start, s.log, [Stored(u)], next(u));
    StopTells(s, id, start);
  }

  lemma SetStatusTells(s: Sys, id: nat, rec: Record, status: RuntimeStatus, code: Option<string>, now: Time, next: Record -> PC, start: PC)
    requires forall u :: Fits(start, s.log, next(u))
    requires Allowed(start, s.log, Stored(rec.(status := status, lastErrorCode := code, updatedAt := now, version := rec.version + 1)))
    ensures Tells(s, SetStatus(s, id, rec, status, code, now, next), id, start)
  {
    hide Fits, Allowed, Tells, Update, Goto;
    GotoTells(s, id, next(rec), start);
    UpdateTells(s, id, rec, rec.(status := status, lastErrorCode := code), now, next, start);
  }

  lemma TransitionTells(s: Sys, id: nat, target: C.Status, workflow: Option<string>, plan: Option<Plan>, next: PC, start: PC)
    requires Fits(start, s.log, next) && forall c: Change | c.status == target :: Allowed(start, s.log, Entered(c))
    ensures Tells(s, Transition(s, id, target, workflow, plan, next), id, start)
  {
    hide Fits, Allowed, C.CanTransition;
    StopTells(s, id, start);
    var s' := Transition(s, id, target, workflow, plan, next);
    if s.change.Some? && C.CanTransition(s.change.value.status, target) {
      FitsLater(start, s.log, [Entered(s'.change.value)], next);
    }
  }

  // ---------------------------------------------------------------- event runs

  lemma EventEnters(log: seq<Event>, status: C.Status)
    requires Early(status) && status != C.PLAN_READY
    ensures forall c: Change | c.status == status :: Allowed(EventStart, log, Entered(c))
    ensures forall r :: Allowed(EventStart, log, Stored(r))
  {
  }

  lemma EventGoes(s: Sys, id: nat, pc: PC)
    requires InEvent(pc) || pc.Close? || pc.Stopped?
    ensures Tells(s, Goto(s, id, pc), id, EventStart)
  {
    assert Fits(EventStart, s.log, pc);
    GotoTells(s, id, pc, EventStart);
  }

  lemma EventMoves(s: Sys, id: nat, target: C.Status, workflow: Option<string>, plan: Option<Plan>, next: PC)
    requires Early(target) && target != C.PLAN_READY
    requires InEvent(next) || next.Close? || next.Stopped?
    ensures Tells(s, Transition(s, id, target, workflow, plan, next), id, EventStart)
  {
    EventEnters(s.log, target);
    assert Fits(EventStart, s.log, next);
    TransitionTells(s, id, target, workflow, plan, next, EventStart);
  }

  lemma EventUpdates(s: Sys, id: nat, rec: Record, r: Record, now: Time, next: Record -> PC)
    requires forall u :: InEvent(next(u)) || next(u).Stopped?
    ensures Tells(s, Update(s, id, rec, r, now, next), id, EventStart)
  {
    forall u ensures Fits(EventStart, s.log, next(u)) {
      assert InEvent(next(u)) || next(u).Stopped?;
    }
    EventEnters(s.log, C.RECEIVED);
    UpdateTells(s, id, rec, r, now, next, EventStart);
  }

  lemma EventMarks(s: Sys, id: nat, rec: Record, status: RuntimeStatus, now: Time, next: Record -> PC)
    requires forall u :: InEvent(next(u)) || next(u).Stopped?
    ensures Tells(s, SetStatus(s, id, rec, status, None, now, next), id, EventStart)
  {
    forall u ensures Fits(EventStart, s.log, next(u)) {
      assert InEvent(next(u)) || next(u).Stopped?;
    }
    EventEnters(s.log, C.RECEIVED);
    SetStatusTells(s, id, rec, status, None, now, next, EventStart);
  }

  lemma EventTells(s: Sys, id: nat, pc: PC, x: Input)
    requires Inv(s) && RunOk(s.supported, s.log, pc) && InEvent(pc)
    ensures Tells(s, AdvanceEvent(s, id, pc, x), id, EventStart) || AdvanceEvent(s, id, pc, x) == s
  {
    hide Inv, RunOk, Tells, AdvanceIntake, AdvanceScreening, AdvancePlanning, AdvanceApproval;
    if pc.EventStart? || pc.EventBump? || pc.EventCreate? || pc.EventLoaded? || pc.EventAnalyzing? { IntakeTells(s, id, pc, x); }
    else if pc.EventReadChange? || pc.EventScreen? || pc.EventAnalyse? || pc.EventBlock? { ScreeningTells(s, id, pc, x); }
    else if pc.EventAnalysed? || pc.EventToAnalyzing? || pc.EventStorePlan? || pc.EventRead? { PlanningTells(s, id, pc, x); }
    else { ApprovalTells(s, id, pc, x); }
  }

  lemma IntakeTells(s: Sys, id: nat, pc: PC, x: Input)
    ensures Tells(s, AdvanceIntake(s, id, pc, x), id, EventStart) || AdvanceIntake(s, id, pc, x) == s
  {
    hide Tells, AdvanceIntake;
    if x.Proceed? && pc.EventStart? { BeginningTells(s, id, x.now); }
    else if x.Proceed? && pc.EventBump? { BumpTells(s, id, pc.rec, x.now); }
    else if x.Proceed? && pc.EventCreate? { CreationTells(s, id, x.now); }
    else if x.Proceed? && pc.EventLoaded? { LoadedTells(s, id, pc.rec, x.now); }
    else if x.Proceed? && pc.EventAnalyzing? { AnalyzingTells(s, id, pc.rec, x.now); }
    else { OtherIntake(s, id, pc, x); }
  }

  lemma OtherIntake(s: Sys, id: nat, pc: PC, x: Input)
    requires !x.Proceed? || !(pc.EventStart? || pc.EventBump? || pc.EventCreate? || pc.EventLoaded? || pc.EventAnalyzing?)
    ensures AdvanceIntake(s, id, pc, x) == s
  {
  }

  lemma BeginningTells(s: Sys, id: nat, now: Time)
    ensures Tells(s, AdvanceIntake(s, id, EventStart, Proceed(now)), id, EventStart)
  {
    hide Tells, Goto;
    EventGoes(s, id, EventCreate);
    EventGoes(s, id, Stopped);
    if s.wf.Some? { EventGoes(s, id, EventBump(s.wf.value)); }
  }

  lemma BumpTells(s: Sys, id: nat, rec: Record, now: Time)
    ensures Tells(s, AdvanceIntake(s, id, EventBump(rec), Proceed(now)), id, EventStart)
  {
    hide Tells, Update;
    EventUpdates(s, id, rec, rec.(deliveryAttempts := rec.deliveryAttempts + 1), now, r => EventLoaded(r));
  }

  lemma AnalyzingTells(s: Sys, id: nat, rec: Record, now: Time)
    ensures Tells(s, AdvanceIntake(s, id, EventAnalyzing(rec), Proceed(now)), id, EventStart)
  {
    hide Tells, SetStatus;
    EventMarks(s, id, rec, ANALYZING, now, r => EventReadChange(r));
  }

  lemma CreationTells(s: Sys, id: nat, now: Time)
    ensures Tells(s, AdvanceIntake(s, id, EventCreate, Proceed(now)), id, EventStart)
  {
    EventEnters(s.log, C.RECEIVED);
  }

  lemma LoadedTells(s: Sys, id: nat, rec: Record, now: Time)
    ensures Tells(s, AdvanceIntake(s, id, EventLoaded(rec), Proceed(now)), id, EventStart)
  {
    EventEnters(s.log, C.RECEIVED);
  }

  lemma ScreeningTells(s: Sys, id: nat, pc: PC, x: Input)
    ensures Tells(s, AdvanceScreening(s, id, pc, x), id, EventStart) || AdvanceScreening(s, id, pc, x) == s
  {
    hide ValidateStepGraph, Transition, Tells, Goto;
    EventGoes(s, id, Stopped);
    if pc.EventReadChange? {
      EventGoes(s, id, EventScreen(pc.rec));
      EventGoes(s, id, AfterScreening(pc.rec));
    } else if pc.EventScreen? {
      EventMoves(s, id, C.SCREENING, Some(pc.rec.workflowId), None, AfterScreening(pc.rec));
    } else if pc.EventAnalyse? {
      AnswerTells(s, id, pc.rec, x);
    } else if pc.EventBlock? {
      EventMoves(s, id, C.BLOCKED, None, None, Close(pc.rec, FAILED, pc.code));
    }
  }

  lemma AnswerTells(s: Sys, id: nat, rec: Record, x: Input)
    ensures Tells(s, AdvanceScreening(s, id, EventAnalyse(rec), x), id, EventStart) || AdvanceScreening(s, id, EventAnalyse(rec), x) == s
  {
    hide ValidateStepGraph, Tells, Goto;
    EventGoes(s, id, Close(rec, DEAD_LETTERED, "FLEET_INVALID_RESPONSE"));
    if x.Answer? { EventGoes(s, id, EventAnalysed(rec, x.plan, x.hash)); }
    if x.Failure? {
      EventGoes(s, id, Stopped);
      EventGoes(s, id, EventBlock(rec, x.code));
      EventGoes(s, id, Close(rec, DEAD_LETTERED, x.code));
    }
  }

  lemma PlanningTells(s: Sys, id: nat, pc: PC, x: Input)
    ensures Tells(s, AdvancePlanning(s, id, pc, x), id, EventStart) || AdvancePlanning(s, id, pc, x) == s
  {
    hide StorePlan, Transition, Tells, Goto;
    EventGoes(s, id, Stopped);
    if pc.EventAnalysed? {
      EventGoes(s, id, EventToAnalyzing(pc.rec, pc.plan, pc.hash));
      EventGoes(s, id, EventStorePlan(pc.rec, pc.plan, pc.hash));
    } else if pc.EventToAnalyzing? {
      EventMoves(s, id, C.ANALYZING, None, None, EventStorePlan(pc.rec, pc.plan, pc.hash));
    } else if pc.EventStorePlan? && x.Proceed? {
      StorePlanTells(s, id, pc.rec, pc.plan, pc.hash, x.now);
    } else if pc.EventRead? && s.change.Some? {
      EventGoes(s, id, EventAdvance(pc.rec, s.change.value.status));
    }
  }

  lemma StorePlanTells(s: Sys, id: nat, rec: Record, p: Plan, hash: PlanDigest, now: Time)
    ensures Tells(s, StorePlan(s, id, rec, p, hash, now), id, EventStart)
  {
    hide Tells, Update, Goto, Planned, CalculatePlanHash;
    EventGoes(s, id, Close(rec, DEAD_LETTERED, "INVALID_FLEET_PLAN"));
    EventGoes(s, id, Stopped);
    EventUpdates(s, id, rec, Planned(rec, p, now), now, r => EventRead(r));
  }

  lemma ApprovalTells(s: Sys, id: nat, pc: PC, x: Input)
    requires Inv(s) && RunOk(s.supported, s.log, pc) && InEvent(pc)
    ensures Tells(s, AdvanceApproval(s, id, pc, x), id, EventStart) || AdvanceApproval(s, id, pc, x) == s
  {
    hide Inv, Tells, Transition, Goto, SetStatus, Known;
    EventGoes(s, id, Stopped);
    if pc.EventAdvance? {
      EventMoves(s, id, C.ANALYZING, None, None, EventAdvance(pc.rec, C.ANALYZING));
      PlanReadyTells(s, id, pc.rec);
      EventMoves(s, id, C.AWAITING_APPROVAL, None, None, EventAdvance(pc.rec, C.AWAITING_APPROVAL));
      EventGoes(s, id, EventWait(pc.rec));
      if x.Failure? { EventGoes(s, id, Close(pc.rec, DEAD_LETTERED, x.code)); }
    } else if pc.EventWait? && x.Proceed? {
      EventMarks(s, id, pc.rec, WAITING_APPROVAL, x.now, r => Stopped);
    }
  }

  /** PLAN_READY is entered with hash and version of the run's stored plan. */
  lemma PlanReadyTells(s: Sys, id: nat, rec: Record)
    requires Inv(s) && Known(s.log, rec) && rec.plan.Some?
    ensures Tells(s, Transition(s, id, C.PLAN_READY, None, rec.plan, EventAdvance(rec, C.PLAN_READY)), id, EventStart)
  {
    hide Inv, RecordOk, C.CanTransition, CalculatePlanHash;
    StopTells(s, id, EventStart);
    var s' := Transition(s, id, C.PLAN_READY, None, rec.plan, EventAdvance(rec, C.PLAN_READY));
    if s.change.Some? && C.CanTransition(s.change.value.status, C.PLAN_READY) {
      PlanIsHashed(s, rec);
      assert HasStoredPlan(s.log, s'.change.value) by { assert Stored(rec) in s.log; }
      assert Fits(EventStart, s'.log, EventAdvance(rec, C.PLAN_READY));
      assert Allowed(EventStart, s.log, Entered(s'.change.value));
      hide Fits, Allowed, HasStoredPlan;
    }
  }

  lemma PlanIsHashed(s: Sys, rec: Record)
    requires Inv(s) && Known(s.log, rec) && rec.plan.Some?
    ensures rec.planHash == Some(CalculatePlanHash(rec.plan.value))
  {
    hide Inv, CalculatePlanHash;
    RecordOfRun(s, rec);
  }

  // ---------------------------------------------------------------- a terminal record, and users

  lemma CloseTells(s: Sys, id: nat, pc: PC, now: Time, start: PC)
    requires pc.Close? && Fits(start, s.log, pc)
    ensures Tells(s, CloseRecord(s, id, pc.rec, pc.status, pc.code, now), id, start)
  {
    hide Tells, Goto, Update;
    StopTells(s, id, start);
    var r := pc.rec.(status := pc.status, lastErrorCode := Some(pc.code), completedAt := Some(now));
    assert Allowed(start, s.log, Stored(r.(updatedAt := now, version := pc.rec.version + 1)));
    assert Fits(start, s.log, Stopped);
    UpdateTells(s, id, pc.rec, r, now, r => Stopped, start);
  }

  lemma UserTells(s: Sys, id: nat, pc: PC, x: Input, start: PC)
    requires Inv(s) && InUser(start) && InUser(pc) && Fits(start, s.log, pc)
    ensures Tells(s, AdvanceUser(s, id, pc, x), id, start) || AdvanceUser(s, id, pc, x) == s
  {
    hide Inv, Tells, Goto, Commit, Fits;
    StopTells(s, id, start);
    if pc.UserCommit? {
      CommitTells(s, id, pc.current, pc.target, pc.expected, start);
    } else if s.change.Some? {
      UserFits(s, start, pc);
      if pc.UserRetry? {
        GotoTells(s, id, UserMove(C.SCREENING, pc.expected), start);
        GotoTells(s, id, UserMove(s.change.value.status, pc.expected), start);
      } else {
        GotoTells(s, id, UserCommit(s.change.value, pc.target, pc.expected), start);
      }
    }
  }

  lemma UserFits(s: Sys, start: PC, pc: PC)
    requires Inv(s) && s.change.Some? && InUser(start) && (pc.UserRetry? || pc.UserMove?) && Fits(start, s.log, pc)
    ensures pc.UserRetry? ==> forall n :: Fits(start, s.log, UserMove(C.SCREENING, n))
                                          && Fits(start, s.log, UserMove(s.change.value.status, n))
    ensures pc.UserMove? ==> forall c, n :: Fits(start, s.log, UserCommit(c, pc.target, n))
  {
    hide Inv;
    CurrentEntered(s);
  }

  lemma CommitTells(s: Sys, id: nat, current: Change, target: C.Status, expected: nat, start: PC)
    requires InUser(start) && Fits(start, s.log, UserCommit(current, target, expected))
    ensures Tells(s, Commit(s, id, current, target, expected), id, start)
  {
    UserEnters(s.log, start, current, target, expected);
    hide Fits, Allowed;
    StopTells(s, id, start);
    var s' := Commit(s, id, current, target, expected);
    if s.change.Some? && s.change.value.version == expected {
      FitsLater(start, s.log, [Entered(s'.change.value)], Stopped);
    }
  }

  lemma UserEnters(log: seq<Event>, start: PC, current: Change, target: C.Status, expected: nat)
    requires InUser(start) && Fits(start, log, UserCommit(current, target, expected))
    ensures forall c: Change | c.status == target :: Allowed(start, log, Entered(c))
    ensures Fits(start, log, Stopped)
  {
    hide EnteredStatus;
  }

  // ---------------------------------------------------------------- approval runs that grant nothing

  /** A record is loaded only if the callback quotes it, and then the decision alone says how the run goes on. */
  lemma LoadedFits(s: Sys, cb: Callback, seen: C.Status)
    requires s.wf.Some? && Stored(s.wf.value) in s.log
    ensures Fits(ResumeStart(cb), s.log, Loaded(cb, seen, s.wf.value))
  {
    if Loaded(cb, seen, s.wf.value) != Stopped {
      assert Quotes(cb, s.wf.value);
      assert Matches(s.log, cb);
    }
  }

  lemma AdmissionTells(s: Sys, id: nat, pc: PC, x: Input, start: PC)
    requires Inv(s) && start.ResumeStart? && Fits(start, s.log, pc) && InResume(pc) && !Working(pc)
    ensures Tells(s, AdvanceAdmission(s, id, pc, x), id, start) || AdvanceAdmission(s, id, pc, x) == s
  {
    hide Inv, Tells, SetStatus, Transition, Goto, Loaded, Fits;
    StopTells(s, id, start);
    if x.Proceed? {
      if pc.ResumeStart? { StartTells(s, id, pc, start); }
      else if pc.ResumeLoad? { LoadTells(s, id, pc, start); }
      else { RefusalTells(s, id, pc, x.now, start); }
    }
  }

  lemma StartTells(s: Sys, id: nat, pc: PC, start: PC)
    requires pc.ResumeStart? && start.ResumeStart? && Fits(start, s.log, pc)
    ensures s.change.Some? ==> Tells(s, Goto(s, id, ResumeLoad(pc.callback, s.change.value.status)), id, start)
  {
    assert pc == start;
    if s.change.Some? {
      assert Fits(start, s.log, ResumeLoad(pc.callback, s.change.value.status));
      GotoTells(s, id, ResumeLoad(pc.callback, s.change.value.status), start);
    }
  }

  lemma LoadTells(s: Sys, id: nat, pc: PC, start: PC)
    requires Inv(s) && pc.ResumeLoad? && start.ResumeStart? && Fits(start, s.log, pc)
    ensures s.wf.Some? ==> Tells(s, Goto(s, id, Loaded(pc.callback, pc.seen, s.wf.value)), id, start)
  {
    hide Inv, Loaded, Goto;
    assert pc.callback == start.callback;
    if s.wf.Some? {
      StoredKnown(s);
      LoadedFits(s, pc.callback, pc.seen);
      GotoTells(s, id, Loaded(pc.callback, pc.seen, s.wf.value), start);
    }
  }

  lemma RefusalTells(s: Sys, id: nat, pc: PC, now: Time, start: PC)
    requires start.ResumeStart? && Fits(start, s.log, pc) && (pc.ResumeReject? || pc.ResumeChanges? || pc.ResumeReanalyse?)
    ensures Tells(s, AdvanceAdmission(s, id, pc, Proceed(now)), id, start)
  {
    hide Tells, SetStatus, Transition, Goto;
    if pc.ResumeReject? {
      RefusedMay(s.log, start, pc);
      TransitionTells(s, id, C.REJECTED, None, None, Close(pc.rec, FAILED, "APPROVAL_REJECTED"), start);
    } else {
      ChangesMay(s.log, start, pc);
      hide Fits, Allowed;
      if pc.ResumeChanges? {
        TransitionTells(s, id, C.REJECTED, None, None, ResumeChanges(pc.rec, C.REJECTED), start);
        TransitionTells(s, id, C.ANALYZING, None, None, ResumeReanalyse(pc.rec), start);
        GotoTells(s, id, ResumeReanalyse(pc.rec), start);
      } else {
        SetStatusTells(s, id, pc.rec, ANALYZING, Some("APPROVAL_CHANGES_REQUESTED"), now, r => Stopped, start);
      }
    }
  }

  lemma RefusedMay(log: seq<Event>, start: PC, pc: PC)
    requires start.ResumeStart? && Fits(start, log, pc) && pc.ResumeReject?
    ensures Fits(start, log, Close(pc.rec, FAILED, "APPROVAL_REJECTED"))
    ensures forall c: Change | c.status == C.REJECTED :: Allowed(start, log, Entered(c))
  {
  }

  lemma ChangesMay(log: seq<Event>, start: PC, pc: PC)
    requires start.ResumeStart? && Fits(start, log, pc) && (pc.ResumeChanges? || pc.ResumeReanalyse?)
    ensures Fits(start, log, Stopped) && Fits(start, log, ResumeReanalyse(pc.rec))
    ensures forall seen :: Fits(start, log, ResumeChanges(pc.rec, seen))
    ensures forall c: Change | c.status in {C.REJECTED, C.ANALYZING} :: Allowed(start, log, Entered(c))
    ensures forall r: Record | r.status.ANALYZING? && r.lastErrorCode == Some("APPROVAL_CHANGES_REQUESTED") :: Allowed(start, log, Stored(r))
  {
  }

  // ---------------------------------------------------------------- granted runs

  ghost predicate Granted(start: PC, log: seq<Event>) {
    start.ResumeStart? && start.callback.decision.GRANTED? && Matches(log, start.callback)
  }

  lemma GrantedMay(start: PC, log: seq<Event>)
    requires Granted(start, log)
    ensures forall pc | Working(pc) || pc.Stopped? :: Fits(start, log, pc)
    ensures forall e :: Allowed(start, log, e)
  {
  }

  lemma GrantedGoes(s: Sys, id: nat, pc: PC, start: PC)
    requires Granted(start, s.log) && (Working(pc) || pc.Stopped?)
    ensures Tells(s, Goto(s, id, pc), id, start)
  {
    GrantedMay(start, s.log);
    hide Fits;
    GotoTells(s, id, pc, start);
  }

  lemma GrantedMoves(s: Sys, id: nat, target: C.Status, next: PC, start: PC)
    requires Granted(start, s.log) && (Working(next) || next.Stopped?)
    ensures Tells(s, Transition(s, id, target, None, None, next), id, start)
  {
    GrantedMay(start, s.log);
    hide Fits, Allowed;
    TransitionTells(s, id, target, None, None, next, start);
  }

  lemma GrantedUpdates(s: Sys, id: nat, rec: Record, r: Record, now: Time, next: Record -> PC, start: PC)
    requires Granted(start, s.log) && forall u :: Working(next(u))
    ensures Tells(s, Update(s, id, rec, r, now, next), id, start)
  {
    GrantedMay(start, s.log);
    hide Fits, Allowed, Working;
    UpdateTells(s, id, rec, r, now, next, start);
  }

  lemma GrantedMarks(s: Sys, id: nat, rec: Record, status: RuntimeStatus, code: Option<string>, now: Time, next: Record -> PC, start: PC)
    requires Granted(start, s.log) && forall u :: Working(next(u))
    ensures Tells(s, SetStatus(s, id, rec, status, code, now, next), id, start)
  {
    GrantedMay(start, s.log);
    hide Fits, Allowed, Working;
    SetStatusTells(s, id, rec, status, code, now, next, start);
  }

  lemma GrantedEmits(s: Sys, s1: Sys, id: nat, e: Event, pc: PC, start: PC)
    requires Granted(start, s.log) && Working(pc) && s1.log == s.log && s1.runs == s.runs
    ensures Tells(s, Emit(s1, id, e, pc), id, start)
  {
    GrantedMay(start, s.log);
    hide Fits, Allowed;
    EmitTells(s, s1, id, e, pc, start);
  }

  lemma ResumeTells(s: Sys, id: nat, pc: PC, x: Input, start: PC)
    requires InResume(pc) && Working(pc) && Granted(start, s.log)
    ensures Tells(s, AdvanceResume(s, id, pc, x), id, start) || AdvanceResume(s, id, pc, x) == s
  {
    hide Tells, Granted, Complete, AdvanceAdmission, AdvanceGrant, AdvanceCapture, AdvanceDag, AdvanceWave, AdvanceVerification;
    if pc.ResumeAdvance? { GrantTells(s, id, pc.rec, pc.seen, x, start); }
    else if pc.ResumeSnapshots? { CaptureTells(s, id, pc.rec, pc.loaded, pc.taken, x, start); }
    else if pc.ResumeDag? { DagTells(s, id, pc.rec, pc.loaded, x, start); }
    else if pc.ResumeWave? { WaveTells(s, id, pc.rec, pc.loaded, pc.ready, pc.done, x, start); }
    else if pc.ResumeComplete? { if x.Proceed? { CompletionTells(s, id, pc.rec, pc.loaded, x.now, start); } }
    else { VerificationTells(s, id, pc, x, start); }
  }

  lemma GrantTells(s: Sys, id: nat, rec: Record, seen: C.Status, x: Input, start: PC)
    requires Granted(start, s.log)
    ensures Tells(s, AdvanceGrant(s, id, rec, seen, x), id, start) || AdvanceGrant(s, id, rec, seen, x) == s
  {
    hide Tells, Granted, SetStatus, Transition, Goto;
    GrantedGoes(s, id, Stopped, start);
    GrantedMoves(s, id, C.APPROVED, ResumeAdvance(rec, C.APPROVED), start);
    GrantedMoves(s, id, C.EXECUTING, ResumeAdvance(rec, C.EXECUTING), start);
    if x.Proceed? { GrantedMarks(s, id, rec, EXECUTING, None, x.now, r => ResumeSnapshots(r, rec.tasks, map[]), start); }
  }

  lemma CaptureTells(s: Sys, id: nat, rec: Record, loaded: seq<Task>, taken: map<nat, (nat, ConfigDigest)>, x: Input, start: PC)
    requires Granted(start, s.log)
    ensures Tells(s, AdvanceCapture(s, id, rec, loaded, taken, x), id, start) || AdvanceCapture(s, id, rec, loaded, taken, x) == s
  {
    hide Tells, Granted, Update, Goto, Emit, WithSnapshots;
    GrantedGoes(s, id, ResumeDag(rec, loaded), start);
    if x.Captured? && Missing(rec, x.i) {
      GrantedEmits(s, s.(nextSnapshot := s.nextSnapshot + 1), id,
                   SnapshotTaken(s.nextSnapshot, rec.tasks[x.i].stepId, x.configuration),
                   ResumeSnapshots(rec, loaded, taken[x.i := (s.nextSnapshot, x.configuration)]), start);
    } else if x.Proceed? {
      GrantedUpdates(s, id, rec, WithSnapshots(rec, taken), x.now, r => ResumeDag(r, loaded), start);
    }
  }

  lemma AfterDagWorks(rec: Record, loaded: seq<Task>)
    ensures Working(AfterDag(rec, loaded)) && forall done :: Working(AfterWave(rec, loaded, done))
  {
  }

  lemma DagTells(s: Sys, id: nat, rec: Record, loaded: seq<Task>, x: Input, start: PC)
    requires Granted(start, s.log)
    ensures Tells(s, AdvanceDag(s, id, rec, loaded, x), id, start) || AdvanceDag(s, id, rec, loaded, x) == s
  {
    hide Tells, Granted, Goto, AfterDag, ReadySet;
    AfterDagWorks(rec, loaded);
    GrantedGoes(s, id, AfterDag(rec, loaded), start);
    GrantedGoes(s, id, Stopped, start);
    GrantedGoes(s, id, ResumeWave(rec, loaded, ReadySet(rec), map[]), start);
  }

  lemma WaveTells(s: Sys, id: nat, rec: Record, loaded: seq<Task>, ready: set<nat>, done: map<nat, Option<Task>>, x: Input, start: PC)
    requires Granted(start, s.log)
    ensures Tells(s, AdvanceWave(s, id, rec, loaded, ready, done, x), id, start) || AdvanceWave(s, id, rec, loaded, ready, done, x) == s
  {
    hide Tells, Granted, Update, Goto, Emit, WithResults, AfterWave;
    match x
    case Issue(i) =>
      if i < |rec.tasks| {
        GrantedEmits(s, s, id, ExecuteIssued(rec.tasks[i].stepId), ResumeWave(rec, loaded, ready, done[i := None]), start);
      }
    case Succeeded(i, attempts, execution, output) =>
      if i < |rec.tasks| {
        var t := rec.tasks[i].(status := SUCCEEDED, attemptCount := attempts, executionId := Some(execution),
                               outputHash := Some(output), errorCode := None);
        GrantedGoes(s, id, ResumeWave(rec, loaded, ready, done[i := Some(t)]), start);
      }
    case Failed(i, attempts, code) =>
      if i < |rec.tasks| {
        var t := rec.tasks[i].(status := TASK_FAILED, attemptCount := attempts, errorCode := Some(code));
        GrantedGoes(s, id, ResumeWave(rec, loaded, ready, done[i := Some(t)]), start);
      }
    case Proceed(now) =>
      forall r ensures Working(AfterWave(r, loaded, done)) { AfterDagWorks(r, loaded); }
      GrantedUpdates(s, id, rec, WithResults(rec, done), now, r => AfterWave(r, loaded, done), start);
    case _ =>
  }

  lemma VerificationTells(s: Sys, id: nat, pc: PC, x: Input, start: PC)
    requires Granted(start, s.log)
    requires pc.ResumeToVerifying? || pc.ResumeMarkVerifying? || pc.ResumeVerify? || pc.ResumeToCompleted?
    ensures Tells(s, AdvanceVerification(s, id, pc, x), id, start) || AdvanceVerification(s, id, pc, x) == s
  {
    hide Tells, Granted, SetStatus, Transition, Goto, Emit;
    if pc.ResumeToVerifying? {
      GrantedMoves(s, id, C.VERIFYING, ResumeMarkVerifying(pc.rec, pc.loaded), start);
    } else if pc.ResumeMarkVerifying? && x.Proceed? {
      GrantedMarks(s, id, pc.rec, VERIFYING, None, x.now, r => ResumeVerify(r, pc.loaded, {}), start);
    } else if pc.ResumeVerify? {
      VerifyTells(s, id, pc.rec, pc.loaded, pc.passed, x, start);
    } else if pc.ResumeToCompleted? {
      GrantedMoves(s, id, C.COMPLETED, ResumeComplete(pc.rec, pc.loaded), start);
    }
  }

  lemma VerifyTells(s: Sys, id: nat, rec: Record, loaded: seq<Task>, passed: set<nat>, x: Input, start: PC)
    requires Granted(start, s.log)
    ensures Tells(s, AdvanceVerification(s, id, ResumeVerify(rec, loaded, passed), x), id, start)
            || AdvanceVerification(s, id, ResumeVerify(rec, loaded, passed), x) == s
  {
    hide Tells, Granted, Goto, Emit;
    GrantedGoes(s, id, ResumeToCompleted(rec, loaded), start);
    match x
    case Issue(i) =>
      if i < |rec.tasks| {
        GrantedEmits(s, s, id, VerifyPassed(rec.tasks[i].stepId), ResumeVerify(rec, loaded, passed + {i}), start);
      }
    case Failure(code, _) => GrantedGoes(s, id, RollbackRead(rec, code), start);
    case _ =>
  }

  lemma CompletionTells(s: Sys, id: nat, rec: Record, loaded: seq<Task>, now: Time, start: PC)
    requires Granted(start, s.log)
    ensures Tells(s, Complete(s, id, rec, loaded, now), id, start)
  {
    hide ValidRecord, Granted, Matches;
    GrantedMay(start, s.log);
    StopTells(s, id, start);
    hide Allowed;
  }

  lemma RollbackTells(s: Sys, id: nat, pc: PC, x: Input, start: PC)
    requires Working(pc) && !InResume(pc) && !pc.Close? && Granted(start, s.log)
    ensures Tells(s, AdvanceRollback(s, id, pc, x), id, start) || AdvanceRollback(s, id, pc, x) == s
  {
    hide Tells, Granted, InResume, AdvanceRestore, AdvanceCompensation, AdvanceUser, CloseRecord;
    if pc.RollbackTasks? { RestoreTells(s, id, pc.rec, pc.code, pc.compensated, x, start); }
    else { CompensationTells(s, id, pc, x, start); }
  }

  lemma CompensationTells(s: Sys, id: nat, pc: PC, x: Input, start: PC)
    requires Granted(start, s.log)
    ensures Tells(s, AdvanceCompensation(s, id, pc, x), id, start) || AdvanceCompensation(s, id, pc, x) == s
  {
    hide Tells, Granted, SetStatus, Transition, Goto, AnyStatus;
    GrantedGoes(s, id, Stopped, start);
    if pc.RollbackRead? {
      GrantedGoes(s, id, RollbackEnter(pc.rec, pc.code), start);
      GrantedGoes(s, id, RollbackMark(pc.rec, pc.code), start);
    } else if pc.RollbackEnter? {
      GrantedMoves(s, id, C.ROLLING_BACK, RollbackMark(pc.rec, pc.code), start);
    } else if pc.RollbackMark? && x.Proceed? {
      GrantedMarks(s, id, pc.rec, ROLLING_BACK, Some(pc.code), x.now, r => RollbackTasks(r, pc.code, map[]), start);
    } else if pc.RollbackClose? {
      GrantedMoves(s, id, C.NEEDS_ATTENTION, Close(pc.rec, NEEDS_ATTENTION, pc.code), start);
      GrantedMoves(s, id, C.FAILED, Close(pc.rec, FAILED, pc.code), start);
    }
  }

  lemma RestoreTells(s: Sys, id: nat, rec: Record, code: string, done: map<nat, Task>, x: Input, start: PC)
    requires Granted(start, s.log)
    ensures Tells(s, AdvanceRestore(s, id, rec, code, done, x), id, start) || AdvanceRestore(s, id, rec, code, done, x) == s
  {
    hide Tells, Granted, Update, Goto, OrderOf, RestoredTask, WithRestored;
    match x
    case Restored(i) =>
      if i < |rec.tasks| { GrantedGoes(s, id, RollbackTasks(rec, code, done[i := RestoredTask(rec.tasks[i], true, "")]), start); }
    case Failed(i, _, failure) =>
      if i < |rec.tasks| { GrantedGoes(s, id, RollbackTasks(rec, code, done[i := RestoredTask(rec.tasks[i], false, failure)]), start); }
    case Proceed(now) => GrantedUpdates(s, id, rec, WithRestored(rec, done), now, r => RollbackClose(r, code), start);
    case _ =>
  }

  // ---------------------------------------------------------------- every run

  /** Every run is where its start may be. */
  ghost predicate AllFit(s: Sys, starts: map<nat, PC>) {
    s.runs.Keys == starts.Keys && forall id <- s.runs :: Startable(starts[id]) && Fits(starts[id], s.log, s.runs[id])
  }

  lemma RunTells(s: Sys, id: nat, x: Input, start: PC)
    requires Inv(s) && id in s.runs && Startable(start) && Fits(start, s.log, s.runs[id])
    ensures Tells(s, Act(s, Go(id, x)), id, start) || Act(s, Go(id, x)) == s
  {
    hide Inv, RunOk, Tells, AdvanceEvent, AdvanceResume, AdvanceRollback, Granted;
    var pc := s.runs[id];
    if pc.Stopped? {
      NothingLeft(s, id, x);
    } else if start.EventStart? && InEvent(pc) {
      ThisRun(s, id);
      EventTells(s, id, pc, x);
    } else if pc.Close? {
      ClosingTells(s, id, pc, x, start);
    } else if InUser(start) {
      UsersTell(s, id, pc, x, start);
    } else if InResume(pc) && !Working(pc) {
      AdmissionTells(s, id, pc, x, start);
      AdmissionIs(s, id, pc, x);
    } else {
      WorkingIsGranted(s.log, start, pc);
      if InResume(pc) { ResumeTells(s, id, pc, x, start); } else { RollbackTells(s, id, pc, x, start); }
    }
  }

  lemma NothingLeft(s: Sys, id: nat, x: Input)
    ensures AdvanceRollback(s, id, Stopped, x) == s
  {
  }

  lemma ClosingTells(s: Sys, id: nat, pc: PC, x: Input, start: PC)
    requires pc.Close? && Fits(start, s.log, pc)
    ensures Tells(s, AdvanceRollback(s, id, pc, x), id, start) || AdvanceRollback(s, id, pc, x) == s
  {
    hide Tells, Fits, CloseRecord;
    if x.Proceed? { CloseTells(s, id, pc, x.now, start); }
  }

  lemma UsersTell(s: Sys, id: nat, pc: PC, x: Input, start: PC)
    requires Inv(s) && InUser(start) && InUser(pc) && Fits(start, s.log, pc)
    ensures Tells(s, AdvanceRollback(s, id, pc, x), id, start) || AdvanceRollback(s, id, pc, x) == s
  {
    hide Inv, Tells, Fits, AdvanceUser;
    UserTells(s, id, pc, x, start);
  }

  lemma AdmissionIs(s: Sys, id: nat, pc: PC, x: Input)
    requires InResume(pc) && !Working(pc)
    ensures AdvanceResume(s, id, pc, x) == AdvanceAdmission(s, id, pc, x)
  {
    hide AdvanceAdmission;
  }

  lemma WorkingIsGranted(log: seq<Event>, start: PC, pc: PC)
    requires Startable(start) && Fits(start, log, pc) && !pc.Stopped? && !(start.EventStart? && InEvent(pc)) && !pc.Close?
    requires !InUser(start) && !(InResume(pc) && !Working(pc))
    ensures Granted(start, log) && Working(pc)
  {
    hide Matches;
  }

  lemma TellsKeepsAllFit(s: Sys, s': Sys, id: nat, starts: map<nat, PC>)
    requires AllFit(s, starts) && id in s.runs && Tells(s, s', id, starts[id])
    ensures AllFit(s', starts)
  {
    hide Fits, Allowed, Startable;
    forall w | w in s'.runs ensures Fits(starts[w], s'.log, s'.runs[w]) {
      if w != id {
        FitsLater(starts[w], s.log, s'.log[|s.log|..], s.runs[w]);
        assert s.log + s'.log[|s.log|..] == s'.log;
      }
    }
  }

  lemma {:induction false} EveryRunFits(supported: bool, actions: seq<Action>)
    ensures AllFit(Run(supported, actions), Starts(supported, actions))
  {
    if actions != [] {
      var before, a := actions[..|actions| - 1], actions[|actions| - 1];
      EveryRunFits(supported, before);
      ReachableInv(supported, before);
      hide Inv, Act, Fits;
      var s := Run(supported, before);
      match a
      case Spawn(id, pc) => SpawnFits(s, id, pc, Starts(supported, before));
      case Crash(id) => CrashFits(s, id, Starts(supported, before));
      case Go(id, x) =>
        if id in s.runs {
          RunTells(s, id, x, Starts(supported, before)[id]);
          if Act(s, a) != s { TellsKeepsAllFit(s, Act(s, a), id, Starts(supported, before)); }
        } else {
          NobodyGoes(s, id, x);
        }
    }
  }

  lemma NobodyGoes(s: Sys, id: nat, x: Input)
    requires id !in s.runs
    ensures Act(s, Go(id, x)) == s
  {
  }

  lemma SpawnFits(s: Sys, id: nat, pc: PC, starts: map<nat, PC>)
    requires AllFit(s, starts)
    ensures AllFit(Act(s, Spawn(id, pc)), if Startable(pc) && id !in s.runs then starts[id := pc] else starts)
  {
    if Startable(pc) { assert Fits(pc, s.log, pc); }
    hide Fits, Startable;
  }

  lemma CrashFits(s: Sys, id: nat, starts: map<nat, PC>)
    requires AllFit(s, starts)
    ensures AllFit(Act(s, Crash(id)), starts)
  {
    assert forall start :: Fits(start, s.log, Stopped);
    hide Fits, Startable;
  }

  // ---------------------------------------------------------------- the theorems

  /** Whatever an action adds to the log, the run it belongs to was started with something that allows it. */
  lemma RunsKeepToTheirStart(supported: bool, actions: seq<Action>, a: Action, e: Event)
    requires e in Added(Run(supported, actions), a)
    ensures a.Go? && a.id in Starts(supported, actions)
    ensures Allowed(Starts(supported, actions)[a.id], Run(supported, actions).log, e)
  {
    EveryRunFits(supported, actions);
    ReachableInv(supported, actions);
    hide Inv, Fits, Allowed, Run, Startable;
    var s := Run(supported, actions);
    if a.Go? && a.id in s.runs {
      RunTells(s, a.id, a.x, Starts(supported, actions)[a.id]);
      var k :| 0 <= k < |Added(s, a)| && Added(s, a)[k] == e;
      TellsAt(s, Act(s, a), a.id, Starts(supported, actions)[a.id], |s.log| + k);
    }
  }

  lemma TellsAt(s: Sys, s': Sys, id: nat, start: PC, k: nat)
    requires (Tells(s, s', id, start) || s' == s) && |s.log| <= k < |s'.log|
    ensures Allowed(start, s.log, s'.log[k])
  {
    hide Allowed, Fits;
  }

  /** What the log holds was added by some action. */
  lemma {:induction false} AddedBy(supported: bool, actions: seq<Action>, i: nat) returns (n: nat)
    requires i < |Run(supported, actions).log|
    ensures n < |actions| && Run(supported, actions).log[i] in Added(Run(supported, actions[..n]), actions[n])
    ensures |Run(supported, actions[..n]).log| <= i
  {
    hide Act;
    var before, a := actions[..|actions| - 1], actions[|actions| - 1];
    LogOnlyGrows(supported, before, a);
    var s := Run(supported, before);
    if i < |s.log| {
      n := AddedBy(supported, before, i);
      assert before[..n] == actions[..n];
    } else {
      n := |actions| - 1;
      assert Added(s, a)[i - |s.log|] == Run(supported, actions).log[i];
    }
  }

  lemma LogOnlyGrows(supported: bool, actions: seq<Action>, a: Action)
    ensures var s, s' := Run(supported, actions), Act(Run(supported, actions), a);
            |s.log| <= |s'.log| && s'.log[..|s.log|] == s.log
  {
    EveryRunFits(supported, actions);
    ReachableInv(supported, actions);
    hide Inv, Fits, Allowed, Run, Startable;
    var s := Run(supported, actions);
    if a.Go? && a.id in s.runs { RunTells(s, a.id, a.x, Starts(supported, actions)[a.id]); }
  }

  /** Run `id` was started with a granted callback that quotes a record stored by then. */
  ghost predicate ByGrant(supported: bool, actions: seq<Action>, n: nat)
    requires n < |actions|
  {
    && actions[n].Go? && actions[n].id in Starts(supported, actions[..n])
    && Granted(Starts(supported, actions[..n])[actions[n].id], Run(supported, actions[..n]).log)
  }

  lemma IssuesAreGranted(start: PC, log: seq<Event>, e: Event)
    requires Allowed(start, log, e) && e.ExecuteIssued?
    ensures Granted(start, log)
  {
  }

  lemma ApprovalsAreGrantedOrRetried(start: PC, log: seq<Event>, e: Event)
    requires Startable(start) && Allowed(start, log, e) && e.Entered? && e.change.status == C.APPROVED
    ensures Granted(start, log) || (start.UserRetry? && EnteredStatus(log, C.APPROVED))
  {
  }

  /** Every execution issued is that of a run whose callback granted a stored plan by its approval, hash and version. */
  lemma ExecutionsWereGranted(supported: bool, actions: seq<Action>, i: nat)
    requires i < |Run(supported, actions).log| && Run(supported, actions).log[i].ExecuteIssued?
    ensures exists n :: 0 <= n < |actions| && ByGrant(supported, actions, n)
                        && Run(supported, actions).log[i] in Added(Run(supported, actions[..n]), actions[n])
  {
    hide Run, Added, Allowed, Granted;
    var n := AddedBy(supported, actions, i);
    RunsKeepToTheirStart(supported, actions[..n], actions[n], Run(supported, actions).log[i]);
    IssuesAreGranted(Starts(supported, actions[..n])[actions[n].id], Run(supported, actions[..n]).log, Run(supported, actions).log[i]);
    assert ByGrant(supported, actions, n);
  }

  /** The change entered APPROVED at position `i`, in a run whose callback granted a stored plan. */
  ghost predicate GrantedAt(supported: bool, actions: seq<Action>, i: int) {
    && 0 <= i < |Run(supported, actions).log| && Run(supported, actions).log[i].Entered?
    && Run(supported, actions).log[i].change.status == C.APPROVED
    && exists n :: 0 <= n < |actions| && Run(supported, actions).log[i] in Added(Run(supported, actions[..n]), actions[n])
                   && ByGrant(supported, actions, n)
  }

  /** Every APPROVED was entered by such a run, or by a retry after such a run had. */
  lemma {:induction false} ApprovalsWereGranted(supported: bool, actions: seq<Action>, i: nat)
    requires i < |Run(supported, actions).log| && Run(supported, actions).log[i].Entered?
    requires Run(supported, actions).log[i].change.status == C.APPROVED
    ensures exists j :: j <= i && GrantedAt(supported, actions, j)
    decreases i
  {
    hide Run, Added, Allowed, Granted, Fits;
    var log := Run(supported, actions).log;
    var n := AddedBy(supported, actions, i);
    RunsKeepToTheirStart(supported, actions[..n], actions[n], log[i]);
    var start, before := Starts(supported, actions[..n])[actions[n].id], Run(supported, actions[..n]).log;
    EveryRunFits(supported, actions[..n]);
    ApprovalsAreGrantedOrRetried(start, before, log[i]);
    if Granted(start, before) {
      assert ByGrant(supported, actions, n);
      assert GrantedAt(supported, actions, i);
    } else {
      LogOfPrefix(supported, actions, n);
      var e :| e in before && e.Entered? && e.change.status == C.APPROVED;
      var k :| 0 <= k < |before| && before[k] == e;
      assert log[k] == e;
      ApprovalsWereGranted(supported, actions, k);
    }
  }

  lemma {:induction false} LogOfPrefix(supported: bool, actions: seq<Action>, n: nat)
    requires n <= |actions|
    ensures var before, log := Run(supported, actions[..n]).log, Run(supported, actions).log;
            |before| <= |log| && log[..|before|] == before
    decreases |actions| - n
  {
    hide Act;
    if n == |actions| {
      assert actions[..n] == actions;
    } else {
      var before, a := actions[..|actions| - 1], actions[|actions| - 1];
      assert before[..n] == actions[..n];
      LogOfPrefix(supported, before, n);
      LogOnlyGrows(supported, before, a);
      var p, q, r := Run(supported, actions[..n]).log, Run(supported, before).log, Run(supported, actions).log;
      assert r[..|p|] == r[..|q|][..|p|];
    }
  }
}
