/** The steps of the three kinds of run keep the saga's invariant. */
module SagaSteps {
  import opened Common
  import opened Plans
  import opened Sandbox
  import opened Workflows
  import opened Executor
  import opened Saga
  import opened SagaInvariant
  import opened SagaProof
  import C = ChangeState

  lemma ThisRun(s: Sys, id: nat)
    requires Inv(s) && id in s.runs
    ensures RunOk(s.supported, s.log, s.runs[id])
  {
  }

  lemma StoredKnown(s: Sys)
    requires Inv(s) && s.wf.Some?
    ensures Known(s.log, s.wf.value) && RecordOk(s.supported, s.log, s.wf.value)
  {
    hide RecordOk, RunOk;
    KnownOk(s.supported, s.log, s.wf.value);
  }

  lemma RecordOfRun(s: Sys, rec: Record)
    requires Inv(s) && Known(s.log, rec)
    ensures RecordOk(s.supported, s.log, rec)
  {
    KnownOk(s.supported, s.log, rec);
  }

  // ---------------------------------------------------------------- process_event

  lemma IntakeKeeps(s: Sys, id: nat, pc: PC, now: Time)
    requires Inv(s) && RunOk(s.supported, s.log, pc)
    requires pc.EventStart? || pc.EventBump? || pc.EventCreate? || pc.EventLoaded? || pc.EventAnalyzing?
    ensures Inv(AdvanceIntake(s, id, pc, Proceed(now)))
  {
    hide Inv, RunOk, AdvanceIntake;
    match pc
    case EventStart => StartKeeps(s, id, now);
    case EventBump(rec) => BumpKeeps(s, id, rec, now);
    case EventCreate => CreateKeeps(s, id, now);
    case EventLoaded(rec) => LoadedEventKeeps(s, id, rec, now);
    case EventAnalyzing(rec) => AnalyzingKeeps(s, id, rec, now);
  }

  lemma StartKeeps(s: Sys, id: nat, now: Time)
    requires Inv(s)
    ensures Inv(AdvanceIntake(s, id, EventStart, Proceed(now)))
  {
    hide Inv, RecordOk, Goto;
    StoppedOk(s, id);
    assert RunOk(s.supported, s.log, EventCreate);
    GotoKeeps(s, id, EventCreate);
    if s.wf.Some? && (s.wf.value.status.RECEIVED? || s.wf.value.status.ANALYZING?) {
      StoredKnown(s);
      assert RunOk(s.supported, s.log, EventBump(s.wf.value));
      GotoKeeps(s, id, EventBump(s.wf.value));
    }
  }

  lemma BumpKeeps(s: Sys, id: nat, rec: Record, now: Time)
    requires Inv(s) && RunOk(s.supported, s.log, EventBump(rec))
    ensures Inv(AdvanceIntake(s, id, EventBump(rec), Proceed(now)))
  {
    hide Inv, RecordOk, Persists, ValidRecord, Update;
    RecordOfRun(s, rec);
    var u := rec.(deliveryAttempts := rec.deliveryAttempts + 1, updatedAt := now, version := rec.version + 1);
    if ValidRecord(u) { BumpOk(s.supported, s.log, rec, u); }
    assert RunOk(s.supported, s.log + [Stored(u)], EventLoaded(u));
    assert Known(s.log, rec);
    hide RunOk;
    UpdateKeeps(s, id, rec, rec.(deliveryAttempts := rec.deliveryAttempts + 1), now, r => EventLoaded(r));
  }

  lemma CreateKeeps(s: Sys, id: nat, now: Time)
    requires Inv(s)
    ensures Inv(AdvanceIntake(s, id, EventCreate, Proceed(now)))
  {
    hide Inv, RecordOk, Persists;
    if s.wf.Some? {
      StoredKnown(s);
      assert RunOk(s.supported, s.log, EventLoaded(s.wf.value));
      GotoKeeps(s, id, EventLoaded(s.wf.value));
    } else {
      var r := EMPTY_RECORD.(startedAt := now, updatedAt := now);
      FreshRecordOk(s, r, now);
      assert RunOk(s.supported, s.log + [Stored(r)], EventLoaded(r));
      StoreKeeps(s, id, r, EventLoaded(r));
    }
  }

  lemma LoadedEventKeeps(s: Sys, id: nat, rec: Record, now: Time)
    requires Inv(s) && RunOk(s.supported, s.log, EventLoaded(rec))
    ensures Inv(AdvanceIntake(s, id, EventLoaded(rec), Proceed(now)))
  {
    hide Inv, RecordOk, Persists;
    if !s.supported {
      RecordOfRun(s, rec);
      UnsupportedNotClosed(s.log, rec);
      GotoKeeps(s, id, Close(rec, DEAD_LETTERED, "UNSUPPORTED_EVENT_TYPE"));
    } else if s.change.Some? {
      GotoKeeps(s, id, EventAnalyzing(rec));
    } else {
      NewChangeOk(s);
      EnterKeeps(s, id, NEW_CHANGE, EventAnalyzing(rec));
    }
  }

  lemma AnalyzingKeeps(s: Sys, id: nat, rec: Record, now: Time)
    requires Inv(s) && RunOk(s.supported, s.log, EventAnalyzing(rec))
    ensures Inv(AdvanceIntake(s, id, EventAnalyzing(rec), Proceed(now)))
  {
    hide Inv, RecordOk, Persists;
    var u := rec.(status := ANALYZING, lastErrorCode := None, updatedAt := now, version := rec.version + 1);
    assert RunOk(s.supported, s.log + [Stored(u)], EventReadChange(u));
    SetStatusKeeps(s, id, rec, ANALYZING, None, now, r => EventReadChange(r));
  }

  lemma BumpOk(supported: bool, log: seq<Event>, rec: Record, u: Record)
    requires RecordOk(supported, log, rec) && ValidRecord(u) && (rec.status.RECEIVED? || rec.status.ANALYZING?)
    requires u == rec.(deliveryAttempts := u.deliveryAttempts, updatedAt := u.updatedAt, version := rec.version + 1)
    ensures RecordOk(supported, log, u) && Persists(rec, u)
  {
    StatusUpdate(supported, log, rec, u);
  }

  lemma FreshRecordOk(s: Sys, r: Record, now: Time)
    requires r == EMPTY_RECORD.(startedAt := now, updatedAt := now)
    ensures RecordOk(s.supported, s.log, r)
  {
  }

  lemma UnsupportedNotClosed(log: seq<Event>, rec: Record)
    requires RecordOk(false, log, rec)
    ensures !Closed(rec.status)
  {
  }

  lemma NewChangeOk(s: Sys)
    requires Inv(s) && s.change.None?
    ensures EventOk(s.supported, s.log, Entered(NEW_CHANGE))
  {
  }

  lemma ScreeningRun(s: Sys, pc: PC)
    requires RunOk(s.supported, s.log, pc) && (pc.EventReadChange? || pc.EventScreen? || pc.EventAnalyse? || pc.EventBlock?)
    ensures Analysing(s.supported, s.log, pc.rec) && (pc.EventAnalyse? ==> pc.rec.plan.None?)
  {
  }

  /** Where a run that is analysing an open record may go. */
  lemma AnalysingRuns(supported: bool, log: seq<Event>, rec: Record)
    requires Analysing(supported, log, rec)
    ensures RunOk(supported, log, EventScreen(rec)) && RunOk(supported, log, AfterScreening(rec))
    ensures forall status, code | Terminal(status) && !status.COMPLETED? :: RunOk(supported, log, Close(rec, status, code))
    ensures forall code :: RunOk(supported, log, EventBlock(rec, code))
    ensures forall p: Plan, hash | rec.plan.None? && ValidateStepGraph(p.steps).Ok? :: RunOk(supported, log, EventAnalysed(rec, p, hash))
  {
    hide ValidateStepGraph;
  }

  lemma ScreeningKeeps(s: Sys, id: nat, pc: PC, x: Input)
    requires Inv(s) && RunOk(s.supported, s.log, pc)
    requires pc.EventReadChange? || pc.EventScreen? || pc.EventAnalyse? || pc.EventBlock?
    ensures Inv(AdvanceScreening(s, id, pc, x))
  {
    hide Inv, ValidateStepGraph, RunOk, Analysing, Transition, AfterScreening, Goto;
    ScreeningRun(s, pc);
    AnalysingRuns(s.supported, s.log, pc.rec);
    StoppedOk(s, id);
    match (pc, x)
    case (EventReadChange(rec), Proceed(now)) =>
      if s.change.Some? {
        GotoKeeps(s, id, if s.change.value.status == C.RECEIVED then EventScreen(rec) else AfterScreening(rec));
      }
    case (EventScreen(rec), Proceed(now)) =>
      AnyEntered(s, C.SCREENING, AfterScreening(rec));
      TransitionKeeps(s, id, C.SCREENING, Some(rec.workflowId), None, rec, AfterScreening(rec));
    case (EventAnalyse(rec), Answer(p, hash)) =>
      GotoKeeps(s, id, if ValidateStepGraph(p.steps).Ok? then EventAnalysed(rec, p, hash)
                       else Close(rec, DEAD_LETTERED, "FLEET_INVALID_RESPONSE"));
    case (EventAnalyse(rec), Failure(code, transient)) =>
      if !transient || code == "PROMPT_INJECTION_BLOCKED" {
        GotoKeeps(s, id, if code == "PROMPT_INJECTION_BLOCKED" then EventBlock(rec, code) else Close(rec, DEAD_LETTERED, code));
      }
    case (EventBlock(rec, code), Proceed(now)) =>
      AnyEntered(s, C.BLOCKED, Close(rec, FAILED, code));
      TransitionKeeps(s, id, C.BLOCKED, None, None, rec, Close(rec, FAILED, code));
    case _ =>
  }

  /** What a run may rely on before a transition it may rely on after it. */
  lemma AnyEntered(s: Sys, target: C.Status, next: PC)
    requires RunOk(s.supported, s.log, next)
    ensures forall c: Change | c.status == target :: RunOk(s.supported, s.log + [Entered(c)], next)
  {
    hide RunOk;
    forall c: Change | c.status == target ensures RunOk(s.supported, s.log + [Entered(c)], next) {
      RunGrows(s.supported, s.log, [Entered(c)], next);
    }
  }

  lemma PlanningKeeps(s: Sys, id: nat, pc: PC, x: Input)
    requires Inv(s) && RunOk(s.supported, s.log, pc)
    requires pc.EventAnalysed? || pc.EventToAnalyzing? || pc.EventStorePlan? || pc.EventRead?
    ensures Inv(AdvancePlanning(s, id, pc, x))
  {
    hide Inv, ValidateStepGraph, StorePlan, Transition;
    match (pc, x)
    case (EventAnalysed(rec, p, hash), Proceed(now)) =>
      if s.change.None? {
        StoppedOk(s, id);
      } else {
        GotoKeeps(s, id, if s.change.value.status == C.SCREENING then EventToAnalyzing(rec, p, hash)
                         else EventStorePlan(rec, p, hash));
      }
    case (EventToAnalyzing(rec, p, hash), Proceed(now)) =>
      AnyEntered(s, C.ANALYZING, EventStorePlan(rec, p, hash));
      TransitionKeeps(s, id, C.ANALYZING, None, None, rec, EventStorePlan(rec, p, hash));
    case (EventStorePlan(rec, p, hash), Proceed(now)) => StorePlanKeeps(s, id, rec, p, hash, now);
    case (EventRead(rec), Proceed(now)) =>
      GotoKeeps(s, id, if s.change.None? then Stopped else EventAdvance(rec, s.change.value.status));
    case _ =>
  }

  lemma StorePlanKeeps(s: Sys, id: nat, rec: Record, p: Plan, hash: PlanDigest, now: Time)
    requires Inv(s) && Analysing(s.supported, s.log, rec) && rec.plan.None? && ValidateStepGraph(p.steps).Ok?
    ensures Inv(StorePlan(s, id, rec, p, hash, now))
  {
    hide Inv, Planned, RecordOk, Persists, ValidRecord, Update, ValidateStepGraph, CalculatePlanHash;
    if p.tenantId != rec.tenantId || p.changeId != rec.changeId || hash != CalculatePlanHash(p) {
      GotoKeeps(s, id, Close(rec, DEAD_LETTERED, "INVALID_FLEET_PLAN"));
    } else if exists step <- p.steps :: SystemForTool(step.toolName).None? {
      StoppedOk(s, id);
    } else {
      RecordOfRun(s, rec);
      var u := Planned(rec, p, now).(updatedAt := now, version := rec.version + 1);
      if ValidRecord(u) { PlannedOk(s.supported, s.log, rec, p, now); }
      PlannedStays(s, rec, p, now);
      hide RunOk;
      UpdateKeeps(s, id, rec, Planned(rec, p, now), now, r => EventRead(r));
    }
  }

  lemma PlannedStays(s: Sys, rec: Record, p: Plan, now: Time)
    requires Analysing(s.supported, s.log, rec)
    ensures var u := Planned(rec, p, now).(updatedAt := now, version := rec.version + 1);
            RunOk(s.supported, s.log + [Stored(u)], EventRead(u))
  {
  }

  lemma PlannedOk(supported: bool, log: seq<Event>, rec: Record, p: Plan, now: Time)
    requires RecordOk(supported, log, rec) && supported
    requires rec.plan.None? && rec.status.ANALYZING? && ValidateStepGraph(p.steps).Ok?
    requires ValidRecord(Planned(rec, p, now).(updatedAt := now, version := rec.version + 1))
    ensures var u := Planned(rec, p, now).(updatedAt := now, version := rec.version + 1);
            RecordOk(supported, log, u) && Persists(rec, u)
  {
    hide ValidRecord, ValidateStepGraph, TakenBeforeExecution;
    assert rec.completedAt.None? by { RecordIsValid(supported, log, rec); OpenRecord(rec); }
    var u := Planned(rec, p, now).(updatedAt := now, version := rec.version + 1);
    forall t | t in u.tasks ensures !t.status.RUNNING? && t.snapshotId.None? {
      var i :| 0 <= i < |u.tasks| && u.tasks[i] == t;
      assert t == FreshTask(p.steps[i]);
    }
  }

  lemma OpenRecord(rec: Record)
    requires ValidRecord(rec) && !Terminal(rec.status)
    ensures rec.completedAt.None?
  {
  }

  /** Where a run whose plan is stored may go while it asks for approval. */
  lemma ApprovalRuns(supported: bool, log: seq<Event>, pc: PC)
    requires RunOk(supported, log, pc) && (pc.EventAdvance? || pc.EventWait?)
    ensures var rec := pc.rec;
            && Analysing(supported, log, rec) && supported && Known(log, rec) && !Closed(rec.status)
            && (forall seen :: RunOk(supported, log, EventAdvance(rec, seen)))
            && RunOk(supported, log, EventWait(rec))
            && (forall code :: RunOk(supported, log, Close(rec, DEAD_LETTERED, code)))
    ensures forall l :: RunOk(supported, l, Stopped)
  {
  }

  lemma ApprovalKeeps(s: Sys, id: nat, pc: PC, x: Input)
    requires Inv(s) && RunOk(s.supported, s.log, pc) && (pc.EventAdvance? || pc.EventWait?)
    ensures Inv(AdvanceApproval(s, id, pc, x))
  {
    hide Inv, ValidateStepGraph, RunOk, Analysing, Known, Transition, Goto, SetStatus;
    ApprovalRuns(s.supported, s.log, pc);
    StoppedOk(s, id);
    match (pc, x)
    case (EventAdvance(rec, seen), Proceed(now)) =>
      if seen == C.SCREENING {
        AnyEntered(s, C.ANALYZING, EventAdvance(rec, C.ANALYZING));
        TransitionKeeps(s, id, C.ANALYZING, None, None, rec, EventAdvance(rec, C.ANALYZING));
      } else if seen == C.ANALYZING {
        AnyEntered(s, C.PLAN_READY, EventAdvance(rec, C.PLAN_READY));
        TransitionKeeps(s, id, C.PLAN_READY, None, rec.plan, rec, EventAdvance(rec, C.PLAN_READY));
      } else if seen == C.PLAN_READY {
        AnyEntered(s, C.AWAITING_APPROVAL, EventAdvance(rec, C.AWAITING_APPROVAL));
        TransitionKeeps(s, id, C.AWAITING_APPROVAL, None, None, rec, EventAdvance(rec, C.AWAITING_APPROVAL));
      } else {
        GotoKeeps(s, id, EventWait(rec));
      }
    case (EventAdvance(rec, seen), Failure(code, transient)) => GotoKeeps(s, id, Close(rec, DEAD_LETTERED, code));
    case (EventWait(rec), Proceed(now)) => SetStatusKeeps(s, id, rec, WAITING_APPROVAL, None, now, r => Stopped);
    case _ =>
  }

  lemma AdvanceEventKeeps(s: Sys, id: nat, pc: PC, x: Input)
    requires Inv(s) && InEvent(pc) && RunOk(s.supported, s.log, pc)
    ensures Inv(AdvanceEvent(s, id, pc, x))
  {
    hide Inv, RunOk, AdvanceScreening, AdvancePlanning, AdvanceApproval;
    if pc.EventStart? || pc.EventBump? || pc.EventCreate? || pc.EventLoaded? || pc.EventAnalyzing? {
      if x.Proceed? { IntakeKeeps(s, id, pc, x.now); }
    } else if pc.EventReadChange? || pc.EventScreen? || pc.EventAnalyse? || pc.EventBlock? {
      ScreeningKeeps(s, id, pc, x);
    } else if pc.EventAdvance? || pc.EventWait? {
      ApprovalKeeps(s, id, pc, x);
    } else {
      PlanningKeeps(s, id, pc, x);
    }
  }
}
