/** What holds of every history of one workflow's engine runs mixed with crashes, cancels and retries. */
module SagaTheorems {
  import opened Common
  import opened Plans
  import opened Sandbox
  import opened Workflows
  import opened Saga
  import opened SagaInvariant
  import opened SagaProof
  import opened SagaClose
  import C = ChangeState

  lemma LogOfRun(supported: bool, actions: seq<Action>, i: nat)
    requires i < |Run(supported, actions).log|
    ensures var s := Run(supported, actions); EventOk(s.supported, s.log[..i], s.log[i])
  {
    hide Act, EventOk, RunOk;
    ReachableInv(supported, actions);
  }

  // ---------------------------------------------------------------- snapshots before writes

  /** No execution is issued before a record that holds a snapshot for every task has been stored. */
  lemma SnapshotsPrecedeExecution(supported: bool, actions: seq<Action>, i: nat)
    requires i < |Run(supported, actions).log| && Run(supported, actions).log[i].ExecuteIssued?
    ensures exists j :: 0 <= j < i && Run(supported, actions).log[j].Stored?
                        && AllSnapshots(Run(supported, actions).log[j].record)
  {
    var log := Run(supported, actions).log;
    LogOfRun(supported, actions, i);
    hide Run;
    var p :| p in log[..i] && p.Stored? && AllSnapshots(p.record);
    var j :| 0 <= j < i && log[j] == p;
  }

  /** The snapshot was taken before position `i` and before the first execution in the log. */
  ghost predicate TakenEarly(log: seq<Event>, i: int, id: nat) {
    exists k :: 0 <= k < i && k < |log| && log[k].SnapshotTaken? && log[k].id == id
                && forall e | 0 <= e < |log| && log[e].ExecuteIssued? :: k < e
  }

  lemma EarlySnapshot(log: seq<Event>, i: nat, id: nat)
    requires i <= |log| && TakenBeforeExecution(log[..i], id)
    ensures TakenEarly(log, i, id)
  {
    var k :| 0 <= k < i && log[..i][k].SnapshotTaken? && log[..i][k].id == id && NothingExecuted(log[..i][..k]);
    assert log[..i][..k] == log[..k];
    NothingIssued(log, k);
  }

  lemma NothingIssued(log: seq<Event>, k: nat)
    requires k <= |log| && NothingExecuted(log[..k])
    ensures forall e | 0 <= e < k :: !log[e].ExecuteIssued?
  {
    forall e | 0 <= e < k ensures !log[e].ExecuteIssued? {
      assert log[..k][e] == log[e];
    }
  }

  /** Every snapshot a stored record names was taken earlier, and before the workflow's first execution. */
  lemma StoredSnapshotsAreEarly(supported: bool, actions: seq<Action>, i: nat, t: Task)
    requires i < |Run(supported, actions).log| && Run(supported, actions).log[i].Stored?
    requires t in Run(supported, actions).log[i].record.tasks && t.snapshotId.Some?
    ensures TakenEarly(Run(supported, actions).log, i, t.snapshotId.value)
  {
    hide Run, ValidRecord, Aligned, TakenEarly;
    LogOfRun(supported, actions, i);
    EarlySnapshot(Run(supported, actions).log, i, t.snapshotId.value);
  }

  /** What one stored version fixes for all later ones: plan, hash, approval, snapshots, completion time, closure. */
  lemma LaterVersionsPersist(supported: bool, actions: seq<Action>, i: nat, j: nat)
    requires i < j < |Run(supported, actions).log|
    requires Run(supported, actions).log[i].Stored? && Run(supported, actions).log[j].Stored?
    ensures var a, b := Run(supported, actions).log[i].record, Run(supported, actions).log[j].record;
            && a.version < b.version
            && (a.plan.Some? ==> b.plan == a.plan && b.planHash == a.planHash && b.approvalId == a.approvalId)
            && (a.plan.Some? ==> |b.tasks| == |a.tasks| && forall k | 0 <= k < |a.tasks| ::
                  a.tasks[k].snapshotId.Some? ==> b.tasks[k].snapshotId == a.tasks[k].snapshotId
                                                  && b.tasks[k].snapshotHash == a.tasks[k].snapshotHash)
            && (a.completedAt.Some? ==> b.completedAt.Some?)
            && !Closed(a.status)
  {
    var log := Run(supported, actions).log;
    LogOfRun(supported, actions, j);
    hide Run, RecordOk;
    assert log[..j][i] == log[i];
    var a, b := log[i].record, log[j].record;
    assert Persists(a, b);
    if a.plan.Some? {
      forall k | 0 <= k < |a.tasks| && a.tasks[k].snapshotId.Some?
        ensures b.tasks[k].snapshotId == a.tasks[k].snapshotId && b.tasks[k].snapshotHash == a.tasks[k].snapshotHash
      {
        assert KeepsSnapshot(a.tasks[k], b.tasks[k]);
      }
    }
  }

  // ---------------------------------------------------------------- approval before execution

  ghost predicate EnteredAt(log: seq<Event>, i: int, status: C.Status) {
    0 <= i < |log| && log[i].Entered? && log[i].change.status == status
  }

  lemma EnteredEarlier(log: seq<Event>, i: nat, status: C.Status)
    requires i <= |log| && EnteredStatus(log[..i], status)
    ensures exists j :: 0 <= j < i && EnteredAt(log, j, status)
  {
    var e :| e in log[..i] && e.Entered? && e.change.status == status;
    var j :| 0 <= j < i && log[..i][j] == e;
    assert EnteredAt(log, j, status);
  }

  /** Each entry into EXECUTING comes after an APPROVED that comes after an AWAITING_APPROVAL. */
  lemma ApprovalPrecedesExecution(supported: bool, actions: seq<Action>, i: nat)
    requires EnteredAt(Run(supported, actions).log, i, C.EXECUTING)
    ensures exists j, k :: 0 <= k < j < i && EnteredAt(Run(supported, actions).log, j, C.APPROVED)
                           && EnteredAt(Run(supported, actions).log, k, C.AWAITING_APPROVAL)
  {
    var log := Run(supported, actions).log;
    LogOfRun(supported, actions, i);
    EnteredEarlier(log, i, C.APPROVED);
    var j :| 0 <= j < i && EnteredAt(log, j, C.APPROVED);
    LogOfRun(supported, actions, j);
    EnteredEarlier(log, j, C.AWAITING_APPROVAL);
    hide Run;
    var k :| 0 <= k < j && EnteredAt(log, k, C.AWAITING_APPROVAL);
  }

  /** Whatever versions users expect: a plan hash the change ever had is that of every stored record with a plan. */
  lemma PlanHashIsTheWorkflows(supported: bool, actions: seq<Action>, i: nat)
    requires i < |Run(supported, actions).log| && Run(supported, actions).log[i].Entered?
    requires Run(supported, actions).log[i].change.planHash.Some?
    ensures var s, hash := Run(supported, actions), Run(supported, actions).log[i].change.planHash;
            && s.wf.Some? && s.wf.value.planHash == hash
            && (forall j | 0 <= j < |s.log| :: s.log[j].Stored? && s.log[j].record.plan.Some? ==> s.log[j].record.planHash == hash)
            && (forall j | 0 <= j < |s.log| :: s.log[j].Entered? ==> s.log[j].change.planHash in {None, hash})
  {
    var s := Run(supported, actions);
    ReachableInv(supported, actions);
    hide Run, Inv;
    HashIsStored(s, i);
    forall j | 0 <= j < |s.log| && s.log[j].Entered? ensures s.log[j].change.planHash in {None, s.log[i].change.planHash} {
      if s.log[j].change.planHash.Some? { HashIsStored(s, j); }
    }
  }

  lemma HashIsStored(s: Sys, i: nat)
    requires Inv(s) && i < |s.log| && s.log[i].Entered? && s.log[i].change.planHash.Some?
    ensures s.wf.Some? && s.wf.value.planHash == s.log[i].change.planHash
    ensures forall j | 0 <= j < |s.log| ::
              s.log[j].Stored? && s.log[j].record.plan.Some? ==> s.log[j].record.planHash == s.log[i].change.planHash
  {
    hide RunOk, RecordOk, CompletionOk;
    assert EventOk(s.supported, s.log[..i], s.log[i]);
    var p :| p in s.log[..i] && p.Stored? && p.record.planHash == s.log[i].change.planHash;
    assert Persists(p.record, s.wf.value);
    KnownValid(s, p.record);
    forall j | 0 <= j < |s.log| && s.log[j].Stored? && s.log[j].record.plan.Some?
      ensures s.log[j].record.planHash == s.log[i].change.planHash
    {
      assert s.log[j] in s.log;
      assert Persists(s.log[j].record, s.wf.value);
    }
  }

  lemma KnownValid(s: Sys, r: Record)
    requires Inv(s) && Known(s.log, r)
    ensures r.plan.Some? <==> r.planHash.Some?
  {
    KnownOk(s.supported, s.log, r);
  }

  // ---------------------------------------------------------------- completion

  /** COMPLETED, FAILED and NEEDS_ATTENTION records are never replaced. */
  lemma ClosedIsForEver(supported: bool, actions: seq<Action>, i: nat)
    requires i < |Run(supported, actions).log| && Run(supported, actions).log[i].Stored?
    requires Closed(Run(supported, actions).log[i].record.status)
    ensures Run(supported, actions).wf == Some(Run(supported, actions).log[i].record)
    ensures forall j | i < j < |Run(supported, actions).log| :: !Run(supported, actions).log[j].Stored?
  {
    var s := Run(supported, actions);
    ReachableInv(supported, actions);
    forall j | i < j < |s.log| ensures !s.log[j].Stored? {
      if s.log[j].Stored? { LaterVersionsPersist(supported, actions, i, j); }
    }
    hide Run, RunOk, RecordOk;
    assert s.log[i] in s.log;
    assert Persists(s.log[i].record, s.wf.value);
  }

  /**
   A stored COMPLETED record is the last one, its change had entered COMPLETED, every system's verification
   passed after exactly these tasks were stored, and its tasks all succeeded if and only if the stored task
   list that the completing run had loaded held none that was rolled back or failed to roll back.
   */
  lemma CompletedIsSound(supported: bool, actions: seq<Action>, i: nat)
    requires i < |Run(supported, actions).log| && Run(supported, actions).log[i].Stored?
    requires Run(supported, actions).log[i].record.status.COMPLETED?
    ensures var s, r := Run(supported, actions), Run(supported, actions).log[i].record;
            && s.wf == Some(r)
            && EnteredStatus(s.log[..i], C.COMPLETED)
            && AllVerified(s.log[..i], r.tasks)
            && exists loaded :: Completing(loaded, r) in s.log[..i] && WasStored(s.log[..i], loaded)
                 && ((forall t <- r.tasks :: t.status.SUCCEEDED?) <==> (forall t <- loaded :: !Rolled(t)))
  {
    hide Run, Inv, EventOk, AllVerified, Rolled, EnteredStatus, WasStored;
    ReachableInv(supported, actions);
    ClosedIsForEver(supported, actions, i);
    LogOfRun(supported, actions, i);
    CompletedAt(Run(supported, actions), i);
  }

  lemma CompletedAt(s: Sys, i: nat)
    requires Inv(s) && i < |s.log| && s.log[i].Stored? && s.log[i].record.status.COMPLETED?
    requires EventOk(s.supported, s.log[..i], s.log[i])
    ensures EnteredStatus(s.log[..i], C.COMPLETED) && AllVerified(s.log[..i], s.log[i].record.tasks)
    ensures exists loaded :: Completing(loaded, s.log[i].record) in s.log[..i] && WasStored(s.log[..i], loaded)
              && ((forall t <- s.log[i].record.tasks :: t.status.SUCCEEDED?) <==> (forall t <- loaded :: !Rolled(t)))
  {
    hide Inv, AllVerified, Rolled, EnteredStatus, WasStored;
    var r := s.log[i].record;
    CompletedIsAnnounced(s.supported, s.log[..i], r);
    var loaded :| Completing(loaded, r) in s.log[..i];
    var k :| 0 <= k < i && s.log[k] == Completing(loaded, r);
    CompletionAt(s, k);
    assert s.log[..i] == s.log[..k] + s.log[k..i];
    AllVerifiedGrows(s.log[..k], s.log[k..i], r.tasks);
    StatusGrows(s.log[..k], s.log[k..i], C.COMPLETED);
    StoredGrows(s.log[..k], s.log[k..i], loaded);
  }

  lemma CompletedIsAnnounced(supported: bool, log: seq<Event>, r: Record)
    requires EventOk(supported, log, Stored(r)) && r.status.COMPLETED?
    ensures exists loaded :: Completing(loaded, r) in log
  {
    hide Aligned, ValidRecord, TakenBeforeExecution;
  }

  lemma CompletionAt(s: Sys, k: nat)
    requires Inv(s) && k < |s.log| && s.log[k].Completing?
    ensures CompletionOk(s.log[..k], s.log[k].loaded, s.log[k].record)
  {
    hide RunOk, RecordOk, Persists, AllVerified, WasStored, EnteredStatus;
    assert EventOk(s.supported, s.log[..k], s.log[k]);
  }
}
