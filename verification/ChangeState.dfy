/**
 The change state machine and its repository: the static transition table, the optimistic
 read-then-commit `transition`, and the append-only audit trail that every outcome leaves behind.
 */
module ChangeState {
  import opened Common

  datatype Status =
    | RECEIVED | SCREENING | BLOCKED | ANALYZING | PLAN_READY | AWAITING_APPROVAL | APPROVED
    | REJECTED | EXECUTING | VERIFYING | ROLLING_BACK | NEEDS_ATTENTION
    | COMPLETED | FAILED | PARTIAL | CANCELLED

  function AllowedTargets(s: Status): set<Status> {
    match s
    case RECEIVED => {SCREENING, CANCELLED, FAILED}
    case SCREENING => {BLOCKED, ANALYZING, CANCELLED, FAILED, NEEDS_ATTENTION}
    case BLOCKED => {SCREENING, CANCELLED, NEEDS_ATTENTION}
    case ANALYZING => {PLAN_READY, BLOCKED, CANCELLED, FAILED, NEEDS_ATTENTION}
    case PLAN_READY => {AWAITING_APPROVAL, EXECUTING, ANALYZING, CANCELLED, NEEDS_ATTENTION}
    case AWAITING_APPROVAL => {APPROVED, REJECTED, CANCELLED, NEEDS_ATTENTION}
    case APPROVED => {EXECUTING, CANCELLED, NEEDS_ATTENTION}
    case REJECTED => {ANALYZING, CANCELLED}
    case EXECUTING => {VERIFYING, ROLLING_BACK, FAILED, PARTIAL, NEEDS_ATTENTION}
    case VERIFYING => {COMPLETED, ROLLING_BACK, FAILED, PARTIAL, NEEDS_ATTENTION}
    case ROLLING_BACK => {FAILED, PARTIAL, CANCELLED, NEEDS_ATTENTION}
    case NEEDS_ATTENTION =>
      {SCREENING, ANALYZING, AWAITING_APPROVAL, EXECUTING, VERIFYING, ROLLING_BACK, FAILED, CANCELLED}
    case COMPLETED => {}
    case FAILED => {}
    case PARTIAL => {}
    case CANCELLED => {}
  }

  predicate CanTransition(current: Status, target: Status) {
    target in AllowedTargets(current)
  }

  /** The table read the other way: from where each status can be entered. */
  function Sources(target: Status): set<Status> {
    match target
    case RECEIVED => {}
    case SCREENING => {RECEIVED, BLOCKED, NEEDS_ATTENTION}
    case BLOCKED => {SCREENING, ANALYZING}
    case ANALYZING => {SCREENING, PLAN_READY, REJECTED, NEEDS_ATTENTION}
    case PLAN_READY => {ANALYZING}
    case AWAITING_APPROVAL => {PLAN_READY, NEEDS_ATTENTION}
    case APPROVED => {AWAITING_APPROVAL}
    case REJECTED => {AWAITING_APPROVAL}
    case EXECUTING => {PLAN_READY, APPROVED, NEEDS_ATTENTION}
    case VERIFYING => {EXECUTING, NEEDS_ATTENTION}
    case ROLLING_BACK => {EXECUTING, VERIFYING, NEEDS_ATTENTION}
    case NEEDS_ATTENTION =>
      {SCREENING, BLOCKED, ANALYZING, PLAN_READY, AWAITING_APPROVAL, APPROVED, EXECUTING, VERIFYING, ROLLING_BACK}
    case COMPLETED => {VERIFYING}
    case FAILED => {RECEIVED, SCREENING, ANALYZING, EXECUTING, VERIFYING, ROLLING_BACK, NEEDS_ATTENTION}
    case PARTIAL => {EXECUTING, VERIFYING, ROLLING_BACK}
    case CANCELLED =>
      {RECEIVED, SCREENING, BLOCKED, ANALYZING, PLAN_READY, AWAITING_APPROVAL, APPROVED, REJECTED, ROLLING_BACK, NEEDS_ATTENTION}
  }

  /** Both readings of the table agree, edge by edge. */
  lemma EdgesAreExact(current: Status, target: Status)
    ensures CanTransition(current, target) <==> current in Sources(target)
  {
  }

  /** Exactly the final statuses have no way out; no status leads to itself, and every other one can still be failed or cancelled. */
  lemma FinalAreExact(s: Status)
    ensures Final(s) <==> forall target :: !CanTransition(s, target)
    ensures !CanTransition(s, s)
    ensures !Final(s) ==> CanTransition(s, FAILED) || CanTransition(s, CANCELLED)
  {
    assert CanTransition(s, FAILED) || CanTransition(s, CANCELLED) || AllowedTargets(s) == {};
  }

  predicate Final(s: Status) {
    s == COMPLETED || s == FAILED || s == PARTIAL || s == CANCELLED
  }

  /** The part of a change record that transitions read or write. */
  datatype Change<H> = Change(
    tenantId: string, changeId: string, status: Status, workflowId: Option<string>,
    planVersion: nat, planHash: Option<H>, createdAt: Time, updatedAt: Time, version: nat)

  type Key = (string, string)

  datatype Outcome = Succeeded | Refused

  datatype Audit = Audit(id: string, tenantId: string, changeId: string,
                         from: Status, to: Status, outcome: Outcome, createdAt: Time)

  datatype RepoError =
    | ChangeNotFound | TenantScopeViolation | ChangeAlreadyExists | AuditAlreadyExists
    | VersionConflict(expected: int, actual: int)

  /** The value of a repository: its three dictionaries. */
  datatype Repo<H> = Repo(changes: map<Key, Change<H>>, audit: map<Key, Audit>, trail: map<Key, seq<string>>)

  function KeyOf<H>(c: Change<H>): Key {
    (c.tenantId, c.changeId)
  }

  function Lookup<H>(r: Repo<H>, key: Key): Result<Change<H>, RepoError> {
    if key in r.changes then Ok(r.changes[key])
    else if exists other <- r.changes.Keys :: other.1 == key.1 then Err(TenantScopeViolation)
    else Err(ChangeNotFound)
  }

  function Trail<H>(r: Repo<H>, key: Key): seq<string> {
    if key in r.trail then r.trail[key] else []
  }

  function Append<H>(r: Repo<H>, e: Audit): Repo<H> {
    var key := (e.tenantId, e.changeId);
    r.(audit := r.audit[(e.tenantId, e.id) := e], trail := r.trail[key := Trail(r, key) + [e.id]])
  }

  function Added<H>(r: Repo<H>, c: Change<H>, e: Audit): Result<Repo<H>, RepoError> {
    if KeyOf(c) in r.changes then Err(ChangeAlreadyExists)
    else if (e.tenantId, e.changeId) != KeyOf(c) then Err(TenantScopeViolation)
    else if (e.tenantId, e.id) in r.audit then Err(AuditAlreadyExists)
    else Ok(Append(r.(changes := r.changes[KeyOf(c) := c]), e))
  }

  /** A change is added exactly when it is new and its first event is its own and new; then both are there and nothing else changed. */
  lemma AdditionsAreExact<H>(r: Repo<H>, c: Change<H>, e: Audit)
    ensures Added(r, c, e).Ok? <==>
            KeyOf(c) !in r.changes && (e.tenantId, e.changeId) == KeyOf(c) && (e.tenantId, e.id) !in r.audit
    ensures Added(r, c, e).Ok? ==>
              var r' := Added(r, c, e).value;
              && r'.changes.Keys == r.changes.Keys + {KeyOf(c)} && r'.audit.Keys == r.audit.Keys + {(e.tenantId, e.id)}
              && Lookup(r', KeyOf(c)) == Ok(c) && (forall key <- r.changes :: Lookup(r', key) == Lookup(r, key))
              && r'.audit[(e.tenantId, e.id)] == e && (forall id <- r.audit :: r'.audit[id] == r.audit[id])
              && (forall key :: Trail(r', key) == if key == KeyOf(c) then Trail(r, key) + [e.id] else Trail(r, key))
  {
  }

  function Committed<H>(r: Repo<H>, c: Change<H>, e: Audit, expected: int): Result<Repo<H>, RepoError> {
    match Lookup(r, KeyOf(c))
    case Err(error) => Err(error)
    case Ok(current) =>
      if (e.tenantId, e.changeId) != KeyOf(c) then Err(TenantScopeViolation)
      else if (e.tenantId, e.id) in r.audit then Err(AuditAlreadyExists)
      else if current.version != expected then Err(VersionConflict(expected, current.version))
      else if c.version != expected + 1 then Err(VersionConflict(expected + 1, c.version))
      else Ok(Append(r.(changes := r.changes[KeyOf(c) := c]), e))
  }

  function Recorded<H>(r: Repo<H>, e: Audit): Result<Repo<H>, RepoError> {
    match Lookup(r, (e.tenantId, e.changeId))
    case Err(error) => Err(error)
    case Ok(_) =>
      if (e.tenantId, e.id) in r.audit then Err(AuditAlreadyExists) else Ok(Append(r, e))
  }

  /** The in-memory repository. Every method runs under the source's lock, so it is one atomic step. */
  class InMemoryChangeStateRepository<H(==)> {
    var changes: map<Key, Change<H>>
    var tenantsByChangeId: map<string, set<string>>
    var audit: map<Key, Audit>
    var auditIdsByChange: map<Key, seq<string>>

    ghost function View(): Repo<H>
      reads this
    {
      Repo(changes, audit, auditIdsByChange)
    }

    /** The reverse index names exactly the tenants that own a change identifier. */
    ghost predicate Valid()
      reads this
    {
      forall t, id :: (t, id) in changes <==> (id in tenantsByChangeId && t in tenantsByChangeId[id])
    }

    constructor ()
      ensures Valid() && View() == Repo(map[], map[], map[])
    {
      changes, tenantsByChangeId, audit, auditIdsByChange := map[], map[], map[], map[];
    }

    method Get(tenantId: string, changeId: string) returns (r: Result<Change<H>, RepoError>)
      requires Valid()
      ensures r == Lookup(View(), (tenantId, changeId))
    {
      if (tenantId, changeId) in changes {
        return Ok(changes[(tenantId, changeId)]);
      }
      if changeId in tenantsByChangeId && tenantsByChangeId[changeId] != {} {
        var t :| t in tenantsByChangeId[changeId];
        assert (t, changeId) in changes;
        return Err(TenantScopeViolation);
      }
      return Err(ChangeNotFound);
    }

    method AddWithAudit(change: Change<H>, event: Audit) returns (r: Result<(), RepoError>)
      requires Valid()
      modifies this
      ensures Valid()
      ensures match Added(old(View()), change, event)
              case Ok(repo) => r.Ok? && View() == repo
              case Err(error) => r == Err(error) && View() == old(View())
    {
      var key := (change.tenantId, change.changeId);
      if key in changes { return Err(ChangeAlreadyExists); }
      if event.tenantId != change.tenantId || event.changeId != change.changeId {
        return Err(TenantScopeViolation);
      }
      if (event.tenantId, event.id) in audit { return Err(AuditAlreadyExists); }
      changes := changes[key := change];
      var owners := if change.changeId in tenantsByChangeId then tenantsByChangeId[change.changeId] else {};
      tenantsByChangeId := tenantsByChangeId[change.changeId := owners + {change.tenantId}];
      AppendAuditUnlocked(event);
      r := Ok(());
    }

    method CommitTransition(change: Change<H>, event: Audit, expectedVersion: int) returns (r: Result<(), RepoError>)
      requires Valid()
      modifies this
      ensures Valid()
      ensures match Committed(old(View()), change, event, expectedVersion)
              case Ok(repo) => r.Ok? && View() == repo
              case Err(error) => r == Err(error) && View() == old(View())
    {
      var got := Get(change.tenantId, change.changeId);
      if got.Err? { return Err(got.error); }
      var current := got.value;
      if event.tenantId != change.tenantId || event.changeId != change.changeId {
        return Err(TenantScopeViolation);
      }
      if (event.tenantId, event.id) in audit { return Err(AuditAlreadyExists); }
      if current.version != expectedVersion {
        return Err(VersionConflict(expectedVersion, current.version));
      }
      if change.version != expectedVersion + 1 {
        return Err(VersionConflict(expectedVersion + 1, change.version));
      }
      changes := changes[(change.tenantId, change.changeId) := change];
      AppendAuditUnlocked(event);
      r := Ok(());
    }

    method RecordAudit(event: Audit) returns (r: Result<(), RepoError>)
      requires Valid()
      modifies this
      ensures Valid()
      ensures match Recorded(old(View()), event)
              case Ok(repo) => r.Ok? && View() == repo
              case Err(error) => r == Err(error) && View() == old(View())
    {
      var got := Get(event.tenantId, event.changeId);
      if got.Err? { return Err(got.error); }
      if (event.tenantId, event.id) in audit { return Err(AuditAlreadyExists); }
      AppendAuditUnlocked(event);
      r := Ok(());
    }

    method AppendAuditUnlocked(event: Audit)
      modifies this`audit, this`auditIdsByChange
      ensures View() == Append(old(View()), event)
    {
      var key := (event.tenantId, event.changeId);
      audit := audit[(event.tenantId, event.id) := event];
      var ids := if key in auditIdsByChange then auditIdsByChange[key] else [];
      auditIdsByChange := auditIdsByChange[key := ids + [event.id]];
    }
  }
}
