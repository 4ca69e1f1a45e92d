/**
 `StateTransitionService.transition`, first as the method the source has, then as the separate
 repository calls that concurrent callers interleave. The main theorem replays every interleaved
 run as a sequence of legal atomic transitions; it needs each caller's expected version to be at
 most the version that caller read, and `StaleExpectationBreaks` shows that nothing less will do.
 */
module Transitions {
  import opened Common
  import opened ChangeState

  /** Fields a transition may set beside the status; `None` leaves the stored value. */
  datatype Updates<H> = Updates(workflowId: Option<string>, plan: Option<(nat, H)>)

  datatype Request<H> = Request(tenantId: string, changeId: string, target: Status, expected: nat,
                                updates: Updates<H>, auditId: string)

  function Target<H>(q: Request<H>): Key {
    (q.tenantId, q.changeId)
  }

  /** The document written by a successful transition out of `current`. */
  function Updated<H>(current: Change<H>, q: Request<H>, at: Time): Change<H> {
    current.(status := q.target,
             workflowId := if q.updates.workflowId.Some? then q.updates.workflowId else current.workflowId,
             planVersion := if q.updates.plan.Some? then q.updates.plan.value.0 else current.planVersion,
             planHash := if q.updates.plan.Some? then Some(q.updates.plan.value.1) else current.planHash,
             updatedAt := at, version := q.expected + 1)
  }

  function Event<H>(current: Change<H>, q: Request<H>, at: Time, outcome: Outcome): Audit {
    Audit(q.auditId, current.tenantId, current.changeId, current.status, q.target, outcome, at)
  }

  datatype TransitionError =
    | Repository(error: RepoError)
    | ClockMovedBackwards
    | InvalidTransition(current: Status, target: Status)

  /** One uninterrupted call: what the repository becomes and what the caller sees. */
  function Transitioned<H>(r: Repo<H>, q: Request<H>, at: Time): (Repo<H>, Result<Change<H>, TransitionError>) {
    match Lookup(r, Target(q))
    case Err(error) => (r, Err(Repository(error)))
    case Ok(current) =>
      if at < current.updatedAt then (r, Err(ClockMovedBackwards))
      else if !CanTransition(current.status, q.target) then
        match Recorded(r, Event(current, q, at, Refused))
        case Ok(r') => (r', Err(InvalidTransition(current.status, q.target)))
        case Err(error) => (r, Err(Repository(error)))
      else
        var updated := Updated(current, q, at);
        match Committed(r, updated, Event(current, q, at, Succeeded), q.expected)
        case Ok(r') => (r', Ok(updated))
        case Err(VersionConflict(expected, actual)) =>
          (match Recorded(r, Event(current, q, at, Refused))
           case Ok(r') => (r', Err(Repository(VersionConflict(expected, actual))))
           case Err(error) => (r, Err(Repository(error))))
        case Err(error) => (r, Err(Repository(error)))
  }

  class StateTransitionService<H(==)> {
    const repository: InMemoryChangeStateRepository<H>

    constructor (repository: InMemoryChangeStateRepository<H>)
      ensures this.repository == repository
    {
      this.repository := repository;
    }

    method Transition(q: Request<H>, at: Time) returns (result: Result<Change<H>, TransitionError>)
      requires repository.Valid()
      requires forall key <- repository.changes :: KeyOf(repository.changes[key]) == key
      modifies repository
      ensures repository.Valid()
      ensures (repository.View(), result) == Transitioned(old(repository.View()), q, at)
    {
      var got := repository.Get(q.tenantId, q.changeId);
      if got.Err? { return Err(Repository(got.error)); }
      var current := got.value;
      if at < current.updatedAt { return Err(ClockMovedBackwards); }
      if !CanTransition(current.status, q.target) {
        var recorded := repository.RecordAudit(Event(current, q, at, Refused));
        if recorded.Err? { return Err(Repository(recorded.error)); }
        return Err(InvalidTransition(current.status, q.target));
      }
      var updated := Updated(current, q, at);
      var committed := repository.CommitTransition(updated, Event(current, q, at, Succeeded), q.expected);
      if committed.Err? && committed.error.VersionConflict? {
        var recorded := repository.RecordAudit(Event(current, q, at, Refused));
        if recorded.Err? { return Err(Repository(recorded.error)); }
        return Err(Repository(committed.error));
      }
      if committed.Err? { return Err(Repository(committed.error)); }
      result := Ok(updated);
    }
  }

  /** `after` is `before` with what the request asks for and nothing else, one version on. */
  ghost predicate AsRequested<H>(before: Change<H>, after: Change<H>, q: Request<H>, at: Time) {
    && after.status == q.target && after.updatedAt == at && after.version == before.version + 1
    && after.workflowId == (if q.updates.workflowId.None? then before.workflowId else q.updates.workflowId)
    && (q.updates.plan.None? ==> after.planVersion == before.planVersion && after.planHash == before.planHash)
    && (q.updates.plan.Some? ==> (after.planVersion, after.planHash) == (q.updates.plan.value.0, Some(q.updates.plan.value.1)))
    && KeyOf(after) == KeyOf(before) && after.createdAt == before.createdAt
  }

  /** The audit trail gains this one event. */
  predicate Audits<H>(r: Repo<H>, r': Repo<H>, q: Request<H>, at: Time, outcome: Outcome) {
    var key, id := (q.tenantId, q.changeId), (q.tenantId, q.auditId);
    && id !in r.audit && key in r.changes
    && r'.audit == r.audit[id := Audit(q.auditId, q.tenantId, q.changeId, r.changes[key].status, q.target, outcome, at)]
    && r'.trail == r.trail[key := Trail(r, key) + [q.auditId]]
  }

  /**
   A call succeeds exactly when the record is stored at the expected version, the clock has not gone back, the edge is in
   the table and the event is new; then the record becomes what was asked for and the success is audited. A refusal for the
   edge or the version is audited and changes no record, and every other error changes nothing.
   */
  lemma TransitionsDoAsRequested<H>(r: Repo<H>, q: Request<H>, at: Time)
    requires forall key <- r.changes :: KeyOf(r.changes[key]) == key
    ensures var key, (r', result) := (q.tenantId, q.changeId), Transitioned(r, q, at);
            && (result.Ok? <==> && key in r.changes && r.changes[key].version == q.expected && r.changes[key].updatedAt <= at
                                && CanTransition(r.changes[key].status, q.target) && (q.tenantId, q.auditId) !in r.audit)
            && (result.Ok? ==> && r'.changes == r.changes[key := result.value] && AsRequested(r.changes[key], result.value, q, at)
                               && Audits(r, r', q, at, Succeeded))
            && (result.Err? ==> r'.changes == r.changes)
            && (result.Err? && (result.error.InvalidTransition? || (result.error.Repository? && result.error.error.VersionConflict?)) ==>
                  Audits(r, r', q, at, Refused))
            && (result.Err? && (result.error.ClockMovedBackwards? || (result.error.Repository? && !result.error.error.VersionConflict?)) ==>
                  r' == r)
  {
    hide AllowedTargets;
  }

  // ---------------------------------------------------------------- interleaved calls

  /** Where one caller is: before its read, between read and commit, or owing a rejection audit. */
  datatype Call<H> =
    | Requested(q: Request<H>)
    | HasRead(q: Request<H>, current: Change<H>, at: Time)
    | Rejecting(event: Audit)
    | Returned

  /** A committed transition: the record stored just before it and the record it stored. */
  datatype Commit<H> = Commit(before: Change<H>, after: Change<H>)

  datatype System<H> = System(repo: Repo<H>, calls: map<nat, Call<H>>, log: seq<Commit<H>>)

  datatype Action<H> =
    | Begin(id: nat, q: Request<H>)
    | Read(id: nat, at: Time)
    | CommitNow(id: nat)
    | AuditRejection(id: nat)

  function Step<H>(s: System<H>, a: Action<H>): System<H> {
    match a
    case Begin(id, q) => if id in s.calls then s else s.(calls := s.calls[id := Requested(q)])
    case Read(id, at) => if id in s.calls && s.calls[id].Requested? then ReadStep(s, id, s.calls[id].q, at) else s
    case CommitNow(id) => if id in s.calls && s.calls[id].HasRead? then CommitStep(s, id, s.calls[id]) else s
    case AuditRejection(id) =>
      if id in s.calls && s.calls[id].Rejecting? then
        var repo := match Recorded(s.repo, s.calls[id].event) case Ok(r) => r case Err(_) => s.repo;
        s.(repo := repo, calls := s.calls[id := Returned])
      else s
  }

  function ReadStep<H>(s: System<H>, id: nat, q: Request<H>, at: Time): System<H> {
    var next := match Lookup(s.repo, Target(q))
                case Err(_) => Returned
                case Ok(current) =>
                  if at < current.updatedAt then Returned
                  else if !CanTransition(current.status, q.target) then Rejecting(Event(current, q, at, Refused))
                  else HasRead(q, current, at);
    s.(calls := s.calls[id := next])
  }

  function CommitStep<H>(s: System<H>, id: nat, c: Call<H>): System<H>
    requires c.HasRead?
  {
    var updated := Updated(c.current, c.q, c.at);
    match Committed(s.repo, updated, Event(c.current, c.q, c.at, Succeeded), c.q.expected)
    case Ok(repo) =>
      System(repo, s.calls[id := Returned], s.log + [Commit(Lookup(s.repo, KeyOf(updated)).value, updated)])
    case Err(VersionConflict(_, _)) =>
      s.(calls := s.calls[id := Rejecting(Event(c.current, c.q, c.at, Refused))])
    case Err(_) => s.(calls := s.calls[id := Returned])
  }

  function Run<H>(s: System<H>, actions: seq<Action<H>>): System<H> {
    if actions == [] then s else Step(Run(s, actions[..|actions| - 1]), actions[|actions| - 1])
  }

  /** The caller expects no version later than the one its read will return. */
  predicate Disciplined<H>(s: System<H>, a: Action<H>) {
    a.Read? && a.id in s.calls && s.calls[a.id].Requested? ==>
      var q := s.calls[a.id].q;
      var got := Lookup(s.repo, Target(q));
      got.Ok? ==> q.expected <= got.value.version
  }

  predicate DisciplinedRun<H>(s: System<H>, actions: seq<Action<H>>) {
    forall i | 0 <= i < |actions| :: Disciplined(Run(s, actions[..i]), actions[i])
  }

  // ---------------------------------------------------------------- what a history must look like

  /** A commit is one legal atomic transition of the record it replaces. */
  predicate Legal<H>(c: Commit<H>) {
    && KeyOf(c.after) == KeyOf(c.before)
    && CanTransition(c.before.status, c.after.status)
    && c.after.version == c.before.version + 1
    && c.before.updatedAt <= c.after.updatedAt
    && c.after.createdAt == c.before.createdAt
  }

  /** Replays a log on the stored records; defined only when every commit is legal on what is stored. */
  ghost function Replay<H>(changes: map<Key, Change<H>>, log: seq<Commit<H>>): Option<map<Key, Change<H>>> {
    if log == [] then Some(changes)
    else
      var c := log[|log| - 1];
      match Replay(changes, log[..|log| - 1])
      case None => None
      case Some(m) =>
        var key := KeyOf(c.after);
        if key in m && m[key] == c.before && Legal(c) then Some(m[key := c.after]) else None
  }

  function CommitsOf<H>(log: seq<Commit<H>>, key: Key): nat {
    if log == [] then 0
    else CommitsOf(log[..|log| - 1], key) + if KeyOf(log[|log| - 1].after) == key then 1 else 0
  }

  /** How many events of a trail are successful transitions. */
  function Successes(audit: map<Key, Audit>, tenant: string, ids: seq<string>): nat {
    if ids == [] then 0
    else
      var last := (tenant, ids[|ids| - 1]);
      Successes(audit, tenant, ids[..|ids| - 1]) + if last in audit && audit[last].outcome.Succeeded? then 1 else 0
  }

  function SuccessfulAudits<H>(r: Repo<H>, key: Key): nat {
    Successes(r.audit, key.0, Trail(r, key))
  }

  predicate Consistent<H>(r: Repo<H>) {
    && (forall key <- r.changes :: KeyOf(r.changes[key]) == key)
    && (forall key <- r.trail, id <- r.trail[key] :: (key.0, id) in r.audit)
  }

  ghost predicate CallOk<H>(r: Repo<H>, c: Call<H>) {
    && (c.Rejecting? ==> c.event.outcome.Refused?)
    && (c.HasRead? ==>
      var key := KeyOf(c.current);
      && key == Target(c.q) && key in r.changes
      && c.q.expected <= c.current.version <= r.changes[key].version
      && (c.current.version == r.changes[key].version ==> c.current == r.changes[key])
      && CanTransition(c.current.status, c.q.target)
      && c.current.updatedAt <= c.at)
  }

  ghost predicate Inv<H>(initial: Repo<H>, s: System<H>) {
    && Consistent(s.repo)
    && Replay(initial.changes, s.log) == Some(s.repo.changes)
    && s.repo.changes.Keys == initial.changes.Keys
    && (forall key :: SuccessfulAudits(s.repo, key) == SuccessfulAudits(initial, key) + CommitsOf(s.log, key))
    && (forall id <- s.calls :: CallOk(s.repo, s.calls[id]))
  }

  lemma {:induction false} SuccessesFrame(audit: map<Key, Audit>, tenant: string, ids: seq<string>, key: Key, e: Audit)
    requires forall id <- ids :: (tenant, id) != key
    ensures Successes(audit[key := e], tenant, ids) == Successes(audit, tenant, ids)
  {
    if ids != [] {
      SuccessesFrame(audit, tenant, ids[..|ids| - 1], key, e);
    }
  }

  /** Appending a fresh event counts exactly when it is a success, and only for its own record. */
  lemma AppendCounts<H>(r: Repo<H>, e: Audit)
    requires Consistent(r) && (e.tenantId, e.id) !in r.audit
    ensures Consistent(Append(r, e))
    ensures forall key :: SuccessfulAudits(Append(r, e), key) == SuccessfulAudits(r, key)
              + if key == (e.tenantId, e.changeId) && e.outcome.Succeeded? then 1 else 0
  {
    hide Append, Consistent, SuccessfulAudits;
    AppendFacts(r, e);
    forall key: Key
      ensures SuccessfulAudits(Append(r, e), key) == SuccessfulAudits(r, key)
                + if key == (e.tenantId, e.changeId) && e.outcome.Succeeded? then 1 else 0
    {
      AppendCountsFor(r, e, key);
    }
  }

  lemma AppendCountsFor<H>(r: Repo<H>, e: Audit, key: Key)
    requires Consistent(r) && (e.tenantId, e.id) !in r.audit
    ensures SuccessfulAudits(Append(r, e), key) == SuccessfulAudits(r, key)
              + if key == (e.tenantId, e.changeId) && e.outcome.Succeeded? then 1 else 0
  {
    hide Append;
    AppendFacts(r, e);
    var ids := Trail(r, key);
    TrailIsAudited(r, key);
    hide Consistent, Trail;
    SuccessesFrame(r.audit, key.0, ids, (e.tenantId, e.id), e);
    if key == (e.tenantId, e.changeId) {
      assert (ids + [e.id])[..|ids|] == ids;
    }
  }

  lemma TrailIsAudited<H>(r: Repo<H>, key: Key)
    requires Consistent(r)
    ensures forall id <- Trail(r, key) :: (key.0, id) in r.audit
  {
  }

  lemma AppendFacts<H>(r: Repo<H>, e: Audit)
    requires Consistent(r) && (e.tenantId, e.id) !in r.audit
    ensures var r' := Append(r, e);
            && Consistent(r') && r'.audit == r.audit[(e.tenantId, e.id) := e]
            && (forall key :: Trail(r', key) == if key == (e.tenantId, e.changeId) then Trail(r, key) + [e.id] else Trail(r, key))
  {
  }

  /** A commit that the repository accepts is a legal transition of what is stored, and is audited. */
  lemma CommitApplies<H>(initial: Repo<H>, s: System<H>, id: nat)
    requires Inv(initial, s) && id in s.calls && s.calls[id].HasRead?
    requires var c := s.calls[id];
             Committed(s.repo, Updated(c.current, c.q, c.at), Event(c.current, c.q, c.at, Succeeded), c.q.expected).Ok?
    ensures var c := s.calls[id];
            var updated, event := Updated(c.current, c.q, c.at), Event(c.current, c.q, c.at, Succeeded);
            var key := KeyOf(updated);
            && key in s.repo.changes && s.repo.changes[key] == c.current && KeyOf(c.current) == key
            && Legal(Commit(c.current, updated)) && (event.tenantId, event.id) !in s.repo.audit
            && CommitStep(s, id, c) == System(Append(s.repo.(changes := s.repo.changes[key := updated]), event),
                                              s.calls[id := Returned], s.log + [Commit(c.current, updated)])
  {
    hide Replay, CommitsOf, SuccessfulAudits, Append;
    assert CallOk(s.repo, s.calls[id]);
  }

  /** Callers keep reading what was stored, at a version no later than what is stored now. */
  lemma CallsStay<H>(r: Repo<H>, r': Repo<H>, call: Call<H>, key: Key, updated: Change<H>)
    requires CallOk(r, call) && key in r.changes && r'.changes == r.changes[key := updated]
    requires updated.version == r.changes[key].version + 1
    ensures CallOk(r', call)
  {
  }

  lemma CommitKeepsInv<H>(initial: Repo<H>, s: System<H>, id: nat)
    requires Inv(initial, s) && id in s.calls && s.calls[id].HasRead?
    ensures Inv(initial, CommitStep(s, id, s.calls[id]))
  {
    hide CallOk, Legal, SuccessfulAudits, AllowedTargets;
    var c := s.calls[id];
    var updated, event := Updated(c.current, c.q, c.at), Event(c.current, c.q, c.at, Succeeded);
    var s' := CommitStep(s, id, c);
    if Committed(s.repo, updated, event, c.q.expected).Ok? {
      CommitApplies(initial, s, id);
      hide Committed, CommitStep, Append;
      var key := KeyOf(updated);
      assert s'.log[..|s.log|] == s.log;
      var written := s.repo.(changes := s.repo.changes[key := updated]);
      assert Consistent(written);
      AppendCounts(written, event);
      AppendFrame(s.repo, written, event);
      forall other | other in s'.calls ensures CallOk(s'.repo, s'.calls[other]) {
        if other == id { ReturnedOk(s'.repo); } else { LegalAdvances(c.current, updated); CallsStay(s.repo, s'.repo, s.calls[other], key, updated); }
      }
    } else {
      RefusedOk(s.repo, c);
    }
  }

  lemma AppendFrame<H>(r: Repo<H>, written: Repo<H>, e: Audit)
    requires written.audit == r.audit && written.trail == r.trail
    ensures Append(written, e).changes == written.changes
    ensures forall k :: SuccessfulAudits(written, k) == SuccessfulAudits(r, k)
  {
  }

  lemma LegalAdvances<H>(before: Change<H>, after: Change<H>)
    requires Legal(Commit(before, after))
    ensures after.version == before.version + 1
  {
  }

  lemma ReturnedOk<H>(r: Repo<H>)
    ensures CallOk(r, Returned)
  {
  }

  lemma RefusedOk<H>(r: Repo<H>, c: Call<H>)
    requires c.HasRead?
    ensures CallOk(r, Rejecting(Event(c.current, c.q, c.at, Refused))) && CallOk(r, Returned)
  {
  }

  lemma StepKeepsInv<H>(initial: Repo<H>, s: System<H>, a: Action<H>)
    requires Inv(initial, s) && Disciplined(s, a)
    ensures Inv(initial, Step(s, a))
  {
    match a
    case Begin(id, q) =>
    case Read(id, at) =>
    case CommitNow(id) =>
      if id in s.calls && s.calls[id].HasRead? { CommitKeepsInv(initial, s, id); }
    case AuditRejection(id) =>
      if id in s.calls && s.calls[id].Rejecting? {
        RefusalKeepsEverything(initial, s, id);
      }
  }

  lemma RefusalKeepsEverything<H>(initial: Repo<H>, s: System<H>, id: nat)
    requires Inv(initial, s) && id in s.calls && s.calls[id].Rejecting?
    ensures Inv(initial, Step(s, AuditRejection(id)))
    ensures Step(s, AuditRejection(id)).repo.changes == s.repo.changes
  {
    if Recorded(s.repo, s.calls[id].event).Ok? {
      AppendCounts(s.repo, s.calls[id].event);
    }
  }

  /**
   Every interleaving of disciplined calls is a sequence of legal atomic transitions: the stored
   records are exactly the replay of the commits, and each record has one success audit per commit.
   */
  lemma {:induction false} TransitionsAreLinearizable<H>(initial: Repo<H>, actions: seq<Action<H>>)
    requires Consistent(initial)
    requires DisciplinedRun(System(initial, map[], []), actions)
    ensures Inv(initial, Run(System(initial, map[], []), actions))
    decreases |actions|
  {
    var s0 := System(initial, map[], []);
    if actions != [] {
      var prefix := actions[..|actions| - 1];
      assert forall i | 0 <= i < |prefix| :: prefix[..i] == actions[..i];
      TransitionsAreLinearizable(initial, prefix);
      StepKeepsInv(initial, Run(s0, prefix), actions[|actions| - 1]);
    }
  }

  // ---------------------------------------------------------------- among callers who expect anything

  /** What a caller has read is stored, or a later version is. */
  ghost predicate ReadStored<H>(r: Repo<H>, c: Call<H>) {
    c.HasRead? ==>
      var key := KeyOf(c.current);
      && key == Target(c.q) && key in r.changes && c.current.version <= r.changes[key].version
      && (c.current.version == r.changes[key].version ==> c.current == r.changes[key])
  }

  ghost predicate Reads<H>(s: System<H>) {
    && (forall key <- s.repo.changes :: KeyOf(s.repo.changes[key]) == key)
    && forall id <- s.calls :: ReadStored(s.repo, s.calls[id])
  }

  lemma {:induction false} VersionsNameRecords<H>(initial: Repo<H>, actions: seq<Action<H>>)
    requires forall key <- initial.changes :: KeyOf(initial.changes[key]) == key
    ensures Reads(Run(System(initial, map[], []), actions))
  {
    if actions != [] {
      VersionsNameRecords(initial, actions[..|actions| - 1]);
      StepKeepsReads(Run(System(initial, map[], []), actions[..|actions| - 1]), actions[|actions| - 1]);
    }
  }

  lemma StepKeepsReads<H>(s: System<H>, a: Action<H>)
    requires Reads(s)
    ensures Reads(Step(s, a))
  {
    hide CanTransition;
  }

  /**
   A caller that expects no more than the version it read either commits a legal transition of exactly the
   stored record or changes no record, in any interleaving with callers that expect whatever they like.
   */
  lemma OwnVersionIsAtomic<H>(initial: Repo<H>, actions: seq<Action<H>>, id: nat)
    requires forall key <- initial.changes :: KeyOf(initial.changes[key]) == key
    requires var s := Run(System(initial, map[], []), actions);
             id in s.calls && s.calls[id].HasRead? && s.calls[id].q.expected <= s.calls[id].current.version
    ensures var s := Run(System(initial, map[], []), actions);
            var c, s' := s.calls[id], Step(s, CommitNow(id));
            || s'.repo.changes == s.repo.changes
            || (KeyOf(c.current) in s.repo.changes && s.repo.changes[KeyOf(c.current)] == c.current
                && exists after :: AsRequested(c.current, after, c.q, c.at)
                                   && s'.repo.changes == s.repo.changes[KeyOf(c.current) := after])
  {
    hide Run, CanTransition;
    VersionsNameRecords(initial, actions);
    var s := Run(System(initial, map[], []), actions);
    var c := s.calls[id];
    assert ReadStored(s.repo, c);
    if Step(s, CommitNow(id)).repo.changes != s.repo.changes {
      assert AsRequested(c.current, Updated(c.current, c.q, c.at), c.q, c.at);
    }
  }

  /** What a replayable log means for one record: its version counts its commits, and a final record is left alone. */
  lemma {:induction false} ReplayCountsVersions<H>(changes: map<Key, Change<H>>, log: seq<Commit<H>>, key: Key)
    requires Replay(changes, log).Some? && key in changes
    ensures var m := Replay(changes, log).value;
            && key in m && m[key].version == changes[key].version + CommitsOf(log, key)
            && changes[key].updatedAt <= m[key].updatedAt
            && (Final(changes[key].status) ==> m[key] == changes[key] && CommitsOf(log, key) == 0)
  {
    if log != [] {
      ReplayCountsVersions(changes, log[..|log| - 1], key);
    }
  }

  // ---------------------------------------------------------------- expecting a later version

  /** A name of its own for each natural number. */
  function Name(n: nat): (name: string)
    ensures |name| == n
  {
    seq(n, _ => 'n')
  }

  const SCREENED: Change<int> := Change("t", "c", SCREENING, None, 0, None, 0, 0, 1)

  const WATCHED: Repo<int> := Repo(map[("t", "c") := SCREENED], map[], map[])

  function StatusAfter(n: nat): Status {
    if n % 2 == 0 then SCREENING else NEEDS_ATTENTION
  }

  /** One uninterrupted and disciplined transition of version `n + 1`. */
  function Move(n: nat, target: Status): seq<Action<int>> {
    [Begin(n + 1, Request("t", "c", target, n + 1, Updates(None, None), Name(n))), Read(n + 1, 0), CommitNow(n + 1)]
  }

  /** The early reader that expects `k` versions more than it reads, then `n` transitions by others. */
  function Churn(k: nat, n: nat): seq<Action<int>> {
    if n == 0 then [Begin(0, Request("t", "c", BLOCKED, k + 1, Updates(None, None), "early")), Read(0, 0)]
    else Churn(k, n - 1) + Move(n - 1, StatusAfter(n))
  }

  lemma {:induction false} RunConcat<H>(s: System<H>, a: seq<Action<H>>, b: seq<Action<H>>)
    ensures Run(s, a + b) == Run(Run(s, a), b)
  {
    if b == [] {
      assert a + b == a;
    } else {
      assert (a + b)[..|a + b| - 1] == a + b[..|b| - 1];
      RunConcat(s, a, b[..|b| - 1]);
    }
  }

  /** Caller 0 expects exactly `ahead` versions more than it reads; every other caller is disciplined. */
  ghost predicate OnlyCallerZeroAhead<H>(s: System<H>, actions: seq<Action<H>>, ahead: nat) {
    forall i | 0 <= i < |actions| && actions[i].Read? ::
      var si, id := Run(s, actions[..i]), actions[i].id;
      if id != 0 then Disciplined(si, actions[i])
      else id in si.calls && si.calls[id].Requested? &&
           var got := Lookup(si.repo, Target(si.calls[id].q));
           got.Ok? && si.calls[id].q.expected == got.value.version + ahead
  }

  lemma AheadConcat<H>(s: System<H>, a: seq<Action<H>>, b: seq<Action<H>>, ahead: nat)
    requires OnlyCallerZeroAhead(s, a, ahead) && OnlyCallerZeroAhead(Run(s, a), b, ahead)
    ensures OnlyCallerZeroAhead(s, a + b, ahead)
  {
    forall i | 0 <= i < |a + b|
      ensures i < |a| ==> (a + b)[..i] == a[..i]
      ensures i >= |a| ==> Run(s, (a + b)[..i]) == Run(Run(s, a), b[..i - |a|])
    {
      if i >= |a| {
        assert (a + b)[..i] == a + b[..i - |a|];
        RunConcat(s, a, b[..i - |a|]);
      }
    }
  }

  ghost predicate Churned(k: nat, n: nat, s: System<int>) {
    && s.repo.changes == map[("t", "c") := SCREENED.(status := StatusAfter(n), version := n + 1)]
    && 0 in s.calls
    && s.calls[0] == HasRead(Request("t", "c", BLOCKED, k + 1, Updates(None, None), "early"), SCREENED, 0)
    && (forall id <- s.calls :: id <= n)
    && (forall key <- s.repo.audit :: key.1 != "early" && |key.1| < n)
    && Replay(WATCHED.changes, s.log) == Some(s.repo.changes)
  }

  /** The three steps of one move, on any system whose only record is at version `n + 1`. */
  lemma MoveSteps(n: nat, s: System<int>, before: Change<int>, target: Status)
    requires s.repo.changes == map[("t", "c") := before] && KeyOf(before) == ("t", "c")
    requires before.version == n + 1 && before.updatedAt == 0
    requires n + 1 !in s.calls && ("t", Name(n)) !in s.repo.audit
    requires CanTransition(before.status, target)
    ensures var m := Move(n, target);
            var s1 := Step(s, m[0]);
            var s3 := Step(Step(s1, m[1]), m[2]);
            var after := before.(status := target, version := n + 2);
            && Disciplined(s1, m[1])
            && s3.repo.changes == map[("t", "c") := after]
            && s3.calls == s.calls[n + 1 := Returned]
            && s3.repo.audit.Keys == s.repo.audit.Keys + {("t", Name(n))}
            && s3.log == s.log + [Commit(before, after)]
  {
    hide AllowedTargets;
    var m := Move(n, target);
    var s2 := Step(Step(s, m[0]), m[1]);
    assert s2.calls[n + 1].HasRead?;
    assert Step(s2, m[2]).calls == s.calls[n + 1 := Returned];
  }

  lemma MoveRuns(n: nat, s: System<int>, before: Change<int>, target: Status)
    requires s.repo.changes == map[("t", "c") := before] && KeyOf(before) == ("t", "c")
    requires before.version == n + 1 && before.updatedAt == 0
    requires n + 1 !in s.calls && ("t", Name(n)) !in s.repo.audit
    requires CanTransition(before.status, target)
    ensures var s' := Run(s, Move(n, target));
            var after := before.(status := target, version := n + 2);
            && s'.repo.changes == map[("t", "c") := after]
            && s'.calls == s.calls[n + 1 := Returned]
            && s'.repo.audit.Keys == s.repo.audit.Keys + {("t", Name(n))}
            && s'.log == s.log + [Commit(before, after)]
    ensures forall ahead :: OnlyCallerZeroAhead(s, Move(n, target), ahead)
  {
    hide Step, Disciplined;
    MoveSteps(n, s, before, target);
    var m := Move(n, target);
    assert m[..2][..1] == [m[0]] && m[..2] == [m[0], m[1]] && m[..1] == [m[0]] && m[..1][..0] == [];
    assert Run(s, [m[0]]) == Step(s, m[0]);
    assert Run(s, m[..2]) == Step(Step(s, m[0]), m[1]);
    assert Run(s, m) == Step(Step(Step(s, m[0]), m[1]), m[2]);
  }

  lemma NamesDiffer(n: nat)
    ensures Name(n) != "early"
  {
    if n > 0 { assert Name(n)[0] == 'n'; }
  }

  lemma ChurnStarts(k: nat)
    ensures OnlyCallerZeroAhead(System(WATCHED, map[], []), Churn(k, 0), k)
    ensures Churned(k, 0, Run(System(WATCHED, map[], []), Churn(k, 0)))
  {
    var s0: System<int> := System(WATCHED, map[], []);
    var c := Churn(k, 0);
    assert c[..1] == [c[0]] && c[..1][..0] == [];
    var s1 := Step(s0, c[0]);
    assert Run(s0, c[..1]) == s1;
    assert s1 == System(WATCHED, map[0 := Requested(c[0].q)], []);
    assert Run(s0, c) == Step(s1, c[1]);
  }

  lemma ChurnGrows(k: nat, n: nat, s: System<int>)
    requires Churned(k, n, s)
    ensures Churned(k, n + 1, Run(s, Move(n, StatusAfter(n + 1))))
    ensures OnlyCallerZeroAhead(s, Move(n, StatusAfter(n + 1)), k)
  {
    hide Run, Move, Name, OnlyCallerZeroAhead;
    var s' := Run(s, Move(n, StatusAfter(n + 1)));
    NamesDiffer(n);
    MoveRuns(n, s, s.repo.changes[("t", "c")], StatusAfter(n + 1));
    assert s'.log[..|s.log|] == s.log;
    assert forall key <- s'.repo.audit :: key in s'.repo.audit.Keys;
    assert forall key <- s'.repo.audit :: key in s.repo.audit || key == ("t", Name(n));
    assert forall id <- s'.calls :: id in s.calls || id == n + 1;
    var before := s.repo.changes[("t", "c")];
    assert Legal(Commit(before, s'.repo.changes[("t", "c")]));
    assert s'.repo.changes == s.repo.changes[("t", "c") := s'.repo.changes[("t", "c")]];
    assert Replay(WATCHED.changes, s'.log) == Some(s'.repo.changes);
    assert s'.calls[0] == s.calls[0];
    assert s'.repo.changes == map[("t", "c") := SCREENED.(status := StatusAfter(n + 1), version := n + 2)];
  }

  lemma {:induction false} ChurnRuns(k: nat, n: nat)
    ensures OnlyCallerZeroAhead(System(WATCHED, map[], []), Churn(k, n), k)
    ensures Churned(k, n, Run(System(WATCHED, map[], []), Churn(k, n)))
  {
    var s0: System<int> := System(WATCHED, map[], []);
    if n == 0 {
      ChurnStarts(k);
    } else {
      ChurnRuns(k, n - 1);
      ChurnGrows(k, n - 1, Run(s0, Churn(k, n - 1)));
      AheadConcat(s0, Churn(k, n - 1), Move(n - 1, StatusAfter(n)), k);
      RunConcat(s0, Churn(k, n - 1), Move(n - 1, StatusAfter(n)));
    }
  }

  lemma IllegalCommitStopsReplay<H>(changes: map<Key, Change<H>>, log: seq<Commit<H>>, c: Commit<H>)
    requires !Legal(c)
    ensures Replay(changes, log + [c]) == None
  {
    assert (log + [c])[..|log|] == log;
  }

  /** A stored record whose version is the one a stale reader expects gets overwritten, whatever its status. */
  lemma StaleCommitWrites(s: System<int>, id: nat, stored: Change<int>)
    requires id in s.calls && s.calls[id].HasRead?
    requires s.repo.changes == map[("t", "c") := stored] && KeyOf(s.calls[id].current) == ("t", "c")
    requires stored.version == s.calls[id].q.expected && ("t", s.calls[id].q.auditId) !in s.repo.audit
    ensures var c := s.calls[id];
            Step(s, CommitNow(id)).log == s.log + [Commit(stored, Updated(c.current, c.q, c.at))]
  {
  }

  /** The early caller's commit, once the record is cancelled at the version it expected. */
  lemma EarlyCommit(ahead: nat, s: System<int>)
    requires 0 < ahead && Churned(ahead, ahead - 1, s)
    ensures var s' := Step(Run(s, Move(ahead - 1, CANCELLED)), CommitNow(0));
            Replay(WATCHED.changes, s'.log) == None
    ensures OnlyCallerZeroAhead(s, Move(ahead - 1, CANCELLED), ahead)
  {
    hide Run, Move, Name, OnlyCallerZeroAhead, Step, Replay;
    var s1 := Run(s, Move(ahead - 1, CANCELLED));
    NamesDiffer(ahead - 1);
    MoveRuns(ahead - 1, s, s.repo.changes[("t", "c")], CANCELLED);
    assert ("t", "early") !in s1.repo.audit;
    var cancelled := s1.repo.changes[("t", "c")];
    var c := s1.calls[0];
    StaleCommitWrites(s1, 0, cancelled);
    IllegalCommitStopsReplay(WATCHED.changes, s1.log, Commit(cancelled, Updated(c.current, c.q, c.at)));
  }

  /**
   However far ahead of its read one caller expects the version to be, some run in which all other
   callers are disciplined makes it commit out of CANCELLED: the replay is then undefined.
   */
  lemma StaleExpectationBreaks(ahead: nat)
    requires 0 < ahead
    ensures exists actions: seq<Action<int>> ::
              && OnlyCallerZeroAhead(System(WATCHED, map[], []), actions, ahead)
              && Replay(WATCHED.changes, Run(System(WATCHED, map[], []), actions).log) == None
  {
    hide Step, Churn, Move, Replay, Churned;
    var s0: System<int> := System(WATCHED, map[], []);
    var early, last := Churn(ahead, ahead - 1), Move(ahead - 1, CANCELLED);
    ChurnRuns(ahead, ahead - 1);
    EarlyCommit(ahead, Run(s0, early));
    RunConcat(s0, early, last);
    AheadConcat(s0, early, last, ahead);
    AheadConcat(s0, early + last, [CommitNow(0)], ahead);
    var actions := early + last + [CommitNow(0)];
    assert actions[..|actions| - 1] == early + last;
    assert Run(s0, actions) == Step(Run(s0, early + last), CommitNow(0));
    assert Replay(WATCHED.changes, Run(s0, actions).log) == None;
  }
}
