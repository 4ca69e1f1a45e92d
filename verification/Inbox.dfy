/** The event inbox: idempotent acceptance, and publication under a lease fenced by the record's version. */
module Inbox {
  import opened Common

  /** `content` is the rest of the event document. */
  datatype ChangeEvent = ChangeEvent(eventId: string, source: string, tenantId: string, content: string)

  /** Digests of the identifying fields and of the whole event, taken to be injective. */
  datatype EventKey = EventSha256(eventId: string, source: string, tenantId: string)

  function KeyOf(e: ChangeEvent): EventKey {
    EventSha256(e.eventId, e.source, e.tenantId)
  }

  datatype Status = PENDING | PUBLISHING | PUBLISHED | PUBLISH_FAILED

  datatype Record = Record(
    key: EventKey, tenantId: string, changeId: string, inputHash: ChangeEvent, status: Status, publishAttempts: nat,
    messageId: Option<string>, lastErrorCode: Option<string>, createdAt: Time, updatedAt: Time, version: nat)

  datatype Acceptance = Acceptance(record: Record, replayed: bool)

  datatype InboxError = EventConflict | StaleReservation | NoSuchEvent

  type StorageKey = (string, EventKey)
  type Records = map<StorageKey, Record>

  const LEASE := 30

  function Accepted(m: Records, e: ChangeEvent, changeId: string, now: Time): (Records, Result<Acceptance, InboxError>) {
    var key := (e.tenantId, KeyOf(e));
    if key in m then (m, if m[key].inputHash != e then Err(EventConflict) else Ok(Acceptance(m[key], true)))
    else
      var record := Record(KeyOf(e), e.tenantId, changeId, e, PENDING, 0, None, None, now, now, 1);
      (m[key := record], Ok(Acceptance(record, false)))
  }

  function Reserved(m: Records, key: StorageKey, now: Time): (Records, Result<Option<Record>, InboxError>) {
    if key !in m then (m, Err(NoSuchEvent))
    else if m[key].status.PUBLISHED? || (m[key].status.PUBLISHING? && m[key].updatedAt > now - LEASE) then (m, Ok(None))
    else
      var updated := m[key].(status := PUBLISHING, publishAttempts := m[key].publishAttempts + 1, lastErrorCode := None,
                             updatedAt := now, version := m[key].version + 1);
      (m[key := updated], Ok(Some(updated)))
  }

  /** How a publication ends: with a message identifier or an error code. */
  datatype Ending = Published(messageId: string) | Failed(errorCode: string)

  function Finished(m: Records, key: StorageKey, expected: int, o: Ending, now: Time): (Records, Result<Record, InboxError>) {
    if key !in m then (m, Err(NoSuchEvent))
    else if m[key].version != expected || !m[key].status.PUBLISHING? then (m, Err(StaleReservation))
    else
      var updated := m[key].(status := if o.Published? then PUBLISHED else PUBLISH_FAILED,
                             messageId := if o.Published? then Some(o.messageId) else None,
                             lastErrorCode := if o.Published? then None else Some(o.errorCode),
                             updatedAt := now, version := m[key].version + 1);
      (m[key := updated], Ok(updated))
  }

  class InMemoryEventInboxRepository {
    var records: Records

    constructor ()
      ensures records == map[]
    {
      records := map[];
    }

    method Accept(e: ChangeEvent, changeId: string, now: Time) returns (r: Result<Acceptance, InboxError>)
      modifies this
      ensures (records, r) == Accepted(old(records), e, changeId, now)
    {
      var key := (e.tenantId, KeyOf(e));
      if key in records {
        if records[key].inputHash != e { return Err(EventConflict); }
        return Ok(Acceptance(records[key], true));
      }
      var record := Record(KeyOf(e), e.tenantId, changeId, e, PENDING, 0, None, None, now, now, 1);
      records := records[key := record];
      r := Ok(Acceptance(record, false));
    }

    method ReservePublish(tenantId: string, key: EventKey, now: Time) returns (r: Result<Option<Record>, InboxError>)
      modifies this
      ensures (records, r) == Reserved(old(records), (tenantId, key), now)
    {
      if (tenantId, key) !in records { return Err(NoSuchEvent); }
      var current := records[(tenantId, key)];
      if current.status.PUBLISHED? { return Ok(None); }
      if current.status.PUBLISHING? && current.updatedAt > now - LEASE { return Ok(None); }
      var updated := current.(status := PUBLISHING, publishAttempts := current.publishAttempts + 1, lastErrorCode := None,
                              updatedAt := now, version := current.version + 1);
      records := records[(tenantId, key) := updated];
      r := Ok(Some(updated));
    }

    method MarkPublished(tenantId: string, key: EventKey, expected: int, messageId: string, now: Time)
      returns (r: Result<Record, InboxError>)
      modifies this
      ensures (records, r) == Finished(old(records), (tenantId, key), expected, Published(messageId), now)
    {
      r := FinishPublish(tenantId, key, expected, PUBLISHED, Some(messageId), None, now);
    }

    method MarkPublishFailed(tenantId: string, key: EventKey, expected: int, errorCode: string, now: Time)
      returns (r: Result<Record, InboxError>)
      modifies this
      ensures (records, r) == Finished(old(records), (tenantId, key), expected, Failed(errorCode), now)
    {
      r := FinishPublish(tenantId, key, expected, PUBLISH_FAILED, None, Some(errorCode), now);
    }

    method FinishPublish(tenantId: string, key: EventKey, expected: int, status: Status, messageId: Option<string>,
                         errorCode: Option<string>, now: Time) returns (r: Result<Record, InboxError>)
      requires (status.PUBLISHED? && messageId.Some? && errorCode.None?) || (status.PUBLISH_FAILED? && messageId.None? && errorCode.Some?)
      modifies this
      ensures (records, r) == Finished(old(records), (tenantId, key), expected,
                                       if messageId.Some? then Published(messageId.value) else Failed(errorCode.value), now)
    {
      if (tenantId, key) !in records { return Err(NoSuchEvent); }
      var current := records[(tenantId, key)];
      if current.version != expected || !current.status.PUBLISHING? { return Err(StaleReservation); }
      var updated := current.(status := status, messageId := messageId, lastErrorCode := errorCode, updatedAt := now,
                              version := current.version + 1);
      records := records[(tenantId, key) := updated];
      r := Ok(updated);
    }
  }

  // ---------------------------------------------------------------- every interleaving

  /** Calls arrive in any order with any arguments; a crash is a call that never comes. */
  datatype Action =
    | Accept(event: ChangeEvent, changeId: string, now: Time)
    | Reserve(key: StorageKey, now: Time)
    | Finish(key: StorageKey, expected: int, ending: Ending, now: Time)

  datatype Event = Leased(key: StorageKey, version: nat, at: Time) | Ended(key: StorageKey, version: nat, ending: Ending)

  datatype Sys = Sys(records: Records, log: seq<Event>)

  function Act(s: Sys, a: Action): Sys {
    match a
    case Accept(e, changeId, now) => s.(records := Accepted(s.records, e, changeId, now).0)
    case Reserve(key, now) =>
      var (m, r) := Reserved(s.records, key, now);
      if r.Ok? && r.value.Some? then Sys(m, s.log + [Leased(key, r.value.value.version, now)]) else s
    case Finish(key, expected, ending, now) =>
      var (m, r) := Finished(s.records, key, expected, ending, now);
      if r.Ok? then Sys(m, s.log + [Ended(key, expected, ending)]) else s
  }

  function Run(actions: seq<Action>): Sys {
    if actions == [] then Sys(map[], []) else Act(Run(actions[..|actions| - 1]), actions[|actions| - 1])
  }

  predicate IsLease(e: Event, key: StorageKey) {
    e.Leased? && e.key == key
  }

  predicate IsEnd(e: Event, key: StorageKey) {
    e.Ended? && e.key == key
  }

  function Ends(log: seq<Event>, key: StorageKey): nat {
    if log == [] then 0 else Ends(log[..|log| - 1], key) + if IsEnd(log[|log| - 1], key) then 1 else 0
  }

  /** The latest event of the key before `to` is the lease at `i`. */
  predicate Latest(log: seq<Event>, i: nat, to: nat, key: StorageKey)
    requires to <= |log|
  {
    i < to && IsLease(log[i], key) && forall m | i < m < to :: log[m].key != key
  }

  /** Every end is the end of the latest lease, and leases without an end between them are spaced. */
  ghost predicate Fenced(log: seq<Event>, key: StorageKey) {
    && (forall j | 0 <= j < |log| && IsEnd(log[j], key) ::
          exists i: nat :: Latest(log, i, j, key) && log[i].version == log[j].version)
    && (forall i, j | 0 <= i < j < |log| && IsLease(log[i], key) && IsLease(log[j], key)
                      && NoEnd(log, i, j, key) :: log[j].at >= log[i].at + LEASE)
  }

  ghost predicate KeyOk(s: Sys, key: StorageKey) {
    && Fenced(s.log, key)
    && if key !in s.records then forall e <- s.log :: e.key != key
       else
         var r := s.records[key];
         && r.version == 1 + r.publishAttempts + Ends(s.log, key)
         && (r.status.PUBLISHING? ==> exists i: nat :: Latest(s.log, i, |s.log|, key) && s.log[i].version == r.version)
         && (forall i | 0 <= i < |s.log| && IsLease(s.log[i], key) && NoEnd(s.log, i, |s.log|, key) ::
               r.status.PUBLISHING? && s.log[i].at <= r.updatedAt)
  }

  /** What a step may do to a stored record: published ones stay, and the input hash never changes. */
  ghost predicate Keeps(m: Records, m': Records) {
    forall key <- m ::
      && key in m' && m'[key].inputHash == m[key].inputHash && m'[key].version >= m[key].version
      && (m[key].status.PUBLISHED? ==> m'[key] == m[key])
  }

  lemma EndsAppend(log: seq<Event>, e: Event, key: StorageKey)
    ensures Ends(log + [e], key) == Ends(log, key) + if IsEnd(e, key) then 1 else 0
  {
    assert (log + [e])[..|log|] == log;
  }

  lemma LatestPrefix(log: seq<Event>, e: Event, i: nat, to: nat, key: StorageKey)
    requires to <= |log|
    ensures Latest(log + [e], i, to, key) <==> Latest(log, i, to, key)
  {
    var all := log + [e];
    assert forall m | 0 <= m < |log| :: all[m] == log[m];
  }

  predicate NoEnd(log: seq<Event>, from: nat, to: nat, key: StorageKey)
    requires to <= |log|
  {
    forall m | from < m < to :: !IsEnd(log[m], key)
  }

  lemma NoEndPrefix(log: seq<Event>, e: Event, i: nat, to: nat, key: StorageKey)
    requires to <= |log|
    ensures NoEnd(log + [e], i, to, key) <==> NoEnd(log, i, to, key)
    ensures i < |log| ==> (NoEnd(log + [e], i, |log| + 1, key) <==> NoEnd(log, i, |log|, key) && !IsEnd(e, key))
  {
    var all := log + [e];
    assert forall m | 0 <= m < |log| :: all[m] == log[m];
    assert all[|log|] == e;
  }

  /** Appending an event that, if an end, ends the latest lease and, if a lease, comes late enough. */
  lemma FencedAppend(log: seq<Event>, e: Event, key: StorageKey)
    requires Fenced(log, key)
    requires IsEnd(e, key) ==> exists i: nat :: Latest(log, i, |log|, key) && log[i].version == e.version
    requires IsLease(e, key) ==> forall i | 0 <= i < |log| && IsLease(log[i], key) && NoEnd(log, i, |log|, key) :: e.at >= log[i].at + LEASE
    ensures Fenced(log + [e], key)
  {
    var all := log + [e];
    forall j | 0 <= j < |all| && IsEnd(all[j], key)
      ensures exists i: nat :: Latest(all, i, j, key) && all[i].version == all[j].version
    {
      if j < |log| { assert IsEnd(log[j], key); }
      var i: nat :| Latest(log, i, j, key) && log[i].version == all[j].version;
      LatestPrefix(log, e, i, j, key);
    }
    forall i, j | 0 <= i < j < |all| && IsLease(all[i], key) && IsLease(all[j], key) && NoEnd(all, i, j, key)
      ensures all[j].at >= all[i].at + LEASE
    {
      NoEndPrefix(log, e, i, j, key);
      if j < |log| { assert IsLease(log[j], key); }
    }
  }

  lemma OtherKey(s: Sys, s': Sys, e: Event, key: StorageKey)
    requires KeyOk(s, key) && s'.log == s.log + [e] && e.key != key
    requires if key in s.records then key in s'.records && s'.records[key] == s.records[key] else key !in s'.records
    ensures KeyOk(s', key)
  {
    hide Fenced;
    FencedAppend(s.log, e, key);
    EndsAppend(s.log, e, key);
    forall i | 0 <= i < |s'.log| && IsLease(s'.log[i], key) && NoEnd(s'.log, i, |s'.log|, key)
      ensures i < |s.log| && IsLease(s.log[i], key) && NoEnd(s.log, i, |s.log|, key)
    {
      NoEndPrefix(s.log, e, i, |s.log|, key);
    }
    if key in s.records && s.records[key].status.PUBLISHING? {
      var i: nat :| Latest(s.log, i, |s.log|, key) && s.log[i].version == s.records[key].version;
      assert Latest(s'.log, i, |s'.log|, key);
    }
  }

  lemma LeaseKeeps(s: Sys, key: StorageKey, now: Time)
    requires KeyOk(s, key) && key in s.records && !s.records[key].status.PUBLISHED?
    requires s.records[key].status.PUBLISHING? ==> s.records[key].updatedAt <= now - LEASE
    ensures KeyOk(Act(s, Reserve(key, now)), key)
  {
    hide Fenced;
    var s' := Act(s, Reserve(key, now));
    var e := Leased(key, s.records[key].version + 1, now);
    assert s'.log == s.log + [e];
    FencedAppend(s.log, e, key);
    EndsAppend(s.log, e, key);
    assert Latest(s'.log, |s.log|, |s'.log|, key);
    forall i | 0 <= i < |s'.log| && IsLease(s'.log[i], key) && NoEnd(s'.log, i, |s'.log|, key)
      ensures s'.log[i].at <= now
    {
      NoEndPrefix(s.log, e, i, |s.log|, key);
    }
  }

  lemma EndKeeps(s: Sys, key: StorageKey, expected: int, o: Ending, now: Time)
    requires KeyOk(s, key) && key in s.records && s.records[key].status.PUBLISHING? && s.records[key].version == expected
    ensures KeyOk(Act(s, Finish(key, expected, o, now)), key)
  {
    hide Fenced;
    var s' := Act(s, Finish(key, expected, o, now));
    var e := Ended(key, expected, o);
    assert s'.log == s.log + [e];
    FencedAppend(s.log, e, key);
    EndsAppend(s.log, e, key);
    forall i | 0 <= i < |s'.log| && IsLease(s'.log[i], key) ensures !NoEnd(s'.log, i, |s'.log|, key) {
      NoEndPrefix(s.log, e, i, |s.log|, key);
    }
  }

  lemma AcceptKeeps(s: Sys, event: ChangeEvent, changeId: string, now: Time, key: StorageKey)
    requires KeyOk(s, key)
    ensures KeyOk(Act(s, Accept(event, changeId, now)), key)
  {
    hide Fenced;
    if key !in s.records { NoEvents(s.log, key); }
  }

  lemma NoEvents(log: seq<Event>, key: StorageKey)
    requires forall e <- log :: e.key != key
    ensures Ends(log, key) == 0
  {
  }

  lemma StepKeepsKey(s: Sys, a: Action, key: StorageKey)
    requires KeyOk(s, key)
    ensures KeyOk(Act(s, a), key)
  {
    hide KeyOk;
    match a
    case Accept(event, changeId, now) => AcceptKeeps(s, event, changeId, now, key);
    case Reserve(k, now) =>
      if Act(s, a) != s {
        if k == key { LeaseKeeps(s, key, now); } else { OtherKey(s, Act(s, a), Leased(k, s.records[k].version + 1, now), key); }
      }
    case Finish(k, expected, o, now) =>
      if Act(s, a) != s {
        if k == key { EndKeeps(s, key, expected, o, now); } else { OtherKey(s, Act(s, a), Ended(k, expected, o), key); }
      }
  }

  lemma StepKeeps(s: Sys, a: Action)
    ensures Keeps(s.records, Act(s, a).records)
  {
  }

  lemma {:induction false} ReachableOk(actions: seq<Action>, key: StorageKey)
    ensures KeyOk(Run(actions), key)
  {
    hide KeyOk, Act;
    if actions == [] {
      StartOk(key);
    } else {
      ReachableOk(actions[..|actions| - 1], key);
      StepKeepsKey(Run(actions[..|actions| - 1]), actions[|actions| - 1], key);
    }
  }

  lemma StartOk(key: StorageKey)
    ensures KeyOk(Run([]), key)
  {
  }

  /** Only the latest lease ends, with its own version, and never twice: any two ends have a lease between them. */
  lemma EndsAreFenced(actions: seq<Action>, key: StorageKey, j: nat)
    requires j < |Run(actions).log| && IsEnd(Run(actions).log[j], key)
    ensures exists i: nat :: Latest(Run(actions).log, i, j, key) && Run(actions).log[i].version == Run(actions).log[j].version
  {
    hide Run;
    ReachableOk(actions, key);
  }

  /** Two leases of a key with no end between them are at least thirty seconds apart. */
  lemma LeasesAreSpaced(actions: seq<Action>, key: StorageKey, i: nat, j: nat)
    requires i < j < |Run(actions).log| && IsLease(Run(actions).log[i], key) && IsLease(Run(actions).log[j], key)
    requires NoEnd(Run(actions).log, i, j, key)
    ensures Run(actions).log[j].at >= Run(actions).log[i].at + 30
  {
    hide Run;
    ReachableOk(actions, key);
  }

  /** A record's version counts its leases and ends. */
  lemma VersionCounts(actions: seq<Action>, key: StorageKey)
    requires key in Run(actions).records
    ensures var r := Run(actions).records[key]; r.version == 1 + r.publishAttempts + Ends(Run(actions).log, key)
  {
    hide Run;
    ReachableOk(actions, key);
  }

  /** PUBLISHED is final and a key keeps its input hash. */
  lemma {:induction false} PublishedIsFinal(actions: seq<Action>, n: nat)
    requires n <= |actions|
    ensures Keeps(Run(actions[..n]).records, Run(actions).records)
    decreases |actions| - n
  {
    hide Act;
    if n == |actions| {
      assert actions[..n] == actions;
    } else {
      assert actions[..n + 1][..n] == actions[..n];
      StepKeeps(Run(actions[..n]), actions[n]);
      PublishedIsFinal(actions, n + 1);
    }
  }

  // ---------------------------------------------------------------- what a record and an answer mean

  /** What last happened to the key. */
  function LastOf(log: seq<Event>, key: StorageKey): (last: Option<Event>)
    ensures last.Some? ==> last.value in log && last.value.key == key
    ensures last.None? ==> forall e <- log :: e.key != key
  {
    if log == [] then None
    else if log[|log| - 1].key == key then Some(log[|log| - 1])
    else LastOf(log[..|log| - 1], key)
  }

  lemma LastAppends(log: seq<Event>, e: Event, key: StorageKey)
    ensures LastOf(log + [e], key) == if e.key == key then Some(e) else LastOf(log, key)
  {
    assert (log + [e])[..|log|] == log;
  }

  /** A record tells what last happened to its key: nothing, a lease, or an end with its message or its error. */
  predicate Tells(r: Record, last: Option<Event>) {
    match last
    case None => r.status.PENDING? && r.version == 1 && r.messageId.None? && r.lastErrorCode.None?
    case Some(Leased(_, version, at)) =>
      r.status.PUBLISHING? && r.version == version && r.updatedAt == at && r.messageId.None? && r.lastErrorCode.None?
    case Some(Ended(_, version, Published(messageId))) =>
      r.status.PUBLISHED? && r.version == version + 1 && r.messageId == Some(messageId) && r.lastErrorCode.None?
    case Some(Ended(_, version, Failed(code))) =>
      r.status.PUBLISH_FAILED? && r.version == version + 1 && r.messageId.None? && r.lastErrorCode == Some(code)
  }

  /** The log says of the key what its record says, and nothing when there is none. */
  ghost predicate Told(s: Sys, key: StorageKey) {
    if key in s.records then Tells(s.records[key], LastOf(s.log, key)) else LastOf(s.log, key).None?
  }

  lemma StepTells(s: Sys, a: Action, key: StorageKey)
    requires Told(s, key)
    ensures Told(Act(s, a), key)
  {
    hide LastOf;
    match a
    case Accept(_, _, _) =>
    case Reserve(k, now) => if Act(s, a) != s { LastAppends(s.log, Leased(k, s.records[k].version + 1, now), key); }
    case Finish(k, expected, ending, _) => if Act(s, a) != s { LastAppends(s.log, Ended(k, expected, ending), key); }
  }

  lemma {:induction false} RecordsTell(actions: seq<Action>, key: StorageKey)
    ensures Told(Run(actions), key)
  {
    hide Told, Act;
    if actions == [] {
      NothingTold(key);
    } else {
      RecordsTell(actions[..|actions| - 1], key);
      StepTells(Run(actions[..|actions| - 1]), actions[|actions| - 1], key);
    }
  }

  lemma NothingTold(key: StorageKey)
    ensures Told(Run([]), key)
  {
  }

  /** The message of this key was published. */
  predicate IsPublication(e: Event, key: StorageKey) {
    IsEnd(e, key) && e.ending.Published?
  }

  /** A lease is refused exactly when the key was published or was leased less than thirty seconds ago and not ended since. */
  lemma LeaseIsRefusedExactly(actions: seq<Action>, key: StorageKey, now: Time)
    requires key in Run(actions).records
    ensures var last, answer := LastOf(Run(actions).log, key), Reserved(Run(actions).records, key, now).1;
            answer == Ok(None) <==> last.Some? && (IsPublication(last.value, key) || (last.value.Leased? && now < last.value.at + 30))
    ensures Reserved(Run(actions).records, key, now).1.Ok?
  {
    RecordsTell(actions, key);
    hide Run;
  }

  /** An end is accepted exactly from the holder of the latest lease, once. */
  lemma EndIsAcceptedExactly(actions: seq<Action>, key: StorageKey, expected: int, ending: Ending, now: Time)
    requires key in Run(actions).records
    ensures var last, answer := LastOf(Run(actions).log, key), Finished(Run(actions).records, key, expected, ending, now).1;
            answer.Ok? <==> last.Some? && last.value.Leased? && last.value.version == expected
  {
    RecordsTell(actions, key);
    hide Run;
  }

  predicate Brings(a: Action, key: StorageKey) {
    a.Accept? && (a.event.tenantId, KeyOf(a.event)) == key
  }

  /** The delivery that first brought the key's event. */
  function FirstOf(actions: seq<Action>, key: StorageKey): (first: Option<Action>)
    ensures first.Some? ==> Brings(first.value, key) && first.value in actions
    ensures first.None? ==> forall a <- actions :: !Brings(a, key)
  {
    if actions == [] then None
    else
      var earlier := FirstOf(actions[..|actions| - 1], key);
      if earlier.Some? || !Brings(actions[|actions| - 1], key) then earlier else Some(actions[|actions| - 1])
  }

  /** There is a record exactly when the event came, and it is of the first delivery: its event, change and time. */
  lemma {:induction false} FirstDeliveryIsKept(actions: seq<Action>, key: StorageKey)
    ensures key in Run(actions).records <==> FirstOf(actions, key).Some?
    ensures key in Run(actions).records ==>
              var r, first := Run(actions).records[key], FirstOf(actions, key).value;
              && r.inputHash == first.event && r.key == KeyOf(first.event) && r.tenantId == first.event.tenantId
              && r.changeId == first.changeId && r.createdAt == first.now
  {
    if actions != [] { FirstDeliveryIsKept(actions[..|actions| - 1], key); }
  }

  /** A delivery is answered with the stored record exactly when the same event came first, and refused when another did. */
  lemma DeliveriesAreAnswered(actions: seq<Action>, e: ChangeEvent, changeId: string, now: Time)
    ensures var first, (m, answer) := FirstOf(actions, (e.tenantId, KeyOf(e))), Accepted(Run(actions).records, e, changeId, now);
            && (first.None? ==> answer.Ok? && !answer.value.replayed
                                && m == Run(actions).records[(e.tenantId, KeyOf(e)) := answer.value.record])
            && (first.Some? && first.value.event == e ==>
                  answer.Ok? && answer.value.replayed && m == Run(actions).records
                  && (e.tenantId, KeyOf(e)) in m && answer.value.record == m[(e.tenantId, KeyOf(e))])
            && (first.Some? && first.value.event != e ==> answer == Err(EventConflict) && m == Run(actions).records)
  {
    FirstDeliveryIsKept(actions, (e.tenantId, KeyOf(e)));
    hide Run;
  }
}
