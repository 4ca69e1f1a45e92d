/**
 The sandbox configuration store: patch with an idempotency table, snapshot, restore and reset.
 Each operation is written twice: as a function on the store's value, which other modules reason
 about, and as the method that changes the dictionaries the way the service does.
 */
module Sandbox {
  import opened Common

  /** A system configuration: its one mutable field, its schema version if it has one, and all the rest. */
  datatype Configuration = Configuration(systemId: string, field: string, schemaVersion: Option<int>, rest: string)

  /** SHA-256 of a configuration document, taken to be injective. */
  datatype ConfigDigest = Sha256(document: Configuration)

  datatype Snapshot = Snapshot(snapshotId: nat, tenantId: string, configuration: Configuration, hash: ConfigDigest)

  datatype FieldPatchRequest = FieldPatchRequest(oldField: string, newField: string, idempotencyKey: string)

  datatype PatchResult = PatchResult(systemId: string, before: string, after: string, idempotencyKey: string,
                                     hash: ConfigDigest, replayed: bool)

  /** SHA-256 of a patch result document, taken to be injective. */
  datatype OutputDigest = OutputSha256(document: PatchResult)

  datatype RestoreResult = RestoreResult(systemId: string, snapshotId: nat, hash: ConfigDigest)

  datatype SandboxError =
    | Transient | PatchConflict(expected: string, actual: string) | TenantScope | SnapshotNotFound(snapshotId: nat)

  /** The value of one store. */
  datatype Box = Box(
    seed: Configuration,
    configurations: map<string, Configuration>,
    snapshots: map<(string, nat), Snapshot>,
    snapshotTenants: map<nat, string>,
    executions: map<(string, string), PatchResult>,
    transientFailures: map<string, nat>)

  /** The configuration a tenant observes: its own, or the seed before it has one. */
  function Current(b: Box, tenant: string): Configuration {
    if tenant in b.configurations then b.configurations[tenant] else b.seed
  }

  /** Reading materialises the seed. */
  function Touched(b: Box, tenant: string): Box {
    b.(configurations := b.configurations[tenant := Current(b, tenant)])
  }

  function Captured(b: Box, tenant: string, id: nat): Snapshot {
    Snapshot(id, tenant, Current(b, tenant), Sha256(Current(b, tenant)))
  }

  function Snapshotted(b: Box, tenant: string, id: nat): Box {
    Touched(b, tenant).(snapshots := b.snapshots[(tenant, id) := Captured(b, tenant, id)],
                        snapshotTenants := b.snapshotTenants[id := tenant])
  }

  function Patched(c: Configuration, newField: string): Configuration {
    c.(field := newField, schemaVersion := if c.schemaVersion.Some? then Some(c.schemaVersion.value + 1) else None)
  }

  function Failures(b: Box, tenant: string): nat {
    if tenant in b.transientFailures then b.transientFailures[tenant] else 0
  }

  function Applied(b: Box, tenant: string, q: FieldPatchRequest): (Box, Result<PatchResult, SandboxError>) {
    var key := (tenant, q.idempotencyKey);
    if key in b.executions then (b, Ok(b.executions[key].(replayed := true)))
    else if Failures(b, tenant) > 0 then
      (b.(transientFailures := b.transientFailures[tenant := Failures(b, tenant) - 1]), Err(Transient))
    else
      var current := Current(b, tenant);
      if current.field != q.oldField then (Touched(b, tenant), Err(PatchConflict(q.oldField, current.field)))
      else
        var updated := Patched(current, q.newField);
        var result := PatchResult(updated.systemId, current.field, q.newField, q.idempotencyKey, Sha256(updated), false);
        (b.(configurations := b.configurations[tenant := updated], executions := b.executions[key := result]), Ok(result))
  }

  function Restored(b: Box, tenant: string, id: nat): (Box, Result<RestoreResult, SandboxError>) {
    if (tenant, id) in b.snapshots then
      var s := b.snapshots[(tenant, id)];
      (b.(configurations := b.configurations[tenant := s.configuration]),
       Ok(RestoreResult(s.configuration.systemId, id, s.hash)))
    else if id in b.snapshotTenants then (b, Err(TenantScope))
    else (b, Err(SnapshotNotFound(id)))
  }

  /** The snapshots left when `gone` of a tenant have been popped. */
  function Popped(snapshots: map<(string, nat), Snapshot>, tenant: string, gone: set<nat>): map<(string, nat), Snapshot> {
    map key | key in snapshots && !(key.0 == tenant && key.1 in gone) :: snapshots[key]
  }

  lemma PopOne(snapshots: map<(string, nat), Snapshot>, tenant: string, gone: set<nat>, id: nat)
    ensures Popped(snapshots, tenant, {}) == snapshots
    ensures Popped(snapshots, tenant, gone) - {(tenant, id)} == Popped(snapshots, tenant, gone + {id})
  {
  }

  function SnapshotIds(snapshots: map<(string, nat), Snapshot>, tenant: string): set<nat> {
    set key <- snapshots | key.0 == tenant :: key.1
  }

  function WasReset(b: Box, tenant: string): Box {
    Box(b.seed, b.configurations[tenant := b.seed],
        Popped(b.snapshots, tenant, SnapshotIds(b.snapshots, tenant)),
        b.snapshotTenants - SnapshotIds(b.snapshots, tenant),
        map key | key in b.executions && key.0 != tenant :: b.executions[key],
        b.transientFailures - {tenant})
  }

  // ---------------------------------------------------------------- what an answer means

  /** `after` is `before` with the field rewritten, one schema version on where there is one, and nothing else changed. */
  predicate Rewritten(before: Configuration, after: Configuration, newField: string) {
    && after.field == newField && after.systemId == before.systemId && after.rest == before.rest
    && (after.schemaVersion.Some? <==> before.schemaVersion.Some?)
    && (before.schemaVersion.Some? ==> after.schemaVersion.value == before.schemaVersion.value + 1)
  }

  /** A first answer means the field was the expected one and is now the new one; any other answer changes no configuration. */
  lemma AnswersMeanPatched(b: Box, tenant: string, q: FieldPatchRequest)
    ensures var (b', r) := Applied(b, tenant, q);
            var before, after := Current(b, tenant), Current(b', tenant);
            && (r.Ok? && !r.value.replayed ==>
                  && before.field == q.oldField && Rewritten(before, after, q.newField)
                  && r.value.systemId == after.systemId && r.value.before == q.oldField && r.value.after == q.newField
                  && r.value.hash == Sha256(after) && r.value.idempotencyKey == q.idempotencyKey)
            && (r.Err? || r.value.replayed ==> after == before)
            && forall other | other != tenant :: Current(b', other) == Current(b, other)
  {
  }

  /** When the store refuses: a recorded key never, an injected failure first, and then exactly another old field. */
  lemma RefusalsAreExact(b: Box, tenant: string, q: FieldPatchRequest)
    ensures var r := Applied(b, tenant, q).1;
            var known, failing := (tenant, q.idempotencyKey) in b.executions, tenant in b.transientFailures && b.transientFailures[tenant] > 0;
            var conflict := PatchConflict(q.oldField, Current(b, tenant).field);
            && (r == Err(Transient) <==> !known && failing)
            && (r == Err(conflict) <==> !known && !failing && Current(b, tenant).field != q.oldField)
            && (r.Err? ==> r.error in {Transient, conflict})
  {
  }

  /** A first answer is remembered: the same key is answered with it again, as a replay and without effect, whatever it now asks. */
  lemma AnswersAreRemembered(b: Box, tenant: string, q: FieldPatchRequest, again: FieldPatchRequest)
    requires Applied(b, tenant, q).1.Ok? && again.idempotencyKey == q.idempotencyKey
    ensures var (b', r) := Applied(b, tenant, q);
            Applied(b', tenant, again) == (b', Ok(r.value.(replayed := true)))
  {
  }

  /** After a reset the tenant is back at the seed, may use its old keys and snapshots no more; other tenants notice nothing. */
  lemma ResetForgets(b: Box, tenant: string, other: string, q: FieldPatchRequest, id: nat)
    ensures var b' := WasReset(b, tenant);
            && Current(b', tenant) == b.seed
            && (Applied(b', tenant, q).1.Ok? <==> q.oldField == b.seed.field)
            && (Applied(b', tenant, q).1.Ok? ==> !Applied(b', tenant, q).1.value.replayed)
            && Restored(b', tenant, id).1.Err?
    ensures other != tenant ==>
              && Current(WasReset(b, tenant), other) == Current(b, other)
              && Applied(WasReset(b, tenant), other, q).1 == Applied(b, other, q).1
              && ((other, id) in b.snapshots ==> Restored(WasReset(b, tenant), other, id).1 == Restored(b, other, id).1)
  {
  }

  class ConfigurationStore {
    const seed: Configuration
    var configurations: map<string, Configuration>
    var snapshots: map<(string, nat), Snapshot>
    var snapshotTenants: map<nat, string>
    var executions: map<(string, string), PatchResult>
    var transientFailures: map<string, nat>

    ghost function View(): Box
      reads this
    {
      Box(seed, configurations, snapshots, snapshotTenants, executions, transientFailures)
    }

    constructor (seed: Configuration)
      ensures View() == Box(seed, map[], map[], map[], map[], map[])
    {
      this.seed := seed;
      configurations, snapshots, snapshotTenants := map[], map[], map[];
      executions, transientFailures := map[], map[];
    }

    method GetUnlocked(tenantId: string) returns (c: Configuration)
      modifies this`configurations
      ensures c == Current(old(View()), tenantId) && View() == Touched(old(View()), tenantId)
    {
      if tenantId !in configurations {
        configurations := configurations[tenantId := seed];
      }
      c := configurations[tenantId];
    }

    /** `id` stands for the fresh uuid of the new snapshot. */
    method TakeSnapshot(tenantId: string, id: nat) returns (s: Snapshot)
      modifies this
      ensures s == Captured(old(View()), tenantId, id) && View() == Snapshotted(old(View()), tenantId, id)
    {
      var configuration := GetUnlocked(tenantId);
      s := Snapshot(id, tenantId, configuration, Sha256(configuration));
      snapshots := snapshots[(tenantId, id) := s];
      snapshotTenants := snapshotTenants[id := tenantId];
    }

    method Apply(tenantId: string, request: FieldPatchRequest) returns (r: Result<PatchResult, SandboxError>)
      modifies this
      ensures (View(), r) == Applied(old(View()), tenantId, request)
    {
      var key := (tenantId, request.idempotencyKey);
      if key in executions {
        return Ok(executions[key].(replayed := true));
      }
      var remaining := if tenantId in transientFailures then transientFailures[tenantId] else 0;
      if remaining != 0 {
        transientFailures := transientFailures[tenantId := remaining - 1];
        return Err(Transient);
      }
      var configuration := GetUnlocked(tenantId);
      if configuration.field != request.oldField {
        return Err(PatchConflict(request.oldField, configuration.field));
      }
      var updated := configuration.(field := request.newField);
      if updated.schemaVersion.Some? {
        updated := updated.(schemaVersion := Some(updated.schemaVersion.value + 1));
      }
      configurations := configurations[tenantId := updated];
      assert configurations == old(configurations)[tenantId := updated];
      var result := PatchResult(updated.systemId, configuration.field, request.newField,
                                request.idempotencyKey, Sha256(updated), false);
      executions := executions[key := result];
      r := Ok(result);
    }

    method Restore(tenantId: string, snapshotId: nat) returns (r: Result<RestoreResult, SandboxError>)
      modifies this`configurations
      ensures (View(), r) == Restored(old(View()), tenantId, snapshotId)
    {
      if (tenantId, snapshotId) !in snapshots {
        if snapshotId in snapshotTenants { return Err(TenantScope); }
        return Err(SnapshotNotFound(snapshotId));
      }
      var s := snapshots[(tenantId, snapshotId)];
      configurations := configurations[tenantId := s.configuration];
      r := Ok(RestoreResult(s.configuration.systemId, snapshotId, s.hash));
    }

    method InjectTransientFailures(tenantId: string, count: nat)
      modifies this`transientFailures
      ensures View() == old(View()).(transientFailures := old(transientFailures)[tenantId := count])
    {
      transientFailures := transientFailures[tenantId := count];
    }

    method Reset(tenantId: string)
      modifies this
      ensures View() == WasReset(old(View()), tenantId)
    {
      configurations := configurations[tenantId := seed];
      transientFailures := transientFailures - {tenantId};
      executions := map key | key in executions && key.0 != tenantId :: executions[key];
      PopSnapshots(tenantId, SnapshotIds(snapshots, tenantId));
    }

    method PopSnapshots(tenantId: string, ids: set<nat>)
      modifies this`snapshots, this`snapshotTenants
      ensures snapshots == Popped(old(snapshots), tenantId, ids)
      ensures snapshotTenants == old(snapshotTenants) - ids
    {
      hide Popped;
      var todo := ids;
      PopOne(snapshots, tenantId, {}, 0);
      assert ids - todo == {};
      while todo != {}
        modifies this`snapshots, this`snapshotTenants
        invariant todo <= ids
        invariant snapshots == Popped(old(snapshots), tenantId, ids - todo)
        invariant snapshotTenants == old(snapshotTenants) - (ids - todo)
        decreases |todo|
      {
        var id :| id in todo;
        PopOne(old(snapshots), tenantId, ids - todo, id);
        assert ids - todo + {id} == ids - (todo - {id});
        snapshots := snapshots - {(tenantId, id)};
        snapshotTenants := snapshotTenants - {id};
        todo := todo - {id};
      }
      assert ids - todo == ids;
    }
  }
}
