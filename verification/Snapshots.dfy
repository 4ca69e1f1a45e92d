/** A sandbox snapshot outlives whatever its store does next, and restoring it brings the configuration back. */
module Snapshots {
  import opened Common
  import opened Sandbox

  datatype StoreOp =
    | Apply(tenant: string, request: FieldPatchRequest)
    | TakeSnapshot(tenant: string, id: nat)
    | Restore(tenant: string, id: nat)
    | InjectFailures(tenant: string, count: nat)
    | Reset(tenant: string)

  function Performed(b: Box, op: StoreOp): Box {
    match op
    case Apply(tenant, q) => Applied(b, tenant, q).0
    case TakeSnapshot(tenant, id) => Snapshotted(b, tenant, id)
    case Restore(tenant, id) => Restored(b, tenant, id).0
    case InjectFailures(tenant, count) => b.(transientFailures := b.transientFailures[tenant := count])
    case Reset(tenant) => WasReset(b, tenant)
  }

  function After(b: Box, ops: seq<StoreOp>): Box {
    if ops == [] then b else Performed(After(b, ops[..|ops| - 1]), ops[|ops| - 1])
  }

  /** Neither takes that snapshot anew nor resets its tenant. */
  predicate Spares(op: StoreOp, tenant: string, id: nat) {
    !(op.TakeSnapshot? && op.tenant == tenant && op.id == id) && !(op.Reset? && op.tenant == tenant)
  }

  lemma {:induction false} SnapshotsStay(b: Box, ops: seq<StoreOp>, tenant: string, id: nat)
    requires (tenant, id) in b.snapshots && forall op <- ops :: Spares(op, tenant, id)
    ensures (tenant, id) in After(b, ops).snapshots && After(b, ops).snapshots[(tenant, id)] == b.snapshots[(tenant, id)]
  {
    if ops != [] {
      var last := ops[|ops| - 1];
      SnapshotsStay(b, ops[..|ops| - 1], tenant, id);
      assert Spares(last, tenant, id);
    }
  }

  /** A tenant cannot restore what was taken for another, and what is refused changes nothing. */
  lemma OthersSnapshotsAreRefused(b: Box, tenant: string, other: string, id: nat)
    requires tenant != other && (tenant, id) !in b.snapshots
    ensures Restored(Snapshotted(b, other, id), tenant, id) == (Snapshotted(b, other, id), Err(TenantScope))
    ensures id !in b.snapshotTenants ==> Restored(b, tenant, id) == (b, Err(SnapshotNotFound(id)))
  {
  }

  /** Whatever happens after a snapshot, restoring it brings the tenant's configuration back and touches nobody else's. */
  lemma RestoreBringsBack(b: Box, ops: seq<StoreOp>, tenant: string, id: nat)
    requires forall op <- ops :: Spares(op, tenant, id)
    ensures var c := After(Snapshotted(b, tenant, id), ops);
            var (c', r) := Restored(c, tenant, id);
            && Current(c', tenant) == Current(b, tenant) && r == Ok(RestoreResult(Current(b, tenant).systemId, id, Sha256(Current(b, tenant))))
            && (forall other | other != tenant :: Current(c', other) == Current(c, other))
            && c'.executions == c.executions && c'.snapshots == c.snapshots
  {
    hide After;
    SnapshotsStay(Snapshotted(b, tenant, id), ops, tenant, id);
  }
}
