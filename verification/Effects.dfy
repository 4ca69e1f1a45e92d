/** What a sandbox has been through, told by its own table: one patch per newly recorded key, and nothing else. */
module Effects {
  import opened Common
  import opened Plans
  import opened Sandbox
  import opened Workflows
  import opened Executor

  /** The configuration after the recorded patches, in order. */
  function Folded(c: Configuration, results: seq<PatchResult>): Configuration {
    if results == [] then c else Patched(Folded(c, results[..|results| - 1]), results[|results| - 1].after)
  }

  /** The last recorded patch is the one in place, and every patch counted. */
  lemma {:induction false} FoldedHoldsLast(c: Configuration, results: seq<PatchResult>)
    ensures var f := Folded(c, results);
            && (results != [] ==> f.field == results[|results| - 1].after)
            && f.systemId == c.systemId && f.rest == c.rest && (f.schemaVersion.Some? <==> c.schemaVersion.Some?)
            && (c.schemaVersion.Some? ==> f.schemaVersion.value == c.schemaVersion.value + |results|)
  {
    if results != [] { FoldedHoldsLast(c, results[..|results| - 1]); }
  }

  predicate DistinctKeys(results: seq<PatchResult>) {
    forall i, j | 0 <= i < j < |results| :: results[i].idempotencyKey != results[j].idempotencyKey
  }

  function KeysOf(results: seq<PatchResult>): set<string> {
    set r <- results :: r.idempotencyKey
  }

  predicate KeepsResults(a: Box, b: Box) {
    forall key <- a.executions :: key in b.executions && b.executions[key] == a.executions[key]
  }

  /** From `a` to `b` the tenant's table gained exactly these results, and its configuration exactly their patches. */
  ghost predicate Effected(a: Box, b: Box, tenant: string, results: seq<PatchResult>) {
    && KeepsResults(a, b) && DistinctKeys(results)
    && (forall k :: (tenant, k) in b.executions <==> (tenant, k) in a.executions || k in KeysOf(results))
    && (forall r <- results :: (tenant, r.idempotencyKey) !in a.executions && (tenant, r.idempotencyKey) in b.executions
                               && b.executions[(tenant, r.idempotencyKey)] == r)
    && Current(b, tenant) == Folded(Current(a, tenant), results)
  }

  /** ... for some results whose keys are among `keys`. */
  ghost predicate Grew(a: Box, b: Box, tenant: string, keys: set<string>) {
    exists results :: Effected(a, b, tenant, results) && KeysOf(results) <= keys
  }

  lemma NothingEffected(a: Box, b: Box, tenant: string, keys: set<string>)
    requires b.executions == a.executions && Current(b, tenant) == Current(a, tenant)
    ensures Grew(a, b, tenant, keys)
  {
    assert Effected(a, b, tenant, []);
    assert KeysOf([]) <= keys;
  }

  lemma {:induction false} FoldedOn(c: Configuration, first: seq<PatchResult>, then_: seq<PatchResult>)
    ensures Folded(c, first + then_) == Folded(Folded(c, first), then_)
  {
    if then_ == [] {
      assert first + then_ == first;
    } else {
      FoldedOn(c, first, then_[..|then_| - 1]);
      assert (first + then_)[..|first + then_| - 1] == first + then_[..|then_| - 1];
    }
  }

  lemma KeysOfBoth(p: seq<PatchResult>, q: seq<PatchResult>)
    ensures KeysOf(p + q) == KeysOf(p) + KeysOf(q)
  {
    forall r | r in p ensures r.idempotencyKey in KeysOf(p + q) {
      assert r in p + q;
    }
    forall r | r in q ensures r.idempotencyKey in KeysOf(p + q) {
      assert r in p + q;
    }
  }

  lemma EffectedOn(a: Box, b: Box, c: Box, tenant: string, p: seq<PatchResult>, q: seq<PatchResult>)
    requires Effected(a, b, tenant, p) && Effected(b, c, tenant, q)
    ensures Effected(a, c, tenant, p + q)
  {
    hide Folded, Current;
    FoldedOn(Current(a, tenant), p, q);
    KeysOfBoth(p, q);
    var all := p + q;
    forall i, j | 0 <= i < j < |all| ensures all[i].idempotencyKey != all[j].idempotencyKey {
      if i < |p| && j >= |p| {
        assert p[i] in p && q[j - |p|] in q;
      }
    }
    forall r | r in all
      ensures (tenant, r.idempotencyKey) !in a.executions && (tenant, r.idempotencyKey) in c.executions
      ensures c.executions[(tenant, r.idempotencyKey)] == r
    {
      if r in p { assert (tenant, r.idempotencyKey) in b.executions; }
    }
  }

  lemma GrewOn(a: Box, b: Box, c: Box, tenant: string, keys: set<string>)
    requires Grew(a, b, tenant, keys) && Grew(b, c, tenant, keys)
    ensures Grew(a, c, tenant, keys)
  {
    hide Effected;
    var p :| Effected(a, b, tenant, p) && KeysOf(p) <= keys;
    var q :| Effected(b, c, tenant, q) && KeysOf(q) <= keys;
    EffectedOn(a, b, c, tenant, p, q);
    KeysOfBoth(p, q);
  }

  /** One call of a sandbox patches at most once, under its own key. */
  lemma AppliedGrows(b: Box, tenant: string, q: FieldPatchRequest)
    ensures Grew(b, Applied(b, tenant, q).0, tenant, {q.idempotencyKey})
  {
    var (b', result) := Applied(b, tenant, q);
    if result.Ok? && !result.value.replayed {
      OnePatch(b, tenant, q);
      assert KeysOf([result.value]) <= {q.idempotencyKey};
    } else {
      NothingEffected(b, b', tenant, {q.idempotencyKey});
    }
  }

  lemma OnePatch(b: Box, tenant: string, q: FieldPatchRequest)
    requires Applied(b, tenant, q).1.Ok? && !Applied(b, tenant, q).1.value.replayed
    ensures Effected(b, Applied(b, tenant, q).0, tenant, [Applied(b, tenant, q).1.value])
  {
    var (b', result) := Applied(b, tenant, q);
    var key, r := (tenant, q.idempotencyKey), result.value;
    assert [r][..0] == [];
    assert KeysOf([r]) == {q.idempotencyKey} by { assert r in [r]; }
    assert b'.executions == b.executions[key := r];
  }

  // ---------------------------------------------------------------- a step's effect

  /** The step's patch is recorded in its system, and the task holds the digest of that result, replayed or not. */
  predicate Took(boxes: map<string, Box>, tenant: string, step: Step, t: Task) {
    var system, q := SystemForTool(step.toolName), PatchOf(step.arguments, step.idempotencyKey);
    && system.Some? && q.Some? && system.value in boxes && (tenant, step.idempotencyKey) in boxes[system.value].executions
    && var r := boxes[system.value].executions[(tenant, step.idempotencyKey)];
       && Answers(q.value, r)
       && t.outputHash in {Some(OutputSha256(r)), Some(OutputSha256(r.(replayed := true)))}
  }

  /** The step is carried out on that system. */
  predicate On(step: Step, system: string) {
    SystemForTool(step.toolName) == Some(system)
  }

  function KeysOn(steps: seq<Step>, system: string): set<string> {
    set step <- steps | On(step, system) :: step.idempotencyKey
  }

  predicate Unrecorded(b: Box, tenant: string, step: Step) {
    (tenant, step.idempotencyKey) !in b.executions
  }

  /** The field in place is the one some step on this system asks for. */
  ghost predicate HoldsAStepsField(b: Box, tenant: string, steps: seq<Step>, system: string) {
    exists step <- steps :: On(step, system) && "new_field" in step.arguments && Current(b, tenant).field == step.arguments["new_field"]
  }

  /**
   Once every step on a system is recorded there, the system has the field of one of those steps, and of the
   only one if there is one, unless nothing was left to record and so nothing changed.
   */
  lemma RecordedStepsHold(a: Box, b: Box, tenant: string, steps: seq<Step>, system: string, boxes: map<string, Box>, tasks: seq<Task>)
    requires Grew(a, b, tenant, KeysOn(steps, system)) && system in boxes && boxes[system] == b
    requires |tasks| == |steps| && forall i | 0 <= i < |steps| :: Took(boxes, tenant, steps[i], tasks[i])
    ensures if exists step <- steps :: On(step, system) && Unrecorded(a, tenant, step)
            then HoldsAStepsField(b, tenant, steps, system)
            else Current(b, tenant) == Current(a, tenant)
  {
    var results :| Effected(a, b, tenant, results) && KeysOf(results) <= KeysOn(steps, system);
    FoldedHoldsLast(Current(a, tenant), results);
    if results == [] {
      NothingUnrecorded(a, b, tenant, steps, system, boxes, tasks, results);
    } else {
      var last := results[|results| - 1];
      assert last in results && last.idempotencyKey in KeysOf(results);
      var step :| step in steps && On(step, system) && step.idempotencyKey == last.idempotencyKey;
      var i :| 0 <= i < |steps| && steps[i] == step;
      assert Took(boxes, tenant, steps[i], tasks[i]);
      TookMeans(boxes, tenant, step, tasks[i], system);
      assert Unrecorded(a, tenant, step);
    }
  }

  lemma TookMeans(boxes: map<string, Box>, tenant: string, step: Step, t: Task, system: string)
    requires Took(boxes, tenant, step, t) && On(step, system)
    ensures system in boxes && (tenant, step.idempotencyKey) in boxes[system].executions && "new_field" in step.arguments
    ensures boxes[system].executions[(tenant, step.idempotencyKey)].after == step.arguments["new_field"]
  {
  }

  lemma NothingUnrecorded(a: Box, b: Box, tenant: string, steps: seq<Step>, system: string, boxes: map<string, Box>, tasks: seq<Task>,
                          results: seq<PatchResult>)
    requires Effected(a, b, tenant, results) && results == [] && system in boxes && boxes[system] == b
    requires |tasks| == |steps| && forall i | 0 <= i < |steps| :: Took(boxes, tenant, steps[i], tasks[i])
    ensures forall step <- steps :: On(step, system) ==> !Unrecorded(a, tenant, step)
  {
    forall step | step in steps && On(step, system) ensures !Unrecorded(a, tenant, step) {
      var i :| 0 <= i < |steps| && steps[i] == step;
      TookMeans(boxes, tenant, step, tasks[i], system);
      assert step.idempotencyKey !in KeysOf([]);
    }
  }

  lemma TookStays(a: map<string, Box>, b: map<string, Box>, tenant: string, step: Step, t: Task)
    requires Took(a, tenant, step, t) && a.Keys <= b.Keys && forall system <- a :: KeepsResults(a[system], b[system])
    ensures Took(b, tenant, step, t)
  {
    hide PatchOf, SystemForTool, Answers;
  }
}
