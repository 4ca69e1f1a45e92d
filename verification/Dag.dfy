/** The dependency graph of an accepted plan: readiness, dependency chains, and the wave each step belongs to. */
module Dag {
  import opened Plans

  /** What the validator guarantees about one step, seen through `by_id`. */
  lemma DependencyFacts(steps: seq<Step>, id: string)
    requires WellFormed(steps) && id in Ids(steps)
    ensures 1 <= ById(steps, id).order <= |steps| && ById(steps, id).stepId == id
    ensures forall d <- ById(steps, id).dependsOn :: d in Ids(steps) && ById(steps, d).order < ById(steps, id).order
  {
    var s :| s in steps && s.stepId == id;
    var i :| 0 <= i < |steps| && steps[i] == s;
    ByIdFinds(steps, i);
    forall d | d in steps[i].dependsOn ensures d in Ids(steps) && ById(steps, d).order < steps[i].order {
      assert EarlierDependency(steps, i, d);
      DependencyResolves(steps, i, d);
    }
  }

  lemma OrderIsInjective(steps: seq<Step>, a: string, b: string)
    requires WellFormed(steps) && a in Ids(steps) && b in Ids(steps)
    ensures a != b ==> ById(steps, a).order != ById(steps, b).order
  {
    var s, t :| s in steps && s.stepId == a && t in steps && t.stepId == b;
    var i, j :| 0 <= i < |steps| && steps[i] == s && 0 <= j < |steps| && steps[j] == t;
    ByIdFinds(steps, i);
    ByIdFinds(steps, j);
  }

  predicate DependenciesIn(steps: seq<Step>, id: string, done: set<string>)
    requires id in Ids(steps)
  {
    forall d <- ById(steps, id).dependsOn :: d in done
  }

  /** The pending steps whose dependencies have all succeeded. */
  function Ready(steps: seq<Step>, pending: set<string>, done: set<string>): set<string>
    requires pending <= Ids(steps)
  {
    set id <- pending | DependenciesIn(steps, id, done)
  }

  predicate DependencyClosed(steps: seq<Step>, done: set<string>) {
    done <= Ids(steps) && forall id <- done :: DependenciesIn(steps, id, done)
  }

  /** A well-formed graph never blocks: the pending step of least order is ready. */
  lemma {:induction false} SomethingIsReady(steps: seq<Step>, pending: set<string>, done: set<string>, id: string)
    requires WellFormed(steps) && id in pending && pending + done == Ids(steps)
    ensures Ready(steps, pending, done) != {}
    decreases ById(steps, id).order
  {
    DependencyFacts(steps, id);
    if DependenciesIn(steps, id, done) {
      assert id in Ready(steps, pending, done);
    } else {
      var d :| d in ById(steps, id).dependsOn && d !in done;
      DependencyFacts(steps, d);
      SomethingIsReady(steps, pending, done, d);
    }
  }

  // ---------------------------------------------------------------- chains and depth

  /** Each step of the chain is a direct dependency of the next. */
  predicate IsChain(steps: seq<Step>, chain: seq<string>) {
    && chain != [] && (forall id <- chain :: id in Ids(steps))
    && forall k | 0 < k < |chain| :: chain[k - 1] in ById(steps, chain[k]).dependsOn
  }

  /** One more than the greatest depth among the step's dependencies. */
  ghost function Depth(steps: seq<Step>, id: string): nat
    requires WellFormed(steps) && id in Ids(steps)
    decreases ById(steps, id).order, |ById(steps, id).dependsOn| + 1
  {
    DependencyFacts(steps, id);
    1 + Deepest(steps, ById(steps, id).dependsOn, ById(steps, id).order)
  }

  ghost function Deepest(steps: seq<Step>, ids: seq<string>, bound: nat): nat
    requires WellFormed(steps)
    requires forall d <- ids :: d in Ids(steps) && ById(steps, d).order < bound
    decreases bound, |ids|
  {
    if ids == [] then 0
    else
      DependencyFacts(steps, ids[0]);
      var first, others := Depth(steps, ids[0]), Deepest(steps, ids[1..], bound);
      if first > others then first else others
  }

  lemma {:induction false} DeepestIsMaximum(steps: seq<Step>, ids: seq<string>, bound: nat)
    requires WellFormed(steps)
    requires forall d <- ids :: d in Ids(steps) && ById(steps, d).order < bound
    ensures forall d <- ids :: Depth(steps, d) <= Deepest(steps, ids, bound)
    ensures ids != [] ==> exists d <- ids :: Depth(steps, d) == Deepest(steps, ids, bound)
  {
    if ids != [] {
      DeepestIsMaximum(steps, ids[1..], bound);
      assert ids == [ids[0]] + ids[1..];
    }
  }

  /** Depth is the length of the longest chain that ends at the step: no chain is longer ... */
  lemma {:induction false} ChainsAreBounded(steps: seq<Step>, chain: seq<string>)
    requires WellFormed(steps) && IsChain(steps, chain)
    ensures |chain| <= Depth(steps, chain[|chain| - 1])
  {
    var n := |chain|;
    if n > 1 {
      var init, step := chain[..n - 1], ById(steps, chain[n - 1]);
      ChainsAreBounded(steps, init);
      DependencyFacts(steps, chain[n - 1]);
      DeepestIsMaximum(steps, step.dependsOn, step.order);
      assert init[n - 2] in step.dependsOn;
    }
  }

  /** ... and one is as long. */
  lemma {:induction false} DeepestChain(steps: seq<Step>, id: string) returns (chain: seq<string>)
    requires WellFormed(steps) && id in Ids(steps)
    ensures IsChain(steps, chain) && chain[|chain| - 1] == id && |chain| == Depth(steps, id)
    decreases ById(steps, id).order
  {
    var step := ById(steps, id);
    DependencyFacts(steps, id);
    if step.dependsOn == [] {
      chain := [id];
    } else {
      DeepestIsMaximum(steps, step.dependsOn, step.order);
      var d :| d in step.dependsOn && Depth(steps, d) == Deepest(steps, step.dependsOn, step.order);
      var shorter := DeepestChain(steps, d);
      chain := shorter + [id];
    }
  }

  // ---------------------------------------------------------------- waves

  /** The steps of depth at most `k`: what `k` rounds without failure have completed. */
  ghost function UpToDepth(steps: seq<Step>, k: nat): set<string>
    requires WellFormed(steps)
  {
    set id <- Ids(steps) | Depth(steps, id) <= k
  }

  /** After `k` rounds the ready steps are exactly those of depth `k + 1`. */
  lemma WaveIsDepth(steps: seq<Step>, k: nat)
    requires WellFormed(steps)
    ensures Ready(steps, Ids(steps) - UpToDepth(steps, k), UpToDepth(steps, k))
            == set id <- Ids(steps) | Depth(steps, id) == k + 1
    ensures UpToDepth(steps, 0) == {}
  {
    forall id | id in Ids(steps)
      ensures DependenciesIn(steps, id, UpToDepth(steps, k)) <==> Depth(steps, id) <= k + 1
    {
      var step := ById(steps, id);
      DependencyFacts(steps, id);
      DeepestIsMaximum(steps, step.dependsOn, step.order);
    }
  }

  /** The number of rounds is the length of the plan's longest chain. */
  ghost predicate LongestChain(steps: seq<Step>, n: nat)
  {
    && (forall chain | IsChain(steps, chain) :: |chain| <= n)
    && (n > 0 ==> exists chain :: IsChain(steps, chain) && |chain| == n)
  }

  lemma LastDepthIsLongestChain(steps: seq<Step>, n: nat)
    requires WellFormed(steps) && UpToDepth(steps, n) == Ids(steps)
    requires n > 0 ==> UpToDepth(steps, n - 1) != Ids(steps)
    ensures LongestChain(steps, n)
  {
    forall chain | IsChain(steps, chain) ensures |chain| <= n {
      ChainsAreBounded(steps, chain);
      assert chain[|chain| - 1] in chain;
    }
    if n > 0 {
      var id :| id in Ids(steps) && id !in UpToDepth(steps, n - 1);
      assert id in UpToDepth(steps, n);
      var chain := DeepestChain(steps, id);
    }
  }
}
