/** Remediation plans: the step graph validator, and what an accepted graph looks like. */
module Plans {
  import opened Common

  datatype Risk = UNKNOWN_RISK | LOW | MEDIUM | HIGH | CRITICAL

  datatype Step = Step(
    stepId: string, order: int, agentId: string, toolName: string, resource: string,
    arguments: map<string, string>, dependsOn: seq<string>, risk: Risk,
    requiresApproval: bool, idempotencyKey: string)

  /** The descriptive fields (summary, verification and rollback prose, evidence) are one opaque text. */
  datatype Plan = Plan(planId: string, tenantId: string, changeId: string, version: nat,
                       risk: Risk, steps: seq<Step>, narrative: string)

  /** SHA-256 of a canonical document, taken to be injective: two digests are equal when the documents are. */
  datatype PlanDigest = Sha256(document: Plan)

  function CalculatePlanHash(p: Plan): PlanDigest {
    Sha256(p)
  }

  datatype GraphError = DuplicateStepId | DuplicateOrder | OrderNotContiguous | UnknownDependency | DependencyNotEarlier

  function Ids(steps: seq<Step>): set<string> {
    set s <- steps :: s.stepId
  }

  function Orders(steps: seq<Step>): set<int> {
    set s <- steps :: s.order
  }

  /** `by_id[id]`: the dictionary keeps the last step with that identifier. */
  function ById(steps: seq<Step>, id: string): Step
    requires id in Ids(steps)
  {
    if steps[|steps| - 1].stepId == id then steps[|steps| - 1] else ById(steps[..|steps| - 1], id)
  }

  /** The set `{1, ..., n}`. */
  function UpTo(n: nat): (r: set<int>)
    ensures |r| == n && forall k :: k in r <==> 1 <= k <= n
  {
    if n == 0 then {} else UpTo(n - 1) + {n}
  }

  function ValidateStepGraph(steps: seq<Step>): Result<(), GraphError> {
    if |Ids(steps)| != |steps| then Err(DuplicateStepId)
    else if |Orders(steps)| != |steps| then Err(DuplicateOrder)
    else if Orders(steps) != UpTo(|steps|) then Err(OrderNotContiguous)
    else if exists s <- steps, d <- s.dependsOn :: d !in Ids(steps) then Err(UnknownDependency)
    else if exists s <- steps, d <- s.dependsOn :: ById(steps, d).order >= s.order then Err(DependencyNotEarlier)
    else Ok(())
  }

  /** Some step earlier in the order than step `i` is called `d`. */
  ghost predicate EarlierDependency(steps: seq<Step>, i: nat, d: string)
    requires i < |steps|
  {
    exists j :: 0 <= j < |steps| && steps[j].stepId == d && steps[j].order < steps[i].order
  }

  /** Identifiers are distinct, orders number the steps from 1, and every dependency is an earlier step. */
  ghost predicate WellFormed(steps: seq<Step>) {
    && (forall i, j | 0 <= i < j < |steps| :: steps[i].stepId != steps[j].stepId)
    && (forall i, j | 0 <= i < j < |steps| :: steps[i].order != steps[j].order)
    && (forall i | 0 <= i < |steps| :: 1 <= steps[i].order <= |steps|)
    && (forall i, d | 0 <= i < |steps| && d in steps[i].dependsOn ::
          EarlierDependency(steps, i, d))
  }

  lemma {:induction false} DistinctIffAllCounted<T, U>(s: seq<T>, f: T -> U, image: set<U>)
    requires image == set x <- s :: f(x)
    ensures |image| <= |s|
    ensures |image| == |s| <==> forall i, j | 0 <= i < j < |s| :: f(s[i]) != f(s[j])
  {
    if s != [] {
      var init, last := s[..|s| - 1], s[|s| - 1];
      var rest := set x <- init :: f(x);
      DistinctIffAllCounted(init, f, rest);
      ImageOfLast(s, f, image, rest);
      if f(last) in rest {
        assert image == rest;
        var x :| x in init && f(x) == f(last);
        var i :| 0 <= i < |init| && init[i] == x;
        assert f(s[i]) == f(s[|s| - 1]);
      } else {
        assert |image| == |rest| + 1;
        forall i | 0 <= i < |init| ensures f(s[i]) != f(last) {
          assert init[i] in init;
        }
      }
    }
  }

  lemma ImageOfLast<T, U>(s: seq<T>, f: T -> U, image: set<U>, rest: set<U>)
    requires s != [] && image == (set x <- s :: f(x)) && rest == set x <- s[..|s| - 1] :: f(x)
    ensures image == rest + {f(s[|s| - 1])}
  {
    assert forall x :: x in s <==> x in s[..|s| - 1] || x == s[|s| - 1];
  }

  lemma {:induction false} ByIdFinds(steps: seq<Step>, i: nat)
    requires i < |steps| && forall i, j | 0 <= i < j < |steps| :: steps[i].stepId != steps[j].stepId
    ensures ById(steps, steps[i].stepId) == steps[i]
  {
    if i < |steps| - 1 {
      var init := steps[..|steps| - 1];
      assert init[i] == steps[i];
      ByIdFinds(init, i);
    }
  }

  lemma SubsetOfSameSize<T>(a: set<T>, b: set<T>)
    requires a <= b && |a| == |b|
    ensures a == b
  {
    assert b == a + (b - a);
  }

  lemma OrdersAreNumbering(steps: seq<Step>)
    requires forall i, j | 0 <= i < j < |steps| :: steps[i].order != steps[j].order
    ensures Orders(steps) == UpTo(|steps|) <==> forall i | 0 <= i < |steps| :: 1 <= steps[i].order <= |steps|
  {
    DistinctIffAllCounted(steps, (s: Step) => s.order, Orders(steps));
    if forall i | 0 <= i < |steps| :: 1 <= steps[i].order <= |steps| {
      assert Orders(steps) <= UpTo(|steps|);
      SubsetOfSameSize(Orders(steps), UpTo(|steps|));
    } else {
      var i :| 0 <= i < |steps| && !(1 <= steps[i].order <= |steps|);
      assert steps[i] in steps && steps[i].order in Orders(steps);
    }
  }

  lemma DependencyResolves(steps: seq<Step>, i: nat, d: string)
    requires i < |steps|
    requires forall i, j | 0 <= i < j < |steps| :: steps[i].stepId != steps[j].stepId
    ensures d in Ids(steps) && ById(steps, d).order < steps[i].order <==> EarlierDependency(steps, i, d)
  {
    if d in Ids(steps) {
      var s :| s in steps && s.stepId == d;
      var j :| 0 <= j < |steps| && steps[j] == s;
      ByIdFinds(steps, j);
    }
  }

  /** The validator accepts exactly the well-formed graphs. */
  lemma ValidatorIsExact(steps: seq<Step>)
    ensures ValidateStepGraph(steps).Ok? <==> WellFormed(steps)
  {
    hide ById, UpTo;
    DistinctIffAllCounted(steps, (s: Step) => s.stepId, Ids(steps));
    DistinctIffAllCounted(steps, (s: Step) => s.order, Orders(steps));
    if |Ids(steps)| == |steps| && |Orders(steps)| == |steps| {
      OrdersAreNumbering(steps);
      if ValidateStepGraph(steps).Ok? {
        forall i, d | 0 <= i < |steps| && d in steps[i].dependsOn ensures EarlierDependency(steps, i, d) {
          assert steps[i] in steps;
          DependencyResolves(steps, i, d);
        }
      }
      if WellFormed(steps) {
        forall s, d | s in steps && d in s.dependsOn ensures d in Ids(steps) && ById(steps, d).order < s.order {
          var i :| 0 <= i < |steps| && steps[i] == s;
          assert EarlierDependency(steps, i, d);
          DependencyResolves(steps, i, d);
        }
      }
    }
  }
}
