/** The agent fleet's plan draft: one independent step per proposal, named and keyed by its agent. */
module Drafts {
  import opened Common
  import opened Plans
  import opened Dag

  datatype Proposal = Proposal(agentId: string, tool: string, resource: string, arguments: map<string, string>, risk: Risk)

  function Decimal(n: nat): (r: string)
    ensures r != [] && forall c <- r :: '0' <= c <= '9'
  {
    var last := [('0' as int + n % 10) as char];
    if n < 10 then last else Decimal(n / 10) + last
  }

  function StepName(index: nat, agent: string): string {
    "step-" + Decimal(index) + "-" + agent
  }

  function KeyFor(change: string, agent: string, oldField: string): string {
    change + ":" + agent + ":" + oldField
  }

  function StepFor(change: string, oldField: string, index: nat, p: Proposal): Step {
    Step(StepName(index, p.agentId), index, p.agentId, p.tool, p.resource, p.arguments, [], p.risk, true,
         KeyFor(change, p.agentId, oldField))
  }

  /** `_build_plan`: the proposals' steps, numbered from 1. `planId` is the identifier derived from the change. */
  function BuildPlan(tenant: string, change: string, oldField: string, planId: string, proposals: seq<Proposal>, narrative: string): Plan {
    Plan(planId, tenant, change, 1, HIGH,
         seq(|proposals|, i requires 0 <= i < |proposals| => StepFor(change, oldField, i + 1, proposals[i])), narrative)
  }

  lemma {:induction false} DecimalIsInjective(m: nat, n: nat)
    requires Decimal(m) == Decimal(n)
    ensures m == n
  {
    var a, b := Decimal(m), Decimal(n);
    assert a[|a| - 1] == ('0' as int + m % 10) as char && b[|b| - 1] == ('0' as int + n % 10) as char;
    assert m % 10 == n % 10;
    if m >= 10 && n >= 10 {
      assert Decimal(m / 10) == a[..|a| - 1] == b[..|b| - 1] == Decimal(n / 10);
      DecimalIsInjective(m / 10, n / 10);
    }
  }

  /** A separator that the part before it does not contain ends that part. */
  lemma SplitOnce(x: string, a: string, y: string, b: string, sep: char)
    requires x + [sep] + a == y + [sep] + b && sep !in x && sep !in y
    ensures x == y && a == b
  {
    var s := x + [sep] + a;
    assert s[|x|] == sep && s[|y|] == sep;
    assert x == s[..|x|] && y == s[..|y|];
    assert (forall k | 0 <= k < |x| :: s[k] != sep) && forall k | 0 <= k < |y| :: s[k] != sep;
    assert a == s[|x| + 1..] && b == s[|y| + 1..];
  }

  lemma StepNamesDiffer(i: nat, a: string, j: nat, b: string)
    requires StepName(i, a) == StepName(j, b)
    ensures i == j && a == b
  {
    assert StepName(i, a) == "step-" + (Decimal(i) + "-" + a);
    assert StepName(j, b) == "step-" + (Decimal(j) + "-" + b);
    assert Decimal(i) + ['-'] + a == StepName(i, a)[5..] == StepName(j, b)[5..] == Decimal(j) + ['-'] + b;
    SplitOnce(Decimal(i), a, Decimal(j), b, '-');
    DecimalIsInjective(i, j);
  }

  /** Whatever the agents propose, even twice or under one name, the validator accepts the plan drafted from it. */
  lemma DraftsAreAccepted(tenant: string, change: string, oldField: string, planId: string, proposals: seq<Proposal>, narrative: string)
    ensures var steps := BuildPlan(tenant, change, oldField, planId, proposals, narrative).steps;
            WellFormed(steps) && ValidateStepGraph(steps).Ok?
  {
    var steps := BuildPlan(tenant, change, oldField, planId, proposals, narrative).steps;
    forall i, j | 0 <= i < j < |steps| ensures steps[i].stepId != steps[j].stepId {
      if steps[i].stepId == steps[j].stepId { StepNamesDiffer(i + 1, proposals[i].agentId, j + 1, proposals[j].agentId); }
    }
    ValidatorIsExact(steps);
  }

  /** Each step carries its proposal unchanged, in order, and asks for approval whatever the proposal says. */
  lemma DraftsCarryTheProposals(tenant: string, change: string, oldField: string, planId: string, proposals: seq<Proposal>,
                                narrative: string, i: nat)
    requires i < |proposals|
    ensures var plan := BuildPlan(tenant, change, oldField, planId, proposals, narrative);
            && plan.tenantId == tenant && plan.changeId == change && plan.planId == planId && plan.version == 1 && plan.risk == HIGH
            && |plan.steps| == |proposals|
            && var step, p := plan.steps[i], proposals[i];
               && step.agentId == p.agentId && step.toolName == p.tool && step.resource == p.resource
               && step.arguments == p.arguments && step.risk == p.risk && step.requiresApproval
               && step.order == i + 1 && step.dependsOn == []
  {
  }

  /** All its steps are ready at once: a draft runs in a single wave. */
  lemma DraftsRunInOneWave(tenant: string, change: string, oldField: string, planId: string, proposals: seq<Proposal>, narrative: string)
    ensures var steps := BuildPlan(tenant, change, oldField, planId, proposals, narrative).steps;
            && Ready(steps, Ids(steps), {}) == Ids(steps)
            && LongestChain(steps, if proposals == [] then 0 else 1)
  {
    var steps := BuildPlan(tenant, change, oldField, planId, proposals, narrative).steps;
    DraftsAreAccepted(tenant, change, oldField, planId, proposals, narrative);
    hide WellFormed, ValidateStepGraph, LongestChain;
    forall id | id in Ids(steps) ensures ById(steps, id).dependsOn == [] && Depth(steps, id) == 1 {
      ByIdIsStep(steps, id);
    }
    WaveIsDepth(steps, 0);
    assert UpToDepth(steps, 1) == Ids(steps);
    if proposals == [] {
      assert Ids(steps) == {};
      LastDepthIsLongestChain(steps, 0);
    } else {
      assert steps[0].stepId in Ids(steps);
      LastDepthIsLongestChain(steps, 1);
    }
  }

  lemma {:induction false} ByIdIsStep(steps: seq<Step>, id: string)
    requires id in Ids(steps)
    ensures ById(steps, id) in steps
  {
    if steps[|steps| - 1].stepId != id { ByIdIsStep(steps[..|steps| - 1], id); }
  }

  /** Two proposals of one agent become two steps with one key; `ExactlyOnce.OneStepPerKey` grants at most one of them. */
  lemma TwinsShareAKey(tenant: string, change: string, oldField: string, planId: string, proposals: seq<Proposal>, narrative: string,
                       i: nat, j: nat)
    requires i < j < |proposals|
    ensures var steps := BuildPlan(tenant, change, oldField, planId, proposals, narrative).steps;
            && steps[i].stepId != steps[j].stepId
            && (steps[i].idempotencyKey == steps[j].idempotencyKey <==> proposals[i].agentId == proposals[j].agentId)
  {
    DraftsAreAccepted(tenant, change, oldField, planId, proposals, narrative);
    hide ValidateStepGraph;
    var a, b := proposals[i].agentId, proposals[j].agentId;
    if KeyFor(change, a, oldField) == KeyFor(change, b, oldField) {
      var k := KeyFor(change, a, oldField);
      assert |a| == |b|;
      assert a == k[|change| + 1..|change| + 1 + |a|] == b;
    }
  }

  /** Two drafted steps share an idempotency key exactly when they are one agent's, for one change and one field. */
  lemma KeysIdentify(change: string, agent: string, field: string, change': string, agent': string, field': string)
    requires ':' !in change && ':' !in change' && ':' !in agent && ':' !in agent'
    ensures KeyFor(change, agent, field) == KeyFor(change', agent', field') <==>
            change == change' && agent == agent' && field == field'
  {
    if KeyFor(change, agent, field) == KeyFor(change', agent', field') {
      assert KeyFor(change, agent, field) == change + [':'] + (agent + [':'] + field);
      assert KeyFor(change', agent', field') == change' + [':'] + (agent' + [':'] + field');
      SplitOnce(change, agent + [':'] + field, change', agent' + [':'] + field', ':');
      SplitOnce(agent, field, agent', field', ':');
    }
  }
}
