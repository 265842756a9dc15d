/** Every run of the network is finite, and a run without failures that cannot be
    continued has finished every call of every node. */
module BarrierTermination {
  import opened Arithmetic
  import opened Plans
  import opened BarrierSystem
  import opened BarrierInvariant
  import opened BarrierPreservation
  import opened BarrierTheorems

  ghost function OpWork(op: Op): nat {
    2 + |Targets(op)|
  }

  /** Steps left in a plan from operation `p` on. */
  ghost function PlanWork(plan: seq<Op>, p: nat): nat
    requires p <= |plan|
    decreases |plan| - p
  {
    if p == |plan| then 0 else OpWork(plan[p]) + PlanWork(plan, p + 1)
  }

  /** Steps one instance costs node `i`: one to skip it, or entering, its plan, returning. */
  ghost function InstanceWork(inst: Instance, i: nat): nat
    requires i < |inst.plans|
  {
    if i in inst.group then 2 + PlanWork(inst.plans[i], 0) else 1
  }

  /** Steps node `i` has left from instance `k` on. */
  ghost function WorkFrom(sys: System, i: nat, k: nat): nat
    requires GoodSystem(sys) && i < sys.n && k <= |sys.instances|
    decreases |sys.instances| - k
  {
    if k == |sys.instances| then 0 else InstanceWork(sys.instances[k], i) + WorkFrom(sys, i, k + 1)
  }

  ghost function NodeWork(sys: System, i: nat, nd: NodeState): nat
    requires GoodSystem(sys) && i < sys.n && NodeShape(sys, i, nd)
  {
    if nd.phase.Idle? then WorkFrom(sys, i, nd.call)
    else
      WorkFrom(sys, i, nd.call + 1) + 1 + PlanWork(CurrentPlan(sys, i, nd), nd.Front()) +
      |nd.pending| + if nd.phase.Busy? then 1 else 0
  }

  ghost function Works(sys: System, s: State): (r: seq<nat>)
    requires GoodSystem(sys) && Shape(sys, s)
    ensures |r| == sys.n
  {
    seq(sys.n, i requires 0 <= i < sys.n => NodeWork(sys, i, s[i]))
  }

  /** Steps the first `c` nodes have left. */
  ghost function Work(sys: System, s: State, c: nat): nat
    requires GoodSystem(sys) && Shape(sys, s) && c <= sys.n
  {
    Sum(Works(sys, s), c)
  }

  predicate Failing(a: Action) {
    a.Fail? || a.FailPost?
  }

  lemma StartWork(sys: System, nd: NodeState, i: nat, posted: set<nat>, phase: Phase)
    requires GoodSystem(sys) && i < sys.n && NodeShape(sys, i, nd) && nd.phase.Ready? && (phase.Busy? || phase.Failed?)
    requires nd.pc < |CurrentPlan(sys, i, nd)| && posted <= Targets(CurrentPlan(sys, i, nd)[nd.pc])
    requires NodeShape(sys, i, Start(nd, CurrentPlan(sys, i, nd)[nd.pc], posted, phase))
    ensures
      var op := CurrentPlan(sys, i, nd)[nd.pc];
      var pending := if op.Notify? then |posted| else 0;
      NodeWork(sys, i, Start(nd, op, posted, phase)) + OpWork(op) ==
      NodeWork(sys, i, nd) + pending + if phase.Busy? then 1 else 0
  {
    var plan := CurrentPlan(sys, i, nd);
    assert PlanWork(plan, nd.pc) == OpWork(plan[nd.pc]) + PlanWork(plan, nd.pc + 1);
  }

  /** Each step takes work off the node that makes it; a step that is not a failure takes off
      exactly one unit. */
  lemma LocalWork(sys: System, nd: NodeState, a: Action)
    requires GoodSystem(sys) && a.i < sys.n && NodeShape(sys, a.i, nd) && LocallyEnabled(sys, nd, a)
    requires NodeShape(sys, a.i, Local(sys, nd, a))
    ensures NodeWork(sys, a.i, Local(sys, nd, a)) < NodeWork(sys, a.i, nd)
    ensures !Failing(a) ==> NodeWork(sys, a.i, Local(sys, nd, a)) == NodeWork(sys, a.i, nd) - 1
  {
    if a.Begin? {
      StartWork(sys, nd, a.i, Targets(CurrentPlan(sys, a.i, nd)[nd.pc]), Busy);
    } else if a.FailPost? {
      StartWork(sys, nd, a.i, a.posted, Failed);
      ProperSubsetSize(a.posted, Targets(CurrentPlan(sys, a.i, nd)[nd.pc]));
    } else {
      QuietWork(sys, nd, a);
    }
  }

  lemma QuietWork(sys: System, nd: NodeState, a: Action)
    requires GoodSystem(sys) && a.i < sys.n && NodeShape(sys, a.i, nd) && LocallyEnabled(sys, nd, a)
    requires !a.Begin? && !a.FailPost? && NodeShape(sys, a.i, Local(sys, nd, a))
    ensures NodeWork(sys, a.i, Local(sys, nd, a)) == NodeWork(sys, a.i, nd) - 1
  {
  }

  /** The slots written by a landing do not count as work. */
  lemma NodeWorkAfter(sys: System, s: State, a: Action, i: nat)
    requires GoodSystem(sys) && Shape(sys, s) && Enabled(sys, s, a) && Shape(sys, Apply(sys, s, a)) && i < sys.n
    ensures NodeShape(sys, a.i, Local(sys, s[a.i], a))
    ensures NodeWork(sys, i, Apply(sys, s, a)[i])
         == if i == a.i then NodeWork(sys, i, Local(sys, s[i], a)) else NodeWork(sys, i, s[i])
  {
    var t := Apply(sys, s, a);
    assert NodeShape(sys, a.i, t[a.i]);
    var nd := if i == a.i then Local(sys, s[i], a) else s[i];
    assert t[i] == nd.(incoming := t[i].incoming);
  }

  lemma WorkFalls(sys: System, s: State, a: Action, c: nat)
    requires GoodSystem(sys) && Shape(sys, s) && Enabled(sys, s, a) && Shape(sys, Apply(sys, s, a)) && c <= sys.n
    ensures c <= a.i ==> Work(sys, Apply(sys, s, a), c) == Work(sys, s, c)
    ensures c > a.i ==> Work(sys, Apply(sys, s, a), c) < Work(sys, s, c)
    ensures c > a.i && !Failing(a) ==> Work(sys, Apply(sys, s, a), c) == Work(sys, s, c) - 1
  {
    var t := Apply(sys, s, a);
    forall x: nat | x < sys.n
      ensures NodeWork(sys, x, t[x]) == if x == a.i then Works(sys, t)[x] else NodeWork(sys, x, s[x])
    {
      NodeWorkAfter(sys, s, a, x);
    }
    assert Works(sys, t) == Works(sys, s)[a.i := Works(sys, t)[a.i]];
    SumOfUpdate(Works(sys, s), a.i, Works(sys, t)[a.i], c);
    NodeWorkAfter(sys, s, a, a.i);
    LocalWork(sys, s[a.i], a);
  }

  ghost predicate FailureFree(acts: seq<Action>) {
    forall t :: 0 <= t < |acts| ==> !Failing(acts[t])
  }

  lemma WorkOfStep(sys: System, run: seq<State>, acts: seq<Action>, t: nat)
    requires GoodSystem(sys) && Run(sys, run, acts) && t < |acts| && Shape(sys, run[t])
    ensures Shape(sys, run[t + 1]) && Work(sys, run[t + 1], sys.n) < Work(sys, run[t], sys.n)
    ensures !Failing(acts[t]) ==> Work(sys, run[t + 1], sys.n) == Work(sys, run[t], sys.n) - 1
  {
    assert Next(sys, run[t], acts[t], run[t + 1]);
    ShapeKept(sys, run[t], acts[t]);
    WorkFalls(sys, run[t], acts[t], sys.n);
  }

  /** Work left plus steps taken never exceeds the initial work, and without failures it
      is exactly conserved. */
  lemma {:induction false} WorkIsConserved(sys: System, run: seq<State>, acts: seq<Action>, t: nat)
    requires GoodSystem(sys) && Run(sys, run, acts) && t < |run|
    ensures Shape(sys, run[t]) && Shape(sys, Init(sys))
    ensures Work(sys, run[t], sys.n) + t <= Work(sys, Init(sys), sys.n)
    ensures FailureFree(acts) ==> Work(sys, run[t], sys.n) + t == Work(sys, Init(sys), sys.n)
  {
    InitShape(sys);
    if t > 0 {
      WorkIsConserved(sys, run, acts, t - 1);
      WorkOfStep(sys, run, acts, t - 1);
    }
  }

  /** No run, with or without failures, is longer than the initial work. */
  lemma RunsAreBounded(sys: System, run: seq<State>, acts: seq<Action>)
    requires GoodSystem(sys) && Run(sys, run, acts)
    ensures Shape(sys, Init(sys)) && |acts| <= Work(sys, Init(sys), sys.n)
  {
    WorkIsConserved(sys, run, acts, |acts|);
  }

  lemma {:induction false} NoFailureInRun(sys: System, run: seq<State>, acts: seq<Action>, t: nat)
    requires GoodSystem(sys) && Run(sys, run, acts) && FailureFree(acts) && t < |run|
    ensures NoFailure(run[t])
  {
    if t > 0 {
      NoFailureInRun(sys, run, acts, t - 1);
      assert Next(sys, run[t - 1], acts[t - 1], run[t]);
      assert !Failing(acts[t - 1]);
    }
  }

  /** Nothing but a failure can happen any more. */
  ghost predicate Stuck(sys: System, s: State)
    requires GoodSystem(sys) && Shape(sys, s)
  {
    forall a: Action :: Enabled(sys, s, a) ==> Failing(a)
  }

  /** The groups' calls always finish: a failure-free run that cannot be continued has
      returned every node from every one of its calls. */
  lemma EveryCallFinishes(sys: System, run: seq<State>, acts: seq<Action>, i: nat)
    requires GoodSystem(sys) && AllHaveClocks(sys) && Run(sys, run, acts) && FailureFree(acts)
    requires Shape(sys, run[|acts|]) && Stuck(sys, run[|acts|]) && i < sys.n
    ensures run[|acts|][i].phase.Idle? && run[|acts|][i].call == |sys.instances|
  {
    RunKeepsInv(sys, run, acts, |acts|);
    NoFailureInRun(sys, run, acts, |acts|);
    var s := run[|acts|];
    assert NodeShape(sys, i, s[i]);
    if s[i].call < |sys.instances| {
      var a := SomeStepEnabled(sys, s, i);
    }
  }
}
