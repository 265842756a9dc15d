/** The run-ahead bound of the dissemination barrier is reached: two nodes that chain two
    barriers, where the slower node polls an epoch that has already moved on. */
module RunAheadWitness {
  import Arithmetic
  import opened Plans
  import opened BarrierSystem
  import opened BarrierTheorems
  import opened Embedding
  import opened Barriers
  import Dissemination

  ghost function TwoBarriers(): seq<seq<nat>> {
    [[0, 1], [0, 1]]
  }

  /** Each of the two nodes notifies the other and waits for it. */
  ghost predicate PairSystem(sys: System) {
    && sys.n == 2 && |sys.instances| == 2
    && forall k :: 0 <= k < 2 ==>
         sys.instances[k] == Instance([0, 1], [[Notify([1]), Wait(1)], [Notify([0]), Wait(0)]])
  }

  lemma TwoPositions(i: nat)
    requires i < 2
    ensures Dissemination.Plan(i, 2) == [Notify([1 - i]), Wait(1 - i)]
  {
    assert Dissemination.DistancesFrom(1, 2) == [1];
    assert Arithmetic.Pow2(0) == 1;
    Dissemination.Shape(i, 2, 0);
  }

  lemma TwoNodePlan(i: nat)
    requires i < 2
    ensures ValidGroup([0, 1], 2) && 2 * |[0, 1]| <= Dissemination.USIZE_MAX
    ensures |InstanceOf(Algorithm.Dissemination, 2, [0, 1]).plans| == 2
    ensures InstanceOf(Algorithm.Dissemination, 2, [0, 1]).plans[i] == [Notify([1 - i]), Wait(1 - i)]
  {
    var group: seq<nat> := [0, 1];
    assert ValidGroup(group, 2);
    PositionsAreEmbeddable(Algorithm.Dissemination, 2, group);
    IndexIsUnique(group, 2, i);
    assert group[i] == i;
    TwoPositions(i);
    var plan: seq<Op> := [Notify([1 - i]), Wait(1 - i)];
    assert MapPeers(group, [1 - i]) == [1 - i];
    assert MapPlan(group, plan) == plan;
  }

  lemma IsPairSystem()
    ensures ValidGroups(2, TwoBarriers())
    ensures PairSystem(Network(Algorithm.Dissemination, 2, TwoBarriers()))
  {
    TwoNodePlan(0);
    TwoNodePlan(1);
  }

  /** Node `i`, by its progress and its three counters for the other node. */
  function Side(i: nat, call: nat, pc: nat, phase: Phase, pending: set<nat>, out: nat, expected: nat, incoming: nat): NodeState {
    if i == 0 then NodeState(call, pc, phase, pending, [0, out], [0, expected], [0, incoming])
    else NodeState(call, pc, phase, pending, [out, 0], [expected, 0], [incoming, 0])
  }

  function Node0(t: nat): NodeState {
    if t == 0 then Side(0, 0, 0, Idle, {}, 0, 0, 0)
    else if t == 1 then Side(0, 0, 0, Ready, {}, 0, 0, 0)
    else if t == 2 then Side(0, 0, 0, Busy, {1}, 1, 0, 0)
    else if t == 3 then Side(0, 0, 0, Busy, {}, 1, 0, 0)
    else if t <= 6 then Side(0, 0, 1, Ready, {}, 1, 0, 0)
    else if t == 7 then Side(0, 0, 1, Ready, {}, 1, 0, 1)
    else if t == 8 then Side(0, 0, 1, Busy, {}, 1, 1, 1)
    else if t == 9 then Side(0, 0, 2, Ready, {}, 1, 1, 1)
    else if t <= 12 then Side(0, 1, 0, Idle, {}, 1, 1, 1)
    else if t == 13 then Side(0, 1, 0, Ready, {}, 1, 1, 1)
    else if t == 14 then Side(0, 1, 0, Busy, {1}, 2, 1, 1)
    else Side(0, 1, 0, Busy, {}, 2, 1, 1)
  }

  function Node1(t: nat): NodeState {
    if t <= 2 then Side(1, 0, 0, Idle, {}, 0, 0, 0)
    else if t <= 4 then Side(1, 0, 0, Idle, {}, 0, 0, 1)
    else if t == 5 then Side(1, 0, 0, Ready, {}, 0, 0, 1)
    else if t == 6 then Side(1, 0, 0, Busy, {0}, 1, 0, 1)
    else if t <= 10 then Side(1, 0, 0, Busy, {}, 1, 0, 1)
    else if t == 11 then Side(1, 0, 1, Ready, {}, 1, 0, 1)
    else if t <= 14 then Side(1, 0, 1, Busy, {}, 1, 1, 1)
    else Side(1, 0, 1, Busy, {}, 1, 1, 2)
  }

  function Acts(): seq<Action> {
    [Enter(0), Begin(0), Land(0, 1), EndNotify(0),
     Enter(1), Begin(1), Land(1, 0),
     Begin(0), Pass(0), Return(0),
     EndNotify(1), Begin(1),
     Enter(0), Begin(0), Land(0, 1)]
  }

  function At(t: nat): State {
    [Node0(t), Node1(t)]
  }

  lemma ShapeAt(sys: System, t: nat)
    requires PairSystem(sys) && t <= 15
    ensures Shape(sys, At(t))
  {
    assert Notify([1]).peers[0] == 1 && Notify([0]).peers[0] == 0;
  }

  lemma Facts(o: nat)
    ensures Bump([0, o], [1]) == [0, o + 1] && Bump([o, 0], [0]) == [o + 1, 0]
    ensures Targets(Notify([1])) == {1} && Targets(Notify([0])) == {0}
  {
    assert [1][0] == 1 && [0][0] == 0;
  }

  /** Two network states are equal when their nodes agree field by field. */
  lemma SameState(x: State, y: State)
    requires |x| == |y| == 2
    requires forall i :: 0 <= i < 2 ==> SameNode(x[i], y[i])
    ensures x == y
  {
    assert x[0] == y[0] && x[1] == y[1];
  }

  predicate SameNode(a: NodeState, b: NodeState) {
    && a.call == b.call && a.pc == b.pc && a.phase == b.phase && a.pending == b.pending
    && a.out == b.out && a.expected == b.expected && a.incoming == b.incoming
  }

  lemma EarlyStep(sys: System, t: nat)
    requires PairSystem(sys) && GoodSystem(sys) && t < 5
    ensures Next(sys, At(t), Acts()[t], At(t + 1))
  {
    ShapeAt(sys, t);
    Facts(0);
    SameState(Apply(sys, At(t), Acts()[t]), At(t + 1));
  }

  lemma ThirdStep(sys: System, t: nat)
    requires PairSystem(sys) && GoodSystem(sys) && 8 <= t < 10
    ensures Next(sys, At(t), Acts()[t], At(t + 1))
  {
    ShapeAt(sys, t);
    Facts(0);
    SameState(Apply(sys, At(t), Acts()[t]), At(t + 1));
  }

  lemma MiddleStep(sys: System, t: nat)
    requires PairSystem(sys) && GoodSystem(sys) && 5 <= t < 8
    ensures Next(sys, At(t), Acts()[t], At(t + 1))
  {
    ShapeAt(sys, t);
    Facts(0);
    SameState(Apply(sys, At(t), Acts()[t]), At(t + 1));
  }

  lemma LateStep(sys: System, t: nat)
    requires PairSystem(sys) && GoodSystem(sys) && 10 <= t < 15
    ensures Next(sys, At(t), Acts()[t], At(t + 1))
  {
    ShapeAt(sys, t);
    Facts(0);
    Facts(1);
    SameState(Apply(sys, At(t), Acts()[t]), At(t + 1));
  }

  lemma StepAt(sys: System, t: nat)
    requires PairSystem(sys) && GoodSystem(sys) && t < 15
    ensures Next(sys, At(t), Acts()[t], At(t + 1))
  {
    if t < 5 {
      EarlyStep(sys, t);
    } else if t < 8 {
      MiddleStep(sys, t);
    } else if t < 10 {
      ThirdStep(sys, t);
    } else {
      LateStep(sys, t);
    }
  }

  /** A reachable state in which the polled slot is one ahead of the expected epoch. */
  lemma RunAheadIsReached() returns (run: seq<State>)
    ensures NetworkRun(Algorithm.Dissemination, 2, TwoBarriers(), run, Acts())
    ensures var sys := Network(Algorithm.Dissemination, 2, TwoBarriers());
            && Shape(sys, run[15]) && Polling(sys, 1, run[15][1], 0)
            && run[15][1].incoming[0] == run[15][1].expected[0] + 1
  {
    IsPairSystem();
    var sys := Network(Algorithm.Dissemination, 2, TwoBarriers());
    NetworkIsGood(Algorithm.Dissemination, 2, TwoBarriers());
    run := seq(16, t requires 0 <= t => At(t));
    assert Zeros(2) == [0, 0];
    assert At(0) == Init(sys);
    forall t | 0 <= t < 15
      ensures Next(sys, run[t], Acts()[t], run[t + 1])
    {
      StepAt(sys, t);
    }
    ShapeAt(sys, 15);
  }
}
