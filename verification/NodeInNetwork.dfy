/** The node object is a node of the network model: its calls carry out the node's plans, its
    memory holds the node's slots, it polls with the node's guard and writes what the network
    lands. */
module NodeInNetwork {
  import opened Plans
  import opened BarrierSystem
  import opened BarrierInvariant
  import opened BarrierPreservation
  import opened BarrierTheorems
  import opened BarrierMemory
  import opened Embedding
  import opened Barriers
  import opened WriteCounts
  import opened Wrappers
  import BarrierNode

  /** Everything rank `i` carries out in its calls for the first `k` instances. */
  ghost function FullTrace(sys: System, i: nat, k: nat): seq<Op>
    requires GoodSystem(sys) && i < sys.n && k <= |sys.instances|
  {
    if k == 0 then [] else FullTrace(sys, i, k - 1) + sys.instances[k - 1].plans[i]
  }

  lemma {:induction false} SendCountConcat(a: seq<Op>, b: seq<Op>, j: nat, c: nat)
    requires c <= |b|
    ensures SendCount(a + b, j, |a| + c) == SendCount(a, j, |a|) + SendCount(b, j, c)
  {
    if c == 0 {
      SendCountPrefix(a, b, j, |a|);
    } else {
      SendCountConcat(a, b, j, c - 1);
    }
  }

  lemma {:induction false} WaitCountConcat(a: seq<Op>, b: seq<Op>, j: nat, c: nat)
    requires c <= |b|
    ensures WaitCount(a + b, j, |a| + c) == WaitCount(a, j, |a|) + WaitCount(b, j, c)
  {
    if c == 0 {
      WaitCountPrefix(a, b, j, |a|);
    } else {
      WaitCountConcat(a, b, j, c - 1);
    }
  }

  lemma {:induction false} TraceCounts(sys: System, i: nat, k: nat, j: nat)
    requires GoodSystem(sys) && i < sys.n && k <= |sys.instances|
    ensures SendCount(FullTrace(sys, i, k), j, |FullTrace(sys, i, k)|) == Sent(sys, i, j, k)
    ensures WaitCount(FullTrace(sys, i, k), j, |FullTrace(sys, i, k)|) == Awaited(sys, i, j, k)
  {
    if k > 0 {
      TraceCounts(sys, i, k - 1, j);
      var plan := sys.instances[k - 1].plans[i];
      SendCountConcat(FullTrace(sys, i, k - 1), plan, j, |plan|);
      WaitCountConcat(FullTrace(sys, i, k - 1), plan, j, |plan|);
    }
  }

  /** What a node of the network has begun so far. */
  ghost function TraceOf(sys: System, i: nat, nd: NodeState): seq<Op>
    requires GoodSystem(sys) && i < sys.n && NodeShape(sys, i, nd)
  {
    FullTrace(sys, i, nd.call) + if nd.phase.Idle? then [] else CurrentPlan(sys, i, nd)[..nd.Front()]
  }

  /** The memory has begun the same operations as the node, and the same writes of the peers
      have arrived. */
  ghost predicate Mirrors(sys: System, i: nat, nd: NodeState, mr: BarrierMr)
    requires GoodSystem(sys) && i < sys.n && NodeShape(sys, i, nd)
    reads mr, mr.memory
  {
    && mr.Valid() && mr.memory.Length == sys.n
    && mr.trace == TraceOf(sys, i, nd)
    && forall j :: 0 <= j < sys.n ==> mr.arrivals(mr.now, j) == nd.incoming[j]
  }

  /** Then all three epochs of every slot agree. */
  lemma SameEpochs(sys: System, i: nat, nd: NodeState, mr: BarrierMr, j: nat)
    requires GoodSystem(sys) && i < sys.n && NodeShape(sys, i, nd) && NodeCounters(sys, i, nd)
    requires Mirrors(sys, i, nd, mr) && j < sys.n
    ensures mr.memory[j] == BarrierPeerFlags(nd.expected[j], nd.out[j], nd.incoming[j])
  {
    TraceCounts(sys, i, nd.call, j);
    assert nd.out[j] == Issued(sys, i, nd, j) && nd.expected[j] == Demanded(sys, i, nd, j);
    if nd.phase.Idle? {
      assert mr.trace == FullTrace(sys, i, nd.call);
    } else {
      var plan, c := CurrentPlan(sys, i, nd), nd.Front();
      var begun := plan[..c];
      assert begun + plan[c..] == plan;
      SendCountPrefix(begun, plan[c..], j, c);
      WaitCountPrefix(begun, plan[c..], j, c);
      SendCountConcat(FullTrace(sys, i, nd.call), begun, j, c);
      WaitCountConcat(FullTrace(sys, i, nd.call), begun, j, c);
    }
  }

  /** The poll of the memory succeeds exactly when the node may pass. */
  lemma PollIsPass(sys: System, i: nat, nd: NodeState, mr: BarrierMr, peer: nat)
    requires GoodSystem(sys) && i < sys.n && NodeShape(sys, i, nd) && NodeCounters(sys, i, nd)
    requires Mirrors(sys, i, nd, mr) && nd.phase.Busy? && CurrentPlan(sys, i, nd)[nd.pc] == Wait(peer)
    ensures peer < mr.memory.Length && (mr.IsPeerEpochExpected(peer) <==> LocallyEnabled(sys, nd, Pass(i)))
  {
    assert OpInWorld(CurrentPlan(sys, i, nd)[nd.pc], i, sys.n);
    SameEpochs(sys, i, nd, mr, peer);
  }

  /** The epoch that the memory writes to a peer is the one the network lands there. */
  lemma WritesWhatLands(sys: System, i: nat, nd: NodeState, peers: seq<nat>, x: nat)
    requires GoodSystem(sys) && i < sys.n && NodeShape(sys, i, nd) && NodeCounters(sys, i, nd)
    requires nd.phase.Busy? && CurrentPlan(sys, i, nd)[nd.pc] == Notify(peers) && x < |peers|
    ensures peers[x] < sys.n
    ensures
      var before := FullTrace(sys, i, nd.call) + CurrentPlan(sys, i, nd)[..nd.pc];
      OpLandings(before, Notify(peers))[x] == Landing(peers[x], nd.out[peers[x]])
  {
    var plan, pc, j := CurrentPlan(sys, i, nd), nd.pc, peers[x];
    assert OpInWorld(plan[pc], i, sys.n) && j in peers;
    TraceCounts(sys, i, nd.call, j);
    assert nd.out[j] == Issued(sys, i, nd, j);
    assert plan[..pc] + plan[pc..] == plan;
    SendCountPrefix(plan[..pc], plan[pc..], j, pc);
    SendCountConcat(FullTrace(sys, i, nd.call), plan[..pc], j, pc);
  }

  /** An Ok call takes the object from before instance `k` to after it: its contract appends
      the plan of its rank, which is what the network adds for this instance. */
  lemma CallIsInstance(alg: Algorithm, n: nat, groups: seq<seq<nat>>, i: nat, k: nat, trace: seq<Op>)
    requires ValidGroups(n, groups) && i < n && k < |groups| && i in groups[k]
    requires GoodSystem(Network(alg, n, groups))
    requires trace == FullTrace(Network(alg, n, groups), i, k)
    ensures BarrierNode.ValidPeers(groups[k], n)
    ensures trace + BarrierNode.RankPlan(alg, n, groups[k], i) == FullTrace(Network(alg, n, groups), i, k + 1)
    ensures |groups[k]| < 2 ==> BarrierNode.RankPlan(alg, n, groups[k], i) == []
  {
    var x := IndexOf(groups[k], i);
    BarrierNode.RankPlanAt(alg, n, groups[k], x);
    if |groups[k]| < 2 {
      assert PositionPlan(alg, x, |groups[k]|) == [];
    }
  }

  /** An instance without this node adds nothing. */
  lemma AbsenceIsNothing(alg: Algorithm, n: nat, groups: seq<seq<nat>>, i: nat, k: nat)
    requires ValidGroups(n, groups) && i < n && k < |groups| && i !in groups[k]
    requires GoodSystem(Network(alg, n, groups))
    ensures FullTrace(Network(alg, n, groups), i, k + 1) == FullTrace(Network(alg, n, groups), i, k)
  {
  }

  /** The node after it has begun its next operation and, with these epochs arrived and its own
      writes landed, ended it. */
  ghost function AfterOperation(sys: System, i: nat, nd: NodeState, incoming: seq<nat>): NodeState
    requires i < sys.n && NodeShape(sys, i, nd) && nd.phase.Ready? && nd.pc < |CurrentPlan(sys, i, nd)|
  {
    Local(sys, Waited(sys, i, nd, incoming), Ending(CurrentPlan(sys, i, nd)[nd.pc], i))
  }

  ghost function Waited(sys: System, i: nat, nd: NodeState, incoming: seq<nat>): NodeState
    requires i < sys.n && NodeShape(sys, i, nd) && nd.phase.Ready? && nd.pc < |CurrentPlan(sys, i, nd)|
  {
    Local(sys, nd, Begin(i)).(pending := {}, incoming := incoming)
  }

  function Ending(op: Op, i: nat): Action {
    if op.Wait? then Pass(i) else EndNotify(i)
  }

  /** An operation that the object has completed is one that the node can begin and, once its
      writes have landed and the same epochs have arrived, end; and the memory of the object
      is the memory of the node again. */
  lemma OperationIsSteps(sys: System, i: nat, nd: NodeState, mr: BarrierMr, incoming: seq<nat>)
    requires GoodSystem(sys) && i < sys.n && NodeShape(sys, i, nd) && NodeCounters(sys, i, nd)
    requires nd.phase.Ready? && nd.pc < |CurrentPlan(sys, i, nd)|
    requires mr.Valid() && mr.completed == |mr.trace| && mr.memory.Length == sys.n
    requires mr.trace == TraceOf(sys, i, nd) + [CurrentPlan(sys, i, nd)[nd.pc]]
    requires |incoming| == sys.n && forall j :: 0 <= j < sys.n ==> mr.arrivals(mr.now, j) == incoming[j]
    ensures LocallyEnabled(sys, nd, Begin(i)) && NodeShape(sys, i, Waited(sys, i, nd, incoming))
    ensures LocallyEnabled(sys, Waited(sys, i, nd, incoming), Ending(CurrentPlan(sys, i, nd)[nd.pc], i))
    ensures var after := AfterOperation(sys, i, nd, incoming);
            NodeShape(sys, i, after) && NodeCounters(sys, i, after) && Mirrors(sys, i, after, mr)
  {
    var plan, c := CurrentPlan(sys, i, nd), nd.pc;
    var waited, after := Waited(sys, i, nd, incoming), AfterOperation(sys, i, nd, incoming);
    assert OpInWorld(plan[c], i, sys.n);
    assert plan[..c + 1] == plan[..c] + [plan[c]];
    assert TraceOf(sys, i, after) == mr.trace && TraceOf(sys, i, waited) == mr.trace;
    BegunCounters(sys, i, nd, incoming);
    if plan[c].Wait? {
      SameEpochs(sys, i, waited, mr, plan[c].peer);
    }
  }

  lemma BegunCounters(sys: System, i: nat, nd: NodeState, incoming: seq<nat>)
    requires GoodSystem(sys) && i < sys.n && NodeShape(sys, i, nd) && NodeCounters(sys, i, nd)
    requires nd.phase.Ready? && nd.pc < |CurrentPlan(sys, i, nd)| && |incoming| == sys.n
    ensures NodeShape(sys, i, Waited(sys, i, nd, incoming)) && NodeCounters(sys, i, Waited(sys, i, nd, incoming))
    ensures NodeShape(sys, i, AfterOperation(sys, i, nd, incoming))
    ensures NodeCounters(sys, i, AfterOperation(sys, i, nd, incoming))
  {
    var plan, c := CurrentPlan(sys, i, nd), nd.pc;
    var waited := Waited(sys, i, nd, incoming);
    forall j | 0 <= j < sys.n
      ensures waited.out[j] == Issued(sys, i, waited, j) && waited.expected[j] == Demanded(sys, i, waited, j)
    {
      assert nd.out[j] == Issued(sys, i, nd, j) && nd.expected[j] == Demanded(sys, i, nd, j);
    }
  }

  lemma {:induction false} TraceGrows(sys: System, i: nat, k: nat, l: nat)
    requires GoodSystem(sys) && i < sys.n && k <= l <= |sys.instances|
    ensures |FullTrace(sys, i, k)| <= |FullTrace(sys, i, l)|
  {
    if k < l {
      TraceGrows(sys, i, k, l - 1);
    }
  }

  /** A node that has begun everything up to instance `k`, whose plan is not empty, is at the end
      of that plan, or further. */
  lemma AtTheEnd(sys: System, i: nat, nd: NodeState, k: nat)
    requires GoodSystem(sys) && i < sys.n && NodeShape(sys, i, nd) && k < |sys.instances|
    requires TraceOf(sys, i, nd) == FullTrace(sys, i, k + 1) && |sys.instances[k].plans[i]| > 0
    ensures nd.call >= k
    ensures nd.call == k ==> !nd.phase.Idle? && nd.Front() == |CurrentPlan(sys, i, nd)|
  {
    if nd.call < k {
      TraceGrows(sys, i, nd.call + 1, k);
    }
  }

  /** Everybody knows more than himself at the end of his plan, and so has one. */
  lemma PlanIsNotEmpty(inst: Instance, n: nat, i: nat, r: nat)
    requires WellFormed(inst, n) && Synchronizes(inst) && i < n
    requires i in inst.group && r in inst.group && i != r
    ensures |inst.plans[i]| > 0
  {
    var know: (nat, nat) -> set<nat> :| Knowledge(inst, know);
    assert r in know(i, |inst.plans[i]|) && know(i, 0) <= {i};
  }

  /** The node has ended its last operation, or could. */
  lemma EndedMeansAllEntered(sys: System, s: State, k: nat, i: nat, r: nat)
    requires GoodSystem(sys) && Inv(sys, s) && k < |sys.instances| && i < sys.n
    requires HasClock(sys.instances[k]) && Synchronizes(sys.instances[k])
    requires i in sys.instances[k].group && r in sys.instances[k].group
    requires s[i].call == k && s[i].phase.Ready? && s[i].pc == |CurrentPlan(sys, i, s[i])|
    ensures r < sys.n && Entered(s[r], k)
  {
    var time :| Clock(sys.instances[k], time);
    var know: (nat, nat) -> set<nat> :| Knowledge(sys.instances[k], know);
    KnownHaveEntered(sys, s, k, i, s[i].pc, r, time, know);
  }

  /** The last operation of the node is a notification, which teaches it nothing more. */
  lemma NotifyingMeansAllEntered(sys: System, s: State, k: nat, i: nat, r: nat)
    requires GoodSystem(sys) && Inv(sys, s) && k < |sys.instances| && i < sys.n
    requires HasClock(sys.instances[k]) && Synchronizes(sys.instances[k])
    requires i in sys.instances[k].group && r in sys.instances[k].group
    requires s[i].call == k && s[i].phase.Busy? && s[i].pc + 1 == |CurrentPlan(sys, i, s[i])|
    requires CurrentPlan(sys, i, s[i])[s[i].pc].Notify?
    ensures r < sys.n && Entered(s[r], k)
  {
    var time :| Clock(sys.instances[k], time);
    var know: (nat, nat) -> set<nat> :| Knowledge(sys.instances[k], know);
    assert know(i, s[i].pc + 1) <= know(i, s[i].pc);
    KnownHaveEntered(sys, s, k, i, s[i].pc, r, time, know);
  }

  /** From the object to the network: when the object has returned Ok from instance `k`, with
      its memory that of a node which has not failed, every other member of the group has
      entered the instance. */
  lemma OkMeansAllEntered(alg: Algorithm, n: nat, groups: seq<seq<nat>>, run: seq<State>, acts: seq<BarrierSystem.Action>,
                          t: nat, k: nat, i: nat, r: nat, mr: BarrierMr)
    requires NetworkRun(alg, n, groups, run, acts) && t < |run| && k < |groups|
    requires i in groups[k] && r in groups[k] && i != r && i < n
    requires mr.Valid() && mr.completed == |mr.trace| && mr.trace == FullTrace(Network(alg, n, groups), i, k + 1)
    requires |run[t]| == n && NodeShape(Network(alg, n, groups), i, run[t][i])
    requires Mirrors(Network(alg, n, groups), i, run[t][i], mr) && !run[t][i].phase.Failed?
    ensures r < n && Entered(run[t][r], k)
  {
    var sys, s := Network(alg, n, groups), run[t];
    var nd := s[i];
    NetworkIsGood(alg, n, groups);
    RunKeepsInv(sys, run, acts, t);
    PlanIsNotEmpty(sys.instances[k], n, i, r);
    AtTheEnd(sys, i, nd, k);
    if nd.call > k {
      ReturnedMeansAllEntered(sys, s, k, i, r);
    } else if nd.phase.Ready? {
      EndedMeansAllEntered(sys, s, k, i, r);
    } else if CurrentPlan(sys, i, nd)[nd.pc].Notify? {
      NotifyingMeansAllEntered(sys, s, k, i, r);
    } else {
      PassingMeansAllEntered(sys, s, k, i, r, mr);
    }
  }

  /** The last operation of the node is a wait, which it may pass as the object has. */
  lemma PassingMeansAllEntered(sys: System, s: State, k: nat, i: nat, r: nat, mr: BarrierMr)
    requires GoodSystem(sys) && Inv(sys, s) && k < |sys.instances| && i < sys.n && i != r
    requires HasClock(sys.instances[k]) && Synchronizes(sys.instances[k])
    requires i in sys.instances[k].group && r in sys.instances[k].group
    requires s[i].call == k && s[i].phase.Busy? && s[i].pc + 1 == |CurrentPlan(sys, i, s[i])|
    requires CurrentPlan(sys, i, s[i])[s[i].pc].Wait?
    requires mr.Valid() && mr.completed == |mr.trace| && Mirrors(sys, i, s[i], mr)
    ensures r < sys.n && Entered(s[r], k)
  {
    var peer := CurrentPlan(sys, i, s[i])[s[i].pc].peer;
    assert NodeCounters(sys, i, s[i]);
    PollIsPass(sys, i, s[i], mr, peer);
    var t := Apply(sys, s, Pass(i));
    InvKept(sys, s, Pass(i));
    EndedMeansAllEntered(sys, t, k, i, r);
  }

  /** A plan lands as many writes as it costs. */
  lemma {:induction false} LandingsAreWrites(before: seq<Op>, plan: seq<Op>)
    ensures |Landings(before, plan)| == PlanWrites(plan, |plan|)
  {
    if |plan| > 0 {
      var init := plan[..|plan| - 1];
      LandingsAreWrites(before, init);
      PlanWritesPrefix(init, [plan[|plan| - 1]], |init|);
      assert init + [plan[|plan| - 1]] == plan;
    }
  }

  lemma {:induction false} PlanWritesPrefix(a: seq<Op>, b: seq<Op>, p: nat)
    requires p <= |a|
    ensures PlanWrites(a + b, p) == PlanWrites(a, p)
  {
    if p > 0 {
      PlanWritesPrefix(a, b, p - 1);
    }
  }
}
