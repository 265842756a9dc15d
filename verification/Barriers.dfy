/** The three barriers of the library, for every world size, every sequence of groups and
    every interleaving. */
module Barriers {
  import opened Arithmetic
  import opened Plans
  import opened BarrierSystem
  import opened BarrierInvariant
  import opened BarrierPreservation
  import opened BarrierTheorems
  import opened BarrierTermination
  import opened BarrierRuns
  import opened Embedding
  import opened WriteCounts
  import AbstractBarrier
  import BarrierCosts
  import Linear
  import BinaryTree
  import Dissemination

  datatype Algorithm = Centralized | BinaryTree | Dissemination

  /** The plan of the member at position `idx` of a peer list of length `len`. */
  function PositionPlan(alg: Algorithm, idx: nat, len: nat): seq<Op>
    requires idx < len
  {
    match alg
    case Centralized => Linear.Plan(idx, len)
    case BinaryTree => BinaryTree.Plan(idx, len)
    case Dissemination => Dissemination.Plan(idx, len)
  }

  ghost function Positions(alg: Algorithm, len: nat): Instance {
    match alg
    case Centralized => Linear.Positions(len)
    case BinaryTree => BinaryTree.Positions(len)
    case Dissemination => Dissemination.Positions(len)
  }

  /** Peer lists the library accepts, short enough for twice their length to be a `usize`. */
  ghost predicate ValidGroups(n: nat, groups: seq<seq<nat>>) {
    forall k :: 0 <= k < |groups| ==> ValidGroup(groups[k], n) && 2 * |groups[k]| <= Dissemination.USIZE_MAX
  }

  lemma PositionsAreEmbeddable(alg: Algorithm, n: nat, group: seq<nat>)
    requires ValidGroup(group, n) && 2 * |group| <= Dissemination.USIZE_MAX
    ensures Embeddable(n, group, Positions(alg, |group|))
  {
    var len := |group|;
    match alg {
      case Centralized => Linear.IsPositionInstance(len);
      case BinaryTree => BinaryTree.IsPositionInstance(len);
      case Dissemination => Dissemination.IsPositionInstance(len);
    }
    WellFormedIsInGroup(Positions(alg, len), len);
  }

  /** One instance of an algorithm for a group. */
  ghost function InstanceOf(alg: Algorithm, n: nat, group: seq<nat>): Instance
    requires ValidGroup(group, n) && 2 * |group| <= Dissemination.USIZE_MAX
  {
    PositionsAreEmbeddable(alg, n, group);
    Embed(n, group, Positions(alg, |group|))
  }

  /** The network of `n` nodes that run one algorithm over a sequence of groups. */
  ghost function Network(alg: Algorithm, n: nat, groups: seq<seq<nat>>): System
    requires ValidGroups(n, groups)
  {
    System(n, seq(|groups|, k requires 0 <= k < |groups| => InstanceOf(alg, n, groups[k])))
  }

  lemma InstanceIsGood(alg: Algorithm, n: nat, group: seq<nat>)
    requires ValidGroup(group, n) && 2 * |group| < 0x1_0000_0000_0000_0000
    ensures WellFormed(InstanceOf(alg, n, group), n)
    ensures HasClock(InstanceOf(alg, n, group)) && Synchronizes(InstanceOf(alg, n, group))
    ensures !alg.Dissemination? ==> Handshake(InstanceOf(alg, n, group))
  {
    var len := |group|;
    var inst := Positions(alg, len);
    PositionsAreEmbeddable(alg, n, group);
    EmbedWellFormed(n, group, inst);
    match alg {
      case Centralized =>
        Linear.HasAClock(len);
        EmbedClock(n, group, inst, Linear.ClockAt(len));
        Linear.Knows(len);
        EmbedKnowledge(n, group, inst, Linear.Know(len));
        Linear.IsHandshake(len);
        EmbedHandshake(n, group, inst);
      case BinaryTree =>
        BinaryTree.HasAClock(len);
        EmbedClock(n, group, inst, (idx: nat, p: nat) => BinaryTree.TimeAt(len, idx, p));
        BinaryTree.Knows(len);
        EmbedKnowledge(n, group, inst, BinaryTree.Know(len));
        BinaryTree.IsHandshake(len);
        EmbedHandshake(n, group, inst);
      case Dissemination =>
        Dissemination.HasAClock(len);
        EmbedClock(n, group, inst, (idx: nat, p: nat) => p);
        Dissemination.Knows(len);
        EmbedKnowledge(n, group, inst, Dissemination.Know(len));
    }
  }

  lemma NetworkIsGood(alg: Algorithm, n: nat, groups: seq<seq<nat>>)
    requires ValidGroups(n, groups)
    ensures var sys := Network(alg, n, groups);
            GoodSystem(sys) && AllHaveClocks(sys) && AllSynchronize(sys) && (!alg.Dissemination? ==> AllHandshake(sys))
  {
    forall k | 0 <= k < |groups|
      ensures var inst := Network(alg, n, groups).instances[k];
              WellFormed(inst, n) && HasClock(inst) && Synchronizes(inst) && (!alg.Dissemination? ==> Handshake(inst))
    {
      InstanceIsGood(alg, n, groups[k]);
    }
  }

  /** `run` is a run of the network: any interleaving, any timeouts, any failed writes. */
  ghost predicate NetworkRun(alg: Algorithm, n: nat, groups: seq<seq<nat>>, run: seq<State>, acts: seq<Action>) {
    && ValidGroups(n, groups)
    && GoodSystem(Network(alg, n, groups))
    && Run(Network(alg, n, groups), run, acts)
  }

  /** SAFETY.  If any node has returned Ok from its call for instance `k`, then every member
      of group `k` has already entered its call for instance `k`. */
  lemma BarrierSafety(alg: Algorithm, n: nat, groups: seq<seq<nat>>, run: seq<State>, acts: seq<Action>,
                      t: nat, k: nat, i: nat, r: nat)
    requires NetworkRun(alg, n, groups, run, acts) && t < |run| && k < |groups|
    requires i in groups[k] && r in groups[k]
    ensures |run[t]| == n && i < n && r < n
    ensures Returned(run[t][i], k) ==> Entered(run[t][r], k)
  {
    NetworkIsGood(alg, n, groups);
    Safety(Network(alg, n, groups), run, acts, t, k, i, r);
  }

  /** REFINEMENT.  Every run of each algorithm is a run of the abstract barrier, from its
      initial state on: entering and returning are its steps, all else changes nothing. */
  lemma BarrierRefinesAbstract(alg: Algorithm, n: nat, groups: seq<seq<nat>>, run: seq<State>, acts: seq<Action>)
    requires NetworkRun(alg, n, groups, run, acts)
    ensures AbstractBarrier.Groups(Network(alg, n, groups)) == groups
    ensures forall t :: 0 <= t < |run| ==> |run[t]| == n
    ensures AbstractBarrier.IsAbstractRun(Network(alg, n, groups), run, acts)
  {
    NetworkIsGood(alg, n, groups);
    AbstractBarrier.RunRefines(Network(alg, n, groups), run, acts);
  }

  /** LIVENESS.  No run is infinite, and a failure-free run that cannot be continued has
      returned every node from every one of its calls. */
  lemma BarrierFinishes(alg: Algorithm, n: nat, groups: seq<seq<nat>>, run: seq<State>, acts: seq<Action>)
    requires NetworkRun(alg, n, groups, run, acts)
    ensures var sys := Network(alg, n, groups);
            && Shape(sys, Init(sys)) && |acts| <= Work(sys, Init(sys), n)
            && Shape(sys, run[|acts|])
            && (FailureFree(acts) && Stuck(sys, run[|acts|]) ==>
                  forall i :: 0 <= i < n ==> run[|acts|][i].phase.Idle? && run[|acts|][i].call == |groups|)
  {
    NetworkIsGood(alg, n, groups);
    Finishes(Network(alg, n, groups), run, acts);
  }

  /** RUN-AHEAD.  While `j` polls the slot of `i`, the slot is at most one ahead of the
      expected epoch, and under the tree and the linear barrier it is never ahead. */
  lemma BarrierRunAhead(alg: Algorithm, n: nat, groups: seq<seq<nat>>, run: seq<State>, acts: seq<Action>,
                        t: nat, i: nat, j: nat)
    requires NetworkRun(alg, n, groups, run, acts) && t < |run| && i < n && j < n
    ensures Shape(Network(alg, n, groups), run[t])
    ensures Polling(Network(alg, n, groups), j, run[t][j], i) ==>
              run[t][j].incoming[i] <= run[t][j].expected[i] + if alg.Dissemination? then 1 else 0
  {
    NetworkIsGood(alg, n, groups);
    RunAhead(Network(alg, n, groups), run, acts, t, i, j);
  }

  /** The number of writes an instance makes: 2(n-1) for the linear and the tree barrier,
      n * ceil(log2 n) for dissemination. */
  lemma WritesPerInstance(alg: Algorithm, n: nat, group: seq<nat>)
    requires ValidGroup(group, n) && 2 <= |group| && 2 * |group| <= Dissemination.USIZE_MAX
    ensures |InstanceOf(alg, n, group).plans| == n
    ensures InstanceWrites(InstanceOf(alg, n, group), n)
         == if alg.Dissemination? then |group| * Dissemination.Rounds(|group|) else 2 * (|group| - 1)
  {
    var len := |group|;
    var inst := Positions(alg, len);
    PositionsAreEmbeddable(alg, n, group);
    EmbedWrites(n, group, inst);
    match alg {
      case Centralized => BarrierCosts.LinearWritesUpTo(len, len);
      case BinaryTree => BarrierCosts.TreeWritesUpTo(len, len);
      case Dissemination => BarrierCosts.DisseminationWritesUpTo(len, len);
    }
  }

  /** QUIESCENCE.  When all nodes are between calls with the same `k` instances behind them,
      the three counters of every directed edge agree, and the out epochs of the network add
      up to exactly the writes of those instances. */
  lemma BarrierQuiescence(alg: Algorithm, n: nat, groups: seq<seq<nat>>, run: seq<State>, acts: seq<Action>,
                          t: nat, k: nat)
    requires NetworkRun(alg, n, groups, run, acts) && t < |run| && k <= |groups|
    requires Quiescent(run[t], k)
    ensures Shape(Network(alg, n, groups), run[t]) && Settled(Network(alg, n, groups), run[t])
    ensures TotalOut(Network(alg, n, groups), run[t], n) == WritesUpTo(Network(alg, n, groups), k)
  {
    QuiescentIsSettled(Network(alg, n, groups), run, acts, t, k);
  }

  /** POISONING.  Once a node has failed, it never makes another step of its own: it stays in
      the same call, changes no epoch and posts no further write. */
  lemma FailedStaysFailed(
    alg: Algorithm, n: nat, groups: seq<seq<nat>>, run: seq<State>, acts: seq<Action>, t: nat, u: nat, i: nat)
    requires NetworkRun(alg, n, groups, run, acts) && t <= u < |run| && i < n
    requires |run[t]| == n && run[t][i].phase.Failed?
    ensures |run[u]| == n && Frozen(run[t][i], run[u][i])
  {
    FailedIsFrozen(Network(alg, n, groups), run, acts, t, u, i);
  }

  ghost function PositionKnow(alg: Algorithm, len: nat): (nat, nat) -> set<nat> {
    match alg
    case Centralized => Linear.Know(len)
    case BinaryTree => BinaryTree.Know(len)
    case Dissemination => Dissemination.Know(len)
  }

  lemma InstanceKnowledge(alg: Algorithm, n: nat, group: seq<nat>)
    requires ValidGroup(group, n) && 2 * |group| <= Dissemination.USIZE_MAX
    ensures Knowledge(InstanceOf(alg, n, group), RankKnowledge(group, PositionKnow(alg, |group|)))
  {
    PositionsAreEmbeddable(alg, n, group);
    match alg {
      case Centralized => Linear.Knows(|group|);
      case BinaryTree => BinaryTree.Knows(|group|);
      case Dissemination => Dissemination.Knows(|group|);
    }
    EmbedKnowledge(n, group, Positions(alg, |group|), PositionKnow(alg, |group|));
  }

  lemma KnownRank(alg: Algorithm, n: nat, group: seq<nat>, x: nat, y: nat, p: nat)
    requires ValidGroup(group, n) && 2 * |group| <= Dissemination.USIZE_MAX
    requires x < |group| && y < |group| && p <= |PositionPlan(alg, x, |group|)|
    requires y in PositionKnow(alg, |group|)(x, p)
    ensures group[x] in group && group[y] in group && p <= |InstanceOf(alg, n, group).plans[group[x]]|
    ensures group[y] in RankKnowledge(group, PositionKnow(alg, |group|))(group[x], p)
  {
    assert group[x] in group && group[y] in group;
    IndexIsUnique(group, n, x);
    IndexIsUnique(group, n, y);
    PositionsAreEmbeddable(alg, n, group);
    assert group[y] in RankKnow(group, PositionKnow(alg, |group|), group[x], p);
  }

  /** What a member has heard of half-way through its plan really has happened. */
  lemma HeardHaveEntered(alg: Algorithm, n: nat, groups: seq<seq<nat>>, run: seq<State>, acts: seq<Action>,
                         t: nat, k: nat, x: nat, y: nat, p: nat)
    requires NetworkRun(alg, n, groups, run, acts) && t < |run| && k < |groups|
    requires x < |groups[k]| && y < |groups[k]| && p <= |PositionPlan(alg, x, |groups[k]|)|
    requires y in PositionKnow(alg, |groups[k]|)(x, p)
    ensures |run[t]| == n && groups[k][x] < n && groups[k][y] < n
    ensures HasDone(run[t][groups[k][x]], k, p) ==> Entered(run[t][groups[k][y]], k)
  {
    var group := groups[k];
    NetworkIsGood(alg, n, groups);
    KnownRank(alg, n, group, x, y, p);
    InstanceKnowledge(alg, n, group);
    Heard(Network(alg, n, groups), run, acts, t, k, group[x], group[y], p,
          RankKnowledge(group, PositionKnow(alg, |group|)));
  }

  /** KNOWLEDGE DOUBLES.  After `r` rounds of instance `k`, the node at position `x` and the
      2^r - 1 positions behind it on the ring have all entered. */
  lemma KnowledgeDoubles(n: nat, groups: seq<seq<nat>>, run: seq<State>, acts: seq<Action>,
                         t: nat, k: nat, x: nat, y: nat, r: nat)
    requires NetworkRun(Algorithm.Dissemination, n, groups, run, acts) && t < |run| && k < |groups|
    requires x < |groups[k]| && y < |groups[k]| && r <= Dissemination.Rounds(|groups[k]|)
    requires Dissemination.Behind(y, x, |groups[k]|) < Pow2(r)
    ensures |run[t]| == n && groups[k][x] < n && groups[k][y] < n
    ensures HasDone(run[t][groups[k][x]], k, 2 * r) ==> Entered(run[t][groups[k][y]], k)
  {
    var len := |groups[k]|;
    Dissemination.WindowIsKnown(len, x, y, r);
    assert 2 * r <= |PositionPlan(Algorithm.Dissemination, x, len)|;
    assert y in PositionKnow(Algorithm.Dissemination, len)(x, 2 * r);
    HeardHaveEntered(Algorithm.Dissemination, n, groups, run, acts, t, k, x, y, 2 * r);
  }

  /** SUBTREES.  When the wait of position `x` for its child number `c` has passed, everybody in
      the subtree of that child has entered. */
  lemma SubtreeHasEntered(n: nat, groups: seq<seq<nat>>, run: seq<State>, acts: seq<Action>,
                          t: nat, k: nat, x: nat, y: nat, c: nat)
    requires NetworkRun(Algorithm.BinaryTree, n, groups, run, acts) && t < |run| && k < |groups|
    requires x < |groups[k]| && y < |groups[k]| && c < |BinaryTree.ChildIndices(x, |groups[k]|)|
    requires BinaryTree.InSubtree(y, BinaryTree.ChildIndices(x, |groups[k]|)[c])
    ensures |run[t]| == n && groups[k][x] < n && groups[k][y] < n
    ensures HasDone(run[t][groups[k][x]], k, c + 1) ==> Entered(run[t][groups[k][y]], k)
  {
    var len := |groups[k]|;
    BinaryTree.SubtreeIsKnown(len, x, y, c);
    assert c + 1 <= |PositionPlan(Algorithm.BinaryTree, x, len)|;
    assert y in PositionKnow(Algorithm.BinaryTree, len)(x, c + 1);
    HeardHaveEntered(Algorithm.BinaryTree, n, groups, run, acts, t, k, x, y, c + 1);
  }

  /** When the wait of position `x` for its parent has passed, the whole group has entered,
      even though the answer has not yet gone further down. */
  lemma AnswerMeansAllEntered(n: nat, groups: seq<seq<nat>>, run: seq<State>, acts: seq<Action>,
                              t: nat, k: nat, x: nat, y: nat)
    requires NetworkRun(Algorithm.BinaryTree, n, groups, run, acts) && t < |run| && k < |groups|
    requires 0 < x < |groups[k]| && y < |groups[k]|
    ensures |run[t]| == n && groups[k][x] < n && groups[k][y] < n
    ensures HasDone(run[t][groups[k][x]], k, |BinaryTree.ChildIndices(x, |groups[k]|)| + 2)
        ==> Entered(run[t][groups[k][y]], k)
  {
    var len := |groups[k]|;
    var p := |BinaryTree.ChildIndices(x, len)| + 2;
    BinaryTree.AnswerIsKnown(len, x, y);
    assert p <= |PositionPlan(Algorithm.BinaryTree, x, len)|;
    assert y in PositionKnow(Algorithm.BinaryTree, len)(x, p);
    HeardHaveEntered(Algorithm.BinaryTree, n, groups, run, acts, t, k, x, y, p);
  }
}
