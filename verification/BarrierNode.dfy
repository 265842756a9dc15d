/** The barrier object of one node: argument checks, the three protocols, poisoning. */
module BarrierNode {
  import opened Arithmetic
  import opened Wrappers
  import opened Plans
  import opened BarrierMemory
  import opened Embedding
  import opened Barriers
  import Linear
  import BinaryTree
  import Dissemination

  /** Ascending and free of duplicates, as the library checks it: pairwise on neighbours. */
  function ValidatePeerList(peers: seq<nat>): (r: Result<(), BarrierError>)
    ensures r.Ok? <==> forall a, b :: 0 <= a < b < |peers| ==> peers[a] < peers[b]
    ensures r == Err(UnorderedPeers) <==> exists a, b :: 0 <= a < b < |peers| && peers[a] > peers[b]
    ensures r.Ok? || r == Err(UnorderedPeers) || r == Err(DuplicatePeers)
  {
    NeighboursDecide(peers);
    if exists x :: 0 <= x < |peers| - 1 && peers[x] > peers[x + 1] then Err(UnorderedPeers)
    else if exists x :: 0 <= x < |peers| - 1 && peers[x] == peers[x + 1] then Err(DuplicatePeers)
    else Ok(())
  }

  lemma {:induction false} NeighboursDecide(peers: seq<nat>)
    ensures (forall x :: 0 <= x < |peers| - 1 ==> peers[x] <= peers[x + 1]) ==>
              forall a, b :: 0 <= a < b < |peers| ==> peers[a] <= peers[b]
    ensures (forall x :: 0 <= x < |peers| - 1 ==> peers[x] < peers[x + 1]) ==>
              forall a, b :: 0 <= a < b < |peers| ==> peers[a] < peers[b]
  {
    if |peers| > 1 {
      var rest := peers[..|peers| - 1];
      NeighboursDecide(rest);
      forall a, b | 0 <= a < b < |peers| && forall x :: 0 <= x < |peers| - 1 ==> peers[x] <= peers[x + 1]
        ensures peers[a] <= peers[b]
      {
        assert forall x :: 0 <= x < |rest| - 1 ==> rest[x] <= rest[x + 1];
        if b == |peers| - 1 && a < b - 1 {
          assert rest[a] <= rest[b - 1] && peers[b - 1] <= peers[b - 1 + 1];
        } else if b < |peers| - 1 {
          assert rest[a] <= rest[b];
        } else {
          assert peers[a] <= peers[a + 1];
        }
      }
      forall a, b | 0 <= a < b < |peers| && forall x :: 0 <= x < |peers| - 1 ==> peers[x] < peers[x + 1]
        ensures peers[a] < peers[b]
      {
        assert forall x :: 0 <= x < |rest| - 1 ==> rest[x] < rest[x + 1];
        if b == |peers| - 1 && a < b - 1 {
          assert rest[a] < rest[b - 1] && peers[b - 1] < peers[b - 1 + 1];
        } else if b < |peers| - 1 {
          assert rest[a] < rest[b];
        } else {
          assert peers[a] < peers[a + 1];
        }
      }
    }
  }

  /** Where binary search finds `rank` in an ascending list, if it is there. */
  function Position(peers: seq<nat>, rank: nat): (r: Option<nat>)
    ensures r.Some? ==> r.value < |peers| && peers[r.value] == rank
    ensures r.None? ==> rank !in peers
  {
    if |peers| == 0 then None
    else if peers[|peers| - 1] == rank then Some(|peers| - 1)
    else Position(peers[..|peers| - 1], rank)
  }

  /** Peer lists that obey the contract of the barrier. */
  ghost predicate ValidPeers(peers: seq<nat>, n: nat) {
    ValidGroup(peers, n) && 2 * |peers| <= Dissemination.USIZE_MAX
  }

  /** The plan of `rank` in the group `peers`: the one the network model runs. */
  ghost function RankPlan(alg: Algorithm, n: nat, peers: seq<nat>, rank: nat): seq<Op>
    requires ValidPeers(peers, n) && rank < n
  {
    InstanceOf(alg, n, peers).plans[rank]
  }

  lemma RankPlanAt(alg: Algorithm, n: nat, peers: seq<nat>, idx: nat)
    requires ValidPeers(peers, n) && idx < |peers|
    ensures peers[idx] in peers && PlanInGroup(PositionPlan(alg, idx, |peers|), |peers|)
    ensures RankPlan(alg, n, peers, peers[idx]) == MapPlan(peers, PositionPlan(alg, idx, |peers|))
  {
    PositionsAreEmbeddable(alg, n, peers);
    IndexIsUnique(peers, n, idx);
    assert peers[idx] in peers;
    assert Positions(alg, |peers|).plans[idx] == PositionPlan(alg, idx, |peers|);
  }

  /** What a node has carried out, how much of it is completed, what has landed at its peers,
      how the last write failed if one did, and when. */
  datatype Moment = Moment(trace: seq<Op>, completed: nat, landed: seq<Landing>, failure: TransportError, now: nat)

  /** The terms of a run: when which writes of the peers arrive, and how long it may take. */
  datatype Terms = Terms(arrivals: (nat, nat) -> nat, timeout: nat)

  /** What a run of the protocol leaves behind: the whole plan carried out and exactly its
      writes landed, or the plan up to and including the one operation that failed, with the
      error that operation can give and some of its writes. */
  ghost predicate Outcome(terms: Terms, before: Moment, plan: seq<Op>, after: Moment, r: Result<(), BarrierError>) {
    match r
    case Ok(_) =>
      && after.trace == before.trace + plan && after.completed == |after.trace|
      && after.landed == before.landed + Landings(before.trace, plan)
    case Err(e) =>
      exists p :: 0 <= p < |plan| && StoppedAt(terms, before, plan, after, e, p)
  }

  ghost predicate StoppedAt(terms: Terms, before: Moment, plan: seq<Op>, after: Moment, e: BarrierError, p: int)
    requires 0 <= p < |plan|
  {
    && after.trace == before.trace + plan[..p + 1]
    && after.completed == |after.trace| - 1
    && StoppedBy(terms, before, plan[p], after, e)
    && PartlyWritten(before.landed + Landings(before.trace, plan[..p]),
                     OpLandings(before.trace + plan[..p], plan[p]), after.landed)
  }

  /** A wait fails only with a timeout, when the time since the start of the run is over and
      the epoch awaited has not arrived; a notification only with an error of the transport. */
  ghost predicate StoppedBy(terms: Terms, before: Moment, op: Op, after: Moment, e: BarrierError) {
    match op
    case Wait(peer) =>
      && e == Timeout && after.now - before.now > terms.timeout
      && terms.arrivals(after.now, peer) < WaitCount(after.trace, peer, |after.trace|)
    case Notify(_) => e == Transport(after.failure)
  }

  class Barrier {
    const alg: Algorithm
    const rank: nat
    const barrierMr: BarrierMr
    var poisoned: bool

    ghost predicate Valid()
      reads this, barrierMr, barrierMr.memory
    {
      && barrierMr.Valid()
      && rank < barrierMr.memory.Length
      && (!poisoned ==> barrierMr.completed == |barrierMr.trace|)
    }

    constructor (alg: Algorithm, rank: nat, worldSize: nat, arrivals: (nat, nat) -> nat)
      requires rank < worldSize && IsArrivals(arrivals)
      ensures Valid() && !poisoned && this.alg == alg && this.rank == rank
      ensures fresh(barrierMr) && fresh(barrierMr.memory)
      ensures barrierMr.memory.Length == worldSize && barrierMr.trace == [] && barrierMr.arrivals == arrivals
    {
      this.alg := alg;
      this.rank := rank;
      barrierMr := new BarrierMr(rank, worldSize, arrivals);
      poisoned := false;
    }

    ghost function Now(multiChannel: MultiChannel): Moment
      reads barrierMr, multiChannel
    {
      Moment(barrierMr.trace, barrierMr.completed, multiChannel.landed, multiChannel.failure, barrierMr.now)
    }

    /** The first `c` operations of `plan` have been carried out on top of `before`. */
    ghost predicate At(multiChannel: MultiChannel, before: Moment, plan: seq<Op>, c: nat)
      reads barrierMr, barrierMr.memory, multiChannel
    {
      && barrierMr.Valid() && c <= |plan| && before.now <= barrierMr.now
      && barrierMr.trace == before.trace + plan[..c] && barrierMr.completed == |barrierMr.trace|
      && multiChannel.landed == before.landed + Landings(before.trace, plan[..c])
    }

    /** Either operation `c - 1` of `plan` has been carried out, or the run ends in it. */
    ghost predicate Advanced(multiChannel: MultiChannel, timeout: nat, before: Moment, plan: seq<Op>, c: nat,
                             r: Result<(), BarrierError>)
      reads barrierMr, barrierMr.memory, multiChannel
    {
      && barrierMr.Valid()
      && (r.Ok? ==> At(multiChannel, before, plan, c))
      && (r.Err? ==> Outcome(Terms(barrierMr.arrivals, timeout), before, plan, Now(multiChannel), r))
    }

    /** One wait of a plan: bump the expected epoch, then poll. */
    method AwaitPeer(peer: nat, startTime: nat, timeout: nat,
                     ghost multiChannel: MultiChannel, ghost before: Moment, ghost plan: seq<Op>, ghost c: nat)
      returns (r: Result<(), BarrierError>)
      requires At(multiChannel, before, plan, c) && c < |plan| && plan[c] == Wait(peer)
      requires peer < barrierMr.memory.Length && startTime == before.now
      modifies barrierMr, barrierMr.memory
      ensures Advanced(multiChannel, timeout, before, plan, c + 1, r)
    {
      Extend(before.trace, plan, c);
      barrierMr.IncreasePeerExpectedEpoch(peer);
      ghost var moments;
      r, moments := barrierMr.SpinPollPeerEpochExpected(peer, startTime, timeout);
      if r.Err? {
        NothingWritten(multiChannel.landed);
        StoppedHere(Terms(barrierMr.arrivals, timeout), before, plan, c, Now(multiChannel), r.error);
      }
    }

    /** After a notification the plan has advanced, or the run ends here. */
    lemma Notified(multiChannel: MultiChannel, timeout: nat, before: Moment, plan: seq<Op>, c: nat, r: Result<(), BarrierError>)
      requires barrierMr.Valid() && before.now <= barrierMr.now && c < |plan| && plan[c].Notify?
      requires barrierMr.trace == before.trace + plan[..c] + [plan[c]] && (r.Ok? <==> barrierMr.completed == |barrierMr.trace|)
      requires r.Err? ==> r.error == Transport(multiChannel.failure)
      requires barrierMr.Wrote(multiChannel, before.landed + Landings(before.trace, plan[..c]),
                               OpLandings(before.trace + plan[..c], plan[c]), r)
      ensures Advanced(multiChannel, timeout, before, plan, c + 1, r)
    {
      Extend(before.trace, plan, c);
      if r.Err? {
        StoppedHere(Terms(barrierMr.arrivals, timeout), before, plan, c, Now(multiChannel), r.error);
      }
    }

    /** One single notification of a plan. */
    method NotifyOne(multiChannel: MultiChannel, peer: nat,
                     ghost timeout: nat, ghost before: Moment, ghost plan: seq<Op>, ghost c: nat)
      returns (r: Result<(), BarrierError>)
      requires At(multiChannel, before, plan, c) && c < |plan| && plan[c] == Notify([peer]) && peer < barrierMr.memory.Length
      modifies barrierMr`trace, barrierMr`completed, barrierMr.memory, multiChannel
      ensures Advanced(multiChannel, timeout, before, plan, c + 1, r)
    {
      r := barrierMr.NotifyPeer(multiChannel, peer);
      Notified(multiChannel, timeout, before, plan, c, r);
    }

    /** One scatter notification of a plan. */
    method NotifyAll(multiChannel: MultiChannel, peers: seq<nat>,
                     ghost timeout: nat, ghost before: Moment, ghost plan: seq<Op>, ghost c: nat)
      returns (r: Result<(), BarrierError>)
      requires At(multiChannel, before, plan, c) && c < |plan| && plan[c] == Notify(peers) && Distinct(peers)
      requires forall x :: 0 <= x < |peers| ==> peers[x] < barrierMr.memory.Length
      modifies barrierMr`trace, barrierMr`completed, barrierMr.memory, multiChannel
      ensures Advanced(multiChannel, timeout, before, plan, c + 1, r)
    {
      r := barrierMr.ScatterNotifyPeers(multiChannel, peers);
      Notified(multiChannel, timeout, before, plan, c, r);
    }

    /** The ranks in `peers` are slots of the memory. */
    ghost predicate InMemory(peers: seq<nat>) {
      forall x :: 0 <= x < |peers| ==> peers[x] < barrierMr.memory.Length
    }

    method RunLinear(multiChannel: MultiChannel, peers: seq<nat>, timeout: nat, ghost before: Moment, ghost plan: seq<Op>)
      returns (r: Result<(), BarrierError>)
      requires At(multiChannel, before, plan, 0) && barrierMr.now == before.now && InMemory(peers) && |peers| >= 2
      requires rank == peers[0] ==> LeaderPlan(plan, peers)
      requires rank != peers[0] ==> plan == [Notify([peers[0]]), Wait(peers[0])]
      modifies barrierMr, barrierMr.memory, multiChannel
      ensures Advanced(multiChannel, timeout, before, plan, |plan|, r)
    {
      var startTime := barrierMr.now;
      var leader := peers[0];
      if rank == leader {
        for x := 1 to |peers|
          invariant At(multiChannel, before, plan, x - 1)
        {
          r := AwaitPeer(peers[x], startTime, timeout, multiChannel, before, plan, x - 1);
          if r.Err? { return; }
        }
        r := NotifyAll(multiChannel, peers[1..], timeout, before, plan, |peers| - 1);
      } else {
        r := NotifyOne(multiChannel, leader, timeout, before, plan, 0);
        if r.Err? { return; }
        r := AwaitPeer(leader, startTime, timeout, multiChannel, before, plan, 1);
      }
    }

    method RunBinaryTree(multiChannel: MultiChannel, peers: seq<nat>, timeout: nat, idx: nat,
                         ghost before: Moment, ghost plan: seq<Op>)
      returns (r: Result<(), BarrierError>)
      requires At(multiChannel, before, plan, 0) && barrierMr.now == before.now && InMemory(peers)
      requires |peers| >= 2 && idx < |peers| && TreePlan(plan, peers, idx)
      modifies barrierMr, barrierMr.memory, multiChannel
      ensures Advanced(multiChannel, timeout, before, plan, |plan|, r)
    {
      var startTime := barrierMr.now;
      var parent := BinaryTree.ParentIndex(idx);
      var childrenRanks := ChildrenRanks(peers, idx);
      var c := |childrenRanks|;
      for x := 0 to c
        invariant At(multiChannel, before, plan, x)
      {
        r := AwaitPeer(childrenRanks[x], startTime, timeout, multiChannel, before, plan, x);
        if r.Err? { return; }
      }
      if parent.Some? {
        r := NotifyThenAwait(multiChannel, peers[parent.value], peers[parent.value], startTime, timeout, before, plan, c);
        if r.Err? { return; }
      }
      r := NotifyAll(multiChannel, childrenRanks, timeout, before, plan, |plan| - 1);
    }

    /** Collects the ranks of the children that exist. */
    method ChildrenRanks(peers: seq<nat>, idx: nat) returns (ranks: seq<nat>)
      requires forall x :: 0 <= x < |BinaryTree.ChildIndices(idx, |peers|)| ==> BinaryTree.ChildIndices(idx, |peers|)[x] < |peers|
      ensures ranks == MapPeers(peers, BinaryTree.ChildIndices(idx, |peers|))
    {
      var indices := BinaryTree.ChildIndices(idx, |peers|);
      ranks := [];
      for x := 0 to |indices|
        invariant ranks == MapPeers(peers, indices[..x])
      {
        ranks := ranks + [peers[indices[x]]];
      }
      assert indices[..|indices|] == indices;
    }

    /** Notifies one member, then waits for one. */
    method NotifyThenAwait(multiChannel: MultiChannel, rightRank: nat, leftRank: nat, startTime: nat, timeout: nat,
                           ghost before: Moment, ghost plan: seq<Op>, ghost c: nat)
      returns (r: Result<(), BarrierError>)
      requires At(multiChannel, before, plan, c) && c + 1 < |plan| && startTime == before.now
      requires plan[c] == Notify([rightRank]) && rightRank < barrierMr.memory.Length
      requires plan[c + 1] == Wait(leftRank) && leftRank < barrierMr.memory.Length
      modifies barrierMr, barrierMr.memory, multiChannel
      ensures Advanced(multiChannel, timeout, before, plan, c + 2, r)
    {
      r := NotifyOne(multiChannel, rightRank, timeout, before, plan, c);
      if r.Err? { return; }
      r := AwaitPeer(leftRank, startTime, timeout, multiChannel, before, plan, c + 1);
    }

    method RunDissemination(multiChannel: MultiChannel, peers: seq<nat>, timeout: nat, idx: nat,
                            ghost before: Moment, ghost plan: seq<Op>)
      returns (r: Result<(), BarrierError>)
      requires At(multiChannel, before, plan, 0) && barrierMr.now == before.now && InMemory(peers)
      requires |peers| >= 2 && idx < |peers| && RoundPlan(plan, peers, idx)
      modifies barrierMr, barrierMr.memory, multiChannel
      ensures Advanced(multiChannel, timeout, before, plan, |plan|, r)
    {
      var startTime := barrierMr.now;
      var pairs := Dissemination.RoundPairs(idx, |peers|);
      for x := 0 to |pairs|
        invariant At(multiChannel, before, plan, 2 * x)
      {
        r := NotifyThenAwait(multiChannel, peers[pairs[x].0], peers[pairs[x].1], startTime, timeout, before, plan, 2 * x);
        if r.Err? { return; }
      }
      r := Ok(());
    }

    /** The plan of this node's rank in `peers`. */
    ghost function MyPlan(peers: seq<nat>): seq<Op>
      requires ValidPeers(peers, barrierMr.memory.Length) && rank < barrierMr.memory.Length
    {
      RankPlan(alg, barrierMr.memory.Length, peers, rank)
    }

    lemma Begin(multiChannel: MultiChannel, plan: seq<Op>)
      requires barrierMr.Valid() && barrierMr.completed == |barrierMr.trace|
      ensures At(multiChannel, Now(multiChannel), plan, 0)
    {
      assert barrierMr.trace + plan[..0] == barrierMr.trace;
      assert multiChannel.landed + Landings(barrierMr.trace, plan[..0]) == multiChannel.landed;
    }

    /** The centralized barrier compares ranks and needs no position. */
    method RunCentralized(multiChannel: MultiChannel, peers: seq<nat>, timeout: nat) returns (r: Result<(), BarrierError>)
      requires alg.Centralized? && Valid() && !poisoned
      requires ValidPeers(peers, barrierMr.memory.Length) && |peers| >= 2 && rank in peers
      modifies barrierMr, barrierMr.memory, multiChannel
      ensures barrierMr.Valid()
      ensures Outcome(Terms(barrierMr.arrivals, timeout), old(Now(multiChannel)), MyPlan(peers), Now(multiChannel), r)
    {
      ghost var before, plan := Now(multiChannel), MyPlan(peers);
      Begin(multiChannel, plan);
      LinearSteps(barrierMr.memory.Length, peers, rank);
      InRange(peers, barrierMr.memory.Length);
      r := RunLinear(multiChannel, peers, timeout, before, plan);
      assert plan[..|plan|] == plan;
    }

    /** The other two work with the position of this rank in the list. */
    method RunAtPosition(multiChannel: MultiChannel, peers: seq<nat>, timeout: nat, idx: nat) returns (r: Result<(), BarrierError>)
      requires !alg.Centralized? && Valid() && !poisoned
      requires ValidPeers(peers, barrierMr.memory.Length) && |peers| >= 2 && idx < |peers| && peers[idx] == rank
      modifies barrierMr, barrierMr.memory, multiChannel
      ensures barrierMr.Valid()
      ensures Outcome(Terms(barrierMr.arrivals, timeout), old(Now(multiChannel)), MyPlan(peers), Now(multiChannel), r)
    {
      ghost var before, plan := Now(multiChannel), MyPlan(peers);
      Begin(multiChannel, plan);
      InRange(peers, barrierMr.memory.Length);
      if alg.BinaryTree? {
        TreeSteps(barrierMr.memory.Length, peers, idx);
        r := RunBinaryTree(multiChannel, peers, timeout, idx, before, plan);
      } else {
        RoundSteps(barrierMr.memory.Length, peers, idx);
        r := RunDissemination(multiChannel, peers, timeout, idx, before, plan);
      }
      assert plan[..|plan|] == plan;
    }

    /** Runs the protocol.  A group of fewer than two members is done at once, without a look
        at who is in it; otherwise a rank outside the group is an error of the run. */
    method RunBarrier(multiChannel: MultiChannel, peers: seq<nat>, timeout: nat) returns (r: Result<(), BarrierError>)
      requires Valid() && !poisoned && (Runs(peers) ==> ValidPeers(peers, barrierMr.memory.Length))
      requires alg.Centralized? && |peers| >= 2 ==> rank in peers
      modifies barrierMr, barrierMr.memory, multiChannel
      ensures barrierMr.Valid()
      ensures |peers| < 2 ==> r.Ok? && Now(multiChannel) == old(Now(multiChannel))
      ensures |peers| >= 2 && rank !in peers ==> r == Err(SelfNotInGroup) && Now(multiChannel) == old(Now(multiChannel))
      ensures |peers| >= 2 && rank in peers ==>
                Outcome(Terms(barrierMr.arrivals, timeout), old(Now(multiChannel)), MyPlan(peers), Now(multiChannel), r)
    {
      if |peers| < 2 {
        return Ok(());
      }
      if alg.Centralized? {
        r := RunCentralized(multiChannel, peers, timeout);
        return;
      }
      match Position(peers, rank)
      case None => r := Err(SelfNotInGroup);
      case Some(idx) => r := RunAtPosition(multiChannel, peers, timeout, idx);
    }

    /** A call with this list, on an intact barrier, carries out a plan. */
    predicate Runs(peers: seq<nat>) {
      |peers| >= 2 && rank in peers
    }

    /** What a call on an intact barrier does, given a list that obeys the contract. */
    ghost predicate CallOutcome(multiChannel: MultiChannel, timeout: nat, before: Moment, peers: seq<nat>, r: Result<(), BarrierError>)
      requires rank < barrierMr.memory.Length && (Runs(peers) ==> ValidPeers(peers, barrierMr.memory.Length))
      reads this, barrierMr, barrierMr.memory, multiChannel
    {
      && poisoned == r.Err?
      && (|peers| < 2 ==> r.Ok? && Now(multiChannel) == before)
      && (|peers| >= 2 && rank !in peers ==> r == Err(SelfNotInGroup) && Now(multiChannel) == before)
      && (Runs(peers) ==> Outcome(Terms(barrierMr.arrivals, timeout), before, MyPlan(peers), Now(multiChannel), r))
    }

    /** A poisoned barrier refuses without touching anything; any error of a run poisons. */
    method BarrierUnchecked(multiChannel: MultiChannel, peers: seq<nat>, timeout: nat) returns (r: Result<(), BarrierError>)
      requires Valid() && (!poisoned && Runs(peers) ==> ValidPeers(peers, barrierMr.memory.Length))
      requires alg.Centralized? && !poisoned && |peers| >= 2 ==> rank in peers
      modifies this`poisoned, barrierMr, barrierMr.memory, multiChannel
      ensures Valid()
      ensures old(poisoned) ==>
                r == Err(Poisoned) && poisoned && unchanged(barrierMr) && unchanged(barrierMr.memory) && unchanged(multiChannel)
      ensures !old(poisoned) ==> (poisoned <==> r.Err?) && r != Err(Poisoned)
      ensures !old(poisoned) ==> CallOutcome(multiChannel, timeout, old(Now(multiChannel)), peers, r)
    {
      if poisoned {
        return Err(Poisoned);
      }
      r := RunBarrier(multiChannel, peers, timeout);
      if r.Err? {
        poisoned := true;
      }
    }

    /** The checked call.  A malformed list is refused before the poisoned flag is looked at
        or set, and the centralized barrier refuses a list without this rank the same way. */
    method CheckedBarrier(multiChannel: MultiChannel, peers: seq<nat>, timeout: nat) returns (r: Result<(), BarrierError>)
      requires Valid()
      requires !poisoned && ValidatePeerList(peers).Ok? && Runs(peers) ==> ValidPeers(peers, barrierMr.memory.Length)
      modifies this`poisoned, barrierMr, barrierMr.memory, multiChannel
      ensures Valid()
      ensures var refused := ValidatePeerList(peers).Err? || (alg.Centralized? && rank !in peers);
              && (refused ==>
                    && r == (if ValidatePeerList(peers).Err? then ValidatePeerList(peers) else Err(SelfNotInGroup))
                    && poisoned == old(poisoned))
              && (refused || old(poisoned) ==>
                    r.Err? && unchanged(barrierMr) && unchanged(barrierMr.memory) && unchanged(multiChannel))
              && (!refused && old(poisoned) ==> r == Err(Poisoned) && poisoned)
              && (!refused && !old(poisoned) ==> CallOutcome(multiChannel, timeout, old(Now(multiChannel)), peers, r))
              && (poisoned <==> old(poisoned) || (r.Err? && !refused))
    {
      r := ValidatePeerList(peers);
      if r.Err? {
        return;
      }
      if alg.Centralized? && Position(peers, rank).None? {
        return Err(SelfNotInGroup);
      }
      r := BarrierUnchecked(multiChannel, peers, timeout);
    }
  }

  /** An error does not always poison: after a call with a malformed list the same barrier
      still synchronizes.  Which errors poison is part of the contract of the checked call. */
  method ErrorWithoutPoison(alg: Algorithm) returns (first: Result<(), BarrierError>, second: Result<(), BarrierError>)
    ensures first == Err(UnorderedPeers) && second.Ok?
  {
    var barrier := new Barrier(alg, 0, 2, (t, j) => 0);
    var multiChannel := new MultiChannel();
    var unordered, alone := [1, 0], [0];
    assert unordered[0] > unordered[1] && alone[0] == 0;
    first := barrier.CheckedBarrier(multiChannel, unordered, 0);
    second := barrier.CheckedBarrier(multiChannel, alone, 0);
  }

  /** An error of a run does poison: whatever is called next, with a list the library accepts, is
      refused and changes nothing. */
  method ErrorPoisons(barrier: Barrier, multiChannel: MultiChannel, peers: seq<nat>, later: seq<nat>, timeout: nat)
    returns (first: Result<(), BarrierError>, second: Result<(), BarrierError>)
    requires barrier.Valid() && barrier.rank in peers && barrier.rank in later
    requires ValidatePeerList(peers).Ok? && ValidatePeerList(later).Ok?
    requires barrier.Runs(peers) ==> ValidPeers(peers, barrier.barrierMr.memory.Length)
    requires barrier.Runs(later) ==> ValidPeers(later, barrier.barrierMr.memory.Length)
    modifies barrier, barrier.barrierMr, barrier.barrierMr.memory, multiChannel
    ensures first.Err? ==> second == Err(Poisoned)
    ensures first.Ok? && |later| < 2 ==> second.Ok?
  {
    first := barrier.CheckedBarrier(multiChannel, peers, timeout);
    second := barrier.CheckedBarrier(multiChannel, later, timeout);
  }

  lemma InRange(peers: seq<nat>, n: nat)
    requires ValidPeers(peers, n)
    ensures forall x :: 0 <= x < |peers| ==> peers[x] < n
  {
    assert forall x :: 0 <= x < |peers| ==> peers[x] in peers;
  }

  lemma StoppedHere(terms: Terms, before: Moment, plan: seq<Op>, c: nat, after: Moment, e: BarrierError)
    requires c < |plan| && after.trace == before.trace + plan[..c] + [plan[c]] && after.completed == |after.trace| - 1
    requires StoppedBy(terms, before, plan[c], after, e)
    requires PartlyWritten(before.landed + Landings(before.trace, plan[..c]),
                           OpLandings(before.trace + plan[..c], plan[c]), after.landed)
    ensures Outcome(terms, before, plan, after, Err(e))
  {
    Extend(before.trace, plan, c);
    assert StoppedAt(terms, before, plan, after, e, c);
  }

  lemma NothingWritten(landed: seq<Landing>)
    ensures PartlyWritten(landed, [], landed)
  {
    assert IsPart([], []) && landed + [] == landed;
  }

  lemma Extend(before: seq<Op>, plan: seq<Op>, c: nat)
    requires c < |plan|
    ensures before + plan[..c] + [plan[c]] == before + plan[..c + 1]
    ensures Landings(before, plan[..c + 1]) == Landings(before, plan[..c]) + OpLandings(before + plan[..c], plan[c])
    ensures c + 1 == |plan| ==> plan[..c + 1] == plan
  {
    assert plan[..c + 1][..c] == plan[..c];
  }

  /** The linear barrier, in ranks: the first member waits for all others in order and then
      notifies them in one scatter, every other notifies it and waits for it. */
  lemma LinearPlanIs(n: nat, peers: seq<nat>, idx: nat)
    requires ValidPeers(peers, n) && |peers| >= 2 && idx < |peers|
    ensures peers[idx] in peers
    ensures
      var plan := RankPlan(Centralized, n, peers, peers[idx]);
      if idx == 0 then
        && |plan| == |peers| && plan[|peers| - 1] == Notify(peers[1..])
        && forall p :: 0 <= p < |peers| - 1 ==> plan[p] == Wait(peers[p + 1])
      else plan == [Notify([peers[0]]), Wait(peers[0])]
  {
    assert peers[idx] in peers;
    LinearSteps(n, peers, peers[idx]);
    IndexIsUnique(peers, n, idx);
    IndexIsUnique(peers, n, 0);
  }

  function Waits(ranks: seq<nat>): seq<Op> {
    seq(|ranks|, x requires 0 <= x < |ranks| => Wait(ranks[x]))
  }

  /** The ranks of the members at 2 `idx` + 1 and 2 `idx` + 2, as far as they exist. */
  function Children(peers: seq<nat>, idx: nat): seq<nat> {
    (if 2 * idx + 1 < |peers| then [peers[2 * idx + 1]] else []) +
    (if 2 * idx + 2 < |peers| then [peers[2 * idx + 2]] else [])
  }

  /** The tree, in ranks: waits for the children, notifies and awaits the parent, which is the
      member at (`idx` - 1) / 2, and notifies the children in one scatter. */
  lemma TreePlanIs(n: nat, peers: seq<nat>, idx: nat)
    requires ValidPeers(peers, n) && |peers| >= 2 && idx < |peers|
    ensures peers[idx] in peers
    ensures RankPlan(Algorithm.BinaryTree, n, peers, peers[idx]) ==
            Waits(Children(peers, idx)) +
            (if idx == 0 then [] else [Notify([peers[(idx - 1) / 2]]), Wait(peers[(idx - 1) / 2])]) +
            [Notify(Children(peers, idx))]
  {
    TreeSteps(n, peers, idx);
    TreePlanForm(RankPlan(Algorithm.BinaryTree, n, peers, peers[idx]), peers, idx);
  }

  lemma TreePlanForm(plan: seq<Op>, peers: seq<nat>, idx: nat)
    requires |peers| >= 2 && idx < |peers| && TreePlan(plan, peers, idx)
    ensures plan == Waits(Children(peers, idx)) +
                    (if idx == 0 then [] else [Notify([peers[(idx - 1) / 2]]), Wait(peers[(idx - 1) / 2])]) +
                    [Notify(Children(peers, idx))]
  {
    assert MapPeers(peers, BinaryTree.ChildIndices(idx, |peers|)) == Children(peers, idx);
  }

  /** The dissemination barrier, in ranks: as long as 2^r is less than the number of members,
      round r notifies the member 2^r to the right on the ring and waits for that to the left. */
  lemma RoundPlanIs(n: nat, peers: seq<nat>, idx: nat, r: nat)
    requires ValidPeers(peers, n) && |peers| >= 2 && idx < |peers|
    ensures peers[idx] in peers && IsRound(RankPlan(Algorithm.Dissemination, n, peers, peers[idx]), peers, idx, r)
  {
    RoundSteps(n, peers, idx);
    RoundPlanForm(RankPlan(Algorithm.Dissemination, n, peers, peers[idx]), peers, idx, r);
  }

  ghost predicate IsRound(plan: seq<Op>, peers: seq<nat>, idx: nat, r: nat)
    requires idx < |peers|
  {
    && |plan| % 2 == 0 && (Pow2(r) < |peers| <==> 2 * r < |plan|)
    && (Pow2(r) < |peers| ==>
          && plan[2 * r] == Notify([peers[(idx + Pow2(r)) % |peers|]])
          && plan[2 * r + 1] == Wait(peers[(idx + |peers| - Pow2(r)) % |peers|]))
  }

  lemma RoundPlanForm(plan: seq<Op>, peers: seq<nat>, idx: nat, r: nat)
    requires |peers| >= 2 && 2 * |peers| <= Dissemination.USIZE_MAX && idx < |peers| && RoundPlan(plan, peers, idx)
    ensures IsRound(plan, peers, idx, r)
  {
    RoundCount(|peers|, r);
    if Pow2(r) < |peers| {
      RoundAt(plan, peers, idx, r);
    }
  }

  lemma RoundAt(plan: seq<Op>, peers: seq<nat>, idx: nat, r: nat)
    requires |peers| >= 2 && 2 * |peers| <= Dissemination.USIZE_MAX && idx < |peers| && RoundPlan(plan, peers, idx)
    requires r < Dissemination.Rounds(|peers|)
    ensures 2 * r + 1 < |plan|
    ensures plan[2 * r] == Notify([peers[(idx + Pow2(r)) % |peers|]])
    ensures plan[2 * r + 1] == Wait(peers[(idx + |peers| - Pow2(r)) % |peers|])
  {
    Dissemination.PairOf(idx, |peers|, r);
  }

  lemma RoundCount(len: nat, r: nat)
    requires len >= 2 && 2 * len <= Dissemination.USIZE_MAX
    ensures Pow2(r) < len <==> r < Dissemination.Rounds(len)
  {
    Dissemination.RoundsAreCeilLog2(len);
    if r < Dissemination.Rounds(len) {
      Dissemination.PairOf(0, len, r);
    } else if Dissemination.Rounds(len) < r {
      Dissemination.Pow2Grows(Dissemination.Rounds(len), r);
    }
  }

  /** The leader's plan, in ranks. */
  ghost predicate LeaderPlan(plan: seq<Op>, peers: seq<nat>)
    requires |peers| >= 2
  {
    && |plan| == |peers|
    && (forall p :: 0 <= p < |peers| - 1 ==> plan[p] == Wait(peers[p + 1]))
    && plan[|peers| - 1] == Notify(peers[1..]) && Distinct(peers[1..])
  }

  lemma LeaderOps(peers: seq<nat>)
    requires |peers| >= 2 && Distinct(peers) && PlanInGroup(Linear.Plan(0, |peers|), |peers|)
    ensures LeaderPlan(MapPlan(peers, Linear.Plan(0, |peers|)), peers)
  {
    Linear.LeaderPlan(|peers|);
    assert MapPeers(peers, Linear.Followers(|peers|)) == peers[1..];
  }

  lemma FollowerOps(peers: seq<nat>, idx: nat)
    requires |peers| >= 2 && 0 < idx < |peers| && PlanInGroup(Linear.Plan(idx, |peers|), |peers|)
    ensures MapPlan(peers, Linear.Plan(idx, |peers|)) == [Notify([peers[0]]), Wait(peers[0])]
  {
    assert MapPeers(peers, [0]) == [peers[0]];
  }

  lemma LinearSteps(n: nat, peers: seq<nat>, rank: nat)
    requires ValidPeers(peers, n) && |peers| >= 2 && rank in peers
    ensures rank < n
    ensures rank == peers[0] ==> LeaderPlan(RankPlan(Centralized, n, peers, rank), peers)
    ensures rank != peers[0] ==> RankPlan(Centralized, n, peers, rank) == [Notify([peers[0]]), Wait(peers[0])]
  {
    var idx := IndexOf(peers, rank);
    RankPlanAt(Centralized, n, peers, idx);
    if rank == peers[0] {
      IndexIsUnique(peers, n, 0);
      LeaderOps(peers);
    } else {
      FollowerOps(peers, idx);
    }
  }

  /** The plan of position `idx` of the tree, in ranks. */
  ghost predicate TreePlan(plan: seq<Op>, peers: seq<nat>, idx: nat)
    requires idx < |peers|
  {
    var indices := BinaryTree.ChildIndices(idx, |peers|);
    && (forall x :: 0 <= x < |indices| ==> indices[x] < |peers|)
    && |plan| == |indices| + (if idx == 0 then 1 else 3)
    && (forall x :: 0 <= x < |indices| ==> plan[x] == Wait(peers[indices[x]]))
    && (idx > 0 ==> plan[|indices|] == Notify([peers[(idx - 1) / 2]]) && plan[|indices| + 1] == Wait(peers[(idx - 1) / 2]))
    && plan[|plan| - 1] == Notify(MapPeers(peers, indices)) && Distinct(MapPeers(peers, indices))
  }

  lemma TreeOps(peers: seq<nat>, idx: nat)
    requires |peers| >= 2 && idx < |peers| && Distinct(peers)
    requires PlanInGroup(BinaryTree.Plan(idx, |peers|), |peers|)
    ensures TreePlan(MapPlan(peers, BinaryTree.Plan(idx, |peers|)), peers, idx)
  {
    BinaryTree.Shape(idx, |peers|);
    if idx > 0 {
      assert MapPeers(peers, [(idx - 1) / 2]) == [peers[(idx - 1) / 2]];
    }
  }

  lemma TreeSteps(n: nat, peers: seq<nat>, idx: nat)
    requires ValidPeers(peers, n) && |peers| >= 2 && idx < |peers|
    ensures peers[idx] in peers && TreePlan(RankPlan(Algorithm.BinaryTree, n, peers, peers[idx]), peers, idx)
  {
    RankPlanAt(Algorithm.BinaryTree, n, peers, idx);
    TreeOps(peers, idx);
  }

  /** The rounds of position `idx`, in ranks. */
  ghost predicate RoundPlan(plan: seq<Op>, peers: seq<nat>, idx: nat)
    requires idx < |peers|
  {
    var pairs := Dissemination.RoundPairs(idx, |peers|);
    && |plan| == 2 * |pairs|
    && forall x :: 0 <= x < |pairs| ==>
         && pairs[x].0 < |peers| && pairs[x].1 < |peers|
         && plan[2 * x] == Notify([peers[pairs[x].0]]) && plan[2 * x + 1] == Wait(peers[pairs[x].1])
  }

  lemma RoundOps(peers: seq<nat>, idx: nat, x: nat)
    requires |peers| >= 2 && 2 * |peers| <= Dissemination.USIZE_MAX && idx < |peers|
    requires x < |Dissemination.RoundPairs(idx, |peers|)|
    requires PlanInGroup(Dissemination.Plan(idx, |peers|), |peers|)
    ensures
      var pairs, plan := Dissemination.RoundPairs(idx, |peers|), MapPlan(peers, Dissemination.Plan(idx, |peers|));
      && pairs[x].0 < |peers| && pairs[x].1 < |peers| && |plan| == 2 * |pairs|
      && plan[2 * x] == Notify([peers[pairs[x].0]]) && plan[2 * x + 1] == Wait(peers[pairs[x].1])
  {
    var pairs := Dissemination.RoundPairs(idx, |peers|);
    Dissemination.PairOf(idx, |peers|, x);
    Dissemination.PairsPlanAt(pairs, x);
    assert MapPeers(peers, [pairs[x].0]) == [peers[pairs[x].0]];
  }

  lemma RoundSteps(n: nat, peers: seq<nat>, idx: nat)
    requires ValidPeers(peers, n) && |peers| >= 2 && idx < |peers|
    ensures peers[idx] in peers && RoundPlan(RankPlan(Algorithm.Dissemination, n, peers, peers[idx]), peers, idx)
  {
    RankPlanAt(Algorithm.Dissemination, n, peers, idx);
    var pairs := Dissemination.RoundPairs(idx, |peers|);
    forall x | 0 <= x < |pairs|
      ensures pairs[x].0 < |peers| && pairs[x].1 < |peers|
      ensures RankPlan(Algorithm.Dissemination, n, peers, peers[idx])[2 * x] == Notify([peers[pairs[x].0]])
      ensures RankPlan(Algorithm.Dissemination, n, peers, peers[idx])[2 * x + 1] == Wait(peers[pairs[x].1])
    {
      RoundOps(peers, idx, x);
    }
  }
}
