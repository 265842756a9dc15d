/** The results about whole runs, for any system of well-formed instances. */
module BarrierRuns {
  import opened Plans
  import opened BarrierSystem
  import opened BarrierInvariant
  import opened BarrierPreservation
  import opened BarrierTheorems
  import opened BarrierTermination
  import opened WriteCounts

  lemma Safety(sys: System, run: seq<State>, acts: seq<Action>, t: nat, k: nat, i: nat, r: nat)
    requires GoodSystem(sys) && Run(sys, run, acts) && t < |run| && k < |sys.instances|
    requires HasClock(sys.instances[k]) && Synchronizes(sys.instances[k])
    requires i in sys.instances[k].group && r in sys.instances[k].group
    ensures |run[t]| == sys.n && i < sys.n && r < sys.n
    ensures Returned(run[t][i], k) ==> Entered(run[t][r], k)
  {
    RunKeepsInv(sys, run, acts, t);
    assert WellFormed(sys.instances[k], sys.n);
    if Returned(run[t][i], k) {
      ReturnedMeansAllEntered(sys, run[t], k, i, r);
    }
  }

  lemma Finishes(sys: System, run: seq<State>, acts: seq<Action>)
    requires GoodSystem(sys) && Run(sys, run, acts) && AllHaveClocks(sys)
    ensures Shape(sys, Init(sys)) && |acts| <= Work(sys, Init(sys), sys.n)
    ensures Shape(sys, run[|acts|])
    ensures FailureFree(acts) && Stuck(sys, run[|acts|]) ==>
              forall i :: 0 <= i < sys.n ==> run[|acts|][i].phase.Idle? && run[|acts|][i].call == |sys.instances|
  {
    RunsAreBounded(sys, run, acts);
    RunKeepsInv(sys, run, acts, |acts|);
    if FailureFree(acts) && Stuck(sys, run[|acts|]) {
      forall i | 0 <= i < sys.n
        ensures run[|acts|][i].phase.Idle? && run[|acts|][i].call == |sys.instances|
      {
        EveryCallFinishes(sys, run, acts, i);
      }
    }
  }

  lemma RunAhead(sys: System, run: seq<State>, acts: seq<Action>, t: nat, i: nat, j: nat)
    requires GoodSystem(sys) && Run(sys, run, acts) && t < |run| && i < sys.n && j < sys.n
    ensures Shape(sys, run[t])
    ensures Polling(sys, j, run[t][j], i) && AllHaveClocks(sys) && AllSynchronize(sys) ==>
              run[t][j].incoming[i] <= run[t][j].expected[i] + 1
    ensures Polling(sys, j, run[t][j], i) && AllHandshake(sys) ==> run[t][j].incoming[i] <= run[t][j].expected[i]
  {
    RunKeepsInv(sys, run, acts, t);
    if Polling(sys, j, run[t][j], i) && AllHaveClocks(sys) && AllSynchronize(sys) {
      RunAheadBound(sys, run[t], j, i);
    }
    if Polling(sys, j, run[t][j], i) && AllHandshake(sys) {
      NoRunAhead(sys, run[t], j, i);
    }
  }

  /** All nodes are between calls with the same instances behind them. */
  ghost predicate Quiescent(s: State, k: nat) {
    forall r :: 0 <= r < |s| ==> s[r].phase.Idle? && s[r].call == k
  }

  /** The three counters of every directed edge agree. */
  ghost predicate Settled(sys: System, s: State)
    requires Shape(sys, s)
  {
    forall i, j :: 0 <= i < sys.n && 0 <= j < sys.n && i != j ==> s[i].out[j] == s[j].incoming[i] == s[j].expected[i]
  }

  lemma QuiescentIsSettled(sys: System, run: seq<State>, acts: seq<Action>, t: nat, k: nat)
    requires GoodSystem(sys) && Run(sys, run, acts) && t < |run| && k <= |sys.instances| && Quiescent(run[t], k)
    ensures Shape(sys, run[t]) && Settled(sys, run[t])
    ensures TotalOut(sys, run[t], sys.n) == WritesUpTo(sys, k)
  {
    RunKeepsInv(sys, run, acts, t);
    forall i, j | 0 <= i < sys.n && 0 <= j < sys.n && i != j
      ensures run[t][i].out[j] == run[t][j].incoming[i] == run[t][j].expected[i]
    {
      Quiescence(sys, run[t], k, i, j);
    }
    TotalOutIsWrites(sys, run[t], k);
  }

  /** Only writes that were already under way changed the node, by landing at its peers or by
      reaching it from them. */
  ghost predicate Frozen(before: NodeState, after: NodeState) {
    && after == before.(pending := after.pending, incoming := after.incoming)
    && after.pending <= before.pending
  }

  lemma {:induction false} FailedIsFrozen(sys: System, run: seq<State>, acts: seq<Action>, t: nat, u: nat, i: nat)
    requires GoodSystem(sys) && Run(sys, run, acts) && t <= u < |run| && i < sys.n
    requires |run[t]| == sys.n && run[t][i].phase.Failed?
    ensures |run[u]| == sys.n && Frozen(run[t][i], run[u][i])
  {
    if t < u {
      FailedIsFrozen(sys, run, acts, t, u - 1, i);
      assert Next(sys, run[u - 1], acts[u - 1], run[u]);
      FailedNodeIsFrozen(sys, run[u - 1], acts[u - 1], i);
    }
  }

  /** What a node knows after `p` operations of its call has entered. */
  lemma Heard(sys: System, run: seq<State>, acts: seq<Action>, t: nat, k: nat, i: nat, r: nat, p: nat,
              know: (nat, nat) -> set<nat>)
    requires GoodSystem(sys) && Run(sys, run, acts) && t < |run| && k < |sys.instances|
    requires HasClock(sys.instances[k]) && Knowledge(sys.instances[k], know)
    requires i in sys.instances[k].group && r in sys.instances[k].group && i < sys.n && r < sys.n
    requires p <= |sys.instances[k].plans[i]| && r in know(i, p)
    ensures |run[t]| == sys.n
    ensures HasDone(run[t][i], k, p) ==> Entered(run[t][r], k)
  {
    RunKeepsInv(sys, run, acts, t);
    if HasDone(run[t][i], k, p) {
      KnownHaveEntered(sys, run[t], k, i, p, r, ClockOf(sys.instances[k]), know);
    }
  }

  /** Node `nd` has carried out the first `p` operations of its call for instance `k`. */
  ghost predicate HasDone(nd: NodeState, k: nat, p: nat) {
    Entered(nd, k) && (nd.call == k ==> p <= nd.pc)
  }
}
