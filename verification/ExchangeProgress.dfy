/** The exchange never deadlocks, and every run of it ends. */
module ExchangeProgress {
  import opened Arithmetic
  import opened Framing
  import opened Exchange
  import opened ExchangeSafety

  ghost predicate CanStep<T>(w: World<T>)
    requires Shape(w)
  {
    exists a :: Enabled(w, a)
  }

  /** A node that serves can go on as long as a lower rank is missing whose connection it has
      not answered; that is, unless it waits for a peer that can go on itself. */
  lemma ServerCanStep<T>(w: World<T>, j: nat, p: nat)
    requires Inv(w) && IsPair(|w.data|, p, j) && w.nodes[j].phase.Reading?
    ensures CanStep(w)
  {
    assert NodeOk(w.data, w.nodes[j], j);
    var q := w.nodes[j].phase.peer;
    assert PairOk(w, q, j);
    assert NodeOk(w.data, w.nodes[q], q);
    match Client(w.nodes[q].phase, j)
    case Before =>
    case Fetch => assert Enabled(w, ConnectRead(q));
    case Send => assert Enabled(w, ConnectWrite(q));
    case After => assert Enabled(w, ServeRead(j));
  }

  lemma MissingOne<T>(w: World<T>, j: nat, p: nat)
    requires Inv(w) && p < j < |w.data| && p !in w.nodes[j].served
    ensures |w.nodes[j].served| < j
  {
    var served := w.nodes[j].served;
    assert NodeOk(w.data, w.nodes[j], j);
    assert served.Keys <= UpTo(j) - {p};
    SubsetSize(served.Keys, UpTo(j) - {p});
    assert |served.Keys| == |served|;
  }

  /** Whoever waits for an answer of a higher rank, somebody can go on. */
  lemma FetchingCanStep<T>(w: World<T>, i: nat)
    requires Inv(w) && i < |w.data| && w.nodes[i].phase.Fetching?
    ensures CanStep(w)
  {
    assert NodeOk(w.data, w.nodes[i], i);
    var j := w.nodes[i].phase.peer;
    assert PairOk(w, i, j);
    var server := w.nodes[j];
    assert NodeOk(w.data, server, j);
    if server.phase.Idle? {
      assert Enabled(w, Bind(j));
    } else if server.phase.Writing? {
      assert Enabled(w, ServeWrite(j));
    } else if server.phase.Reading? {
      ServerCanStep(w, j, i);
    } else if server.phase.Serving? {
      MissingOne(w, j, i);
      assert Enabled(w, Accept(j, i));
    }
  }

  lemma ConnectingCanStep<T>(w: World<T>, i: nat)
    requires Inv(w) && i < |w.data| && w.nodes[i].phase.Connecting?
    ensures CanStep(w)
  {
    assert NodeOk(w.data, w.nodes[i], i);
    var j := w.nodes[i].phase.peer;
    if j == |w.data| {
      assert Enabled(w, Finish(i));
    } else {
      assert PairOk(w, i, j);
      var server := w.nodes[j];
      assert NodeOk(w.data, server, j);
      if server.phase.Idle? {
        assert Enabled(w, Bind(j));
      } else if Listening(server.phase) {
        assert Enabled(w, Connect(i));
      }
    }
  }

  /** The lowest rank that is not done has nobody below it left to wait for. */
  lemma ServingCanStep<T>(w: World<T>, i: nat)
    requires Inv(w) && i < |w.data| && w.nodes[i].phase.Serving?
    requires forall p: nat :: p < i ==> w.nodes[p].phase.Done?
    ensures CanStep(w)
  {
    var served := w.nodes[i].served;
    forall p: nat | p < i
      ensures p in served
    {
      assert PairOk(w, p, i);
    }
    assert UpTo(i) <= served.Keys;
    SubsetSize(UpTo(i), served.Keys);
    assert Enabled(w, StopServing(i));
  }

  lemma LowestCanStep<T>(w: World<T>, i: nat)
    requires Inv(w) && i < |w.data| && !w.nodes[i].phase.Done?
    requires forall p: nat :: p < i ==> w.nodes[p].phase.Done?
    ensures CanStep(w)
  {
    assert NodeOk(w.data, w.nodes[i], i);
    match w.nodes[i].phase
    case Idle => assert Enabled(w, Bind(i));
    case Serving => ServingCanStep(w, i);
    case Writing(p) => assert Enabled(w, ServeWrite(i));
    case Reading(p) => ServerCanStep(w, i, p);
    case Connecting(j) => ConnectingCanStep(w, i);
    case Fetching(j) => FetchingCanStep(w, i);
    case Sending(j) => assert Enabled(w, ConnectWrite(i));
  }

  /** No deadlock: as long as some node is not done, some node can take a step. */
  lemma {:induction false} NoDeadlock<T>(w: World<T>, i: nat)
    requires Inv(w) && i < |w.data| && !w.nodes[i].phase.Done?
    ensures CanStep(w)
  {
    if p: nat :| p < i && !w.nodes[p].phase.Done? {
      NoDeadlock(w, p);
    } else {
      LowestCanStep(w, i);
    }
  }

  /** The steps node `i` of `n` has left. */
  function Left<T>(node: Node<T>, i: nat, n: nat): int {
    var serve := 3 * (i - |node.served|);
    var connect := 3 * (n - i - 1) + 1;
    match node.phase
    case Idle => 1 + serve + 1 + connect
    case Serving => serve + 1 + connect
    case Writing(_) => serve + connect
    case Reading(_) => serve - 1 + connect
    case Connecting(j) => 3 * (n - j) + 1
    case Fetching(j) => 3 * (n - j)
    case Sending(j) => 3 * (n - j) - 1
    case Done => 0
  }

  function TotalLeft<T>(nodes: seq<Node<T>>, k: nat, n: nat): int
    requires k <= |nodes|
  {
    if k == 0 then 0 else TotalLeft(nodes, k - 1, n) + Left(nodes[k - 1], k - 1, n)
  }

  lemma {:induction false} TotalOfUpdate<T>(nodes: seq<Node<T>>, i: nat, node: Node<T>, k: nat, n: nat)
    requires i < |nodes| && k <= |nodes|
    ensures TotalLeft(nodes[i := node], k, n) ==
            TotalLeft(nodes, k, n) + (if i < k then Left(node, i, n) - Left(nodes[i], i, n) else 0)
  {
    if k > 0 {
      TotalOfUpdate(nodes, i, node, k - 1, n);
    }
  }

  /** The step of a node brings it one step nearer to its end, and moves nobody else. */
  lemma StepOfOne<T>(w: World<T>, a: Action)
    requires Inv(w) && Enabled(w, a)
    ensures Apply(w, a).nodes == w.nodes[a.i := Apply(w, a).nodes[a.i]]
    ensures Left(Apply(w, a).nodes[a.i], a.i, |w.data|) == Left(w.nodes[a.i], a.i, |w.data|) - 1
  {
    var i, n := a.i, |w.data|;
    var node := w.nodes[i];
    assert NodeOk(w.data, node, i);
    if a.ServeRead? {
      ServedOneMore(w, i);
    }
    if a.StopServing? {
      ServedAtMost(w, i);
    }
  }

  lemma OneStepFewer<T>(w: World<T>, a: Action)
    requires Inv(w) && Enabled(w, a)
    ensures TotalLeft(Apply(w, a).nodes, |w.data|, |w.data|) == TotalLeft(w.nodes, |w.data|, |w.data|) - 1
  {
    StepOfOne(w, a);
    TotalOfUpdate(w.nodes, a.i, Apply(w, a).nodes[a.i], |w.data|, |w.data|);
  }

  lemma ServedOneMore<T>(w: World<T>, i: nat)
    requires Inv(w) && Enabled(w, ServeRead(i))
    ensures |Apply(w, ServeRead(i)).nodes[i].served| == |w.nodes[i].served| + 1
  {
    var p := w.nodes[i].phase.peer;
    assert NodeOk(w.data, w.nodes[i], i);
    assert PairOk(w, p, i);
    assert InsertIfValid(w.nodes[i].served, w.links[(p, i)].up[0], 0, i) == w.nodes[i].served[p := w.data[p]];
  }

  lemma {:induction false} AtTheStart<T>(data: seq<T>, k: nat)
    requires k <= |data|
    ensures TotalLeft(Init(data).nodes, k, |data|) == 3 * |data| * k
  {
    if k > 0 {
      AtTheStart(data, k - 1);
      assert Left(Init(data).nodes[k - 1], k - 1, |data|) == 3 * |data|;
    }
  }

  /** The steps all nodes of `w` have left. */
  function WorldLeft<T>(w: World<T>): int {
    TotalLeft(w.nodes, |w.nodes|, |w.nodes|)
  }

  lemma EachStepCounts<T>(data: seq<T>, worlds: seq<World<T>>, actions: seq<Action>, t: nat)
    requires Run(data, worlds, actions) && t < |actions|
    ensures WorldLeft(worlds[t + 1]) == WorldLeft(worlds[t]) - 1
  {
    var w, a := worlds[t], actions[t];
    RunKeeps(data, worlds, actions, t);
    OneStepFewer(w, a);
    StepOfOne(w, a);
  }

  lemma {:induction false} CountingDown(left: seq<int>, t: nat)
    requires t < |left|
    requires forall u :: 0 < u < |left| ==> left[u] == left[u - 1] - 1
    ensures left[t] == left[0] - t
  {
    if t > 0 {
      CountingDown(left, t - 1);
    }
  }

  lemma StepsCount<T>(data: seq<T>, worlds: seq<World<T>>, actions: seq<Action>, t: nat)
    requires Run(data, worlds, actions) && t < |worlds|
    ensures WorldLeft(worlds[t]) == WorldLeft(Init(data)) - t
  {
    var left := seq(|worlds|, u requires 0 <= u < |worlds| => WorldLeft(worlds[u]));
    forall u | 0 < u < |left|
      ensures left[u] == left[u - 1] - 1
    {
      EachStepCounts(data, worlds, actions, u - 1);
    }
    CountingDown(left, t);
  }

  /** Whatever the interleaving, after `t` steps exactly `3 n^2 - t` are left to take. */
  lemma StepsAreCounted<T>(data: seq<T>, worlds: seq<World<T>>, actions: seq<Action>, t: nat)
    requires Run(data, worlds, actions) && t < |worlds|
    ensures |worlds[t].nodes| == |data|
    ensures TotalLeft(worlds[t].nodes, |data|, |data|) == 3 * |data| * |data| - t
  {
    RunKeeps(data, worlds, actions, t);
    StepsCount(data, worlds, actions, t);
    AtTheStart(data, |data|);
  }

  lemma {:induction false} SumOfNaturals<T>(nodes: seq<Node<T>>, k: nat, n: nat)
    requires k <= |nodes| && forall i: nat :: i < k ==> Left(nodes[i], i, n) >= 0
    ensures TotalLeft(nodes, k, n) >= 0
    ensures TotalLeft(nodes, k, n) == 0 ==> forall i: nat :: i < k ==> Left(nodes[i], i, n) == 0
  {
    if k > 0 {
      SumOfNaturals(nodes, k - 1, n);
    }
  }

  lemma LeftIsNatural<T>(w: World<T>)
    requires Inv(w)
    ensures TotalLeft(w.nodes, |w.data|, |w.data|) >= 0
    ensures TotalLeft(w.nodes, |w.data|, |w.data|) == 0 ==> forall i: nat :: i < |w.data| ==> w.nodes[i].phase.Done?
  {
    forall i: nat | i < |w.data|
      ensures Left(w.nodes[i], i, |w.data|) >= 0
      ensures Left(w.nodes[i], i, |w.data|) == 0 ==> w.nodes[i].phase.Done?
    {
      ServedAtMost(w, i);
    }
    SumOfNaturals(w.nodes, |w.data|, |w.data|);
  }

  lemma ServedAtMost<T>(w: World<T>, i: nat)
    requires Inv(w) && i < |w.data|
    ensures |w.nodes[i].served| <= i
    ensures Left(w.nodes[i], i, |w.data|) >= 0
    ensures Left(w.nodes[i], i, |w.data|) == 0 ==> w.nodes[i].phase.Done?
  {
    var served := w.nodes[i].served;
    assert NodeOk(w.data, w.nodes[i], i);
    assert served.Keys <= UpTo(i);
    SubsetSize(served.Keys, UpTo(i));
    assert |served.Keys| == |served|;
    if w.nodes[i].phase.Writing? || w.nodes[i].phase.Reading? {
      MissingOne(w, i, w.nodes[i].phase.peer);
    }
  }

  /** Every run ends: it has at most `3 n^2` steps, and one that cannot be continued has taken
      exactly that many and every node is done. */
  lemma ExchangeFinishes<T>(data: seq<T>, worlds: seq<World<T>>, actions: seq<Action>)
    requires Run(data, worlds, actions)
    ensures |actions| <= 3 * |data| * |data|
    ensures Inv(worlds[|actions|]) && worlds[|actions|].data == data
    ensures !CanStep(worlds[|actions|]) ==> forall i: nat :: i < |data| ==> worlds[|actions|].nodes[i].phase.Done?
    ensures |actions| == 3 * |data| * |data| ==> forall i: nat :: i < |data| ==> worlds[|actions|].nodes[i].phase.Done?
  {
    var w := worlds[|actions|];
    RunKeeps(data, worlds, actions, |actions|);
    StepsAreCounted(data, worlds, actions, |actions|);
    LeftIsNatural(w);
    if i: nat :| i < |data| && !w.nodes[i].phase.Done? {
      NoDeadlock(w, i);
    }
  }
}
