/** What holds in every state of the exchange, and what it gives: complete results, no panic,
    no deadlock, and an end. */
module ExchangeSafety {
  import opened Wrappers
  import opened Arithmetic
  import opened Framing
  import opened Exchange

  /** A node knows only true things, and by its phase, enough of them. */
  ghost predicate NodeOk<T>(data: seq<T>, node: Node<T>, i: nat) {
    && (forall k :: k in node.served ==> k < i < |data| && node.served[k] == data[k])
    && (forall k :: k in node.fetched ==> i < k < |data| && node.fetched[k] == data[k])
    && match node.phase
       case Idle => node.served == map[]
       case Serving => true
       case Writing(p) => p < i && p !in node.served
       case Reading(p) => p < i && p !in node.served
       case Connecting(j) => i < j <= |data| && Serves(node, i) && Fetched(node, i, j)
       case Fetching(j) => i < j < |data| && Serves(node, i) && Fetched(node, i, j)
       case Sending(j) => i < j < |data| && Serves(node, i) && Fetched(node, i, j + 1)
       case Done => Serves(node, i) && Fetched(node, i, |data|)
  }

  /** The node has the data of all lower ranks. */
  ghost predicate Serves<T>(node: Node<T>, i: nat) {
    forall k: nat :: k < i ==> k in node.served
  }

  /** The node has the data of the higher ranks below `j`. */
  ghost predicate Fetched<T>(node: Node<T>, i: nat, j: nat) {
    forall k: nat :: i < k < j ==> k in node.fetched
  }

  /** How far a lower rank has come with a higher one, and the other way round. */
  datatype ClientStage = Before | Fetch | Send | After

  datatype ServerStage = NotYet | Write | Read | Served

  function Client(phase: Phase, j: nat): ClientStage {
    match phase
    case Connecting(k) => if k <= j then Before else After
    case Fetching(k) => if j < k then After else if k == j then Fetch else Before
    case Sending(k) => if j < k then After else if k == j then Send else Before
    case Done => After
    case _ => Before
  }

  function Server<T>(node: Node<T>, p: nat): ServerStage {
    if node.phase == Writing(p) then Write
    else if node.phase == Reading(p) then Read
    else if p in node.served then Served
    else NotYet
  }

  /** What the connection between ranks `p < j` must look like at each combination of stages;
      the other combinations never occur. */
  function Expected<T>(c: ClientStage, s: ServerStage, p: nat, mine: T, j: nat, theirs: T): Option<Link<T>> {
    match (c, s)
    case (Before, NotYet) => Some(Silent())
    case (Fetch, NotYet) => Some(Link(true, [], []))
    case (Fetch, Write) => Some(Silent())
    case (Fetch, Read) => Some(Link(false, [Message(j, theirs)], []))
    case (Send, Read) => Some(Silent())
    case (After, Read) => Some(Link(false, [], [Message(p, mine)]))
    case (After, Served) => Some(Silent())
    case _ => None
  }

  ghost predicate PairOk<T>(w: World<T>, p: nat, j: nat)
    requires Shape(w) && IsPair(|w.data|, p, j)
  {
    Some(w.links[(p, j)]) == Expected(Client(w.nodes[p].phase, j), Server(w.nodes[j], p), p, w.data[p], j, w.data[j])
  }

  ghost predicate Inv<T>(w: World<T>) {
    && Shape(w)
    && (forall i: nat :: i < |w.data| ==> NodeOk(w.data, w.nodes[i], i))
    && (forall p: nat, j: nat :: IsPair(|w.data|, p, j) ==> PairOk(w, p, j))
  }

  lemma InitIsGood<T>(data: seq<T>)
    ensures Inv(Init(data))
  {
  }

  /** Node `i` has come no closer to any other than it was. */
  ghost predicate SameStages<T>(n: nat, before: Node<T>, after: Node<T>, i: nat, x: nat, y: nat) {
    && (forall j: nat :: i < j < n && (i, j) != (x, y) ==> Client(after.phase, j) == Client(before.phase, j))
    && (forall p: nat :: p < i && (p, i) != (x, y) ==> Server(after, p) == Server(before, p))
  }

  /** A step of node `i` alone. */
  lemma NodeStepKeeps<T>(w: World<T>, i: nat, node: Node<T>)
    requires Inv(w) && i < |w.data| && NodeOk(w.data, node, i) && SameStages(|w.data|, w.nodes[i], node, i, i, i)
    ensures Inv(w.(nodes := w.nodes[i := node]))
  {
    var v := w.(nodes := w.nodes[i := node]);
    forall p: nat, j: nat | IsPair(|w.data|, p, j)
      ensures PairOk(v, p, j)
    {
      assert PairOk(w, p, j);
    }
  }

  /** A step of node `i` on its connection between `x` and `y`. */
  lemma LinkStepKeeps<T>(w: World<T>, i: nat, node: Node<T>, x: nat, y: nat, link: Link<T>)
    requires Inv(w) && i < |w.data| && NodeOk(w.data, node, i) && IsPair(|w.data|, x, y) && i in {x, y}
    requires SameStages(|w.data|, w.nodes[i], node, i, x, y)
    requires
      var c := if i == x then node else w.nodes[x];
      var s := if i == y then node else w.nodes[y];
      Some(link) == Expected(Client(c.phase, y), Server(s, x), x, w.data[x], y, w.data[y])
    ensures Inv(Wire(w.(nodes := w.nodes[i := node]), x, y, link))
  {
    var v := Wire(w.(nodes := w.nodes[i := node]), x, y, link);
    forall p: nat, j: nat | IsPair(|w.data|, p, j)
      ensures PairOk(v, p, j)
    {
      assert PairOk(w, p, j);
    }
  }

  lemma BindKeeps<T>(w: World<T>, i: nat)
    requires Inv(w) && Enabled(w, Bind(i))
    ensures Inv(Apply(w, Bind(i)))
  {
    NodeStepKeeps(w, i, w.nodes[i].(phase := Serving));
  }

  lemma AcceptKeeps<T>(w: World<T>, i: nat, p: nat)
    requires Inv(w) && Enabled(w, Accept(i, p))
    ensures Inv(Apply(w, Accept(i, p)))
  {
    assert PairOk(w, p, i);
    LinkStepKeeps(w, i, w.nodes[i].(phase := Writing(p)), p, i, w.links[(p, i)].(pending := false));
  }

  lemma ServeWriteKeeps<T>(w: World<T>, i: nat)
    requires Inv(w) && Enabled(w, ServeWrite(i))
    ensures Inv(Apply(w, ServeWrite(i)))
  {
    var p := w.nodes[i].phase.peer;
    var link := w.links[(p, i)];
    assert PairOk(w, p, i);
    assert link.down + [Message(i, w.data[i])] == [Message(i, w.data[i])];
    LinkStepKeeps(w, i, w.nodes[i].(phase := Reading(p)), p, i, link.(down := link.down + [Message(i, w.data[i])]));
  }

  lemma ServeReadKeeps<T>(w: World<T>, i: nat)
    requires Inv(w) && Enabled(w, ServeRead(i))
    ensures Inv(Apply(w, ServeRead(i)))
  {
    var p := w.nodes[i].phase.peer;
    var link := w.links[(p, i)];
    assert PairOk(w, p, i);
    assert link.up[1..] == [];
    var served := InsertIfValid(w.nodes[i].served, link.up[0], 0, i);
    assert served == w.nodes[i].served[p := w.data[p]];
    LinkStepKeeps(w, i, Node(Serving, served, w.nodes[i].fetched), p, i, link.(up := link.up[1..]));
  }

  /** The server stops as soon as it has enough answers, and then has everybody's. */
  lemma EnoughIsAll<T>(w: World<T>, i: nat)
    requires Inv(w) && i < |w.data| && |w.nodes[i].served| >= i
    ensures Serves(w.nodes[i], i)
  {
    var served := w.nodes[i].served;
    assert NodeOk(w.data, w.nodes[i], i);
    assert served.Keys <= UpTo(i);
    SubsetOfSameSize(served.Keys, UpTo(i));
  }

  function UpTo(i: nat): (r: set<nat>)
    ensures |r| == i && forall k: nat :: k in r <==> k < i
  {
    if i == 0 then {} else UpTo(i - 1) + {i - 1}
  }

  lemma ServedToConnecting<T>(data: seq<T>, node: Node<T>, i: nat)
    requires i < |data| && NodeOk(data, node, i) && node.phase.Serving? && Serves(node, i)
    ensures NodeOk(data, node.(phase := Connecting(i + 1)), i)
    ensures SameStages(|data|, node, node.(phase := Connecting(i + 1)), i, i, i)
  {
  }

  lemma StopServingKeeps<T>(w: World<T>, i: nat)
    requires Inv(w) && Enabled(w, StopServing(i)) && Serves(w.nodes[i], i)
    ensures Inv(Apply(w, StopServing(i)))
  {
    var node := w.nodes[i].(phase := Connecting(i + 1));
    assert NodeOk(w.data, node, i) && SameStages(|w.data|, w.nodes[i], node, i, i, i) by {
      ServedToConnecting(w.data, w.nodes[i], i);
    }
    NodeStepKeeps(w, i, node);
    assert Apply(w, StopServing(i)) == w.(nodes := w.nodes[i := node]);
  }

  lemma ConnectKeeps<T>(w: World<T>, i: nat)
    requires Inv(w) && Enabled(w, Connect(i))
    ensures Inv(Apply(w, Connect(i)))
  {
    var j := w.nodes[i].phase.peer;
    assert PairOk(w, i, j);
    LinkStepKeeps(w, i, w.nodes[i].(phase := Fetching(j)), i, j, Link(true, [], []));
  }

  lemma ConnectReadKeeps<T>(w: World<T>, i: nat)
    requires Inv(w) && Enabled(w, ConnectRead(i))
    ensures Inv(Apply(w, ConnectRead(i)))
  {
    var j := w.nodes[i].phase.peer;
    var link := w.links[(i, j)];
    assert PairOk(w, i, j);
    assert link.down[1..] == [];
    var fetched := InsertIfValid(w.nodes[i].fetched, link.down[0], i + 1, |w.data|);
    assert fetched == w.nodes[i].fetched[j := w.data[j]];
    var node := Node(Sending(j), w.nodes[i].served, fetched);
    LinkStepKeeps(w, i, node, i, j, link.(down := link.down[1..]));
  }

  lemma SendingToConnecting<T>(data: seq<T>, node: Node<T>, i: nat, j: nat)
    requires NodeOk(data, node, i) && node.phase == Sending(j)
    ensures NodeOk(data, node.(phase := Connecting(j + 1)), i)
    ensures SameStages(|data|, node, node.(phase := Connecting(j + 1)), i, i, j)
    ensures Client(Connecting(j + 1), j) == After
  {
  }

  lemma ConnectWriteKeeps<T>(w: World<T>, i: nat)
    requires Inv(w) && Enabled(w, ConnectWrite(i))
    ensures Inv(Apply(w, ConnectWrite(i)))
  {
    var j := w.nodes[i].phase.peer;
    var link := w.links[(i, j)];
    assert PairOk(w, i, j);
    assert link.up + [Message(i, w.data[i])] == [Message(i, w.data[i])];
    var node := w.nodes[i].(phase := Connecting(j + 1));
    var sent := link.(up := link.up + [Message(i, w.data[i])]);
    assert
      && NodeOk(w.data, node, i) && SameStages(|w.data|, w.nodes[i], node, i, i, j)
      && Some(sent) == Expected(Client(node.phase, j), Server(w.nodes[j], i), i, w.data[i], j, w.data[j])
    by {
      SendingToConnecting(w.data, w.nodes[i], i, j);
    }
    LinkStepKeeps(w, i, node, i, j, sent);
    assert Apply(w, ConnectWrite(i)) == Wire(w.(nodes := w.nodes[i := node]), i, j, sent);
  }

  lemma FinishKeeps<T>(w: World<T>, i: nat)
    requires Inv(w) && Enabled(w, Finish(i))
    ensures Inv(Apply(w, Finish(i)))
  {
    NodeStepKeeps(w, i, w.nodes[i].(phase := Done));
  }

  lemma StepKeeps<T>(w: World<T>, a: Action)
    requires Inv(w) && Enabled(w, a)
    ensures Inv(Apply(w, a))
  {
    match a
    case Bind(i) => BindKeeps(w, i);
    case Accept(i, p) => AcceptKeeps(w, i, p);
    case ServeWrite(i) => ServeWriteKeeps(w, i);
    case ServeRead(i) => ServeReadKeeps(w, i);
    case StopServing(i) =>
      EnoughIsAll(w, i);
      StopServingKeeps(w, i);
    case Connect(i) => ConnectKeeps(w, i);
    case ConnectRead(i) => ConnectReadKeeps(w, i);
    case ConnectWrite(i) => ConnectWriteKeeps(w, i);
    case Finish(i) => FinishKeeps(w, i);
  }

  lemma {:induction false} RunKeeps<T>(data: seq<T>, worlds: seq<World<T>>, actions: seq<Action>, t: nat)
    requires Run(data, worlds, actions) && t < |worlds|
    ensures Inv(worlds[t]) && worlds[t].data == data
  {
    if t == 0 {
      InitIsGood(data);
    } else {
      RunKeeps(data, worlds, actions, t - 1);
      StepKeeps(worlds[t - 1], actions[t - 1]);
    }
  }

  /** What the exchange of node `i` returns: the served ranks, its own data, the fetched ranks;
      `None` if an `expect` fired. */
  function Outcome<T>(w: World<T>, i: nat): Option<seq<T>>
    requires i < |w.data| && |w.nodes| == |w.data|
  {
    match (Collect(w.nodes[i].served, 0, i), Collect(w.nodes[i].fetched, i + 1, |w.data|))
    case (Some(lower), Some(greater)) => Some(lower + [w.data[i]] + greater)
    case _ => None
  }

  lemma ServedData<T>(data: seq<T>, node: Node<T>, i: nat)
    requires i < |data| && NodeOk(data, node, i) && Serves(node, i)
    ensures Collect(node.served, 0, i) == Some(data[..i])
  {
    CollectIs(node.served, 0, i);
    assert Collect(node.served, 0, i).value == data[..i];
  }

  lemma FetchedData<T>(data: seq<T>, node: Node<T>, i: nat)
    requires i < |data| && NodeOk(data, node, i) && Fetched(node, i, |data|)
    ensures Collect(node.fetched, i + 1, |data|) == Some(data[i + 1..])
  {
    CollectIs(node.fetched, i + 1, |data|);
    assert Collect(node.fetched, i + 1, |data|).value == data[i + 1..];
  }

  /** In every run a node that is done returns everybody's data, each under its own rank, and
      neither `expect` has fired. */
  lemma ExchangeIsCorrect<T>(data: seq<T>, worlds: seq<World<T>>, actions: seq<Action>, t: nat, i: nat)
    requires Run(data, worlds, actions) && t < |worlds| && i < |data|
    ensures |worlds[t].nodes| == |worlds[t].data| == |data|
    ensures worlds[t].nodes[i].phase.Done? ==> Outcome(worlds[t], i) == Some(data)
    ensures worlds[t].nodes[i].phase.Connecting? ==> Collect(worlds[t].nodes[i].served, 0, i) == Some(data[..i])
  {
    RunKeeps(data, worlds, actions, t);
    var node := worlds[t].nodes[i];
    assert NodeOk(data, node, i);
    if node.phase.Connecting? {
      ServedData(data, node, i);
    }
    if node.phase.Done? {
      ServedData(data, node, i);
      FetchedData(data, node, i);
      assert data[..i] + [data[i]] + data[i + 1..] == data;
    }
  }
}
