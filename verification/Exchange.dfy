/** The all-to-all exchange: every node serves all lower ranks, then connects upwards.
    The nodes take their steps in any order. */
module Exchange {
  import opened Wrappers
  import opened Framing

  /** Keeps a message whose claimed rank is in `lo..hi`; a second one replaces the first. */
  function InsertIfValid<T>(received: map<nat, T>, m: Message<T>, lo: nat, hi: nat): map<nat, T> {
    if lo <= m.rank < hi then received[m.rank := m.data] else received
  }

  /** The data of ranks `lo..hi` in order; `None` stands for the panic of `expect` on a rank
      that is missing. */
  function Collect<T>(received: map<nat, T>, lo: nat, hi: nat): Option<seq<T>>
    requires lo <= hi
    decreases hi - lo
  {
    if lo == hi then Some([])
    else if lo !in received then None
    else
      match Collect(received, lo + 1, hi)
      case None => None
      case Some(rest) => Some([received[lo]] + rest)
  }

  lemma {:induction false} CollectIs<T>(received: map<nat, T>, lo: nat, hi: nat)
    requires lo <= hi
    ensures Collect(received, lo, hi).Some? <==> forall k :: lo <= k < hi ==> k in received
    ensures Collect(received, lo, hi).Some? ==>
              && |Collect(received, lo, hi).value| == hi - lo
              && forall k :: lo <= k < hi ==> Collect(received, lo, hi).value[k - lo] == received[k]
    decreases hi - lo
  {
    if lo < hi {
      CollectIs(received, lo + 1, hi);
    }
  }

  /** What a node is about to do.  `Writing` and `Reading` serve a lower rank; `Connecting`,
      `Fetching` and `Sending` talk to a higher one. */
  datatype Phase =
    | Idle
    | Serving
    | Writing(peer: nat)
    | Reading(peer: nat)
    | Connecting(peer: nat)
    | Fetching(peer: nat)
    | Sending(peer: nat)
    | Done

  datatype Node<T> = Node(phase: Phase, served: map<nat, T>, fetched: map<nat, T>)

  /** A connection from a lower to a higher rank: whether it waits to be accepted, and the
      messages under way to the lower rank (`down`) and to the higher rank (`up`). */
  datatype Link<T> = Link(pending: bool, down: seq<Message<T>>, up: seq<Message<T>>)

  datatype World<T> = World(data: seq<T>, nodes: seq<Node<T>>, links: map<(nat, nat), Link<T>>)

  /** Pairs of ranks, the lower first. */
  predicate IsPair(n: nat, p: nat, j: nat) {
    p < j < n
  }

  ghost predicate Shape<T>(w: World<T>) {
    && |w.nodes| == |w.data|
    && forall p: nat, j: nat :: IsPair(|w.data|, p, j) ==> (p, j) in w.links
  }

  function Silent<T>(): Link<T> {
    Link(false, [], [])
  }

  function Init<T>(data: seq<T>): (w: World<T>)
    ensures Shape(w)
  {
    World(data, seq(|data|, i => Node(Idle, map[], map[])),
      map p: nat, j: nat | p < |data| && j < |data| && IsPair(|data|, p, j) :: (p, j) := Silent())
  }

  /** The node is bound to its port and takes connections. */
  predicate Listening(phase: Phase) {
    phase.Serving? || phase.Writing? || phase.Reading?
  }

  datatype Action =
    | Bind(i: nat)
    | Accept(i: nat, p: nat)
    | ServeWrite(i: nat)
    | ServeRead(i: nat)
    | StopServing(i: nat)
    | Connect(i: nat)
    | ConnectRead(i: nat)
    | ConnectWrite(i: nat)
    | Finish(i: nat)

  ghost predicate Enabled<T>(w: World<T>, a: Action)
    requires Shape(w)
  {
    var n := |w.data|;
    a.i < n &&
    var node := w.nodes[a.i];
    match a
    case Bind(i) => node.phase.Idle?
    case Accept(i, p) => node.phase.Serving? && |node.served| < i && p < i && w.links[(p, i)].pending
    case ServeWrite(i) => node.phase.Writing? && node.phase.peer < i
    case ServeRead(i) => node.phase.Reading? && node.phase.peer < i && |w.links[(node.phase.peer, i)].up| > 0
    case StopServing(i) => node.phase.Serving? && |node.served| >= i
    case Connect(i) => node.phase.Connecting? && i < node.phase.peer < n && Listening(w.nodes[node.phase.peer].phase)
    case ConnectRead(i) => node.phase.Fetching? && i < node.phase.peer < n && |w.links[(i, node.phase.peer)].down| > 0
    case ConnectWrite(i) => node.phase.Sending? && i < node.phase.peer < n
    case Finish(i) => node.phase.Connecting? && node.phase.peer == n
  }

  ghost function Apply<T>(w: World<T>, a: Action): World<T>
    requires Shape(w) && Enabled(w, a)
  {
    var n, i := |w.data|, a.i;
    var node := w.nodes[i];
    match a
    case Bind(_) => To(w, i, Serving)
    case Accept(_, p) => Wire(To(w, i, Writing(p)), p, i, w.links[(p, i)].(pending := false))
    case ServeWrite(_) =>
      var link := w.links[(node.phase.peer, i)];
      Wire(To(w, i, Reading(node.phase.peer)), node.phase.peer, i, link.(down := link.down + [Message(i, w.data[i])]))
    case ServeRead(_) =>
      var link := w.links[(node.phase.peer, i)];
      var served := InsertIfValid(node.served, link.up[0], 0, i);
      Wire(w.(nodes := w.nodes[i := Node(Serving, served, node.fetched)]), node.phase.peer, i, link.(up := link.up[1..]))
    case StopServing(_) => To(w, i, Connecting(i + 1))
    case Connect(_) => Wire(To(w, i, Fetching(node.phase.peer)), i, node.phase.peer, Link(true, [], []))
    case ConnectRead(_) =>
      var link := w.links[(i, node.phase.peer)];
      var fetched := InsertIfValid(node.fetched, link.down[0], i + 1, n);
      Wire(w.(nodes := w.nodes[i := Node(Sending(node.phase.peer), node.served, fetched)]), i, node.phase.peer,
        link.(down := link.down[1..]))
    case ConnectWrite(_) =>
      var link := w.links[(i, node.phase.peer)];
      Wire(To(w, i, Connecting(node.phase.peer + 1)), i, node.phase.peer, link.(up := link.up + [Message(i, w.data[i])]))
    case Finish(_) => To(w, i, Done)
  }

  /** Node `i` moves on to another phase. */
  function To<T>(w: World<T>, i: nat, phase: Phase): World<T>
    requires i < |w.nodes|
  {
    w.(nodes := w.nodes[i := w.nodes[i].(phase := phase)])
  }

  function Wire<T>(w: World<T>, p: nat, j: nat, link: Link<T>): World<T> {
    w.(links := w.links[(p, j) := link])
  }

  ghost predicate Run<T>(data: seq<T>, worlds: seq<World<T>>, actions: seq<Action>) {
    && |worlds| == |actions| + 1
    && worlds[0] == Init(data)
    && forall t :: 0 <= t < |actions| ==>
         Shape(worlds[t]) && Enabled(worlds[t], actions[t]) && worlds[t + 1] == Apply(worlds[t], actions[t])
  }
}
