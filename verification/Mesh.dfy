/** From exchanged endpoints to a symmetric mesh of connections. */
module Mesh {
  import opened Wrappers
  import opened EpochSlots
  import Exchange
  import ExchangeSafety

  datatype QueuePairEndpoint = QueuePairEndpoint(num: nat, lid: nat)

  datatype PeerRemoteMemoryRegion = PeerRemoteMemoryRegion(peer: nat, mr: RemoteMemoryRegion)

  datatype NetworkChannelEndpoint = NetworkChannelEndpoint(queuePair: QueuePairEndpoint, barrier: PeerRemoteMemoryRegion)

  datatype LocalEndpoint = LocalEndpoint(rank: nat, endpoints: seq<NetworkChannelEndpoint>)

  /** The four ways in which received endpoints can be refused; each names a rank. */
  datatype GatherError = OutOfBounds(rank: nat) | Duplicate(rank: nat) | MissingRechannel(rank: nat) | Missing(rank: nat)

  datatype HandshakeError = WrongNumber(expected: nat, got: nat) | Refused(channel: nat)

  /** A node with one queue pair for each rank and its barrier memory, not yet connected. */
  datatype PreparedNode =
    PreparedNode(rank: nat, worldSize: nat, queuePairs: seq<QueuePairEndpoint>, barrier: PeerRemoteMemoryRegion)

  /** A connected queue pair. */
  datatype Channel = Channel(local: QueuePairEndpoint, remote: QueuePairEndpoint)

  datatype Node = Node(rank: nat, worldSize: nat, channels: seq<Channel>, remoteMrs: seq<PeerRemoteMemoryRegion>)

  function Endpoint(p: PreparedNode): LocalEndpoint {
    LocalEndpoint(p.rank, seq(|p.queuePairs|, j requires 0 <= j < |p.queuePairs| =>
      NetworkChannelEndpoint(p.queuePairs[j], p.barrier)))
  }

  type PeerSlots = seq<Option<NetworkChannelEndpoint>>

  /** Puts the endpoint for `self` of one peer into the peer's slot. */
  function Fill(tmp: PeerSlots, self: nat, e: LocalEndpoint): Result<PeerSlots, GatherError> {
    if e.rank >= |tmp| then Err(OutOfBounds(e.rank))
    else if tmp[e.rank].Some? then Err(Duplicate(e.rank))
    else if self >= |e.endpoints| then Err(MissingRechannel(e.rank))
    else Ok(tmp[e.rank := Some(e.endpoints[self])])
  }

  function FillAll(n: nat, self: nat, es: seq<LocalEndpoint>): Result<PeerSlots, GatherError> {
    if |es| == 0 then Ok(seq(n, i => None))
    else
      match FillAll(n, self, es[..|es| - 1])
      case Err(e) => Err(e)
      case Ok(tmp) => Fill(tmp, self, es[|es| - 1])
  }

  /** The slots from `i` on, all of which must be filled. */
  function Unwrap(tmp: PeerSlots, i: nat): Result<seq<NetworkChannelEndpoint>, GatherError>
    requires i <= |tmp|
    decreases |tmp| - i
  {
    if i == |tmp| then Ok([])
    else if tmp[i].None? then Err(Missing(i))
    else
      match Unwrap(tmp, i + 1)
      case Err(e) => Err(e)
      case Ok(rest) => Ok([tmp[i].value] + rest)
  }

  function Gather(p: PreparedNode, es: seq<LocalEndpoint>): Result<seq<NetworkChannelEndpoint>, GatherError> {
    match FillAll(p.worldSize, p.rank, es)
    case Err(e) => Err(e)
    case Ok(tmp) => Unwrap(tmp, 0)
  }

  method GatherEndpoints(p: PreparedNode, es: seq<LocalEndpoint>)
    returns (r: Result<seq<NetworkChannelEndpoint>, GatherError>)
    ensures r == Gather(p, es)
  {
    var tmp: PeerSlots := seq(p.worldSize, i => None);
    for k := 0 to |es|
      invariant FillAll(p.worldSize, p.rank, es[..k]) == Ok(tmp)
    {
      assert es[..k + 1][..k] == es[..k];
      match Fill(tmp, p.rank, es[k])
      case Err(e) =>
        ErrorStays(p.worldSize, p.rank, es, k + 1);
        return Err(e);
      case Ok(filled) => tmp := filled;
    }
    assert es[..|es|] == es;
    r := Unwrap(tmp, 0);
  }

  lemma {:induction false} ErrorStays(n: nat, self: nat, es: seq<LocalEndpoint>, k: nat)
    requires k <= |es| && FillAll(n, self, es[..k]).Err?
    ensures FillAll(n, self, es) == FillAll(n, self, es[..k])
  {
    if k == |es| {
      assert es[..k] == es;
    } else {
      var init := es[..|es| - 1];
      assert init[..k] == es[..k];
      ErrorStays(n, self, init, k);
    }
  }

  /** All ranks are in bounds and different, and every peer has an endpoint for `self`. */
  ghost predicate Consistent(n: nat, self: nat, es: seq<LocalEndpoint>) {
    && (forall x :: 0 <= x < |es| ==> es[x].rank < n && self < |es[x].endpoints|)
    && (forall x, y :: 0 <= x < y < |es| ==> es[x].rank != es[y].rank)
  }

  ghost predicate Appears(es: seq<LocalEndpoint>, rank: nat) {
    exists x :: 0 <= x < |es| && es[x].rank == rank
  }

  /** Filling succeeds exactly on consistent endpoints; then the filled slots are those of the
      ranks that appear, each with its own endpoint for `self`. */
  lemma {:induction false} FillAllIs(n: nat, self: nat, es: seq<LocalEndpoint>)
    ensures FillAll(n, self, es).Ok? <==> Consistent(n, self, es)
    ensures FillAll(n, self, es).Ok? ==> |FillAll(n, self, es).value| == n
    ensures FillAll(n, self, es).Ok? ==> forall i: nat :: i < n ==> (FillAll(n, self, es).value[i].Some? <==> Appears(es, i))
    ensures FillAll(n, self, es).Ok? ==>
              forall x :: 0 <= x < |es| ==> FillAll(n, self, es).value[es[x].rank] == Some(es[x].endpoints[self])
  {
    if |es| > 0 {
      FillAllIs(n, self, es[..|es| - 1]);
      AppearsInInit(es);
      ConsistentInInit(n, self, es);
    }
  }

  lemma ConsistentInInit(n: nat, self: nat, es: seq<LocalEndpoint>)
    requires |es| > 0
    ensures Consistent(n, self, es) <==>
              var init, last := es[..|es| - 1], es[|es| - 1];
              Consistent(n, self, init) && last.rank < n && self < |last.endpoints| && !Appears(init, last.rank)
  {
    var init, last := es[..|es| - 1], es[|es| - 1];
    assert forall x :: 0 <= x < |init| ==> es[x] == init[x];
    if Consistent(n, self, init) && last.rank < n && self < |last.endpoints| && !Appears(init, last.rank) {
      forall x, y | 0 <= x < y < |es|
        ensures es[x].rank != es[y].rank
      {
        assert es[x] == init[x];
      }
    }
  }

  lemma AppearsInInit(es: seq<LocalEndpoint>)
    requires |es| > 0
    ensures forall i: nat :: Appears(es, i) <==> Appears(es[..|es| - 1], i) || es[|es| - 1].rank == i
  {
    var init := es[..|es| - 1];
    forall i: nat
      ensures Appears(es, i) <==> Appears(init, i) || es[|es| - 1].rank == i
    {
      if Appears(init, i) {
        var x :| 0 <= x < |init| && init[x].rank == i;
        assert es[x].rank == i;
      }
      if Appears(es, i) && es[|es| - 1].rank != i {
        var x :| 0 <= x < |es| && es[x].rank == i;
        assert init[x].rank == i;
      }
    }
  }

  lemma {:induction false} UnwrapIs(tmp: PeerSlots, i: nat)
    requires i <= |tmp|
    ensures Unwrap(tmp, i).Ok? <==> forall k :: i <= k < |tmp| ==> tmp[k].Some?
    ensures Unwrap(tmp, i).Ok? ==>
              && |Unwrap(tmp, i).value| == |tmp| - i
              && forall k :: i <= k < |tmp| ==> tmp[k] == Some(Unwrap(tmp, i).value[k - i])
    ensures Unwrap(tmp, i).Err? ==>
              exists k :: i <= k < |tmp| && Unwrap(tmp, i).error == Missing(k) && tmp[k].None? && forall y :: i <= y < k ==> tmp[y].Some?
    decreases |tmp| - i
  {
    if i < |tmp| {
      UnwrapIs(tmp, i + 1);
    }
  }

  /** Gathering succeeds exactly if every rank appears once, none is out of bounds, and every
      peer has an endpoint for this node; it yields that endpoint under the peer's rank. */
  lemma GatherSucceedsIff(p: PreparedNode, es: seq<LocalEndpoint>)
    ensures Gather(p, es).Ok? <==>
              Consistent(p.worldSize, p.rank, es) && forall i: nat :: i < p.worldSize ==> Appears(es, i)
    ensures Gather(p, es).Ok? ==> |Gather(p, es).value| == p.worldSize
    ensures Gather(p, es).Ok? ==>
              forall x :: 0 <= x < |es| ==> Gather(p, es).value[es[x].rank] == es[x].endpoints[p.rank]
  {
    FillAllIs(p.worldSize, p.rank, es);
    if FillAll(p.worldSize, p.rank, es).Ok? {
      var tmp := FillAll(p.worldSize, p.rank, es).value;
      UnwrapIs(tmp, 0);
    }
  }

  /** The error names the first fault: a bad endpoint after only good ones, or, all endpoints
      being good, the lowest rank that does not appear. */
  ghost predicate Explains(e: GatherError, p: PreparedNode, es: seq<LocalEndpoint>) {
    match e
    case OutOfBounds(rank) => exists x :: BadAt(p, es, x) && es[x].rank == rank >= p.worldSize
    case Duplicate(rank) =>
      exists x :: BadAt(p, es, x) && es[x].rank == rank < p.worldSize && Appears(es[..x], rank)
    case MissingRechannel(rank) =>
      exists x :: BadAt(p, es, x) && es[x].rank == rank < p.worldSize && !Appears(es[..x], rank) && p.rank >= |es[x].endpoints|
    case Missing(rank) =>
      && Consistent(p.worldSize, p.rank, es) && rank < p.worldSize && !Appears(es, rank)
      && forall i: nat :: i < rank ==> Appears(es, i)
  }

  ghost predicate BadAt(p: PreparedNode, es: seq<LocalEndpoint>, x: int) {
    0 <= x < |es| && Consistent(p.worldSize, p.rank, es[..x])
  }

  lemma {:induction false} FillErrorExplained(p: PreparedNode, es: seq<LocalEndpoint>)
    requires FillAll(p.worldSize, p.rank, es).Err?
    ensures Explains(FillAll(p.worldSize, p.rank, es).error, p, es)
  {
    var init := es[..|es| - 1];
    FillAllIs(p.worldSize, p.rank, init);
    if FillAll(p.worldSize, p.rank, init).Err? {
      FillErrorExplained(p, init);
      var e := FillAll(p.worldSize, p.rank, init).error;
      assert !e.Missing? by {
        assert !Consistent(p.worldSize, p.rank, init);
      }
      var x :| BadAt(p, init, x) && init[x].rank == e.rank
        && (match e
            case OutOfBounds(rank) => rank >= p.worldSize
            case Duplicate(rank) => rank < p.worldSize && Appears(init[..x], rank)
            case MissingRechannel(rank) => rank < p.worldSize && !Appears(init[..x], rank) && p.rank >= |init[x].endpoints|
            case Missing(_) => false);
      assert init[..x] == es[..x];
      assert BadAt(p, es, x);
    } else {
      assert BadAt(p, es, |es| - 1);
    }
  }

  lemma GatherErrorExplained(p: PreparedNode, es: seq<LocalEndpoint>)
    requires Gather(p, es).Err?
    ensures Explains(Gather(p, es).error, p, es)
  {
    FillAllIs(p.worldSize, p.rank, es);
    if FillAll(p.worldSize, p.rank, es).Err? {
      FillErrorExplained(p, es);
    } else {
      UnwrapIs(FillAll(p.worldSize, p.rank, es).value, 0);
    }
  }

  /** Connects queue pairs to the endpoints at the same index, stopping at the first that the
      hardware refuses. */
  function ConnectAll(queuePairs: seq<QueuePairEndpoint>, remotes: seq<QueuePairEndpoint>, accepts: seq<bool>):
      Result<seq<Channel>, HandshakeError>
    requires |queuePairs| == |remotes| == |accepts|
  {
    var k := |queuePairs| - 1;
    if |queuePairs| == 0 then Ok([])
    else
      match ConnectAll(queuePairs[..k], remotes[..k], accepts[..k])
      case Err(e) => Err(e)
      case Ok(channels) => if accepts[k] then Ok(channels + [Channel(queuePairs[k], remotes[k])]) else Err(Refused(k))
  }

  /** The handshake of the multi-channel, with its length check. */
  function HandshakeChannels(queuePairs: seq<QueuePairEndpoint>, remotes: seq<QueuePairEndpoint>, accepts: seq<bool>):
      Result<seq<Channel>, HandshakeError>
    requires |accepts| == |queuePairs|
  {
    if |queuePairs| != |remotes| then Err(WrongNumber(|queuePairs|, |remotes|))
    else ConnectAll(queuePairs, remotes, accepts)
  }

  function QueuePairs(es: seq<NetworkChannelEndpoint>): seq<QueuePairEndpoint> {
    seq(|es|, i requires 0 <= i < |es| => es[i].queuePair)
  }

  function Barriers(es: seq<NetworkChannelEndpoint>): seq<PeerRemoteMemoryRegion> {
    seq(|es|, i requires 0 <= i < |es| => es[i].barrier)
  }

  /** The handshake of the node: connects the channels and links the barrier. */
  function Handshake(p: PreparedNode, es: seq<NetworkChannelEndpoint>, accepts: seq<bool>): Result<Node, HandshakeError>
    requires |accepts| == |p.queuePairs|
  {
    match HandshakeChannels(p.queuePairs, QueuePairs(es), accepts)
    case Err(e) => Err(e)
    case Ok(channels) => Ok(Node(p.rank, p.worldSize, channels, Barriers(es)))
  }

  lemma {:induction false} ConnectAllIs(queuePairs: seq<QueuePairEndpoint>, remotes: seq<QueuePairEndpoint>, accepts: seq<bool>)
    requires |queuePairs| == |remotes| == |accepts|
    ensures ConnectAll(queuePairs, remotes, accepts).Ok? <==> forall i :: 0 <= i < |accepts| ==> accepts[i]
    ensures ConnectAll(queuePairs, remotes, accepts).Ok? ==>
              && |ConnectAll(queuePairs, remotes, accepts).value| == |queuePairs|
              && forall i :: 0 <= i < |queuePairs| ==>
                   ConnectAll(queuePairs, remotes, accepts).value[i] == Channel(queuePairs[i], remotes[i])
  {
    var k := |queuePairs| - 1;
    if |queuePairs| > 0 {
      ConnectAllIs(queuePairs[..k], remotes[..k], accepts[..k]);
    }
  }

  /** The handshake succeeds exactly if the numbers agree and the hardware accepts every
      connection, and then channel `i` is connected to endpoint `i`. */
  lemma HandshakeIs(p: PreparedNode, es: seq<NetworkChannelEndpoint>, accepts: seq<bool>)
    requires |accepts| == |p.queuePairs|
    ensures Handshake(p, es, accepts).Ok? <==> |es| == |p.queuePairs| && forall i :: 0 <= i < |accepts| ==> accepts[i]
    ensures Handshake(p, es, accepts).Ok? ==>
              var node := Handshake(p, es, accepts).value;
              && |node.channels| == |node.remoteMrs| == |es|
              && forall i :: 0 <= i < |es| ==>
                   node.channels[i] == Channel(p.queuePairs[i], es[i].queuePair) && node.remoteMrs[i] == es[i].barrier
    ensures Handshake(p, es, accepts).Ok? ==>
              Handshake(p, es, accepts).value.rank == p.rank && Handshake(p, es, accepts).value.worldSize == p.worldSize
    ensures |es| != |p.queuePairs| ==> Handshake(p, es, accepts) == Err(WrongNumber(|p.queuePairs|, |es|))
    ensures |es| == |p.queuePairs| && Handshake(p, es, accepts).Err? ==>
              FirstRefusal(accepts, Handshake(p, es, accepts).error)
  {
    if |es| == |p.queuePairs| {
      ConnectAllIs(p.queuePairs, QueuePairs(es), accepts);
      if Handshake(p, es, accepts).Err? {
        FirstRefused(p.queuePairs, QueuePairs(es), accepts);
      }
    }
  }

  /** The error names the first channel that the hardware refused. */
  ghost predicate FirstRefusal(accepts: seq<bool>, e: HandshakeError) {
    && e.Refused? && e.channel < |accepts| && !accepts[e.channel]
    && forall i :: 0 <= i < e.channel ==> accepts[i]
  }

  lemma {:induction false} FirstRefused(queuePairs: seq<QueuePairEndpoint>, remotes: seq<QueuePairEndpoint>, accepts: seq<bool>)
    requires |queuePairs| == |remotes| == |accepts| && ConnectAll(queuePairs, remotes, accepts).Err?
    ensures FirstRefusal(accepts, ConnectAll(queuePairs, remotes, accepts).error)
  {
    var k := |queuePairs| - 1;
    ConnectAllIs(queuePairs[..k], remotes[..k], accepts[..k]);
    if ConnectAll(queuePairs[..k], remotes[..k], accepts[..k]).Err? {
      FirstRefused(queuePairs[..k], remotes[..k], accepts[..k]);
    }
  }

  /** The nodes of one network, each built with its own rank and the same world size. */
  ghost predicate WellPrepared(ps: seq<PreparedNode>) {
    forall i :: 0 <= i < |ps| ==>
      && ps[i].rank == i == ps[i].barrier.peer
      && ps[i].worldSize == |ps| == |ps[i].queuePairs|
      && ps[i].barrier.mr.length == |ps| * SLOT_SIZE
  }

  function Endpoints(ps: seq<PreparedNode>): seq<LocalEndpoint> {
    seq(|ps|, i requires 0 <= i < |ps| => Endpoint(ps[i]))
  }

  /** What every node makes of the endpoints of all. */
  lemma GatherOfAll(ps: seq<PreparedNode>, i: nat)
    requires WellPrepared(ps) && i < |ps|
    ensures Gather(ps[i], Endpoints(ps)).Ok?
    ensures |Gather(ps[i], Endpoints(ps)).value| == |ps|
    ensures forall j :: 0 <= j < |ps| ==>
              Gather(ps[i], Endpoints(ps)).value[j] == NetworkChannelEndpoint(ps[j].queuePairs[i], ps[j].barrier)
  {
    var es := Endpoints(ps);
    GatherSucceedsIff(ps[i], es);
    forall j: nat | j < |ps|
      ensures Appears(es, j)
    {
      assert es[j].rank == j;
    }
    forall j | 0 <= j < |ps|
      ensures Gather(ps[i], es).value[j] == NetworkChannelEndpoint(ps[j].queuePairs[i], ps[j].barrier)
    {
      assert es[j].rank == j;
    }
  }

  /** The connected node, from what the exchange returned to it. */
  function Build(p: PreparedNode, exchanged: seq<LocalEndpoint>, accepts: seq<bool>): Option<Node>
    requires |accepts| == |p.queuePairs|
  {
    match Gather(p, exchanged)
    case Err(_) => None
    case Ok(es) =>
      match Handshake(p, es, accepts)
      case Err(_) => None
      case Ok(node) => Some(node)
  }

  ghost predicate AllAccept(accepts: seq<bool>, n: nat) {
    |accepts| == n && forall i :: 0 <= i < n ==> accepts[i]
  }

  /** Whatever the interleaving of the exchange, two nodes that have finished it are connected
      to each other: channel `j` of node `i` uses the queue pair node `j` allocated for node
      `i`, and the other way round; and each has the other's barrier memory, tagged with the
      other's rank. */
  lemma MeshIsSymmetric(ps: seq<PreparedNode>, worlds: seq<Exchange.World<LocalEndpoint>>, actions: seq<Exchange.Action>,
      t: nat, i: nat, j: nat, accepts: seq<bool>)
    requires WellPrepared(ps) && Exchange.Run(Endpoints(ps), worlds, actions) && t < |worlds|
    requires i < |ps| && j < |ps| && AllAccept(accepts, |ps|)
    ensures |worlds[t].nodes| == |worlds[t].data| == |ps|
    ensures worlds[t].nodes[i].phase.Done? && worlds[t].nodes[j].phase.Done? ==>
              && ExchangeSafety.Outcome(worlds[t], i).Some? && ExchangeSafety.Outcome(worlds[t], j).Some?
              && var a := Build(ps[i], ExchangeSafety.Outcome(worlds[t], i).value, accepts);
              && var b := Build(ps[j], ExchangeSafety.Outcome(worlds[t], j).value, accepts);
              && a.Some? && b.Some? && Connected(a.value, b.value) && Linked(a.value, ps[j]) && Linked(b.value, ps[i])
  {
    ExchangeSafety.ExchangeIsCorrect(Endpoints(ps), worlds, actions, t, i);
    ExchangeSafety.ExchangeIsCorrect(Endpoints(ps), worlds, actions, t, j);
    BuildOfAll(ps, i, accepts);
    BuildOfAll(ps, j, accepts);
  }

  ghost predicate Connected(a: Node, b: Node) {
    && b.rank < |a.channels| && a.rank < |b.channels|
    && a.channels[b.rank].remote == b.channels[a.rank].local
    && b.channels[a.rank].remote == a.channels[b.rank].local
  }

  /** Node `a` holds the barrier memory of `p` under its rank and tagged with it. */
  ghost predicate Linked(a: Node, p: PreparedNode) {
    p.rank < |a.remoteMrs| && a.remoteMrs[p.rank] == p.barrier && p.barrier.peer == p.rank
  }

  lemma BuildOfAll(ps: seq<PreparedNode>, i: nat, accepts: seq<bool>)
    requires WellPrepared(ps) && i < |ps| && AllAccept(accepts, |ps|)
    ensures Build(ps[i], Endpoints(ps), accepts).Some?
    ensures
      var node := Build(ps[i], Endpoints(ps), accepts).value;
      && node.rank == i && node.worldSize == |node.channels| == |node.remoteMrs| == |ps|
      && forall j :: 0 <= j < |ps| ==>
           && node.channels[j] == Channel(ps[i].queuePairs[j], ps[j].queuePairs[i])
           && node.remoteMrs[j] == ps[j].barrier
  {
    GatherOfAll(ps, i);
    HandshakeIs(ps[i], Gather(ps[i], Endpoints(ps)).value, accepts);
  }

  /** The address node `i` notifies node `j` at is that of slot `i` in the memory of node `j`,
      and the write goes over the channel to node `j`. */
  lemma NotificationsReachThePeer(ps: seq<PreparedNode>, i: nat, j: nat, accepts: seq<bool>, mem: seq<byte>, epoch: nat)
    requires WellPrepared(ps) && i < |ps| && j < |ps| && AllAccept(accepts, |ps|)
    requires |mem| == |ps| * SLOT_SIZE && epoch < Pow256(8)
    ensures Build(ps[i], Endpoints(ps), accepts).Some?
    ensures
      var node := Build(ps[i], Endpoints(ps), accepts).value;
      && j < |node.remoteMrs| && node.remoteMrs[j].peer == j && node.remoteMrs[j].mr == ps[j].barrier.mr
      && j < |node.channels| && node.channels[j].remote == ps[j].queuePairs[i]
      && var at := InEpochField(node.remoteMrs[j].mr, |ps|, i).addr - ps[j].barrier.mr.addr;
      && at == 24 * i + 16 && at + 8 <= |mem|
      && EpochSlots.Slots(WriteAt(mem, at, Encode(epoch, 8)), |ps|)
         == EpochSlots.Slots(mem, |ps|)[i := EpochSlots.Slots(mem, |ps|)[i].(incoming := epoch)]
  {
    BuildOfAll(ps, i, accepts);
    NotifySetsOneSlot(ps[j].barrier.mr, mem, |ps|, i, epoch);
  }
}
