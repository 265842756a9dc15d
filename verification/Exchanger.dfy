/** The two loops of the exchange over their connections. */
module Exchanger {
  import opened Arithmetic
  import opened Wrappers
  import opened Framing
  import opened Exchange
  import opened ExchangeSafety

  /** One end of a connection: what has arrived and was not read yet, and what was sent. */
  class TcpStream {
    var incoming: seq<byte>
    var sent: seq<byte>

    constructor (incoming: seq<byte>)
      ensures this.incoming == incoming && sent == []
    {
      this.incoming := incoming;
      sent := [];
    }

    method Write<T(!new)>(codec: Codec<T>, m: Message<T>) returns (r: Option<ExchangeError>)
      modifies `sent
      ensures r.None? <==> WriteStream(codec, m).Ok?
      ensures r.None? ==> sent == old(sent) + WriteStream(codec, m).value
      ensures r.Some? ==> sent == old(sent) && r.value == WriteStream(codec, m).error
    {
      match WriteStream(codec, m)
      case Err(e) => r := Some(e);
      case Ok(frame) =>
        sent := sent + frame[..HEADER];
        sent := sent + frame[HEADER..];
        assert frame == frame[..HEADER] + frame[HEADER..];
        r := None;
    }

    method Read<T(!new)>(codec: Codec<T>) returns (r: StreamResult<Message<T>>)
      modifies `incoming
      ensures r.Ok? ==> ReadStream(codec, old(incoming)) == Ok((r.value, incoming))
      ensures r.Err? ==> ReadStream(codec, old(incoming)) == Err(r.error)
    {
      match ReadStream(codec, incoming)
      case Err(e) => r := Err(e);
      case Ok((m, rest)) =>
        incoming := rest;
        r := Ok(m);
    }
  }

  /** What is kept of messages that arrive one after the other. */
  function Received<T>(ms: seq<Message<T>>, lo: nat, hi: nat): map<nat, T> {
    if |ms| == 0 then map[] else InsertIfValid(Received(ms[..|ms| - 1], lo, hi), ms[|ms| - 1], lo, hi)
  }

  ghost predicate Claimed<T>(ms: seq<Message<T>>, k: nat) {
    exists x :: 0 <= x < |ms| && ms[x].rank == k
  }

  /** The last message of `ms` that claims rank `k` is at `x`. */
  ghost predicate LastFrom<T>(ms: seq<Message<T>>, k: nat, x: nat) {
    x < |ms| && ms[x].rank == k && forall y :: x < y < |ms| ==> ms[y].rank != k
  }

  /** A rank of the range is kept exactly if some message claims it; nothing else is kept. */
  lemma {:induction false} ReceivedIs<T>(ms: seq<Message<T>>, lo: nat, hi: nat, k: nat)
    ensures k in Received(ms, lo, hi) <==> lo <= k < hi && Claimed(ms, k)
  {
    if |ms| > 0 {
      var init, last := ms[..|ms| - 1], ms[|ms| - 1];
      ReceivedIs(init, lo, hi, k);
      if Claimed(init, k) {
        var x :| 0 <= x < |init| && init[x].rank == k;
        assert ms[x].rank == k;
      }
      if Claimed(ms, k) && last.rank != k {
        var x :| 0 <= x < |ms| && ms[x].rank == k;
        assert init[x].rank == k;
      }
    }
  }

  /** Of several messages that claim the same rank the last one counts. */
  lemma {:induction false} LastCounts<T>(ms: seq<Message<T>>, lo: nat, hi: nat, k: nat, x: nat)
    requires LastFrom(ms, k, x) && lo <= k < hi
    ensures k in Received(ms, lo, hi) && Received(ms, lo, hi)[k] == ms[x].data
  {
    var init := ms[..|ms| - 1];
    if x < |init| {
      assert LastFrom(init, k, x);
      LastCounts(init, lo, hi, k, x);
    }
  }

  /** Somebody in the range has not been heard. */
  ghost predicate Unheard<T>(ms: seq<Message<T>>, lo: nat, hi: nat) {
    exists k: nat :: lo <= k < hi && !Claimed(ms, k)
  }

  lemma UnheardMeansNone<T>(ms: seq<Message<T>>, lo: nat, hi: nat)
    requires lo <= hi
    ensures Collect(Received(ms, lo, hi), lo, hi).None? <==> Unheard(ms, lo, hi)
  {
    CollectIs(Received(ms, lo, hi), lo, hi);
    forall k: nat
      ensures k in Received(ms, lo, hi) <==> lo <= k < hi && Claimed(ms, k)
    {
      ReceivedIs(ms, lo, hi, k);
    }
  }

  /** Counting the ranks is enough to know that all of them have been heard. */
  lemma CountMeansAll<T>(ms: seq<Message<T>>, n: nat)
    ensures |Received(ms, 0, n)| >= n <==> !Unheard(ms, 0, n)
    ensures |Received(ms, 0, n)| <= n
  {
    var keys := Received(ms, 0, n).Keys;
    forall k: nat
      ensures k in keys <==> k < n && Claimed(ms, k)
    {
      ReceivedIs(ms, 0, n, k);
    }
    SubsetSize(keys, UpTo(n));
    if |keys| >= n {
      SubsetOfSameSize(keys, UpTo(n));
    } else if !Unheard(ms, 0, n) {
      SubsetSize(UpTo(n), keys);
    }
  }

  /** Before the last of these messages a rank was still missing. */
  ghost predicate MissingUntil<T>(ms: seq<Message<T>>, n: nat) {
    forall k :: 0 <= k < |ms| ==> Unheard(ms[..k], 0, n)
  }

  lemma OneMoreMessage<T>(ms: seq<Message<T>>, m: Message<T>, n: nat)
    requires MissingUntil(ms, n) && Unheard(ms, 0, n)
    ensures MissingUntil(ms + [m], n)
    ensures Received(ms + [m], 0, n) == InsertIfValid(Received(ms, 0, n), m, 0, n)
  {
    assert forall k :: 0 <= k <= |ms| ==> (ms + [m])[..k] == ms[..k];
    assert ms[..|ms|] == ms;
  }

  datatype ServeOutcome<T> = Served(values: seq<T>) | ServeFailed(error: ExchangeError) | StillAccepting

  datatype ConnectOutcome<T> = Connected(values: seq<T>) | ConnectFailed(error: ExchangeError) | ExpectFired

  ghost predicate Distinct(streams: seq<TcpStream>) {
    forall x, y :: 0 <= x < y < |streams| ==> streams[x] != streams[y]
  }

  /** Over this connection our message was sent and a whole message of the peer read. */
  twostate predicate Exchanged<T(!new)>(codec: Codec<T>, mine: Message<T>, stream: TcpStream, new theirs: Message<T>)
    reads stream
  {
    && WriteStream(codec, mine).Ok?
    && stream.sent == old(stream.sent) + WriteStream(codec, mine).value
    && ReadStream(codec, old(stream.incoming)) == Ok((theirs, stream.incoming))
  }

  /** Serves one connection: sends first, then reads. */
  method ExchangeServe<T(!new)>(codec: Codec<T>, selfRank: nat, data: T, stream: TcpStream, received: map<nat, T>, hi: nat)
    returns (r: StreamResult<map<nat, T>>, ghost m: Message<T>)
    modifies stream
    ensures r.Ok? ==>
              && Exchanged(codec, Message(selfRank, data), stream, m)
              && r.value == InsertIfValid(received, m, 0, hi)
    ensures r.Err? <==> WriteStream(codec, Message(selfRank, data)).Err? || ReadStream(codec, old(stream.incoming)).Err?
    ensures r.Err? ==> r.error == (if WriteStream(codec, Message(selfRank, data)).Err?
                                   then WriteStream(codec, Message(selfRank, data)).error
                                   else ReadStream(codec, old(stream.incoming)).error)
    ensures WriteStream(codec, Message(selfRank, data)).Err? ==> unchanged(stream)
    ensures WriteStream(codec, Message(selfRank, data)).Ok? ==>
              stream.sent == old(stream.sent) + WriteStream(codec, Message(selfRank, data)).value
  {
    m := Message(selfRank, data);
    var failure := stream.Write(codec, Message(selfRank, data));
    if failure.Some? {
      return Err(failure.value), m;
    }
    var incoming := stream.Read(codec);
    match incoming
    case Err(e) => r := Err(e);
    case Ok(message) =>
      m := message;
      r := Ok(InsertIfValid(received, message, 0, hi));
  }

  /** Connects to one node: reads first, then sends. */
  method ExchangeConnect<T(!new)>(codec: Codec<T>, selfRank: nat, data: T, stream: TcpStream, received: map<nat, T>,
      lo: nat, hi: nat)
    returns (r: StreamResult<map<nat, T>>, ghost m: Message<T>)
    modifies stream
    ensures r.Ok? ==>
              && Exchanged(codec, Message(selfRank, data), stream, m)
              && r.value == InsertIfValid(received, m, lo, hi)
    ensures r.Err? <==> WriteStream(codec, Message(selfRank, data)).Err? || ReadStream(codec, old(stream.incoming)).Err?
    ensures r.Err? ==> r.error == (if ReadStream(codec, old(stream.incoming)).Err?
                                   then ReadStream(codec, old(stream.incoming)).error
                                   else WriteStream(codec, Message(selfRank, data)).error)
    ensures ReadStream(codec, old(stream.incoming)).Err? ==> stream.sent == old(stream.sent)
  {
    m := Message(selfRank, data);
    var incoming := stream.Read(codec);
    match incoming
    case Err(e) => r := Err(e);
    case Ok(message) =>
      m := message;
      var failure := stream.Write(codec, Message(selfRank, data));
      r := if failure.Some? then Err(failure.value) else Ok(InsertIfValid(received, message, lo, hi));
  }

  /** Accepts connections until all lower ranks have been heard.  Whatever the peers send, the
      loop ends only when the `expect` after it cannot fire. */
  method ExchangeAllServe<T(!new)>(codec: Codec<T>, selfRank: nat, data: T, streams: seq<TcpStream>)
    returns (r: ServeOutcome<T>, ghost ms: seq<Message<T>>)
    requires Distinct(streams)
    modifies set s | s in streams
    ensures |ms| <= |streams|
    ensures forall x :: 0 <= x < |ms| ==> Exchanged(codec, Message(selfRank, data), streams[x], ms[x])
    ensures MissingUntil(ms, selfRank)
    ensures r.Served? ==>
              !Unheard(ms, 0, selfRank) && Some(r.values) == Collect(Received(ms, 0, selfRank), 0, selfRank)
    ensures r.StillAccepting? ==> |ms| == |streams| && Unheard(ms, 0, selfRank)
    ensures r.ServeFailed? ==>
              && |ms| < |streams| && Unheard(ms, 0, selfRank)
              && (|| WriteStream(codec, Message(selfRank, data)) == Err(r.error)
                  || ReadStream(codec, old(streams[|ms|].incoming)) == Err(r.error))
    ensures forall x :: |ms| < x < |streams| || (x == |ms| < |streams| && !r.ServeFailed?) ==> unchanged(streams[x])
  {
    ms := [];
    var received: map<nat, T> := map[];
    var k := 0;
    while |received| < selfRank
      invariant 0 <= k == |ms| <= |streams| && received == Received(ms, 0, selfRank)
      invariant forall x :: 0 <= x < k ==> Exchanged(codec, Message(selfRank, data), streams[x], ms[x])
      invariant forall x :: k <= x < |streams| ==> unchanged(streams[x])
      invariant MissingUntil(ms, selfRank)
      decreases |streams| - k
    {
      CountMeansAll(ms, selfRank);
      if k == |streams| {
        return StillAccepting, ms;
      }
      var one;
      ghost var m;
      one, m := ExchangeServe(codec, selfRank, data, streams[k], received, selfRank);
      match one
      case Err(e) => return ServeFailed(e), ms;
      case Ok(more) =>
        OneMoreMessage(ms, m, selfRank);
        ms := ms + [m];
        received := more;
        k := k + 1;
    }
    CountMeansAll(ms, selfRank);
    UnheardMeansNone(ms, 0, selfRank);
    r := ServeOutcome.Served(Collect(received, 0, selfRank).value);
  }

  /** Connects to the higher ranks in order; `streams` are the connections to them.  The
      `expect` after the loop fires exactly if some higher rank was claimed by nobody. */
  method ExchangeAllConnect<T(!new)>(codec: Codec<T>, selfRank: nat, worldSize: nat, data: T, streams: seq<TcpStream>)
    returns (r: ConnectOutcome<T>, ghost ms: seq<Message<T>>)
    requires Distinct(streams) && selfRank < worldSize && |streams| == worldSize - selfRank - 1
    modifies set s | s in streams
    ensures |ms| <= |streams|
    ensures forall x :: 0 <= x < |ms| ==> Exchanged(codec, Message(selfRank, data), streams[x], ms[x])
    ensures r.Connected? ==>
              && |ms| == |streams| && !Unheard(ms, selfRank + 1, worldSize)
              && Some(r.values) == Collect(Received(ms, selfRank + 1, worldSize), selfRank + 1, worldSize)
    ensures r.ExpectFired? ==> |ms| == |streams| && Unheard(ms, selfRank + 1, worldSize)
    ensures r.ConnectFailed? <==> |ms| < |streams|
    ensures r.ConnectFailed? ==>
              || WriteStream(codec, Message(selfRank, data)) == Err(r.error)
              || ReadStream(codec, old(streams[|ms|].incoming)) == Err(r.error)
    ensures forall x :: |ms| < x < |streams| ==> unchanged(streams[x])
  {
    ms := [];
    var received: map<nat, T> := map[];
    for k := 0 to |streams|
      invariant |ms| == k && received == Received(ms, selfRank + 1, worldSize)
      invariant forall x :: 0 <= x < k ==> Exchanged(codec, Message(selfRank, data), streams[x], ms[x])
      invariant forall x :: k <= x < |streams| ==> unchanged(streams[x])
    {
      var one;
      ghost var m;
      one, m := ExchangeConnect(codec, selfRank, data, streams[k], received, selfRank + 1, worldSize);
      match one
      case Err(e) => return ConnectFailed(e), ms;
      case Ok(more) =>
        ghost var before := ms;
        ms := ms + [m];
        assert ms[..k] == before;
        received := more;
    }
    UnheardMeansNone(ms, selfRank + 1, worldSize);
    match Collect(received, selfRank + 1, worldSize)
    case None => r := ExpectFired;
    case Some(values) => r := Connected(values);
  }

  /** Under every rank stands the data last claimed for it by the peers of its side, and under
      the own rank the own data. */
  ghost predicate InRankOrder<T>(values: seq<T>, rank: nat, n: nat, data: T, low: seq<Message<T>>, high: seq<Message<T>>)
    requires rank < n
  {
    && |values| == n && values[rank] == data
    && (forall k: nat :: k < rank ==> Claimed(low, k))
    && (forall k: nat :: rank < k < n ==> Claimed(high, k))
    && (forall k: nat, x: nat :: k < rank && LastFrom(low, k, x) ==> values[k] == low[x].data)
    && (forall k: nat, x: nat :: rank < k < n && LastFrom(high, k, x) ==> values[k] == high[x].data)
  }

  lemma Assembled<T>(rank: nat, n: nat, data: T, low: seq<Message<T>>, lowValues: seq<T>,
      high: seq<Message<T>>, highValues: seq<T>)
    requires rank < n
    requires Some(lowValues) == Collect(Received(low, 0, rank), 0, rank)
    requires Some(highValues) == Collect(Received(high, rank + 1, n), rank + 1, n)
    ensures InRankOrder(lowValues + [data] + highValues, rank, n, data, low, high)
  {
    InPlace(low, 0, rank, lowValues);
    InPlace(high, rank + 1, n, highValues);
  }

  datatype ExchangeOutcome<T> =
    | Complete(values: seq<T>)
    | InvalidRank(rank: nat)
    | Failed(error: ExchangeError)
    | Waiting
    | Panicked

  /** The whole exchange of one node: serve, then connect, then put the data in rank order. */
  method ExchangeAll<T(!new)>(codec: Codec<T>, rank: nat, worldSize: nat, data: T,
      accepted: seq<TcpStream>, connected: seq<TcpStream>)
    returns (r: ExchangeOutcome<T>, ghost low: seq<Message<T>>, ghost high: seq<Message<T>>)
    requires Distinct(accepted + connected) && (rank < worldSize ==> |connected| == worldSize - rank - 1)
    modifies set s | s in accepted, set s | s in connected
    ensures r.InvalidRank? <==> rank >= worldSize
    ensures |low| <= |accepted| && |high| <= |connected|
    ensures forall x :: 0 <= x < |low| ==> Exchanged(codec, Message(rank, data), accepted[x], low[x])
    ensures forall x :: 0 <= x < |high| ==> Exchanged(codec, Message(rank, data), connected[x], high[x])
    ensures r.Complete? ==> InRankOrder(r.values, rank, worldSize, data, low, high)
    ensures r.Panicked? ==> |high| == worldSize - rank - 1 && Unheard(high, rank + 1, worldSize)
    ensures r.Waiting? ==> |low| == |accepted| && high == [] && Unheard(low, 0, rank)
    ensures r.Failed? ==>
              || WriteStream(codec, Message(rank, data)) == Err(r.error)
              || (&& |low| < |accepted| && high == [] && Unheard(low, 0, rank)
                  && ReadStream(codec, old(accepted[|low|].incoming)) == Err(r.error))
              || (&& |high| < |connected| && !Unheard(low, 0, rank)
                  && ReadStream(codec, old(connected[|high|].incoming)) == Err(r.error))
    ensures r.InvalidRank? || Unheard(low, 0, rank) ==> forall x :: 0 <= x < |connected| ==> unchanged(connected[x])
    ensures r.InvalidRank? ==> r.rank == rank && forall x :: 0 <= x < |accepted| ==> unchanged(accepted[x])
  {
    low, high := [], [];
    if rank >= worldSize {
      return InvalidRank(rank), low, high;
    }
    DistinctParts(accepted, connected);
    var lower;
    lower, low := ExchangeAllServe(codec, rank, data, accepted);
    match lower
    case ServeFailed(e) => return Failed(e), low, high;
    case StillAccepting => return Waiting, low, high;
    case Served(lowValues) =>
      var greater;
      greater, high := ExchangeAllConnect(codec, rank, worldSize, data, connected);
      match greater
      case ConnectFailed(e) => r := Failed(e);
      case ExpectFired => r := Panicked;
      case Connected(highValues) =>
        Assembled(rank, worldSize, data, low, lowValues, high, highValues);
        r := Complete(lowValues + [data] + highValues);
  }

  lemma DistinctParts(a: seq<TcpStream>, b: seq<TcpStream>)
    requires Distinct(a + b)
    ensures Distinct(a) && Distinct(b) && forall x, y :: 0 <= x < |a| && 0 <= y < |b| ==> a[x] != b[y]
  {
    var c := a + b;
    forall x, y | 0 <= x < y < |a|
      ensures a[x] != a[y]
    {
      assert c[x] == a[x] && c[y] == a[y];
    }
    forall x, y | 0 <= x < y < |b|
      ensures b[x] != b[y]
    {
      assert c[|a| + x] == b[x] && c[|a| + y] == b[y];
    }
    forall x, y | 0 <= x < |a| && 0 <= y < |b|
      ensures a[x] != b[y]
    {
      assert c[x] == a[x] && c[|a| + y] == b[y];
    }
  }

  /** The collected values are those last claimed by each rank of the range, in order. */
  lemma InPlace<T>(ms: seq<Message<T>>, lo: nat, hi: nat, values: seq<T>)
    requires lo <= hi && Some(values) == Collect(Received(ms, lo, hi), lo, hi)
    ensures |values| == hi - lo
    ensures forall k: nat :: lo <= k < hi ==> Claimed(ms, k)
    ensures forall k: nat, x: nat :: lo <= k < hi && LastFrom(ms, k, x) ==> values[k - lo] == ms[x].data
  {
    CollectIs(Received(ms, lo, hi), lo, hi);
    forall k: nat | lo <= k < hi
      ensures Claimed(ms, k)
    {
      ReceivedIs(ms, lo, hi, k);
    }
    forall k: nat, x: nat | lo <= k < hi && LastFrom(ms, k, x)
      ensures values[k - lo] == ms[x].data
    {
      LastCounts(ms, lo, hi, k, x);
    }
  }
}
