/** The epoch memory of one node and the primitives every barrier is made of. */
module BarrierMemory {
  import opened Wrappers
  import opened Plans

  datatype BarrierError =
    | Poisoned
    | SelfNotInGroup
    | UnorderedPeers
    | DuplicatePeers
    | Timeout
    | Transport(error: TransportError)

  /** One slot of the registered memory. */
  datatype BarrierPeerFlags = BarrierPeerFlags(expected: nat, out: nat, incoming: nat)

  /** An RDMA write that has landed in the `in_epoch` slot of this node at `peer`. */
  datatype Landing = Landing(peer: nat, epoch: nat)

  /** `part` is what is left of `whole` when any of its elements are left out. */
  ghost predicate IsPart(part: seq<Landing>, whole: seq<Landing>) {
    if |whole| == 0 then |part| == 0
    else
      var last := whole[|whole| - 1];
      || IsPart(part, whole[..|whole| - 1])
      || (|part| > 0 && part[|part| - 1] == last && IsPart(part[..|part| - 1], whole[..|whole| - 1]))
  }

  lemma {:induction false} PartOfMore(part: seq<Landing>, whole: seq<Landing>, more: seq<Landing>)
    requires IsPart(part, whole)
    ensures IsPart(part, whole + more)
  {
    if |more| > 0 {
      var fewer := more[..|more| - 1];
      PartOfMore(part, whole, fewer);
      assert (whole + more)[..|whole + more| - 1] == whole + fewer;
    } else {
      assert whole + more == whole;
    }
  }

  lemma PartGrows(part: seq<Landing>, whole: seq<Landing>, w: Landing)
    requires IsPart(part, whole)
    ensures IsPart(part, whole + [w]) && IsPart(part + [w], whole + [w])
  {
    assert (whole + [w])[..|whole|] == whole && (part + [w])[..|part|] == part;
  }

  /** The blocking writes of the channels to all peers.  A write that reports success has
      landed; one that reports an error may or may not have. */
  class MultiChannel {
    ghost var landed: seq<Landing>
    /** The error of the last operation that failed. */
    ghost var failure: TransportError

    constructor ()
      ensures landed == []
    {
      landed := [];
      failure := IbvError(0);
    }

    method Write(w: Landing) returns (r: Result<(), TransportError>)
      modifies this
      ensures r.Ok? ==> landed == old(landed) + [w]
      ensures r.Err? ==> landed == old(landed) || landed == old(landed) + [w]
      ensures r.Err? ==> failure == r.error
    {
      var ok: bool, reached: bool := *, *;
      var error: TransportError := *;
      if ok || reached {
        landed := landed + [w];
      }
      r := if ok then Ok(()) else Err(error);
      if r.Err? {
        failure := r.error;
      }
    }

    /** Posts the writes one after the other until a post fails, then waits for those posted;
        any of them may fail. */
    method ScatterWrite(ws: seq<Landing>) returns (r: Result<(), TransportError>)
      modifies this
      ensures r.Ok? ==> landed == old(landed) + ws
      ensures r.Err? ==> Grew(old(landed), ws) && failure == r.error
    {
      r := Ok(());
      ghost var part: seq<Landing> := [];
      for i := 0 to |ws|
        invariant r.Ok? ==> part == ws[..i]
        invariant landed == old(landed) + part && IsPart(part, ws[..i])
      {
        assert ws[..i + 1] == ws[..i] + [ws[i]];
        PartGrows(part, ws[..i], ws[i]);
        var posted: bool := *;
        if !posted {
          PartOfMore(part, ws[..i], ws[i..]);
          assert ws[..i] + ws[i..] == ws;
          var errno: nat := *;
          failure := IbvError(errno);
          return Err(IbvError(errno));
        }
        var one := Write(ws[i]);
        if |landed| > |old(landed)| + |part| {
          part := part + [ws[i]];
        }
        if r.Ok? { r := one; }
      }
      if r.Err? {
        failure := r.error;
      }
      assert ws[..|ws|] == ws;
    }

    /** Some of the writes `ws` have landed since `before`, and nothing else. */
    ghost predicate Grew(before: seq<Landing>, ws: seq<Landing>)
      reads this
    {
      PartlyWritten(before, ws, landed)
    }
  }

  ghost predicate PartlyWritten(before: seq<Landing>, ws: seq<Landing>, after: seq<Landing>) {
    exists part :: IsPart(part, ws) && after == before + part
  }

  /** The writes an operation makes after the operations `before`: each carries the number of
      notifications of its peer so far. */
  ghost function OpLandings(before: seq<Op>, op: Op): seq<Landing> {
    match op
    case Wait(_) => []
    case Notify(peers) =>
      seq(|peers|, x requires 0 <= x < |peers| => Landing(peers[x], SendCount(before, peers[x], |before|) + 1))
  }

  /** The writes of a whole plan after the operations `before`. */
  ghost function Landings(before: seq<Op>, plan: seq<Op>): seq<Landing> {
    if |plan| == 0 then []
    else
      var init := plan[..|plan| - 1];
      Landings(before, init) + OpLandings(before + init, plan[|plan| - 1])
  }

  lemma SendCountAppend(plan: seq<Op>, op: Op, j: nat)
    ensures SendCount(plan + [op], j, |plan| + 1) == SendCount(plan, j, |plan|) + if Sends(op, j) then 1 else 0
  {
    SendCountPrefix(plan, [op], j, |plan|);
  }

  lemma WaitCountAppend(plan: seq<Op>, op: Op, j: nat)
    ensures WaitCount(plan + [op], j, |plan| + 1) == WaitCount(plan, j, |plan|) + if Awaits(op, j) then 1 else 0
  {
    WaitCountPrefix(plan, [op], j, |plan|);
  }

  lemma {:induction false} SendCountPrefix(a: seq<Op>, b: seq<Op>, j: nat, p: nat)
    requires p <= |a|
    ensures SendCount(a + b, j, p) == SendCount(a, j, p)
  {
    if p > 0 { SendCountPrefix(a, b, j, p - 1); }
  }

  lemma {:induction false} WaitCountPrefix(a: seq<Op>, b: seq<Op>, j: nat, p: nat)
    requires p <= |a|
    ensures WaitCount(a + b, j, p) == WaitCount(a, j, p)
  {
    if p > 0 { WaitCountPrefix(a, b, j, p - 1); }
  }

  /** Only the incoming epochs differ, and they have not gone back: what peers may do. */
  ghost predicate OnlyDelivered(before: seq<BarrierPeerFlags>, after: seq<BarrierPeerFlags>) {
    && |before| == |after|
    && forall j :: 0 <= j < |before| ==>
         after[j] == before[j].(incoming := after[j].incoming) && before[j].incoming <= after[j].incoming
  }

  /** The highest epoch each peer has landed in this memory by each moment. */
  ghost predicate IsArrivals(arrivals: (nat, nat) -> nat) {
    && (forall j: nat :: arrivals(0, j) == 0)
    && (forall s: nat, t: nat :: s <= t ==> NoneLost(arrivals, s, t))
  }

  ghost predicate NoneLost(arrivals: (nat, nat) -> nat, s: nat, t: nat) {
    forall j: nat :: arrivals(s, j) <= arrivals(t, j)
  }

  /** Reads of a slot at these moments, one after the other, the last one `now`, of which the
      first `late` have not found the epoch `expected`. */
  ghost predicate Reads(arrivals: (nat, nat) -> nat, peer: nat, expected: nat, moments: seq<nat>, now: nat, late: nat) {
    && (forall x, y :: 0 <= x < y < |moments| ==> moments[x] < moments[y])
    && (|moments| > 0 ==> moments[|moments| - 1] == now)
    && (forall x :: 0 <= x < |moments| && x < late ==> arrivals(moments[x], peer) < expected)
  }

  /** Only reads in vain so far, of which `iter` since the clock was last looked at, when there
      was still time. */
  ghost predicate InVain(arrivals: (nat, nat) -> nat, peer: nat, expected: nat, moments: seq<nat>, now: nat, iter: nat, end: nat) {
    && Reads(arrivals, peer, expected, moments, now, |moments|)
    && iter <= |moments| && (iter < |moments| ==> moments[|moments| - iter - 1] <= end)
  }

  lemma OneMoreRead(arrivals: (nat, nat) -> nat, peer: nat, expected: nat, moments: seq<nat>, before: nat, now: nat, iter: nat, end: nat)
    requires InVain(arrivals, peer, expected, moments, before, iter, end) && before < now && iter < 65536
    ensures Reads(arrivals, peer, expected, moments + [now], now, |moments|)
    ensures |moments| >= 65536 ==> (moments + [now])[|moments| - 65536] <= end
    ensures arrivals(now, peer) < expected ==> InVain(arrivals, peer, expected, moments + [now], now, iter + 1, end)
    ensures arrivals(now, peer) < expected && now <= end ==> InVain(arrivals, peer, expected, moments + [now], now, 0, end)
  {
  }

  /** Barrier memory.  What the peers write, and when, is fixed by `arrivals`, which nobody
      here can change.  The ghost fields record the operations begun and how many of them
      have been completed since the memory was created. */
  class BarrierMr {
    const rank: nat
    const memory: array<BarrierPeerFlags>
    const arrivals: (nat, nat) -> nat
    var now: nat
    ghost var trace: seq<Op>
    ghost var completed: nat

    /** The counters are the number of notifications and waits begun, peer by peer; the
        incoming epochs are those that have arrived, and every completed wait has seen its
        epoch arrive. */
    ghost predicate Valid()
      reads this, memory
    {
      && completed <= |trace| <= completed + 1 && IsArrivals(arrivals)
      && forall j :: 0 <= j < memory.Length ==>
           && memory[j].out == SendCount(trace, j, |trace|)
           && memory[j].expected == WaitCount(trace, j, |trace|)
           && memory[j].incoming == arrivals(now, j)
           && memory[j].incoming >= WaitCount(trace, j, completed)
    }

    constructor (rank: nat, worldSize: nat, arrivals: (nat, nat) -> nat)
      requires IsArrivals(arrivals)
      ensures Valid() && this.rank == rank && memory.Length == worldSize && fresh(memory)
      ensures trace == [] && completed == 0 && this.arrivals == arrivals
    {
      this.rank := rank;
      this.arrivals := arrivals;
      memory := new BarrierPeerFlags[worldSize](_ => BarrierPeerFlags(0, 0, 0));
      now := 0;
      trace := [];
      completed := 0;
    }

    /** Time passes, by an unknown amount, and the peers' writes of that time land. */
    method Elapse()
      requires Valid()
      modifies memory, `now
      ensures Valid() && now > old(now) && OnlyDelivered(old(memory[..]), memory[..])
    {
      var d: nat :| d > 0;
      assert NoneLost(arrivals, now, now + d);
      now := now + d;
      forall j | 0 <= j < memory.Length {
        memory[j] := memory[j].(incoming := arrivals(now, j));
      }
    }

    /** Bumps the out epoch for `peer` and writes it into the slot of this node at `peer`. */
    method NotifyPeer(multiChannel: MultiChannel, peer: nat) returns (r: Result<(), BarrierError>)
      requires Valid() && completed == |trace| && peer < memory.Length
      modifies memory, `trace, `completed, multiChannel
      ensures Valid() && trace == old(trace) + [Notify([peer])]
      ensures r.Ok? <==> completed == |trace|
      ensures r.Err? ==> r.error == Transport(multiChannel.failure)
      ensures forall j :: 0 <= j < memory.Length ==> memory[j].incoming == old(memory[j].incoming)
      ensures Wrote(multiChannel, old(multiChannel.landed), OpLandings(old(trace), Notify([peer])), r)
    {
      assert OpLandings(trace, Notify([peer])) == [Landing(peer, memory[peer].out + 1)];
      Record(Notify([peer]));
      memory[peer] := memory[peer].(out := memory[peer].out + 1);
      var w := multiChannel.Write(Landing(peer, memory[peer].out));
      if w.Err? {
        OneWritePart(multiChannel, old(multiChannel.landed), Landing(peer, memory[peer].out));
        return Err(Transport(w.error));
      }
      completed := |trace|;
      r := Ok(());
    }

    lemma OneWritePart(multiChannel: MultiChannel, before: seq<Landing>, w: Landing)
      requires multiChannel.landed == before || multiChannel.landed == before + [w]
      ensures multiChannel.Grew(before, [w])
    {
      assert [w][..0] == [];
      assert IsPart([], [w]) && IsPart([w], [w]);
      assert before + [] == before;
    }

    /** On success exactly these writes have landed since `before`, on failure some of them. */
    ghost predicate Wrote(multiChannel: MultiChannel, before: seq<Landing>, ws: seq<Landing>, r: Result<(), BarrierError>)
      reads multiChannel
    {
      if r.Ok? then multiChannel.landed == before + ws else multiChannel.Grew(before, ws)
    }

    /** Ghost bookkeeping: an operation begins; the counters it bumps follow. */
    ghost method Record(op: Op)
      requires completed == |trace|
      modifies `trace
      ensures trace == old(trace) + [op]
      ensures forall j :: 0 <= j < memory.Length ==>
                && SendCount(trace, j, |trace|) == SendCount(old(trace), j, |old(trace)|) + (if Sends(op, j) then 1 else 0)
                && WaitCount(trace, j, |trace|) == WaitCount(old(trace), j, |old(trace)|) + (if Awaits(op, j) then 1 else 0)
    {
      forall j | 0 <= j < memory.Length
        ensures SendCount(trace + [op], j, |trace| + 1) == SendCount(trace, j, |trace|) + (if Sends(op, j) then 1 else 0)
        ensures WaitCount(trace + [op], j, |trace| + 1) == WaitCount(trace, j, |trace|) + (if Awaits(op, j) then 1 else 0)
      {
        SendCountAppend(trace, op, j);
        WaitCountAppend(trace, op, j);
      }
      trace := trace + [op];
    }

    /** Like `NotifyPeer`, for several peers in one scatter write. */
    method ScatterNotifyPeers(multiChannel: MultiChannel, peers: seq<nat>) returns (r: Result<(), BarrierError>)
      requires Valid() && completed == |trace| && Distinct(peers)
      requires forall x :: 0 <= x < |peers| ==> peers[x] < memory.Length
      modifies memory, `trace, `completed, multiChannel
      ensures Valid() && trace == old(trace) + [Notify(peers)]
      ensures r.Ok? <==> completed == |trace|
      ensures r.Err? ==> r.error == Transport(multiChannel.failure)
      ensures forall j :: 0 <= j < memory.Length ==> memory[j].incoming == old(memory[j].incoming)
      ensures Wrote(multiChannel, old(multiChannel.landed), OpLandings(old(trace), Notify(peers)), r)
    {
      Record(Notify(peers));
      for i := 0 to |peers|
        invariant trace == old(trace) + [Notify(peers)] && completed == old(completed)
        invariant forall j :: 0 <= j < memory.Length ==>
                    memory[j] == old(memory[j]).(out := old(memory[j].out) + if j in peers[..i] then 1 else 0)
        invariant multiChannel.landed == old(multiChannel.landed)
      {
        assert peers[i] !in peers[..i];
        assert peers[..i + 1] == peers[..i] + [peers[i]];
        memory[peers[i]] := memory[peers[i]].(out := memory[peers[i]].out + 1);
      }
      assert peers[..|peers|] == peers;
      var ws := seq(|peers|, x requires 0 <= x < |peers| && peers[x] < memory.Length reads memory =>
        Landing(peers[x], memory[peers[x]].out));
      assert ws == OpLandings(old(trace), Notify(peers));
      var w := multiChannel.ScatterWrite(ws);
      if w.Err? {
        return Err(Transport(w.error));
      }
      completed := |trace|;
      r := Ok(());
    }

    /** Bumps the expected epoch for `peer`. */
    method IncreasePeerExpectedEpoch(peer: nat)
      requires Valid() && completed == |trace| && peer < memory.Length
      modifies memory, `trace
      ensures Valid() && trace == old(trace) + [Wait(peer)]
      ensures forall j :: 0 <= j < memory.Length ==> memory[j].incoming == old(memory[j].incoming)
    {
      Record(Wait(peer));
      memory[peer] := memory[peer].(expected := memory[peer].expected + 1);
    }

    function IsPeerEpochExpected(peer: nat): bool
      requires peer < memory.Length
      reads memory
    {
      memory[peer].incoming >= memory[peer].expected
    }

    const TIMEOUT_CHECK_ITERS: nat := 65536

    /** One read of the slot, after some time. */
    method Read(peer: nat, ghost first: seq<BarrierPeerFlags>) returns (arrived: bool)
      requires Valid() && peer < memory.Length && OnlyDelivered(first, memory[..])
      modifies memory, `now
      ensures Valid() && now > old(now) && OnlyDelivered(first, memory[..])
      ensures arrived <==> arrivals(now, peer) >= memory[peer].expected
    {
      Elapse();
      arrived := IsPeerEpochExpected(peer);
    }

    /** Ghost bookkeeping: the wait that is open has seen its epoch arrive. */
    ghost method Complete(peer: nat)
      requires Valid() && peer < memory.Length && |trace| == completed + 1 && trace[completed] == Wait(peer)
      requires arrivals(now, peer) >= memory[peer].expected
      modifies `completed
      ensures Valid() && completed == |trace|
    {
      completed := |trace|;
    }

    /** Busy-waits until the epoch of `peer` has reached the expected value.  The clock is
        looked at once every 2^16 reads; a timeout leaves the wait unfinished.  `moments` are
        those of the reads: at most 2^16 are made when the time is over. */
    method SpinPollPeerEpochExpected(peer: nat, startTime: nat, timeout: nat)
      returns (r: Result<(), BarrierError>, ghost moments: seq<nat>)
      requires Valid() && peer < memory.Length && startTime <= now && |trace| == completed + 1
      requires trace[completed] == Wait(peer)
      modifies memory, `now, `completed
      ensures Valid() && now >= old(now) && OnlyDelivered(old(memory[..]), memory[..])
      ensures r.Ok? ==> arrivals(now, peer) >= memory[peer].expected
      ensures r.Ok? <==> completed == |trace|
      ensures r.Err? ==> r.error == Timeout && now - startTime > timeout && arrivals(now, peer) < memory[peer].expected
      ensures |moments| > 0 && Reads(arrivals, peer, memory[peer].expected, moments, now, |moments| - 1)
      ensures |moments| > 65536 ==> moments[|moments| - 1 - 65536] - startTime <= timeout
      ensures r.Err? ==> |moments| >= 65536
    {
      var iter := 0;
      moments := [];
      ghost var expected, first := memory[peer].expected, memory[..];
      while true
        invariant Valid() && now >= old(now) && OnlyDelivered(first, memory[..])
        invariant completed == old(completed) && 0 <= iter < TIMEOUT_CHECK_ITERS
        invariant InVain(arrivals, peer, expected, moments, now, iter, startTime + timeout)
        decreases if now - startTime <= timeout then timeout - (now - startTime) + 1 else 0, TIMEOUT_CHECK_ITERS - iter
      {
        ghost var before, earlier := now, moments;
        var arrived := Read(peer, first);
        moments := earlier + [now];
        OneMoreRead(arrivals, peer, expected, earlier, before, now, iter, startTime + timeout);
        if arrived {
          Complete(peer);
          return Ok(()), moments;
        }
        iter := iter + 1;
        if iter >= TIMEOUT_CHECK_ITERS {
          iter := 0;
          if now - startTime > timeout {
            return Err(Timeout), moments;
          }
        }
      }
    }
  }
}
