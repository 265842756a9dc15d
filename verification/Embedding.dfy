/** The algorithms compute with positions in the sorted peer list; this module carries a
    plan over positions, and everything proved about it, to the ranks in the list. */
module Embedding {
  import opened Plans
  import opened BarrierTheorems

  /** A valid peer list: ranks of the world in strictly ascending order. */
  ghost predicate ValidGroup(group: seq<nat>, n: nat) {
    && (forall a, b :: 0 <= a < b < |group| ==> group[a] < group[b])
    && (forall r :: r in group ==> r < n)
  }

  /** The position binary search finds. */
  ghost function IndexOf(group: seq<nat>, r: nat): (x: nat)
    requires r in group
    ensures x < |group| && group[x] == r
  {
    var x: nat :| x < |group| && group[x] == r;
    x
  }

  lemma IndexIsUnique(group: seq<nat>, n: nat, x: nat)
    requires ValidGroup(group, n) && x < |group|
    ensures IndexOf(group, group[x]) == x
  {
  }

  function MapPeers(group: seq<nat>, peers: seq<nat>): (r: seq<nat>)
    requires forall x :: 0 <= x < |peers| ==> peers[x] < |group|
    ensures |r| == |peers|
  {
    seq(|peers|, x requires 0 <= x < |peers| => group[peers[x]])
  }

  predicate OpInGroup(op: Op, len: nat) {
    match op
    case Notify(peers) => forall x :: 0 <= x < |peers| ==> peers[x] < len
    case Wait(x) => x < len
  }

  /** An operation on positions, as an operation on ranks. */
  function MapOp(group: seq<nat>, op: Op): Op
    requires OpInGroup(op, |group|)
  {
    match op
    case Notify(peers) => Notify(MapPeers(group, peers))
    case Wait(x) => Wait(group[x])
  }

  predicate PlanInGroup(plan: seq<Op>, len: nat) {
    forall p :: 0 <= p < |plan| ==> OpInGroup(plan[p], len)
  }

  function MapPlan(group: seq<nat>, plan: seq<Op>): (r: seq<Op>)
    requires PlanInGroup(plan, |group|)
    ensures |r| == |plan|
  {
    seq(|plan|, p requires 0 <= p < |plan| => MapOp(group, plan[p]))
  }

  function Iota(len: nat): (r: seq<nat>)
    ensures |r| == len && forall x :: 0 <= x < len ==> r[x] == x
  {
    seq(len, x requires 0 <= x => x)
  }

  /** The first `len` positions, as a set. */
  function Below(len: nat): (r: set<nat>)
    ensures forall x: nat :: x in r <==> x < len
  {
    if len == 0 then {} else Below(len - 1) + {len - 1}
  }

  /** An instance over positions: position `x` is rank `x`. */
  ghost predicate PositionInstance(inst: Instance, len: nat) {
    && WellFormed(inst, len)
    && inst.group == Iota(len)
  }

  ghost predicate PlansInGroup(inst: Instance, len: nat) {
    |inst.plans| == len && forall x :: 0 <= x < len ==> PlanInGroup(inst.plans[x], len)
  }

  lemma WellFormedIsInGroup(inst: Instance, len: nat)
    requires PositionInstance(inst, len)
    ensures PlansInGroup(inst, len)
  {
    forall x, p | 0 <= x < len && 0 <= p < |inst.plans[x]|
      ensures OpInGroup(inst.plans[x][p], len)
    {
      assert PlanInWorld(inst.plans[x], x, len) && OpInWorld(inst.plans[x][p], x, len);
      if inst.plans[x][p].Notify? {
        var peers := inst.plans[x][p].peers;
        assert forall y :: 0 <= y < |peers| ==> peers[y] in peers;
      }
    }
  }

  ghost predicate Embeddable(n: nat, group: seq<nat>, inst: Instance) {
    ValidGroup(group, n) && PositionInstance(inst, |group|) && PlansInGroup(inst, |group|)
  }

  /** The instance for a group of ranks. */
  ghost function Embed(n: nat, group: seq<nat>, inst: Instance): Instance
    requires PlansInGroup(inst, |group|)
  {
    Instance(group, seq(n, r requires 0 <= r < n =>
      if r in group then MapPlan(group, inst.plans[IndexOf(group, r)]) else []))
  }

  lemma MappedSends(group: seq<nat>, n: nat, op: Op, j: nat)
    requires ValidGroup(group, n) && OpInGroup(op, |group|)
    ensures Sends(MapOp(group, op), j) <==> j in group && Sends(op, IndexOf(group, j))
  {
    if op.Notify? {
      var mapped := MapPeers(group, op.peers);
      if j in group && IndexOf(group, j) in op.peers {
        var x :| 0 <= x < |op.peers| && op.peers[x] == IndexOf(group, j);
        assert mapped[x] == j;
      }
      if j in mapped {
        var x :| 0 <= x < |mapped| && mapped[x] == j;
        IndexIsUnique(group, n, op.peers[x]);
      }
    }
  }

  lemma MappedAwaits(group: seq<nat>, n: nat, op: Op, j: nat)
    requires ValidGroup(group, n) && OpInGroup(op, |group|)
    ensures Awaits(MapOp(group, op), j) <==> j in group && Awaits(op, IndexOf(group, j))
  {
    if op.Wait? {
      IndexIsUnique(group, n, op.peer);
    }
  }

  lemma EmbedPlan(n: nat, group: seq<nat>, inst: Instance, i: nat, p: nat)
    requires Embeddable(n, group, inst)
    requires i < n && p < |Embed(n, group, inst).plans[i]|
    ensures i in group && p < |inst.plans[IndexOf(group, i)]|
    ensures Embed(n, group, inst).plans[i][p] == MapOp(group, inst.plans[IndexOf(group, i)][p])
  {
  }

  lemma EmbedOp(n: nat, group: seq<nat>, inst: Instance, i: nat, p: nat, j: nat)
    requires Embeddable(n, group, inst)
    requires i < n && p < |Embed(n, group, inst).plans[i]|
    ensures i in group && p < |inst.plans[IndexOf(group, i)]|
    ensures Sends(Embed(n, group, inst).plans[i][p], j)
       <==> j in group && Sends(inst.plans[IndexOf(group, i)][p], IndexOf(group, j))
    ensures Awaits(Embed(n, group, inst).plans[i][p], j)
       <==> j in group && Awaits(inst.plans[IndexOf(group, i)][p], IndexOf(group, j))
  {
    EmbedPlan(n, group, inst, i, p);
    MappedSends(group, n, inst.plans[IndexOf(group, i)][p], j);
    MappedAwaits(group, n, inst.plans[IndexOf(group, i)][p], j);
  }

  lemma EmbedOpInWorld(n: nat, group: seq<nat>, inst: Instance, i: nat, p: nat)
    requires Embeddable(n, group, inst)
    requires i < n && p < |Embed(n, group, inst).plans[i]|
    ensures OpInWorld(Embed(n, group, inst).plans[i][p], i, n)
  {
    EmbedPlan(n, group, inst, i, p);
    var x := IndexOf(group, i);
    var op := inst.plans[x][p];
    assert PlanInWorld(inst.plans[x], x, |group|) && OpInWorld(op, x, |group|);
    MapOpInWorld(n, group, op, x);
  }

  lemma MapOpInWorld(n: nat, group: seq<nat>, op: Op, x: nat)
    requires ValidGroup(group, n) && x < |group| && OpInGroup(op, |group|) && OpInWorld(op, x, |group|)
    ensures OpInWorld(MapOp(group, op), group[x], n)
  {
    if op.Notify? {
      var mapped := MapPeers(group, op.peers);
      forall a, b | 0 <= a < b < |mapped|
        ensures mapped[a] != mapped[b]
      {
        assert op.peers[a] != op.peers[b];
      }
      forall j | j in mapped
        ensures j < n && j != group[x]
      {
        var a :| 0 <= a < |mapped| && mapped[a] == j;
        assert op.peers[a] in op.peers && group[op.peers[a]] in group;
      }
    } else {
      assert group[op.peer] in group;
    }
  }

  lemma EmbedEdgeOnce(n: nat, group: seq<nat>, inst: Instance, i: nat, p: nat, q: nat, j: nat)
    requires Embeddable(n, group, inst)
    requires i < n && p < q < |Embed(n, group, inst).plans[i]|
    ensures Sends(Embed(n, group, inst).plans[i][p], j) ==> !Sends(Embed(n, group, inst).plans[i][q], j)
    ensures Awaits(Embed(n, group, inst).plans[i][p], j) ==> !Awaits(Embed(n, group, inst).plans[i][q], j)
  {
    EmbedOp(n, group, inst, i, p, j);
    EmbedOp(n, group, inst, i, q, j);
    assert PlanInWorld(inst.plans[IndexOf(group, i)], IndexOf(group, i), |group|);
  }

  lemma EmbedEdgesOnce(n: nat, group: seq<nat>, inst: Instance, i: nat)
    requires Embeddable(n, group, inst) && i < n
    ensures UsesEdgesOnce(Embed(n, group, inst).plans[i])
  {
    var plan := Embed(n, group, inst).plans[i];
    forall p, q, j: nat | 0 <= p < q < |plan| && Sends(plan[p], j)
      ensures !Sends(plan[q], j)
    {
      EmbedEdgeOnce(n, group, inst, i, p, q, j);
    }
    forall p, q, j: nat | 0 <= p < q < |plan| && Awaits(plan[p], j)
      ensures !Awaits(plan[q], j)
    {
      EmbedEdgeOnce(n, group, inst, i, p, q, j);
    }
  }

  lemma EmbedHasSend(n: nat, group: seq<nat>, inst: Instance, i: nat, j: nat)
    requires Embeddable(n, group, inst) && i < n
    ensures HasSend(Embed(n, group, inst).plans[i], j)
       <==> i in group && j in group && HasSend(inst.plans[IndexOf(group, i)], IndexOf(group, j))
  {
    var plan := Embed(n, group, inst).plans[i];
    forall p | 0 <= p < |plan|
      ensures Sends(plan[p], j) <==> j in group && Sends(inst.plans[IndexOf(group, i)][p], IndexOf(group, j))
    {
      EmbedOp(n, group, inst, i, p, j);
    }
    if i in group && j in group && HasSend(inst.plans[IndexOf(group, i)], IndexOf(group, j)) {
      var q :| 0 <= q < |inst.plans[IndexOf(group, i)]| && Sends(inst.plans[IndexOf(group, i)][q], IndexOf(group, j));
      assert Sends(plan[q], j);
    }
  }

  lemma EmbedHasWait(n: nat, group: seq<nat>, inst: Instance, i: nat, j: nat)
    requires Embeddable(n, group, inst) && i < n
    ensures HasWait(Embed(n, group, inst).plans[i], j)
       <==> i in group && j in group && HasWait(inst.plans[IndexOf(group, i)], IndexOf(group, j))
  {
    var plan := Embed(n, group, inst).plans[i];
    forall p | 0 <= p < |plan|
      ensures Awaits(plan[p], j) <==> j in group && Awaits(inst.plans[IndexOf(group, i)][p], IndexOf(group, j))
    {
      EmbedOp(n, group, inst, i, p, j);
    }
    if i in group && j in group && HasWait(inst.plans[IndexOf(group, i)], IndexOf(group, j)) {
      var q :| 0 <= q < |inst.plans[IndexOf(group, i)]| && Awaits(inst.plans[IndexOf(group, i)][q], IndexOf(group, j));
      assert Awaits(plan[q], j);
    }
  }

  lemma EmbedWellFormed(n: nat, group: seq<nat>, inst: Instance)
    requires Embeddable(n, group, inst)
    ensures WellFormed(Embed(n, group, inst), n)
  {
    var e := Embed(n, group, inst);
    forall i | 0 <= i < n
      ensures PlanInWorld(e.plans[i], i, n)
    {
      EmbedEdgesOnce(n, group, inst, i);
      forall p | 0 <= p < |e.plans[i]|
        ensures OpInWorld(e.plans[i][p], i, n)
      {
        EmbedOpInWorld(n, group, inst, i, p);
      }
    }
    forall i, j | 0 <= i < n && 0 <= j < n
      ensures HasSend(e.plans[i], j) <==> HasWait(e.plans[j], i)
    {
      EmbedHasSend(n, group, inst, i, j);
      EmbedHasWait(n, group, inst, j, i);
    }
  }

  lemma EmbedReleases(n: nat, group: seq<nat>, inst: Instance, j: nat, q: nat, i: nat, p: nat)
    requires Embeddable(n, group, inst)
    requires Releases(Embed(n, group, inst), j, q, i, p)
    ensures i in group && j in group && Releases(inst, IndexOf(group, j), q, IndexOf(group, i), p)
  {
    EmbedOp(n, group, inst, i, p, j);
    EmbedOp(n, group, inst, j, q, i);
  }

  lemma EmbedClock(n: nat, group: seq<nat>, inst: Instance, time: (nat, nat) -> nat)
    requires Embeddable(n, group, inst)
    requires Clock(inst, time)
    ensures HasClock(Embed(n, group, inst))
  {
    var e := Embed(n, group, inst);
    var t: (nat, nat) -> nat := (r: nat, p: nat) => if r in group then time(IndexOf(group, r), p) else 0;
    forall i, p, q | 0 <= i < |e.plans| && 0 <= p < q < |e.plans[i]|
      ensures t(i, p) < t(i, q)
    {
      EmbedPlan(n, group, inst, i, p);
      EmbedPlan(n, group, inst, i, q);
    }
    forall i: nat, j: nat, p: nat, q: nat | Releases(e, j, q, i, p)
      ensures t(j, q) < t(i, p)
    {
      EmbedReleases(n, group, inst, j, q, i, p);
    }
    assert Clock(e, t);
  }

  /** The ranks at a set of positions. */
  ghost function RanksAt(group: seq<nat>, positions: set<nat>): set<nat> {
    set x: nat | x in positions && x < |group| :: group[x]
  }

  lemma RanksAtUnion(group: seq<nat>, a: set<nat>, b: set<nat>, c: set<nat>)
    requires a <= b + c
    ensures RanksAt(group, a) <= RanksAt(group, b) + RanksAt(group, c)
  {
  }

  ghost function RankKnow(group: seq<nat>, know: (nat, nat) -> set<nat>, r: nat, p: nat): set<nat> {
    if r in group then RanksAt(group, know(IndexOf(group, r), p)) else {}
  }

  ghost function RankKnowledge(group: seq<nat>, know: (nat, nat) -> set<nat>): (nat, nat) -> set<nat> {
    (r: nat, p: nat) => RankKnow(group, know, r, p)
  }

  lemma EmbedKnowledge(n: nat, group: seq<nat>, inst: Instance, know: (nat, nat) -> set<nat>)
    requires Embeddable(n, group, inst)
    requires Knowledge(inst, know)
    ensures Knowledge(Embed(n, group, inst), RankKnowledge(group, know))
    ensures Synchronizes(Embed(n, group, inst))
  {
    var e := Embed(n, group, inst);
    forall i: nat, p: nat | 0 <= i < |e.plans| && 0 <= p < |e.plans[i]| && e.plans[i][p].Notify?
      ensures RankKnow(group, know, i, p + 1) <= RankKnow(group, know, i, p)
    {
      EmbedPlan(n, group, inst, i, p);
      RanksAtUnion(group, know(IndexOf(group, i), p + 1), know(IndexOf(group, i), p), {});
    }
    forall i: nat, j: nat, p: nat, q: nat | Releases(e, j, q, i, p)
      ensures RankKnow(group, know, i, p + 1) <= RankKnow(group, know, i, p) + RankKnow(group, know, j, q)
    {
      EmbedReleases(n, group, inst, j, q, i, p);
      RanksAtUnion(group, know(IndexOf(group, i), p + 1), know(IndexOf(group, i), p), know(IndexOf(group, j), q));
    }
    forall i, r | 0 <= i < |e.plans| && i in e.group && r in e.group
      ensures r in RankKnow(group, know, i, |e.plans[i]|)
    {
      var x, y := IndexOf(group, i), IndexOf(group, r);
      assert Iota(|group|)[x] == x && Iota(|group|)[y] == y;
      assert y in know(x, |inst.plans[x]|);
    }
    assert Knowledge(e, RankKnowledge(group, know));
  }

  lemma EmbedHandshake(n: nat, group: seq<nat>, inst: Instance)
    requires Embeddable(n, group, inst)
    requires Handshake(inst)
    ensures Handshake(Embed(n, group, inst))
  {
    var e := Embed(n, group, inst);
    forall a: nat, b: nat, q: nat | a < b && SendsAt(e, a, q, b)
      ensures HeardBefore(e.plans[a], b, q)
    {
      EmbedOp(n, group, inst, a, q, b);
      var x, y := IndexOf(group, a), IndexOf(group, b);
      assert SendsAt(inst, x, q, y) && x < y;
      var p :| 0 <= p < q && p < |inst.plans[x]| && Awaits(inst.plans[x][p], y);
      EmbedOp(n, group, inst, a, p, b);
      assert Awaits(e.plans[a][p], b);
    }
    forall a: nat, b: nat, q: nat | a < b && SendsAt(e, b, q, a)
      ensures HasWait(e.plans[b], a)
    {
      EmbedOp(n, group, inst, b, q, a);
      var x, y := IndexOf(group, a), IndexOf(group, b);
      assert SendsAt(inst, y, q, x) && x < y;
      EmbedHasWait(n, group, inst, b, a);
    }
  }
}
