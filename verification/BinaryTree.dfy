/** The binary tree barrier: reports rise from the leaves to the root, then the answer
    travels back down. */
module BinaryTree {
  import opened Wrappers
  import opened Arithmetic
  import opened Plans
  import opened BarrierTheorems
  import opened Embedding

  function ParentIndex(idx: nat): Option<nat> {
    if idx > 0 then Some((idx - 1) / 2) else None
  }

  /** The child positions that exist in a tree of `len` nodes. */
  function ChildIndices(idx: nat, len: nat): seq<nat> {
    (if 2 * idx + 1 < len then [2 * idx + 1] else []) + (if 2 * idx + 2 < len then [2 * idx + 2] else [])
  }

  /** Parent and children are mutually inverse, for every tree size. */
  lemma ParentOfChild(idx: nat, len: nat, c: nat)
    ensures c in ChildIndices(idx, len) <==> c < len && ParentIndex(c) == Some(idx)
  {
  }

  /** The plan of position `idx` in a peer list of length `len`. */
  function Plan(idx: nat, len: nat): seq<Op>
    requires idx < len
  {
    if len < 2 then []
    else
      var children := ChildIndices(idx, len);
      seq(|children|, x requires 0 <= x < |children| => Wait(children[x])) +
      (match ParentIndex(idx)
       case None => []
       case Some(parent) => [Notify([parent]), Wait(parent)]) +
      [Notify(children)]
  }

  ghost function Positions(len: nat): Instance {
    Instance(Iota(len), seq(len, idx requires 0 <= idx < len => Plan(idx, len)))
  }

  lemma Shape(idx: nat, len: nat)
    requires idx < len && len >= 2
    ensures var children, plan := ChildIndices(idx, len), Plan(idx, len);
            && |plan| == |children| + (if idx == 0 then 1 else 3)
            && (forall x :: 0 <= x < |children| ==> plan[x] == Wait(children[x]))
            && plan[|plan| - 1] == Notify(children)
            && (idx > 0 ==> plan[|children|] == Notify([(idx - 1) / 2]) && plan[|children| + 1] == Wait((idx - 1) / 2))
  {
  }

  lemma ChildrenAreInWorld(idx: nat, len: nat)
    requires idx < len
    ensures OpInWorld(Notify(ChildIndices(idx, len)), idx, len)
    ensures forall c :: c in ChildIndices(idx, len) ==> OpInWorld(Wait(c), idx, len)
  {
  }

  lemma OpIsInWorld(idx: nat, len: nat, p: nat)
    requires idx < len && p < |Plan(idx, len)|
    ensures OpInWorld(Plan(idx, len)[p], idx, len)
  {
    Shape(idx, len);
    ChildrenAreInWorld(idx, len);
    var children := ChildIndices(idx, len);
    if p < |children| {
      assert children[p] in children;
    } else if p < |Plan(idx, len)| - 1 {
      assert Plan(idx, len)[p] in {Notify([(idx - 1) / 2]), Wait((idx - 1) / 2)};
    }
  }

  lemma PlanIsInWorld(idx: nat, len: nat)
    requires idx < len
    ensures PlanInWorld(Plan(idx, len), idx, len)
  {
    forall p | 0 <= p < |Plan(idx, len)|
      ensures OpInWorld(Plan(idx, len)[p], idx, len)
    {
      OpIsInWorld(idx, len, p);
    }
    if len >= 2 {
      PlanUsesEdgesOnce(idx, len);
    }
  }

  lemma PlanUsesEdgesOnce(idx: nat, len: nat)
    requires idx < len && len >= 2
    ensures UsesEdgesOnce(Plan(idx, len))
  {
    Shape(idx, len);
    var plan := Plan(idx, len);
    forall p, q, j: nat | 0 <= p < q < |plan| && Sends(plan[p], j)
      ensures !Sends(plan[q], j)
    {
    }
    forall p, q, j: nat | 0 <= p < q < |plan| && Awaits(plan[p], j)
      ensures !Awaits(plan[q], j)
    {
    }
  }

  ghost predicate Adjacent(i: nat, j: nat) {
    ParentIndex(i) == Some(j) || ParentIndex(j) == Some(i)
  }

  lemma SendsIff(i: nat, j: nat, len: nat)
    requires i < len && j < len
    ensures HasSend(Plan(i, len), j) <==> Adjacent(i, j)
  {
    if len >= 2 {
      Shape(i, len);
      ParentOfChild(i, len, j);
      var plan := Plan(i, len);
      if ParentIndex(i) == Some(j) {
        assert Sends(plan[|ChildIndices(i, len)|], j);
      } else if ParentIndex(j) == Some(i) {
        assert Sends(plan[|plan| - 1], j);
      }
    }
  }

  lemma WaitsIff(i: nat, j: nat, len: nat)
    requires i < len && j < len
    ensures HasWait(Plan(i, len), j) <==> Adjacent(i, j)
  {
    if len >= 2 {
      Shape(i, len);
      ParentOfChild(i, len, j);
      var plan, children := Plan(i, len), ChildIndices(i, len);
      if ParentIndex(i) == Some(j) {
        assert Awaits(plan[|children| + 1], j);
      } else if ParentIndex(j) == Some(i) {
        var x :| 0 <= x < |children| && children[x] == j;
        assert Awaits(plan[x], j);
      }
    }
  }

  lemma IsPositionInstance(len: nat)
    ensures PositionInstance(Positions(len), len)
  {
    var inst := Positions(len);
    forall i | 0 <= i < len
      ensures PlanInWorld(inst.plans[i], i, len)
    {
      PlanIsInWorld(i, len);
    }
    forall i, j | 0 <= i < len && 0 <= j < len
      ensures HasSend(inst.plans[i], j) <==> HasWait(inst.plans[j], i)
    {
      SendsIff(i, j, len);
      WaitsIff(j, i, len);
    }
    forall x | 0 <= x < len
      ensures x in Iota(len)
    {
      assert Iota(len)[x] == x;
    }
  }

  /** A release is a child's report to its parent or a parent's answer to its child. */
  lemma ReleaseIs(len: nat, j: nat, q: nat, i: nat, p: nat)
    requires Releases(Positions(len), j, q, i, p)
    ensures len >= 2 && i < len && j < len
    ensures var ci, cj := |ChildIndices(i, len)|, |ChildIndices(j, len)|;
            || (ParentIndex(j) == Some(i) && p < ci && ChildIndices(i, len)[p] == j && q == cj)
            || (ParentIndex(i) == Some(j) && p == ci + 1 && q == |Plan(j, len)| - 1)
  {
    assert Positions(len).plans[i] == Plan(i, len) && Positions(len).plans[j] == Plan(j, len);
    Shape(i, len);
    Shape(j, len);
  }

  /** Up phase: deeper positions come first.  Down phase: they come last. */
  ghost function TimeAt(len: nat, idx: nat, p: nat): nat {
    if idx < len && p <= |ChildIndices(idx, len)| then 4 * (len - idx) + p else 4 * len + 4 * idx + p
  }

  lemma HasAClock(len: nat)
    ensures Clock(Positions(len), (idx: nat, p: nat) => TimeAt(len, idx, p))
  {
    forall i: nat, j: nat, p: nat, q: nat | Releases(Positions(len), j, q, i, p)
      ensures TimeAt(len, j, q) < TimeAt(len, i, p)
    {
      ReleaseIs(len, j, q, i, p);
      Shape(j, len);
    }
  }

  /** `x` lies in the subtree of `i`. */
  ghost predicate InSubtree(x: nat, i: nat) {
    x == i || (x > i && InSubtree((x - 1) / 2, i))
  }

  /** Every position reaches the root. */
  lemma {:induction false} ReachesRoot(x: nat)
    ensures InSubtree(x, 0)
  {
    if x > 0 {
      ReachesRoot((x - 1) / 2);
    }
  }

  /** A subtree is its root and the subtrees of the children that exist. */
  lemma {:induction false} SubtreeSplits(x: nat, i: nat)
    requires InSubtree(x, i) && x != i
    ensures InSubtree(x, 2 * i + 1) || InSubtree(x, 2 * i + 2)
  {
    var y := (x - 1) / 2;
    if y != i {
      SubtreeSplits(y, i);
    }
  }

  /** How many parents separate a position from the root. */
  function Depth(idx: nat): nat {
    match ParentIndex(idx)
    case None => 0
    case Some(parent) => 1 + Depth(parent)
  }

  /** The depth of a tree of `len` nodes is at most the logarithm of `len`, rounded down. */
  lemma {:induction false} DepthIsLogarithmic(idx: nat, len: nat)
    requires idx < len
    ensures Pow2(Depth(idx)) <= idx + 1 <= len
  {
    if idx > 0 {
      DepthIsLogarithmic((idx - 1) / 2, len);
    }
  }

  ghost function Subtree(i: nat, len: nat): set<nat> {
    set x | x in Below(len) && InSubtree(x, i)
  }

  /** What position `idx` has heard about after `p` of its children have reported. */
  ghost function Collected(len: nat, idx: nat, p: nat): set<nat> {
    {idx} + (if p >= 1 then Subtree(2 * idx + 1, len) else {}) + (if p >= 2 then Subtree(2 * idx + 2, len) else {})
  }

  lemma AllCollected(len: nat, idx: nat)
    requires idx < len
    ensures Subtree(idx, len) <= Collected(len, idx, |ChildIndices(idx, len)|)
  {
    forall x | x in Subtree(idx, len)
      ensures x in Collected(len, idx, |ChildIndices(idx, len)|)
    {
      if x != idx {
        SubtreeSplits(x, idx);
        InSubtreeIsAbove(x, 2 * idx + 1);
        InSubtreeIsAbove(x, 2 * idx + 2);
      }
    }
  }

  lemma {:induction false} InSubtreeIsAbove(x: nat, i: nat)
    ensures InSubtree(x, i) ==> x >= i
  {
  }

  lemma RootCollectsAll(len: nat)
    requires len >= 1
    ensures Below(len) <= Collected(len, 0, |ChildIndices(0, len)|)
  {
    AllCollected(len, 0);
    forall x | x in Below(len)
      ensures x in Subtree(0, len)
    {
      ReachesRoot(x);
    }
  }

  /** When a wait for a child passes, its whole subtree has entered; when the wait for the
      parent passes, everybody has. */
  ghost function KnowAt(len: nat, idx: nat, p: nat): set<nat> {
    var c := |ChildIndices(idx, len)|;
    if p <= c then Collected(len, idx, p)
    else if p == c + 1 then Collected(len, idx, c)
    else Below(len)
  }

  lemma KnowsFromRelease(len: nat, j: nat, q: nat, i: nat, p: nat)
    requires Releases(Positions(len), j, q, i, p)
    ensures KnowAt(len, i, p + 1) <= KnowAt(len, i, p) + KnowAt(len, j, q)
  {
    ReleaseIs(len, j, q, i, p);
    Shape(j, len);
    if ParentIndex(j) == Some(i) && p < |ChildIndices(i, len)| {
      AllCollected(len, j);
    } else if j == 0 {
      RootCollectsAll(len);
    }
  }

  lemma SubtreeIsKnown(len: nat, x: nat, y: nat, c: nat)
    requires x < len && y < len && c < |ChildIndices(x, len)| && InSubtree(y, ChildIndices(x, len)[c])
    ensures c + 1 <= |Plan(x, len)| && y in KnowAt(len, x, c + 1)
  {
    Shape(x, len);
  }

  lemma AnswerIsKnown(len: nat, x: nat, y: nat)
    requires 0 < x < len && y < len
    ensures |ChildIndices(x, len)| + 2 <= |Plan(x, len)| && y in KnowAt(len, x, |ChildIndices(x, len)| + 2)
  {
    Shape(x, len);
  }

  ghost function Know(len: nat): (nat, nat) -> set<nat> {
    (idx: nat, p: nat) => KnowAt(len, idx, p)
  }

  lemma Knows(len: nat)
    ensures Knowledge(Positions(len), Know(len))
  {
    var inst := Positions(len);
    forall i: nat, p: nat | 0 <= i < |inst.plans| && 0 <= p < |inst.plans[i]| && inst.plans[i][p].Notify?
      ensures KnowAt(len, i, p + 1) <= KnowAt(len, i, p)
    {
      Shape(i, len);
    }
    forall i: nat, j: nat, p: nat, q: nat | Releases(inst, j, q, i, p)
      ensures KnowAt(len, i, p + 1) <= KnowAt(len, i, p) + KnowAt(len, j, q)
    {
      KnowsFromRelease(len, j, q, i, p);
    }
    forall i, r | 0 <= i < |inst.plans| && i in inst.group && r in inst.group
      ensures r in KnowAt(len, i, |inst.plans[i]|)
    {
      if len >= 2 { Shape(i, len); }
      RootCollectsAll(len);
    }
  }

  lemma IsHandshake(len: nat)
    ensures Handshake(Positions(len))
  {
    var inst := Positions(len);
    forall a: nat, b: nat, q: nat | a < b && SendsAt(inst, a, q, b)
      ensures HeardBefore(inst.plans[a], b, q)
    {
      Shape(a, len);
      var children := ChildIndices(a, len);
      var x :| 0 <= x < |children| && children[x] == b;
      assert Awaits(inst.plans[a][x], b);
    }
    forall a: nat, b: nat, q: nat | a < b && SendsAt(inst, b, q, a)
      ensures HasWait(inst.plans[b], a)
    {
      assert HasSend(inst.plans[b], a);
      SendsIff(b, a, len);
      WaitsIff(b, a, len);
    }
  }
}
