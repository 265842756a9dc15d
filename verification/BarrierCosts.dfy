/** The number of RDMA writes each algorithm makes for a group of `len` members. */
module BarrierCosts {
  import opened Plans
  import opened WriteCounts
  import Linear
  import BinaryTree
  import Dissemination

  lemma {:induction false} WaitsWriteNothing(plan: seq<Op>, p: nat)
    requires p <= |plan| && forall x :: 0 <= x < p ==> plan[x].Wait?
    ensures PlanWrites(plan, p) == 0
  {
    if p > 0 { WaitsWriteNothing(plan, p - 1); }
  }

  lemma LinearPlanWrites(idx: nat, len: nat)
    requires idx < len && len >= 2
    ensures var plan := Linear.Plan(idx, len);
            PlanWrites(plan, |plan|) == if idx == 0 then len - 1 else 1
  {
    var plan := Linear.Plan(idx, len);
    if idx == 0 {
      Linear.LeaderPlan(len);
      WaitsWriteNothing(plan, len - 1);
    } else {
      assert PlanWrites(plan, 1) == PlanWrites(plan, 0) + 1;
    }
  }

  lemma {:induction false} LinearWritesUpTo(len: nat, c: nat)
    requires len >= 2 && c <= len
    ensures InstanceWrites(Linear.Positions(len), c) == if c == 0 then 0 else len - 1 + (c - 1)
  {
    if c > 0 {
      LinearWritesUpTo(len, c - 1);
      LinearPlanWrites(c - 1, len);
    }
  }

  lemma TreePlanWrites(idx: nat, len: nat)
    requires idx < len && len >= 2
    ensures var plan := BinaryTree.Plan(idx, len);
            PlanWrites(plan, |plan|) == |BinaryTree.ChildIndices(idx, len)| + if idx == 0 then 0 else 1
  {
    var plan, c := BinaryTree.Plan(idx, len), |BinaryTree.ChildIndices(idx, len)|;
    BinaryTree.Shape(idx, len);
    WaitsWriteNothing(plan, c);
    if idx > 0 {
      assert PlanWrites(plan, c + 1) == 1;
      assert PlanWrites(plan, c + 2) == 1;
    }
  }

  lemma ChildCount(idx: nat, len: nat)
    ensures |BinaryTree.ChildIndices(idx, len)| == if 2 * idx + 2 < len then 2 else if 2 * idx + 1 < len then 1 else 0
  {
  }

  /** Every position but the root is somebody's child exactly once. */
  lemma {:induction false} TreeWritesUpTo(len: nat, c: nat)
    requires len >= 2 && c <= len
    ensures InstanceWrites(BinaryTree.Positions(len), c)
         == (if 2 * c < len - 1 then 2 * c else len - 1) + if c == 0 then 0 else c - 1
  {
    if c > 0 {
      TreeWritesUpTo(len, c - 1);
      TreePlanWrites(c - 1, len);
      ChildCount(c - 1, len);
    }
  }

  lemma {:induction false} DisseminationPlanWrites(idx: nat, len: nat, r: nat)
    requires idx < len && len >= 2 && 2 * len <= Dissemination.USIZE_MAX && r <= Dissemination.Rounds(len)
    ensures |Dissemination.Plan(idx, len)| == 2 * Dissemination.Rounds(len)
    ensures PlanWrites(Dissemination.Plan(idx, len), 2 * r) == r
  {
    var plan := Dissemination.Plan(idx, len);
    assert |Dissemination.RoundPairs(idx, len)| == Dissemination.Rounds(len);
    if r > 0 {
      DisseminationPlanWrites(idx, len, r - 1);
      Dissemination.Shape(idx, len, r - 1);
      assert plan[2 * r - 2].Notify? && plan[2 * r - 1].Wait?;
      assert PlanWrites(plan, 2 * r) == PlanWrites(plan, 2 * r - 1);
      assert PlanWrites(plan, 2 * r - 1) == PlanWrites(plan, 2 * r - 2) + 1;
    }
  }

  lemma OneMoreFactor(c: nat, r: nat)
    ensures (c + 1) * r == c * r + r
  {
  }

  lemma {:induction false} SameForAll(inst: Instance, c: nat, w: nat)
    requires c <= |inst.plans| && forall i :: 0 <= i < c ==> PlanWrites(inst.plans[i], |inst.plans[i]|) == w
    ensures InstanceWrites(inst, c) == c * w
  {
    if c > 0 {
      SameForAll(inst, c - 1, w);
      OneMoreFactor(c - 1, w);
    }
  }

  lemma DisseminationWritesUpTo(len: nat, c: nat)
    requires len >= 2 && 2 * len <= Dissemination.USIZE_MAX && c <= len
    ensures InstanceWrites(Dissemination.Positions(len), c) == c * Dissemination.Rounds(len)
  {
    var inst, rounds := Dissemination.Positions(len), Dissemination.Rounds(len);
    forall i | 0 <= i < c
      ensures PlanWrites(inst.plans[i], |inst.plans[i]|) == rounds
    {
      DisseminationPlanWrites(i, len, rounds);
    }
    SameForAll(inst, c, rounds);
  }
}
