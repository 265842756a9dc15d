/** How many RDMA writes a barrier costs. */
module WriteCounts {
  import opened Arithmetic
  import opened Plans
  import opened BarrierSystem
  import opened BarrierInvariant
  import opened Embedding

  function OpWrites(op: Op): nat {
    match op
    case Notify(peers) => |peers|
    case Wait(_) => 0
  }

  /** RDMA writes issued by the first `p` operations of a plan. */
  function PlanWrites(plan: seq<Op>, p: nat): nat
    requires p <= |plan|
  {
    if p == 0 then 0 else PlanWrites(plan, p - 1) + OpWrites(plan[p - 1])
  }

  /** RDMA writes issued by the first `c` ranks during one instance. */
  function InstanceWrites(inst: Instance, c: nat): nat
    requires c <= |inst.plans|
  {
    if c == 0 then 0 else InstanceWrites(inst, c - 1) + PlanWrites(inst.plans[c - 1], |inst.plans[c - 1]|)
  }

  // ------------------------------------------------- writes and counters

  function Hits(peers: seq<nat>, m: nat): nat {
    if m == 0 then 0 else Hits(peers, m - 1) + if m - 1 in peers then 1 else 0
  }

  lemma {:induction false} HitsSkip(peers: seq<nat>, m: nat)
    requires Distinct(peers) && |peers| > 0
    ensures Hits(peers, m) == Hits(peers[1..], m) + if peers[0] < m then 1 else 0
  {
    if m > 0 {
      HitsSkip(peers, m - 1);
      assert peers == [peers[0]] + peers[1..];
      assert m - 1 in peers <==> m - 1 == peers[0] || m - 1 in peers[1..];
    }
  }

  lemma {:induction false} HitsAll(peers: seq<nat>, n: nat)
    requires Distinct(peers) && forall x :: 0 <= x < |peers| ==> peers[x] < n
    ensures Hits(peers, n) == |peers|
  {
    if |peers| > 0 {
      HitsSkip(peers, n);
      HitsAll(peers[1..], n);
    } else {
      HitsNone(peers, n);
    }
  }

  lemma {:induction false} HitsNone(peers: seq<nat>, n: nat)
    requires |peers| == 0
    ensures Hits(peers, n) == 0
  {
    if n > 0 { HitsNone(peers, n - 1); }
  }

  /** Notifications of the ranks below `m`, counted target by target. */
  function SendsBelow(plan: seq<Op>, p: nat, m: nat): nat
    requires p <= |plan|
  {
    if m == 0 then 0 else SendsBelow(plan, p, m - 1) + SendCount(plan, m - 1, p)
  }

  lemma {:induction false} SendsBelowStep(plan: seq<Op>, p: nat, m: nat)
    requires 0 < p <= |plan|
    ensures SendsBelow(plan, p, m)
         == SendsBelow(plan, p - 1, m) + if plan[p - 1].Notify? then Hits(plan[p - 1].peers, m) else 0
  {
    if m > 0 { SendsBelowStep(plan, p, m - 1); }
  }

  lemma {:induction false} SendsBelowZero(plan: seq<Op>, m: nat)
    ensures SendsBelow(plan, 0, m) == 0
  {
    if m > 0 { SendsBelowZero(plan, m - 1); }
  }

  lemma {:induction false} WritesAreSends(plan: seq<Op>, i: nat, n: nat, p: nat)
    requires PlanInWorld(plan, i, n) && p <= |plan|
    ensures PlanWrites(plan, p) == SendsBelow(plan, p, n)
  {
    if p == 0 {
      SendsBelowZero(plan, n);
    } else {
      WritesAreSends(plan, i, n, p - 1);
      SendsBelowStep(plan, p, n);
      var op := plan[p - 1];
      assert OpInWorld(op, i, n);
      if op.Notify? {
        forall x | 0 <= x < |op.peers|
          ensures op.peers[x] < n
        {
          assert op.peers[x] in op.peers;
        }
        HitsAll(op.peers, n);
      }
    }
  }

  /** Writes of rank `i` over the first `k` instances. */
  ghost function RankWrites(sys: System, i: nat, k: nat): nat
    requires GoodSystem(sys) && i < sys.n && k <= |sys.instances|
  {
    if k == 0 then 0
    else
      var plan := sys.instances[k - 1].plans[i];
      RankWrites(sys, i, k - 1) + PlanWrites(plan, |plan|)
  }

  ghost function SentBelow(sys: System, i: nat, k: nat, m: nat): nat
    requires GoodSystem(sys) && i < sys.n && k <= |sys.instances|
  {
    if m == 0 then 0 else SentBelow(sys, i, k, m - 1) + Sent(sys, i, m - 1, k)
  }

  lemma {:induction false} SentBelowZero(sys: System, i: nat, m: nat)
    requires GoodSystem(sys) && i < sys.n
    ensures SentBelow(sys, i, 0, m) == 0
  {
    if m > 0 { SentBelowZero(sys, i, m - 1); }
  }

  lemma {:induction false} SentBelowStep(sys: System, i: nat, k: nat, m: nat)
    requires GoodSystem(sys) && i < sys.n && 0 < k <= |sys.instances|
    ensures var plan := sys.instances[k - 1].plans[i];
            SentBelow(sys, i, k, m) == SentBelow(sys, i, k - 1, m) + SendsBelow(plan, |plan|, m)
  {
    if m > 0 { SentBelowStep(sys, i, k, m - 1); }
  }

  lemma {:induction false} RankWritesAreSent(sys: System, i: nat, k: nat)
    requires GoodSystem(sys) && i < sys.n && k <= |sys.instances|
    ensures RankWrites(sys, i, k) == SentBelow(sys, i, k, sys.n)
  {
    if k == 0 {
      SentBelowZero(sys, i, sys.n);
    } else {
      RankWritesAreSent(sys, i, k - 1);
      SentBelowStep(sys, i, k, sys.n);
      var plan := sys.instances[k - 1].plans[i];
      WritesAreSends(plan, i, sys.n, |plan|);
    }
  }

  lemma {:induction false} SumIsSentBelow(sys: System, i: nat, nd: NodeState, m: nat)
    requires GoodSystem(sys) && i < sys.n && NodeShape(sys, i, nd) && NodeCounters(sys, i, nd)
    requires nd.phase.Idle? && m <= sys.n
    ensures Sum(nd.out, m) == SentBelow(sys, i, nd.call, m)
  {
    if m > 0 {
      SumIsSentBelow(sys, i, nd, m - 1);
      assert nd.out[m - 1] == Issued(sys, i, nd, m - 1);
    }
  }

  /** The sum of all out epochs of the first `c` nodes. */
  ghost function TotalOut(sys: System, s: State, c: nat): nat
    requires Shape(sys, s) && c <= sys.n
  {
    if c == 0 then 0 else TotalOut(sys, s, c - 1) + Sum(s[c - 1].out, sys.n)
  }

  ghost function RankWritesBelow(sys: System, k: nat, c: nat): nat
    requires GoodSystem(sys) && k <= |sys.instances| && c <= sys.n
  {
    if c == 0 then 0 else RankWritesBelow(sys, k, c - 1) + RankWrites(sys, c - 1, k)
  }

  ghost function WritesUpTo(sys: System, k: nat): nat
    requires GoodSystem(sys) && k <= |sys.instances|
  {
    if k == 0 then 0 else WritesUpTo(sys, k - 1) + InstanceWrites(sys.instances[k - 1], sys.n)
  }

  lemma {:induction false} RankWritesBelowZero(sys: System, c: nat)
    requires GoodSystem(sys) && c <= sys.n
    ensures RankWritesBelow(sys, 0, c) == 0
  {
    if c > 0 { RankWritesBelowZero(sys, c - 1); }
  }

  lemma {:induction false} RankWritesBelowStep(sys: System, k: nat, c: nat)
    requires GoodSystem(sys) && 0 < k <= |sys.instances| && c <= sys.n
    ensures RankWritesBelow(sys, k, c) == RankWritesBelow(sys, k - 1, c) + InstanceWrites(sys.instances[k - 1], c)
  {
    if c > 0 { RankWritesBelowStep(sys, k, c - 1); }
  }

  lemma {:induction false} WritesByInstance(sys: System, k: nat)
    requires GoodSystem(sys) && k <= |sys.instances|
    ensures RankWritesBelow(sys, k, sys.n) == WritesUpTo(sys, k)
  {
    if k == 0 {
      RankWritesBelowZero(sys, sys.n);
    } else {
      WritesByInstance(sys, k - 1);
      RankWritesBelowStep(sys, k, sys.n);
    }
  }

  lemma {:induction false} TotalOutByRank(sys: System, s: State, k: nat, c: nat)
    requires GoodSystem(sys) && Inv(sys, s) && c <= sys.n && k <= |sys.instances|
    requires forall i :: 0 <= i < sys.n ==> s[i].phase.Idle? && s[i].call == k
    ensures TotalOut(sys, s, c) == RankWritesBelow(sys, k, c)
  {
    if c > 0 {
      TotalOutByRank(sys, s, k, c - 1);
      assert NodeShape(sys, c - 1, s[c - 1]);
      SumIsSentBelow(sys, c - 1, s[c - 1], sys.n);
      RankWritesAreSent(sys, c - 1, k);
    }
  }

  /** Conservation: when all nodes are between calls, the out epochs of the whole network
      add up to the writes of the instances behind them. */
  lemma TotalOutIsWrites(sys: System, s: State, k: nat)
    requires GoodSystem(sys) && Inv(sys, s) && k <= |sys.instances|
    requires forall i :: 0 <= i < sys.n ==> s[i].phase.Idle? && s[i].call == k
    ensures TotalOut(sys, s, sys.n) == WritesUpTo(sys, k)
  {
    TotalOutByRank(sys, s, k, sys.n);
    WritesByInstance(sys, k);
  }

  // ------------------------------------------------- from positions to ranks

  lemma {:induction false} MappedWrites(group: seq<nat>, plan: seq<Op>, p: nat)
    requires PlanInGroup(plan, |group|) && p <= |plan|
    ensures PlanWrites(MapPlan(group, plan), p) == PlanWrites(plan, p)
  {
    if p > 0 { MappedWrites(group, plan, p - 1); }
  }

  /** The first `c` peers are exactly those below `m`. */
  ghost predicate Cut(group: seq<nat>, m: nat, c: nat) {
    && c <= |group| && c <= m
    && (forall x :: 0 <= x < c ==> group[x] < m)
    && (forall x :: c <= x < |group| ==> group[x] >= m)
  }

  lemma {:induction false} RanksGrow(group: seq<nat>, n: nat, x: nat)
    requires ValidGroup(group, n) && x < |group|
    ensures group[x] >= x
  {
    if x > 0 {
      RanksGrow(group, n, x - 1);
    }
  }

  lemma CutBelow(group: seq<nat>, n: nat, m: nat, c: nat)
    requires ValidGroup(group, n) && 0 < m && Cut(group, m, c)
    ensures m - 1 in group ==> c > 0 && IndexOf(group, m - 1) == c - 1 && Cut(group, m - 1, c - 1)
    ensures m - 1 !in group ==> Cut(group, m - 1, c)
  {
    if m - 1 in group {
      var x := IndexOf(group, m - 1);
      assert x < c && group[c - 1] <= m - 1;
    } else {
      assert forall x :: 0 <= x < |group| ==> group[x] in group;
      if c > 0 {
        RanksGrow(group, n, c - 1);
      }
    }
  }

  /** What rank `r` costs, read off its position. */
  ghost function RankCost(group: seq<nat>, inst: Instance, r: nat): nat
    requires |inst.plans| == |group|
  {
    if r in group then PlanWrites(inst.plans[IndexOf(group, r)], |inst.plans[IndexOf(group, r)]|) else 0
  }

  lemma EmbedRankWrites(n: nat, group: seq<nat>, inst: Instance, r: nat)
    requires Embeddable(n, group, inst) && r < n
    ensures PlanWrites(Embed(n, group, inst).plans[r], |Embed(n, group, inst).plans[r]|) == RankCost(group, inst, r)
  {
    if r in group {
      var plan := inst.plans[IndexOf(group, r)];
      MappedWrites(group, plan, |plan|);
    }
  }

  lemma {:induction false} CostsUpTo(e: Instance, n: nat, group: seq<nat>, inst: Instance, m: nat, c: nat)
    requires ValidGroup(group, n) && |e.plans| == n && |inst.plans| == |group| && m <= n && Cut(group, m, c)
    requires forall r :: 0 <= r < n ==> PlanWrites(e.plans[r], |e.plans[r]|) == RankCost(group, inst, r)
    ensures InstanceWrites(e, m) == InstanceWrites(inst, c)
  {
    if m > 0 {
      CutBelow(group, n, m, c);
      var r := m - 1;
      assert InstanceWrites(e, m) == InstanceWrites(e, r) + RankCost(group, inst, r);
      if r in group {
        CostsUpTo(e, n, group, inst, r, c - 1);
        assert InstanceWrites(inst, c) == InstanceWrites(inst, c - 1) + RankCost(group, inst, r);
      } else {
        CostsUpTo(e, n, group, inst, r, c);
      }
    }
  }

  /** A group costs what its positions cost. */
  lemma EmbedWrites(n: nat, group: seq<nat>, inst: Instance)
    requires Embeddable(n, group, inst)
    ensures InstanceWrites(Embed(n, group, inst), n) == InstanceWrites(inst, |group|)
  {
    forall r | 0 <= r < n
      ensures PlanWrites(Embed(n, group, inst).plans[r], |Embed(n, group, inst).plans[r]|) == RankCost(group, inst, r)
    {
      EmbedRankWrites(n, group, inst, r);
    }
    assert forall x :: 0 <= x < |group| ==> group[x] in group;
    if |group| > 0 {
      RanksGrow(group, n, |group| - 1);
    }
    CostsUpTo(Embed(n, group, inst), n, group, inst, n, |group|);
  }
}
