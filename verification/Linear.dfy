/** The centralized barrier: the first peer collects one notification from every other
    peer and then answers all of them. */
module Linear {
  import opened Plans
  import opened BarrierTheorems
  import opened Embedding

  function Followers(len: nat): (r: seq<nat>)
    requires len >= 1
    ensures |r| == len - 1 && forall x :: 0 <= x < len - 1 ==> r[x] == x + 1
  {
    seq(len - 1, x requires 0 <= x => x + 1)
  }

  /** The plan of position `idx` in a peer list of length `len`. */
  function Plan(idx: nat, len: nat): seq<Op>
    requires idx < len
  {
    if len < 2 then []
    else if idx == 0 then
      seq(len - 1, x requires 0 <= x => Wait(x + 1)) + [Notify(Followers(len))]
    else [Notify([0]), Wait(0)]
  }

  ghost function Positions(len: nat): Instance {
    Instance(Iota(len), seq(len, idx requires 0 <= idx < len => Plan(idx, len)))
  }

  lemma LeaderPlan(len: nat)
    requires len >= 2
    ensures |Plan(0, len)| == len
    ensures forall p :: 0 <= p < len - 1 ==> Plan(0, len)[p] == Wait(p + 1)
    ensures Plan(0, len)[len - 1] == Notify(Followers(len))
  {
  }

  lemma PlanIsInWorld(idx: nat, len: nat)
    requires idx < len
    ensures PlanInWorld(Plan(idx, len), idx, len)
  {
    if len >= 2 && idx == 0 {
      LeaderPlan(len);
    }
  }

  lemma SendsIff(i: nat, j: nat, len: nat)
    requires i < len && j < len
    ensures HasSend(Plan(i, len), j) <==> len >= 2 && (i == 0) != (j == 0)
  {
    if len >= 2 && i == 0 {
      LeaderPlan(len);
      if j > 0 {
        assert Followers(len)[j - 1] == j;
        assert Sends(Plan(0, len)[len - 1], j);
      }
    } else if len >= 2 && j == 0 {
      assert Sends(Plan(i, len)[0], j);
    }
  }

  lemma WaitsIff(i: nat, j: nat, len: nat)
    requires i < len && j < len
    ensures HasWait(Plan(i, len), j) <==> len >= 2 && (i == 0) != (j == 0)
  {
    if len >= 2 && i == 0 {
      LeaderPlan(len);
      if j > 0 {
        assert Awaits(Plan(0, len)[j - 1], j);
      }
    } else if len >= 2 && j == 0 {
      assert Awaits(Plan(i, len)[1], j);
    }
  }

  lemma IsPositionInstance(len: nat)
    ensures PositionInstance(Positions(len), len)
  {
    var inst := Positions(len);
    forall i | 0 <= i < len
      ensures PlanInWorld(inst.plans[i], i, len)
    {
      PlanIsInWorld(i, len);
    }
    forall i, j | 0 <= i < len && 0 <= j < len
      ensures HasSend(inst.plans[i], j) <==> HasWait(inst.plans[j], i)
    {
      SendsIff(i, j, len);
      WaitsIff(j, i, len);
    }
    forall x | 0 <= x < len
      ensures x in Iota(len)
    {
      assert Iota(len)[x] == x;
    }
  }

  /** Followers notify first, then the leader collects and answers, then followers go on. */
  ghost function ClockAt(len: nat): (nat, nat) -> nat {
    (idx: nat, p: nat) => if idx == 0 then p + 1 else if p == 0 then 0 else p + len + 1
  }

  /** Where a release can happen: a follower's report, or the leader's answer. */
  lemma ReleaseIs(len: nat, j: nat, q: nat, i: nat, p: nat)
    requires Releases(Positions(len), j, q, i, p)
    ensures len >= 2
    ensures (i == 0 && j == p + 1 && q == 0) || (i > 0 && j == 0 && p == 1 && q == len - 1)
  {
    LeaderPlan(len);
    assert Positions(len).plans[i] == Plan(i, len) && Positions(len).plans[j] == Plan(j, len);
  }

  lemma HasAClock(len: nat)
    ensures Clock(Positions(len), ClockAt(len))
  {
    forall i: nat, j: nat, p: nat, q: nat | Releases(Positions(len), j, q, i, p)
      ensures ClockAt(len)(j, q) < ClockAt(len)(i, p)
    {
      ReleaseIs(len, j, q, i, p);
    }
  }

  /** The leader knows whom it has collected; a follower knows itself until it is answered. */
  ghost function KnowAt(len: nat, idx: nat, p: nat): set<nat> {
    if idx == 0 then Below(if p + 1 <= len then p + 1 else len)
    else if p < 2 then {idx} else Below(len)
  }

  ghost function Know(len: nat): (nat, nat) -> set<nat> {
    (idx: nat, p: nat) => KnowAt(len, idx, p)
  }

  lemma Knows(len: nat)
    ensures Knowledge(Positions(len), Know(len))
  {
    var inst := Positions(len);
    forall i: nat, p: nat | 0 <= i < |inst.plans| && 0 <= p < |inst.plans[i]| && inst.plans[i][p].Notify?
      ensures KnowAt(len, i, p + 1) <= KnowAt(len, i, p)
    {
      if i == 0 { LeaderPlan(len); }
    }
    forall i: nat, j: nat, p: nat, q: nat | Releases(inst, j, q, i, p)
      ensures KnowAt(len, i, p + 1) <= KnowAt(len, i, p) + KnowAt(len, j, q)
    {
      ReleaseIs(len, j, q, i, p);
    }
    forall i, r | 0 <= i < |inst.plans| && i in inst.group && r in inst.group
      ensures r in KnowAt(len, i, |inst.plans[i]|)
    {
      if len >= 2 { LeaderPlan(len); }
    }
  }

  lemma IsHandshake(len: nat)
    ensures Handshake(Positions(len))
  {
    var inst := Positions(len);
    forall a: nat, b: nat, q: nat | a < b && SendsAt(inst, a, q, b)
      ensures HeardBefore(inst.plans[a], b, q)
    {
      LeaderPlan(len);
      assert Awaits(inst.plans[0][b - 1], b);
    }
    forall a: nat, b: nat, q: nat | a < b && SendsAt(inst, b, q, a)
      ensures HasWait(inst.plans[b], a)
    {
      assert Awaits(inst.plans[b][1], 0);
    }
  }
}
