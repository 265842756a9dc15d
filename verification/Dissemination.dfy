/** The dissemination barrier: rounds of doubling distance around the ring of peers. */
module Dissemination {
  import opened Arithmetic
  import opened Plans
  import opened BarrierTheorems
  import opened Embedding

  const USIZE_MAX: nat := 0xFFFF_FFFF_FFFF_FFFF

  /** The distances 1, 2, 4, ... below `len`; doubling stops when it would overflow. */
  function DistancesFrom(d: nat, len: nat): seq<nat>
    requires d > 0
    decreases len - d
  {
    if d < len then [d] + (if 2 * d <= USIZE_MAX then DistancesFrom(2 * d, len) else []) else []
  }

  /** The (notify-right, wait-left) positions of every round. */
  function RoundPairs(idx: nat, len: nat): (r: seq<(nat, nat)>)
    requires idx < len
  {
    var ds := DistancesFrom(1, len);
    DistancesBelow(1, len);
    seq(|ds|, r requires 0 <= r < |ds| => ((idx + ds[r]) % len, (idx + len - ds[r]) % len))
  }

  lemma {:induction false} DistancesBelow(d: nat, len: nat)
    requires d > 0
    ensures forall r :: 0 <= r < |DistancesFrom(d, len)| ==> d <= DistancesFrom(d, len)[r] < len
    decreases len - d
  {
    if d < len && 2 * d <= USIZE_MAX {
      DistancesBelow(2 * d, len);
    }
  }

  /** Each round notifies the right peer and waits for the left one. */
  function PairsPlan(pairs: seq<(nat, nat)>): (r: seq<Op>)
    ensures |r| == 2 * |pairs|
  {
    seq(2 * |pairs|, p requires 0 <= p < 2 * |pairs| =>
      if p % 2 == 0 then Notify([pairs[p / 2].0]) else Wait(pairs[p / 2].1))
  }

  /** The plan of position `idx` in a peer list of length `len`. */
  function Plan(idx: nat, len: nat): seq<Op>
    requires idx < len
  {
    if len < 2 then [] else PairsPlan(RoundPairs(idx, len))
  }

  ghost function Positions(len: nat): Instance {
    Instance(Iota(len), seq(len, idx requires 0 <= idx < len => Plan(idx, len)))
  }

  /** The number of rounds. */
  function Rounds(len: nat): nat {
    |DistancesFrom(1, len)|
  }

  /** As long as `2 * len` fits in a `usize`, round `r` has distance 2^r and the rounds end
      exactly when the distance reaches `len`. */
  lemma {:induction false} DistancesArePowers(e: nat, len: nat)
    requires 2 * len <= USIZE_MAX
    ensures var ds := DistancesFrom(Pow2(e), len);
            && (forall r :: 0 <= r < |ds| ==> ds[r] == Pow2(e + r))
            && Pow2(e + |ds|) >= len
            && (|ds| > 0 ==> Pow2(e + |ds| - 1) < len)
    decreases len - Pow2(e)
  {
    var ds := DistancesFrom(Pow2(e), len);
    if Pow2(e) < len {
      DistancesArePowers(e + 1, len);
      var rest := DistancesFrom(Pow2(e + 1), len);
      assert ds == [Pow2(e)] + rest;
      forall r | 0 <= r < |ds|
        ensures ds[r] == Pow2(e + r)
      {
        if r > 0 { assert ds[r] == rest[r - 1]; }
      }
    }
  }

  /** The number of rounds is the logarithm of `len`, rounded up. */
  lemma RoundsAreCeilLog2(len: nat)
    requires 1 <= len && 2 * len <= USIZE_MAX
    ensures len <= Pow2(Rounds(len))
    ensures Rounds(len) > 0 ==> Pow2(Rounds(len) - 1) < len
    ensures len == 1 ==> Rounds(len) == 0
  {
    DistancesArePowers(0, len);
  }

  /** The position `d` to the right, going around. */
  function Right(idx: nat, d: nat, len: nat): nat {
    if idx + d < len then idx + d else idx + d - len
  }

  /** The position `d` to the left, going around. */
  function Left(idx: nat, d: nat, len: nat): nat {
    if idx >= d then idx - d else if idx + len >= d then idx + len - d else 0
  }

  lemma ModIsRing(idx: nat, d: nat, len: nat)
    requires idx < len && d < len
    ensures (idx + d) % len == Right(idx, d, len) < len
    ensures (idx + len - d) % len == Left(idx, d, len) < len
  {
    ModSmall(idx + d, len);
    ModSmall(idx + len - d, len);
  }

  lemma ModSmall(x: nat, len: nat)
    requires x < 2 * len
    ensures x % len == if x < len then x else x - len
  {
    if x >= len {
      assert x == len + (x - len);
    }
  }

  /** The distance of round `r`. */
  lemma DistanceOf(len: nat, r: nat)
    requires 2 * len <= USIZE_MAX && r < Rounds(len)
    ensures DistancesFrom(1, len)[r] == Pow2(r) && 1 <= Pow2(r) < len
  {
    DistancesArePowers(0, len);
    DistancesBelow(1, len);
  }

  /** The two positions of round `r`, without the modulo. */
  lemma PairOf(idx: nat, len: nat, r: nat)
    requires idx < len && 2 * len <= USIZE_MAX && r < Rounds(len)
    ensures 1 <= Pow2(r) < len && |RoundPairs(idx, len)| == Rounds(len)
    ensures RoundPairs(idx, len)[r] == (Right(idx, Pow2(r), len), Left(idx, Pow2(r), len))
    ensures RoundPairs(idx, len)[r] == ((idx + Pow2(r)) % len, (idx + len - Pow2(r)) % len)
  {
    DistanceOf(len, r);
    ModIsRing(idx, Pow2(r), len);
  }

  lemma PairsPlanAt(pairs: seq<(nat, nat)>, r: nat)
    requires r < |pairs|
    ensures PairsPlan(pairs)[2 * r] == Notify([pairs[r].0])
    ensures PairsPlan(pairs)[2 * r + 1] == Wait(pairs[r].1)
  {
    assert (2 * r) / 2 == r && (2 * r) % 2 == 0;
    assert (2 * r + 1) / 2 == r && (2 * r + 1) % 2 == 1;
  }

  /** Everything about the shape of a plan: round `r` is operations `2r` and `2r + 1`. */
  lemma Shape(idx: nat, len: nat, r: nat)
    requires idx < len && 2 <= len && 2 * len <= USIZE_MAX && r < Rounds(len)
    ensures 1 <= Pow2(r) < len && |Plan(idx, len)| == 2 * Rounds(len)
    ensures Plan(idx, len)[2 * r] == Notify([Right(idx, Pow2(r), len)])
    ensures Plan(idx, len)[2 * r + 1] == Wait(Left(idx, Pow2(r), len))
  {
    PairOf(idx, len, r);
    PairsPlanAt(RoundPairs(idx, len), r);
  }

  lemma {:induction false} Pow2Grows(a: nat, b: nat)
    requires a < b
    ensures Pow2(a) < Pow2(b)
  {
    if a + 1 < b { Pow2Grows(a, b - 1); }
  }

  /** Every operation of a plan, by its round. */
  lemma OpIs(idx: nat, len: nat, p: nat)
    requires idx < len && 2 * len <= USIZE_MAX && p < |Plan(idx, len)|
    ensures len >= 2 && |Plan(idx, len)| == 2 * Rounds(len) && p / 2 < Rounds(len) && 1 <= Pow2(p / 2) < len
    ensures p % 2 == 0 ==> Plan(idx, len)[p] == Notify([Right(idx, Pow2(p / 2), len)])
    ensures p % 2 == 1 ==> Plan(idx, len)[p] == Wait(Left(idx, Pow2(p / 2), len))
  {
    var pairs := RoundPairs(idx, len);
    assert |pairs| == Rounds(len) && |Plan(idx, len)| == 2 * |pairs|;
    var r := p / 2;
    PairOf(idx, len, r);
    assert PairsPlan(pairs)[p] == if p % 2 == 0 then Notify([pairs[r].0]) else Wait(pairs[r].1);
  }

  /** Going right and coming back left. */
  lemma RightThenLeft(i: nat, d: nat, len: nat)
    requires i < len && 1 <= d < len
    ensures Right(i, d, len) < len && Left(Right(i, d, len), d, len) == i
    ensures Left(i, d, len) < len && Right(Left(i, d, len), d, len) == i
  {
  }

  lemma PlanUsesEdgesOnce(idx: nat, len: nat)
    requires idx < len && 2 * len <= USIZE_MAX
    ensures UsesEdgesOnce(Plan(idx, len))
  {
    var plan := Plan(idx, len);
    forall p, q, j: nat | 0 <= p < q < |plan| && Sends(plan[p], j)
      ensures !Sends(plan[q], j)
    {
      OpIs(idx, len, p);
      OpIs(idx, len, q);
      if q % 2 == 0 { Pow2Grows(p / 2, q / 2); }
    }
    forall p, q, j: nat | 0 <= p < q < |plan| && Awaits(plan[p], j)
      ensures !Awaits(plan[q], j)
    {
      OpIs(idx, len, p);
      OpIs(idx, len, q);
      if q % 2 == 1 { Pow2Grows(p / 2, q / 2); }
    }
  }

  lemma PlanIsInWorld(idx: nat, len: nat)
    requires idx < len && 2 * len <= USIZE_MAX
    ensures PlanInWorld(Plan(idx, len), idx, len)
  {
    forall p | 0 <= p < |Plan(idx, len)|
      ensures OpInWorld(Plan(idx, len)[p], idx, len)
    {
      OpIs(idx, len, p);
    }
    PlanUsesEdgesOnce(idx, len);
  }

  /** In the same round, `i` notifies `j` exactly when `j` waits for `i`. */
  lemma RoundsMatch(i: nat, j: nat, len: nat)
    requires i < len && j < len && 2 * len <= USIZE_MAX
    ensures HasSend(Plan(i, len), j) <==> HasWait(Plan(j, len), i)
  {
    if HasSend(Plan(i, len), j) {
      SendIsMatched(i, j, len);
    }
    if HasWait(Plan(j, len), i) {
      WaitIsMatched(i, j, len);
    }
  }

  lemma SendIsMatched(i: nat, j: nat, len: nat)
    requires i < len && j < len && 2 * len <= USIZE_MAX && HasSend(Plan(i, len), j)
    ensures HasWait(Plan(j, len), i)
  {
    var q :| 0 <= q < |Plan(i, len)| && Sends(Plan(i, len)[q], j);
    OpIs(i, len, q);
    var r := q / 2;
    RightThenLeft(i, Pow2(r), len);
    Shape(j, len, r);
    assert Awaits(Plan(j, len)[2 * r + 1], i);
  }

  lemma WaitIsMatched(i: nat, j: nat, len: nat)
    requires i < len && j < len && 2 * len <= USIZE_MAX && HasWait(Plan(j, len), i)
    ensures HasSend(Plan(i, len), j)
  {
    var q :| 0 <= q < |Plan(j, len)| && Awaits(Plan(j, len)[q], i);
    OpIs(j, len, q);
    var r := q / 2;
    RightThenLeft(j, Pow2(r), len);
    Shape(i, len, r);
    assert Sends(Plan(i, len)[2 * r], j);
  }

  lemma IsPositionInstance(len: nat)
    requires 2 * len <= USIZE_MAX
    ensures PositionInstance(Positions(len), len)
  {
    var inst := Positions(len);
    forall i | 0 <= i < len
      ensures PlanInWorld(inst.plans[i], i, len)
    {
      PlanIsInWorld(i, len);
    }
    forall i, j | 0 <= i < len && 0 <= j < len
      ensures HasSend(inst.plans[i], j) <==> HasWait(inst.plans[j], i)
    {
      RoundsMatch(i, j, len);
    }
    forall x | 0 <= x < len
      ensures x in Iota(len)
    {
      assert Iota(len)[x] == x;
    }
  }

  /** A wait is released by the notification of the same round. */
  lemma ReleaseIs(len: nat, j: nat, q: nat, i: nat, p: nat)
    requires 2 * len <= USIZE_MAX && Releases(Positions(len), j, q, i, p)
    ensures i < len && j < len && p == q + 1 && q % 2 == 0
    ensures j == Left(i, Pow2(q / 2), len) && 1 <= Pow2(q / 2) < len
  {
    OpIs(i, len, p);
    OpIs(j, len, q);
    if p / 2 < q / 2 { Pow2Grows(p / 2, q / 2); }
    if q / 2 < p / 2 { Pow2Grows(q / 2, p / 2); }
    assert p / 2 == q / 2;
  }

  lemma HasAClock(len: nat)
    requires 2 * len <= USIZE_MAX
    ensures Clock(Positions(len), (idx: nat, p: nat) => p)
  {
    forall i: nat, j: nat, p: nat, q: nat | Releases(Positions(len), j, q, i, p)
      ensures q < p
    {
      ReleaseIs(len, j, q, i, p);
    }
  }

  /** How far `x` lies to the left of `idx`, going around. */
  function Behind(x: nat, idx: nat, len: nat): nat {
    if x <= idx then idx - x else if x < idx + len then idx + len - x else 0
  }

  /** The positions less than `d` behind `idx`. */
  ghost function Window(len: nat, idx: nat, d: nat): set<nat> {
    set x | x in Below(len) && Behind(x, idx, len) < d
  }

  /** Knowledge doubles: after `r` rounds a position knows the 2^r positions behind it. */
  ghost function KnowAt(len: nat, idx: nat, p: nat): set<nat> {
    Window(len, idx, Pow2(p / 2))
  }

  /** A window of twice the width is one's own window and that of the peer one waits for. */
  lemma WindowDoubles(len: nat, idx: nat, d: nat)
    requires idx < len && 1 <= d < len
    ensures Window(len, idx, 2 * d) <= Window(len, idx, d) + Window(len, Left(idx, d, len), d)
  {
  }

  lemma KnowsFromRelease(len: nat, j: nat, q: nat, i: nat, p: nat)
    requires 2 * len <= USIZE_MAX && Releases(Positions(len), j, q, i, p)
    ensures KnowAt(len, i, p + 1) <= KnowAt(len, i, p) + KnowAt(len, j, q)
  {
    ReleaseIs(len, j, q, i, p);
    var r := q / 2;
    assert p / 2 == r && (p + 1) / 2 == r + 1;
    WindowDoubles(len, i, Pow2(r));
  }

  lemma NotifyTeachesNothing(len: nat, i: nat, p: nat)
    requires 2 * len <= USIZE_MAX && i < len && p < |Plan(i, len)| && Plan(i, len)[p].Notify?
    ensures KnowAt(len, i, p + 1) == KnowAt(len, i, p)
  {
    OpIs(i, len, p);
    assert (p + 1) / 2 == p / 2;
  }

  /** The last round covers the whole group, for every length. */
  lemma KnowsAllAtTheEnd(len: nat, idx: nat)
    requires idx < len && 2 * len <= USIZE_MAX
    ensures Below(len) <= KnowAt(len, idx, |Plan(idx, len)|)
  {
    RoundsAreCeilLog2(len);
    var d := Pow2(Rounds(len));
    if len >= 2 {
      assert |Plan(idx, len)| / 2 == Rounds(len);
    }
    assert Below(len) <= Window(len, idx, d);
  }

  lemma WindowIsKnown(len: nat, x: nat, y: nat, r: nat)
    requires x < len && y < len && 2 * len <= USIZE_MAX && r <= Rounds(len) && Behind(y, x, len) < Pow2(r)
    ensures 2 * r <= |Plan(x, len)| && y in KnowAt(len, x, 2 * r)
  {
    if len >= 2 && r > 0 {
      Shape(x, len, r - 1);
    }
    RoundsAreCeilLog2(len);
    assert (2 * r) / 2 == r;
  }

  ghost function Know(len: nat): (nat, nat) -> set<nat> {
    (idx: nat, p: nat) => KnowAt(len, idx, p)
  }

  lemma Knows(len: nat)
    requires 2 * len <= USIZE_MAX
    ensures Knowledge(Positions(len), Know(len))
  {
    var inst := Positions(len);
    forall i: nat, p: nat | 0 <= i < |inst.plans| && 0 <= p < |inst.plans[i]| && inst.plans[i][p].Notify?
      ensures KnowAt(len, i, p + 1) <= KnowAt(len, i, p)
    {
      NotifyTeachesNothing(len, i, p);
    }
    forall i: nat, j: nat, p: nat, q: nat | Releases(inst, j, q, i, p)
      ensures KnowAt(len, i, p + 1) <= KnowAt(len, i, p) + KnowAt(len, j, q)
    {
      KnowsFromRelease(len, j, q, i, p);
    }
    forall i, r | 0 <= i < |inst.plans| && i in inst.group && r in inst.group
      ensures r in KnowAt(len, i, |inst.plans[i]|)
    {
      KnowsAllAtTheEnd(len, i);
    }
  }
}
