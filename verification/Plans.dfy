/** What one member of a barrier group does during one barrier: an ordered list of
    notifications and waits.  The three barrier algorithms differ only in this list. */
module Plans {
  /** `Notify` is one blocking write (`notify_peer`) or one scatter write
      (`scatter_notify_peers`); `Wait` bumps the expected epoch of a peer and polls it. */
  datatype Op = Notify(peers: seq<nat>) | Wait(peer: nat)

  predicate Sends(op: Op, j: nat) {
    op.Notify? && j in op.peers
  }

  predicate Awaits(op: Op, j: nat) {
    op == Wait(j)
  }

  predicate HasSend(plan: seq<Op>, j: nat) {
    exists q :: 0 <= q < |plan| && Sends(plan[q], j)
  }

  predicate HasWait(plan: seq<Op>, j: nat) {
    exists q :: 0 <= q < |plan| && Awaits(plan[q], j)
  }

  /** How many of the first `p` operations notify `j`. */
  function SendCount(plan: seq<Op>, j: nat, p: nat): nat
    requires p <= |plan|
  {
    if p == 0 then 0 else SendCount(plan, j, p - 1) + if Sends(plan[p - 1], j) then 1 else 0
  }

  /** How many of the first `p` operations wait for `j`. */
  function WaitCount(plan: seq<Op>, j: nat, p: nat): nat
    requires p <= |plan|
  {
    if p == 0 then 0 else WaitCount(plan, j, p - 1) + if Awaits(plan[p - 1], j) then 1 else 0
  }

  /** One barrier instance: the sorted group and the plan of every rank of the world
      (the empty plan for ranks outside the group). */
  datatype Instance = Instance(group: seq<nat>, plans: seq<seq<Op>>)

  ghost predicate Distinct(s: seq<nat>) {
    forall a, b :: 0 <= a < b < |s| ==> s[a] != s[b]
  }

  ghost predicate OpInWorld(op: Op, i: nat, n: nat) {
    match op
    case Notify(peers) => Distinct(peers) && forall j :: j in peers ==> j < n && j != i
    case Wait(j) => j < n && j != i
  }

  /** No directed edge is used twice by one plan. */
  ghost predicate UsesEdgesOnce(plan: seq<Op>) {
    && (forall p, q, j: nat :: 0 <= p < q < |plan| && Sends(plan[p], j) ==> !Sends(plan[q], j))
    && (forall p, q, j: nat :: 0 <= p < q < |plan| && Awaits(plan[p], j) ==> !Awaits(plan[q], j))
  }

  ghost predicate PlanInWorld(plan: seq<Op>, i: nat, n: nat) {
    && (forall p :: 0 <= p < |plan| ==> OpInWorld(plan[p], i, n))
    && UsesEdgesOnce(plan)
  }

  /** `i` notifies `j` exactly when `j` waits for `i`. */
  ghost predicate Matched(inst: Instance) {
    forall i, j :: 0 <= i < |inst.plans| && 0 <= j < |inst.plans| ==>
      (HasSend(inst.plans[i], j) <==> HasWait(inst.plans[j], i))
  }

  ghost predicate WellFormed(inst: Instance, n: nat) {
    && |inst.plans| == n
    && (forall r :: r in inst.group ==> r < n)
    && (forall i :: 0 <= i < n ==> PlanInWorld(inst.plans[i], i, n))
    && (forall i :: 0 <= i < n && i !in inst.group ==> inst.plans[i] == [])
    && Matched(inst)
  }

  /** Operation `q` of `j` is the notification that operation `p` of `i` waits for. */
  ghost predicate Releases(inst: Instance, j: nat, q: nat, i: nat, p: nat) {
    && i < |inst.plans| && p < |inst.plans[i]| && Awaits(inst.plans[i][p], j)
    && j < |inst.plans| && q < |inst.plans[j]| && Sends(inst.plans[j][q], i)
  }

  /** A logical clock for one instance: it grows along every plan and from a
      notification to the wait it releases. */
  ghost predicate Clock(inst: Instance, time: (nat, nat) -> nat) {
    && (forall i, p, q :: 0 <= i < |inst.plans| && 0 <= p < q < |inst.plans[i]| ==> time(i, p) < time(i, q))
    && (forall i: nat, j: nat, p: nat, q: nat :: Releases(inst, j, q, i, p) ==> time(j, q) < time(i, p))
  }

  /** What a rank may conclude: once `i` has completed `p` operations, every rank in
      `know(i, p)` has entered.  Only a wait may add to it, and only what the
      notifier knew when it notified. */
  ghost predicate Knowledge(inst: Instance, know: (nat, nat) -> set<nat>) {
    && (forall i :: 0 <= i < |inst.plans| ==> know(i, 0) <= {i})
    && (forall i: nat, p: nat :: 0 <= i < |inst.plans| && 0 <= p < |inst.plans[i]| && inst.plans[i][p].Notify? ==>
          know(i, p + 1) <= know(i, p))
    && (forall i: nat, j: nat, p: nat, q: nat :: Releases(inst, j, q, i, p) ==> know(i, p + 1) <= know(i, p) + know(j, q))
    && (forall i, r :: 0 <= i < |inst.plans| && i in inst.group && r in inst.group ==>
          r in know(i, |inst.plans[i]|))
  }

  ghost predicate HasClock(inst: Instance) {
    exists time: (nat, nat) -> nat :: Clock(inst, time)
  }

  ghost predicate Synchronizes(inst: Instance) {
    exists know: (nat, nat) -> set<nat> :: Knowledge(inst, know)
  }

  /** A plan that notifies `j` at most once counts one exactly after it has done so. */
  lemma {:induction false} SendCountIs(plan: seq<Op>, j: nat, p: nat)
    requires UsesEdgesOnce(plan) && p <= |plan|
    ensures SendCount(plan, j, p) == if exists q :: 0 <= q < p && Sends(plan[q], j) then 1 else 0
  {
    if p > 0 {
      SendCountIs(plan, j, p - 1);
    }
  }

  lemma {:induction false} WaitCountIs(plan: seq<Op>, j: nat, p: nat)
    requires UsesEdgesOnce(plan) && p <= |plan|
    ensures WaitCount(plan, j, p) == if exists q :: 0 <= q < p && Awaits(plan[q], j) then 1 else 0
  {
    if p > 0 {
      WaitCountIs(plan, j, p - 1);
    }
  }

  /** Over a whole instance, `i` notifies `j` as often as `j` waits for `i`. */
  lemma EdgeCountsAgree(inst: Instance, n: nat, i: nat, j: nat)
    requires WellFormed(inst, n) && i < n && j < n
    ensures SendCount(inst.plans[i], j, |inst.plans[i]|) == WaitCount(inst.plans[j], i, |inst.plans[j]|) <= 1
  {
    SendCountIs(inst.plans[i], j, |inst.plans[i]|);
    WaitCountIs(inst.plans[j], i, |inst.plans[j]|);
    assert HasSend(inst.plans[i], j) <==> HasWait(inst.plans[j], i);
  }
}
