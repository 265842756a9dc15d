/** The invariant behind all three barriers: the epoch counters, which carry no barrier
    number, always agree with how far the two ends of every edge have come. */
module BarrierInvariant {
  import opened Plans
  import opened BarrierSystem

  /** Notifications `i` sends to `j` over the first `k` instances. */
  ghost function Sent(sys: System, i: nat, j: nat, k: nat): nat
    requires GoodSystem(sys) && k <= |sys.instances| && i < sys.n
  {
    if k == 0 then 0
    else
      var plan := sys.instances[k - 1].plans[i];
      Sent(sys, i, j, k - 1) + SendCount(plan, j, |plan|)
  }

  /** Waits of `j` for `i` over the first `k` instances. */
  ghost function Awaited(sys: System, j: nat, i: nat, k: nat): nat
    requires GoodSystem(sys) && k <= |sys.instances| && j < sys.n
  {
    if k == 0 then 0
    else
      var plan := sys.instances[k - 1].plans[j];
      Awaited(sys, j, i, k - 1) + WaitCount(plan, i, |plan|)
  }

  /** The unnumbered counters match instance by instance, whatever the groups are: before
      instance `k`, `i` has notified `j` exactly as often as `j` has waited for `i`. */
  lemma {:induction false} SentIsAwaited(sys: System, i: nat, j: nat, k: nat)
    requires GoodSystem(sys) && k <= |sys.instances| && i < sys.n && j < sys.n
    ensures Sent(sys, i, j, k) == Awaited(sys, j, i, k)
  {
    if k > 0 {
      SentIsAwaited(sys, i, j, k - 1);
      EdgeCountsAgree(sys.instances[k - 1], sys.n, i, j);
    }
  }

  lemma {:induction false} SentGrows(sys: System, i: nat, j: nat, k: nat, l: nat)
    requires GoodSystem(sys) && k <= l <= |sys.instances| && i < sys.n && j < sys.n
    ensures Sent(sys, i, j, k) <= Sent(sys, i, j, l)
  {
    if k < l {
      SentGrows(sys, i, j, k, l - 1);
    }
  }

  /** Notifications to `j` that a node has begun, over all its calls. */
  ghost function Issued(sys: System, i: nat, nd: NodeState, j: nat): nat
    requires GoodSystem(sys) && i < sys.n && NodeShape(sys, i, nd)
  {
    Sent(sys, i, j, nd.call) +
    if nd.phase.Idle? then 0 else SendCount(CurrentPlan(sys, i, nd), j, nd.Front())
  }

  /** Waits for `j` that a node has begun, over all its calls. */
  ghost function Demanded(sys: System, i: nat, nd: NodeState, j: nat): nat
    requires GoodSystem(sys) && i < sys.n && NodeShape(sys, i, nd)
  {
    Awaited(sys, i, j, nd.call) +
    if nd.phase.Idle? then 0 else WaitCount(CurrentPlan(sys, i, nd), j, nd.Front())
  }

  ghost predicate NodeCounters(sys: System, i: nat, nd: NodeState)
    requires GoodSystem(sys) && i < sys.n && NodeShape(sys, i, nd)
  {
    forall j :: 0 <= j < sys.n ==>
      && nd.out[j] == Issued(sys, i, nd, j)
      && nd.expected[j] == Demanded(sys, i, nd, j)
  }

  /** `i` is inside a notification of `j`. */
  ghost predicate Writing(sys: System, i: nat, nd: NodeState, j: nat)
    requires NodeShape(sys, i, nd)
  {
    nd.Begun() && Sends(CurrentPlan(sys, i, nd)[nd.pc], j)
  }

  /** The peer's incoming slot lags the out epoch by at most the write in progress. */
  ghost predicate EdgeWire(sys: System, i: nat, nd: NodeState, j: nat, incoming: nat)
    requires NodeShape(sys, i, nd) && j < sys.n
  {
    && incoming <= nd.out[j] <= incoming + 1
    && (incoming < nd.out[j] ==> Writing(sys, i, nd, j) && (nd.phase.Busy? ==> j in nd.pending))
  }

  ghost predicate Wires(sys: System, s: State)
    requires Shape(sys, s)
  {
    forall i, j :: 0 <= i < sys.n && 0 <= j < sys.n && i != j ==> EdgeWire(sys, i, s[i], j, s[j].incoming[i])
  }

  /** `nd` has begun operation `q` of instance `k`. */
  ghost predicate Started(nd: NodeState, k: nat, q: nat) {
    nd.call > k || (nd.call == k && !nd.phase.Idle? && q < nd.Front())
  }

  /** `nd` has completed operation `p` of instance `k`. */
  ghost predicate Completed(nd: NodeState, k: nat, p: nat) {
    nd.call > k || (nd.call == k && !nd.phase.Idle? && p < nd.pc)
  }

  /** Node `i` has called the barrier for instance `k`. */
  ghost predicate Entered(nd: NodeState, k: nat) {
    nd.call > k || (nd.call == k && !nd.phase.Idle?)
  }

  /** Node `i` has returned Ok from its call for instance `k`. */
  ghost predicate Returned(nd: NodeState, k: nat) {
    nd.call > k
  }

  /** A wait that has passed was released by the notification of the same instance. */
  ghost predicate Causal(sys: System, s: State)
    requires Shape(sys, s)
  {
    forall i: nat, j: nat, k: nat, p: nat, q: nat ::
      Edge(sys, j, q, i, p, k) && Completed(s[i], k, p) ==> Started(s[j], k, q)
  }

  /** In instance `k`, operation `q` of `j` releases operation `p` of `i`. */
  ghost predicate Edge(sys: System, j: nat, q: nat, i: nat, p: nat, k: nat) {
    i < sys.n && j < sys.n && k < |sys.instances| && Releases(sys.instances[k], j, q, i, p)
  }

  ghost predicate Counters(sys: System, s: State)
    requires GoodSystem(sys) && Shape(sys, s)
  {
    forall i :: 0 <= i < sys.n ==> NodeCounters(sys, i, s[i])
  }

  ghost predicate Inv(sys: System, s: State)
    requires GoodSystem(sys)
  {
    Shape(sys, s) && Counters(sys, s) && Wires(sys, s) && Causal(sys, s)
  }

  lemma InitInv(sys: System)
    requires GoodSystem(sys)
    ensures Inv(sys, Init(sys))
  {
    InitShape(sys);
  }

  /** The effect of `Begin` and `FailPost` on the counters of the acting node. */
  lemma StartCounters(sys: System, i: nat, nd: NodeState, posted: set<nat>, phase: Phase)
    requires GoodSystem(sys) && i < sys.n && NodeShape(sys, i, nd) && NodeCounters(sys, i, nd)
    requires nd.phase.Ready? && nd.pc < |CurrentPlan(sys, i, nd)|
    requires posted <= Targets(CurrentPlan(sys, i, nd)[nd.pc]) && (phase.Busy? || phase.Failed?)
    ensures var t := Start(nd, CurrentPlan(sys, i, nd)[nd.pc], posted, phase);
            NodeShape(sys, i, t) && NodeCounters(sys, i, t)
  {
    var plan := CurrentPlan(sys, i, nd);
    var t := Start(nd, plan[nd.pc], posted, phase);
    assert NodeShape(sys, i, t);
    forall j | 0 <= j < sys.n
      ensures t.out[j] == Issued(sys, i, t, j)
      ensures t.expected[j] == Demanded(sys, i, t, j)
    {
      assert nd.out[j] == Issued(sys, i, nd, j);
      assert SendCount(plan, j, nd.pc + 1) == SendCount(plan, j, nd.pc) + if Sends(plan[nd.pc], j) then 1 else 0;
      assert WaitCount(plan, j, nd.pc + 1) == WaitCount(plan, j, nd.pc) + if Awaits(plan[nd.pc], j) then 1 else 0;
    }
  }

  lemma LocalCounters(sys: System, s: State, a: Action)
    requires GoodSystem(sys) && Shape(sys, s) && Counters(sys, s) && Enabled(sys, s, a)
    ensures Shape(sys, Apply(sys, s, a))
    ensures NodeShape(sys, a.i, Local(sys, s[a.i], a)) && NodeCounters(sys, a.i, Local(sys, s[a.i], a))
  {
    ShapeKept(sys, s, a);
    var nd := s[a.i];
    match a
    case Begin(i) => StartCounters(sys, i, nd, Targets(CurrentPlan(sys, i, nd)[nd.pc]), Busy);
    case FailPost(i, posted) => StartCounters(sys, i, nd, posted, Failed);
    case _ =>
  }

  lemma {:induction false} SendCountGrows(plan: seq<Op>, j: nat, p: nat, q: nat)
    requires p <= q <= |plan|
    ensures SendCount(plan, j, p) <= SendCount(plan, j, q)
  {
    if p < q {
      SendCountGrows(plan, j, p, q - 1);
    }
  }

  /** A node that has not come past instance `k` has issued at most what the instances up
      to and including `k` ask for. */
  lemma IssuedBound(sys: System, i: nat, nd: NodeState, j: nat, k: nat)
    requires GoodSystem(sys) && i < sys.n && j < sys.n && NodeShape(sys, i, nd)
    requires nd.call < k <= |sys.instances|
    ensures Issued(sys, i, nd, j) <= Sent(sys, i, j, k)
  {
    SentGrows(sys, i, j, nd.call + 1, k);
    if !nd.phase.Idle? {
      var plan := CurrentPlan(sys, i, nd);
      SendCountGrows(plan, j, nd.Front(), |plan|);
    }
  }

  /** If `j` has not begun its one notification of `i` in instance `k`, it has issued no
      more to `i` than the instances before `k` ask for. */
  lemma NotStartedBound(sys: System, j: nat, nd: NodeState, i: nat, k: nat, q: nat)
    requires GoodSystem(sys) && i < sys.n && j < sys.n && NodeShape(sys, j, nd)
    requires k < |sys.instances| && q < |sys.instances[k].plans[j]| && Sends(sys.instances[k].plans[j][q], i)
    requires !Started(nd, k, q)
    ensures Issued(sys, j, nd, i) <= Sent(sys, j, i, k)
  {
    if nd.call < k {
      IssuedBound(sys, j, nd, i, k);
    } else if !nd.phase.Idle? {
      SendCountIs(CurrentPlan(sys, j, nd), i, nd.Front());
    }
  }

  /** The heart of the protocol: `in_epoch >= expected` on unnumbered counters can only
      become true once the peer has notified in this very instance. */
  lemma PassIsReleased(sys: System, s: State, i: nat, j: nat, q: nat)
    requires GoodSystem(sys) && Inv(sys, s) && Enabled(sys, s, Pass(i)) && Edge(sys, j, q, i, s[i].pc, s[i].call)
    ensures Started(s[j], s[i].call, q)
  {
    var k, p := s[i].call, s[i].pc;
    var plan := CurrentPlan(sys, i, s[i]);
    assert PlanInWorld(plan, i, sys.n) && OpInWorld(plan[p], i, sys.n);
    assert s[i].expected[j] == Demanded(sys, i, s[i], j);
    WaitCountIs(plan, j, p + 1);
    SentIsAwaited(sys, j, i, k);
    assert s[i].incoming[j] >= Sent(sys, j, i, k) + 1;
    assert EdgeWire(sys, j, s[j], i, s[i].incoming[j]);
    assert s[j].out[i] == Issued(sys, j, s[j], i);
    if !Started(s[j], k, q) {
      NotStartedBound(sys, j, s[j], i, k, q);
    }
  }
}
