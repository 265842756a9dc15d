/** The whole network running barriers: every node holds its epoch counters, and the
    nodes and the RDMA writes in flight interleave arbitrarily. */
module BarrierSystem {
  import opened Plans

  /** `n` nodes and the global sequence of barrier instances.  Every node calls the
      barrier for exactly the instances whose group contains it, in this order. */
  datatype System = System(n: nat, instances: seq<Instance>)

  /** Idle: between two calls.  Ready: about to begin operation `pc` (or to return).
      Busy: operation `pc` has bumped its counters and is writing or polling.
      Failed: operation `pc` returned an error, so the barrier is poisoned. */
  datatype Phase = Idle | Ready | Busy | Failed

  /** One node.  `call` counts the instances it has put behind itself; `pending` holds the
      peers whose RDMA write was posted and has not landed; the other fields are the slots
      of its barrier memory, indexed by peer. */
  datatype NodeState = NodeState(
    call: nat, pc: nat, phase: Phase, pending: set<nat>,
    out: seq<nat>, expected: seq<nat>, incoming: seq<nat>)
  {
    predicate Begun() {
      phase.Busy? || phase.Failed?
    }

    /** How many operations of the current plan have begun. */
    function Front(): nat {
      if Begun() then pc + 1 else pc
    }
  }

  type State = seq<NodeState>

  ghost predicate InCall(sys: System, i: nat, nd: NodeState) {
    && nd.call < |sys.instances|
    && i in sys.instances[nd.call].group
    && i < |sys.instances[nd.call].plans|
  }

  function CurrentPlan(sys: System, i: nat, nd: NodeState): seq<Op>
    requires nd.call < |sys.instances| && i < |sys.instances[nd.call].plans|
  {
    sys.instances[nd.call].plans[i]
  }

  /** The peers a node in phase Busy or Failed is writing to. */
  ghost function Targets(op: Op): set<nat> {
    match op
    case Notify(peers) => set j | j in peers
    case Wait(_) => {}
  }

  ghost predicate NodeShape(sys: System, i: nat, nd: NodeState) {
    && |nd.out| == |nd.expected| == |nd.incoming| == sys.n
    && nd.call <= |sys.instances|
    && (nd.phase.Idle? ==> nd.pc == 0)
    && (!nd.phase.Idle? ==> InCall(sys, i, nd) && nd.Front() <= |CurrentPlan(sys, i, nd)|)
    && (if nd.Begun() then nd.pending <= Targets(CurrentPlan(sys, i, nd)[nd.pc]) else nd.pending == {})
  }

  ghost predicate Shape(sys: System, s: State) {
    && |s| == sys.n
    && (forall i :: 0 <= i < sys.n ==> NodeShape(sys, i, s[i]))
  }

  ghost predicate GoodSystem(sys: System) {
    forall k :: 0 <= k < |sys.instances| ==> WellFormed(sys.instances[k], sys.n)
  }

  /** One atomic step.  `Land` is the network delivering a posted write; `Fail` covers a
      timeout, a failed write that may still land later, and a failing poll; `FailPost`
      covers a post that fails after the writes to `posted` were handed to the hardware. */
  datatype Action =
    | Enter(i: nat)
    | Skip(i: nat)
    | Begin(i: nat)
    | FailPost(i: nat, posted: set<nat>)
    | Land(i: nat, j: nat)
    | EndNotify(i: nat)
    | Pass(i: nat)
    | Fail(i: nat)
    | Return(i: nat)

  /** What an action asks of the node that takes it (for `Land`, of the sender). */
  ghost predicate LocallyEnabled(sys: System, nd: NodeState, a: Action)
    requires a.i < sys.n && NodeShape(sys, a.i, nd)
  {
    match a
    case Enter(i) => nd.phase.Idle? && InCall(sys, i, nd)
    case Skip(i) => nd.phase.Idle? && nd.call < |sys.instances| && !InCall(sys, i, nd)
    case Begin(i) => nd.phase.Ready? && nd.pc < |CurrentPlan(sys, i, nd)|
    case FailPost(i, posted) =>
      && nd.phase.Ready? && nd.pc < |CurrentPlan(sys, i, nd)|
      && posted < Targets(CurrentPlan(sys, i, nd)[nd.pc])
    case Land(i, j) => j in nd.pending
    case EndNotify(i) => nd.phase.Busy? && CurrentPlan(sys, i, nd)[nd.pc].Notify? && nd.pending == {}
    case Pass(i) =>
      && nd.phase.Busy? && CurrentPlan(sys, i, nd)[nd.pc].Wait?
      && var j := CurrentPlan(sys, i, nd)[nd.pc].peer;
         j < sys.n && nd.incoming[j] >= nd.expected[j]
    case Fail(i) => nd.phase.Busy?
    case Return(i) => nd.phase.Ready? && nd.pc == |CurrentPlan(sys, i, nd)|
  }

  ghost predicate Enabled(sys: System, s: State, a: Action)
    requires GoodSystem(sys) && Shape(sys, s)
  {
    a.i < sys.n && LocallyEnabled(sys, s[a.i], a)
  }

  /** Adds one to the counters of the given peers. */
  function Bump(counters: seq<nat>, peers: seq<nat>): (r: seq<nat>)
    ensures |r| == |counters|
  {
    seq(|counters|, j requires 0 <= j < |counters| => if j in peers then counters[j] + 1 else counters[j])
  }

  /** The local effect of beginning an operation: a notification bumps its out epochs and
      posts the writes, a wait bumps the expected epoch. */
  ghost function Start(nd: NodeState, op: Op, posted: set<nat>, phase: Phase): NodeState {
    match op
    case Notify(peers) => nd.(phase := phase, pending := posted, out := Bump(nd.out, peers))
    case Wait(j) => nd.(phase := phase, expected := Bump(nd.expected, [j]))
  }

  /** The effect of an action on the node that takes it (for `Land`, on the sender). */
  ghost function Local(sys: System, nd: NodeState, a: Action): NodeState
    requires a.Begin? || a.FailPost? ==>
      nd.call < |sys.instances| && a.i < |sys.instances[nd.call].plans| && nd.pc < |CurrentPlan(sys, a.i, nd)|
  {
    match a
    case Enter(_) => nd.(phase := Ready, pc := 0)
    case Skip(_) => nd.(call := nd.call + 1)
    case Begin(i) =>
      var op := CurrentPlan(sys, i, nd)[nd.pc];
      Start(nd, op, Targets(op), Busy)
    case FailPost(i, posted) => Start(nd, CurrentPlan(sys, i, nd)[nd.pc], posted, Failed)
    case Land(_, j) => nd.(pending := nd.pending - {j})
    case EndNotify(_) => nd.(phase := Ready, pc := nd.pc + 1)
    case Pass(_) => nd.(phase := Ready, pc := nd.pc + 1)
    case Fail(_) => nd.(phase := Failed)
    case Return(_) => nd.(phase := Idle, pc := 0, call := nd.call + 1)
  }

  ghost function Apply(sys: System, s: State, a: Action): State
    requires GoodSystem(sys) && Shape(sys, s) && Enabled(sys, s, a)
  {
    var t := s[a.i := Local(sys, s[a.i], a)];
    if a.Land? && a.j < |t| && a.i < |t[a.j].incoming| then
      t[a.j := t[a.j].(incoming := t[a.j].incoming[a.i := s[a.i].out[a.j]])]
    else t
  }

  function Zeros(n: nat): (r: seq<nat>)
    ensures |r| == n && forall j :: 0 <= j < n ==> r[j] == 0
  {
    seq(n, _ => 0)
  }

  function Init(sys: System): State {
    seq(sys.n, _ => NodeState(0, 0, Idle, {}, Zeros(sys.n), Zeros(sys.n), Zeros(sys.n)))
  }

  lemma InitShape(sys: System)
    ensures Shape(sys, Init(sys))
  {
  }

  /** Every step keeps the state well shaped. */
  lemma ShapeKept(sys: System, s: State, a: Action)
    requires GoodSystem(sys) && Shape(sys, s) && Enabled(sys, s, a)
    ensures Shape(sys, Apply(sys, s, a))
  {
    var nd := s[a.i];
    assert NodeShape(sys, a.i, nd);
    assert NodeShape(sys, a.i, Local(sys, nd, a));
  }

  /** A run: states joined by actions, from the initial state on. */
  ghost predicate Run(sys: System, run: seq<State>, acts: seq<Action>)
    requires GoodSystem(sys)
  {
    && |run| == |acts| + 1
    && run[0] == Init(sys)
    && (forall t :: 0 <= t < |acts| ==> Next(sys, run[t], acts[t], run[t + 1]))
  }

  ghost predicate Next(sys: System, s: State, a: Action, t: State)
    requires GoodSystem(sys)
  {
    Shape(sys, s) && Enabled(sys, s, a) && t == Apply(sys, s, a)
  }
}
