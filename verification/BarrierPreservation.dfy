/** Every step of every node, of the network and of every failure keeps the invariant. */
module BarrierPreservation {
  import opened Plans
  import opened BarrierSystem
  import opened BarrierInvariant

  lemma CountersKept(sys: System, s: State, a: Action)
    requires GoodSystem(sys) && Inv(sys, s) && Enabled(sys, s, a)
    ensures Shape(sys, Apply(sys, s, a)) && Counters(sys, Apply(sys, s, a))
  {
    LocalCounters(sys, s, a);
    var t := Apply(sys, s, a);
    forall i | 0 <= i < sys.n
      ensures NodeCounters(sys, i, t[i])
    {
      var nd := if i == a.i then Local(sys, s[i], a) else s[i];
      assert NodeShape(sys, i, nd) && NodeCounters(sys, i, nd);
      assert t[i] == nd.(incoming := t[i].incoming);
      forall j | 0 <= j < sys.n
        ensures t[i].out[j] == Issued(sys, i, t[i], j) && t[i].expected[j] == Demanded(sys, i, t[i], j)
      {
        assert Issued(sys, i, t[i], j) == Issued(sys, i, nd, j);
        assert Demanded(sys, i, t[i], j) == Demanded(sys, i, nd, j);
        assert nd.out[j] == Issued(sys, i, nd, j);
      }
    }
  }

  lemma WiresKept(sys: System, s: State, a: Action)
    requires GoodSystem(sys) && Inv(sys, s) && Enabled(sys, s, a)
    ensures Shape(sys, Apply(sys, s, a)) && Wires(sys, Apply(sys, s, a))
  {
    ShapeKept(sys, s, a);
    var t := Apply(sys, s, a);
    forall i, j | 0 <= i < sys.n && 0 <= j < sys.n && i != j
      ensures EdgeWire(sys, i, t[i], j, t[j].incoming[i])
    {
      WireKept(sys, s, a, i, j);
    }
  }

  lemma WireKept(sys: System, s: State, a: Action, i: nat, j: nat)
    requires GoodSystem(sys) && Inv(sys, s) && Enabled(sys, s, a) && Shape(sys, Apply(sys, s, a))
    requires i < sys.n && j < sys.n && i != j
    ensures var t := Apply(sys, s, a);
            EdgeWire(sys, i, t[i], j, t[j].incoming[i])
  {
    var t := Apply(sys, s, a);
    assert EdgeWire(sys, i, s[i], j, s[j].incoming[i]);
    SlotAfter(sys, s, a, i, j);
    if a.i == i {
      SenderWireKept(sys, s[i], a, j, s[j].incoming[i]);
      assert t[i] == Local(sys, s[i], a).(incoming := t[i].incoming);
    } else {
      assert t[i] == s[i].(incoming := t[i].incoming);
    }
  }

  /** Only the landing of a write from `i` changes what `j` finds in the slot of `i`. */
  lemma SlotAfter(sys: System, s: State, a: Action, i: nat, j: nat)
    requires GoodSystem(sys) && Shape(sys, s) && Enabled(sys, s, a) && Shape(sys, Apply(sys, s, a))
    requires i < sys.n && j < sys.n && i != j
    ensures Apply(sys, s, a)[j].incoming[i] == if a == Land(i, j) then s[i].out[j] else s[j].incoming[i]
  {
  }

  lemma SenderWireKept(sys: System, nd: NodeState, a: Action, j: nat, incoming: nat)
    requires GoodSystem(sys) && a.i < sys.n && j < sys.n && j != a.i
    requires NodeShape(sys, a.i, nd) && LocallyEnabled(sys, nd, a) && NodeShape(sys, a.i, Local(sys, nd, a))
    requires EdgeWire(sys, a.i, nd, j, incoming)
    ensures EdgeWire(sys, a.i, Local(sys, nd, a), j, if a == Land(a.i, j) then nd.out[j] else incoming)
  {
    if a.Begin? || a.FailPost? {
      var op := CurrentPlan(sys, a.i, nd)[nd.pc];
      assert j in Targets(op) <==> Sends(op, j);
    }
  }

  /** Progress of a node is never undone. */
  lemma ProgressKept(sys: System, s: State, a: Action, i: nat, k: nat, p: nat)
    requires GoodSystem(sys) && Shape(sys, s) && Enabled(sys, s, a) && i < sys.n
    ensures Started(s[i], k, p) ==> Started(Apply(sys, s, a)[i], k, p)
    ensures Completed(s[i], k, p) ==> Completed(Apply(sys, s, a)[i], k, p)
    ensures Entered(s[i], k) ==> Entered(Apply(sys, s, a)[i], k)
  {
  }

  /** A failed node takes no step of its own; only its posted writes may still land. */
  lemma FailedNodeIsFrozen(sys: System, s: State, a: Action, i: nat)
    requires GoodSystem(sys) && Shape(sys, s) && Enabled(sys, s, a) && i < sys.n && s[i].phase.Failed?
    ensures a.i == i ==> a.Land?
    ensures var nd := Apply(sys, s, a)[i];
            nd == s[i].(pending := nd.pending, incoming := nd.incoming) && nd.pending <= s[i].pending
  {
  }

  /** Only a passing wait completes a wait. */
  lemma CompletesOnlyByPass(sys: System, s: State, a: Action, i: nat, k: nat, p: nat)
    requires GoodSystem(sys) && Shape(sys, s) && Enabled(sys, s, a) && i < sys.n
    requires k < |sys.instances| && p < |sys.instances[k].plans[i]| && sys.instances[k].plans[i][p].Wait?
    requires !Completed(s[i], k, p) && Completed(Apply(sys, s, a)[i], k, p)
    ensures a == Pass(i) && s[i].call == k && s[i].pc == p
  {
    assert NodeShape(sys, i, s[i]);
  }

  lemma CausalKept(sys: System, s: State, a: Action)
    requires GoodSystem(sys) && Inv(sys, s) && Enabled(sys, s, a)
    ensures Shape(sys, Apply(sys, s, a)) && Causal(sys, Apply(sys, s, a))
  {
    ShapeKept(sys, s, a);
    var t := Apply(sys, s, a);
    forall i: nat, j: nat, k: nat, p: nat, q: nat | Edge(sys, j, q, i, p, k) && Completed(t[i], k, p)
      ensures Started(t[j], k, q)
    {
      if !Completed(s[i], k, p) {
        CompletesOnlyByPass(sys, s, a, i, k, p);
        PassIsReleased(sys, s, i, j, q);
      }
      ProgressKept(sys, s, a, j, k, q);
    }
  }

  lemma InvKept(sys: System, s: State, a: Action)
    requires GoodSystem(sys) && Inv(sys, s) && Enabled(sys, s, a)
    ensures Inv(sys, Apply(sys, s, a))
  {
    CountersKept(sys, s, a);
    WiresKept(sys, s, a);
    CausalKept(sys, s, a);
  }

  /** The invariant holds in every state of every run. */
  lemma {:induction false} RunKeepsInv(sys: System, run: seq<State>, acts: seq<Action>, t: nat)
    requires GoodSystem(sys) && Run(sys, run, acts) && t < |run|
    ensures Inv(sys, run[t])
  {
    if t == 0 {
      InitInv(sys);
    } else {
      RunKeepsInv(sys, run, acts, t - 1);
      assert Next(sys, run[t - 1], acts[t - 1], run[t]);
      InvKept(sys, run[t - 1], acts[t - 1]);
    }
  }
}
