/** The specification all three barriers implement: nodes enter and leave instances, and
    nobody leaves an instance before all of its group has entered it. */
module AbstractBarrier {
  import opened Plans
  import opened BarrierSystem
  import opened BarrierInvariant
  import opened BarrierPreservation
  import opened BarrierTheorems

  /** For every instance, who has entered and who has left with Ok. */
  datatype Abstract = Abstract(entered: seq<set<nat>>, left: seq<set<nat>>)

  ghost predicate EnterStep(groups: seq<seq<nat>>, a: Abstract, b: Abstract, i: nat, k: nat) {
    && k < |groups| == |a.entered| == |a.left|
    && i in groups[k] && i !in a.entered[k]
    && (forall l :: 0 <= l < k && i in groups[l] ==> i in a.left[l])
    && b == a.(entered := a.entered[k := a.entered[k] + {i}])
  }

  /** The exit guard is the barrier property itself. */
  ghost predicate LeaveStep(groups: seq<seq<nat>>, a: Abstract, b: Abstract, i: nat, k: nat) {
    && k < |groups| == |a.entered| == |a.left|
    && i in a.entered[k] && i !in a.left[k]
    && (forall r :: r in groups[k] ==> r in a.entered[k])
    && b == a.(left := a.left[k := a.left[k] + {i}])
  }

  /** Nobody has entered or left anything. */
  ghost predicate AbstractInit(groups: seq<seq<nat>>, a: Abstract) {
    && |a.entered| == |a.left| == |groups|
    && forall k :: 0 <= k < |groups| ==> a.entered[k] == {} && a.left[k] == {}
  }

  /** The step the abstract barrier makes when node `i`, whose next or current instance is
      `k`, takes an action of the network. */
  ghost predicate StepFor(groups: seq<seq<nat>>, a: Abstract, b: Abstract, act: Action, k: nat) {
    && (act.Enter? ==> EnterStep(groups, a, b, act.i, k))
    && (act.Return? ==> LeaveStep(groups, a, b, act.i, k))
    && (!act.Enter? && !act.Return? ==> a == b)
  }

  ghost function Groups(sys: System): seq<seq<nat>> {
    seq(|sys.instances|, k requires 0 <= k < |sys.instances| => sys.instances[k].group)
  }

  ghost function EnteredSet(sys: System, s: State, k: nat): set<nat>
    requires |s| == sys.n && k < |sys.instances|
  {
    set i: nat | i < sys.n && i in sys.instances[k].group && Entered(s[i], k)
  }

  ghost function LeftSet(sys: System, s: State, k: nat): set<nat>
    requires |s| == sys.n && k < |sys.instances|
  {
    set i: nat | i < sys.n && i in sys.instances[k].group && Returned(s[i], k)
  }

  /** What a state of the network means. */
  ghost function Abs(sys: System, s: State): Abstract
    requires |s| == sys.n
  {
    Abstract(
      seq(|sys.instances|, k requires 0 <= k < |sys.instances| => EnteredSet(sys, s, k)),
      seq(|sys.instances|, k requires 0 <= k < |sys.instances| => LeftSet(sys, s, k)))
  }

  lemma InitIsAbstractInit(sys: System)
    ensures AbstractInit(Groups(sys), Abs(sys, Init(sys)))
  {
  }

  lemma OnlyActorMoves(sys: System, s: State, a: Action, r: nat, k: nat)
    requires GoodSystem(sys) && Shape(sys, s) && Enabled(sys, s, a) && r < sys.n
    ensures a.Enter? && r == a.i && k == s[r].call ==> !Entered(s[r], k) && Entered(Apply(sys, s, a)[r], k)
    ensures !(a.Enter? && r == a.i && k == s[r].call) && (k < |sys.instances| ==> r in sys.instances[k].group)
         ==> (Entered(Apply(sys, s, a)[r], k) <==> Entered(s[r], k))
    ensures a.Return? && r == a.i && k == s[r].call ==> !Returned(s[r], k) && Returned(Apply(sys, s, a)[r], k)
    ensures !(a.Return? && r == a.i && k == s[r].call) && (k < |sys.instances| ==> r in sys.instances[k].group)
         ==> (Returned(Apply(sys, s, a)[r], k) <==> Returned(s[r], k))
  {
    assert NodeShape(sys, a.i, s[a.i]);
  }

  lemma EnteredSetAfter(sys: System, s: State, a: Action, k: nat)
    requires GoodSystem(sys) && Shape(sys, s) && Enabled(sys, s, a) && k < |sys.instances|
    ensures EnteredSet(sys, Apply(sys, s, a), k)
         == EnteredSet(sys, s, k) + if a.Enter? && k == s[a.i].call then {a.i} else {}
  {
    forall r: nat | r < sys.n && r in sys.instances[k].group
      ensures Entered(Apply(sys, s, a)[r], k) <==> Entered(s[r], k) || (a.Enter? && k == s[a.i].call && r == a.i)
    {
      OnlyActorMoves(sys, s, a, r, k);
    }
  }

  lemma LeftSetAfter(sys: System, s: State, a: Action, k: nat)
    requires GoodSystem(sys) && Shape(sys, s) && Enabled(sys, s, a) && k < |sys.instances|
    ensures LeftSet(sys, Apply(sys, s, a), k)
         == LeftSet(sys, s, k) + if a.Return? && k == s[a.i].call then {a.i} else {}
  {
    forall r: nat | r < sys.n && r in sys.instances[k].group
      ensures Returned(Apply(sys, s, a)[r], k) <==> Returned(s[r], k) || (a.Return? && k == s[a.i].call && r == a.i)
    {
      OnlyActorMoves(sys, s, a, r, k);
    }
  }

  /** Refinement: entering and returning are the abstract steps, and every other step of
      the network, failures included, changes nothing in the abstract barrier. */
  lemma StepRefines(sys: System, s: State, a: Action)
    requires GoodSystem(sys) && Inv(sys, s) && AllHaveClocks(sys) && AllSynchronize(sys) && Enabled(sys, s, a)
    ensures StepFor(Groups(sys), Abs(sys, s), Abs(sys, Apply(sys, s, a)), a, s[a.i].call)
  {
    var t := Apply(sys, s, a);
    var x, y := Abs(sys, s), Abs(sys, t);
    forall k | 0 <= k < |sys.instances|
      ensures y.entered[k] == x.entered[k] + if a.Enter? && k == s[a.i].call then {a.i} else {}
      ensures y.left[k] == x.left[k] + if a.Return? && k == s[a.i].call then {a.i} else {}
    {
      EnteredSetAfter(sys, s, a, k);
      LeftSetAfter(sys, s, a, k);
    }
    if a.Enter? {
      EnterRefines(sys, s, a.i, x, y);
    } else if a.Return? {
      ReturnRefines(sys, s, a.i, x, y);
    } else {
      assert forall k :: 0 <= k < |sys.instances| ==> y.entered[k] == x.entered[k] && y.left[k] == x.left[k];
      assert x.entered == y.entered && x.left == y.left;
    }
  }

  lemma EnterRefines(sys: System, s: State, i: nat, x: Abstract, y: Abstract)
    requires GoodSystem(sys) && Inv(sys, s) && Enabled(sys, s, Enter(i)) && x == Abs(sys, s)
    requires |y.entered| == |y.left| == |sys.instances|
    requires forall k :: 0 <= k < |sys.instances| ==>
               y.entered[k] == x.entered[k] + (if k == s[i].call then {i} else {}) && y.left[k] == x.left[k]
    ensures EnterStep(Groups(sys), x, y, i, s[i].call)
  {
    var k := s[i].call;
    assert forall l :: 0 <= l < |y.entered| && l != k ==> y.entered[l] == x.entered[l];
    assert y.entered == x.entered[k := x.entered[k] + {i}];
    assert y.left == x.left;
  }

  lemma ReturnRefines(sys: System, s: State, i: nat, x: Abstract, y: Abstract)
    requires GoodSystem(sys) && Inv(sys, s) && AllHaveClocks(sys) && AllSynchronize(sys)
    requires Enabled(sys, s, Return(i)) && x == Abs(sys, s)
    requires |y.entered| == |y.left| == |sys.instances|
    requires forall k :: 0 <= k < |sys.instances| ==>
               y.left[k] == x.left[k] + (if k == s[i].call then {i} else {}) && y.entered[k] == x.entered[k]
    ensures LeaveStep(Groups(sys), x, y, i, s[i].call)
  {
    var k := s[i].call;
    var t := Apply(sys, s, Return(i));
    InvKept(sys, s, Return(i));
    forall r | r in sys.instances[k].group
      ensures r in x.entered[k]
    {
      ReturnedMeansAllEntered(sys, t, k, i, r);
      OnlyActorMoves(sys, s, Return(i), r, k);
    }
    assert NodeShape(sys, i, s[i]);
    assert y.entered == x.entered;
    assert forall l :: 0 <= l < |y.left| && l != k ==> y.left[l] == x.left[l];
    assert y.left == x.left[k := x.left[k] + {i}];
  }

  /** The states of a run mean a run of the abstract barrier: it starts with nobody entered,
      and each action makes the abstract step it stands for. */
  ghost predicate IsAbstractRun(sys: System, run: seq<State>, acts: seq<Action>)
    requires |run| == |acts| + 1 && forall t :: 0 <= t < |run| ==> |run[t]| == sys.n
  {
    && AbstractInit(Groups(sys), Abs(sys, run[0]))
    && forall t :: 0 <= t < |acts| ==>
         && acts[t].i < sys.n
         && StepFor(Groups(sys), Abs(sys, run[t]), Abs(sys, run[t + 1]), acts[t], run[t][acts[t].i].call)
  }

  /** Every run of the network is a run of the abstract barrier. */
  lemma RunRefines(sys: System, run: seq<State>, acts: seq<Action>)
    requires GoodSystem(sys) && AllHaveClocks(sys) && AllSynchronize(sys) && Run(sys, run, acts)
    ensures forall t :: 0 <= t < |run| ==> |run[t]| == sys.n
    ensures IsAbstractRun(sys, run, acts)
  {
    InitIsAbstractInit(sys);
    forall t | 0 <= t < |run|
      ensures |run[t]| == sys.n
    {
      RunKeepsInv(sys, run, acts, t);
    }
    forall t | 0 <= t < |acts|
      ensures acts[t].i < sys.n
      ensures StepFor(Groups(sys), Abs(sys, run[t]), Abs(sys, run[t + 1]), acts[t], run[t][acts[t].i].call)
    {
      RunKeepsInv(sys, run, acts, t);
      assert Next(sys, run[t], acts[t], run[t + 1]);
      StepRefines(sys, run[t], acts[t]);
    }
  }
}
