/** What the barrier network guarantees, for any plans that a clock and a knowledge
    assignment certify. */
module BarrierTheorems {
  import opened Plans
  import opened BarrierSystem
  import opened BarrierInvariant
  import opened BarrierPreservation

  // ---------------------------------------------------------------- safety

  /** Once `i` has completed `p` operations of instance `k`, everyone it knows of has entered. */
  lemma {:induction false} KnownHaveEntered(
    sys: System, s: State, k: nat, i: nat, p: nat, r: nat, time: (nat, nat) -> nat, know: (nat, nat) -> set<nat>)
    requires GoodSystem(sys) && Inv(sys, s) && k < |sys.instances| && i < sys.n
    requires Clock(sys.instances[k], time) && Knowledge(sys.instances[k], know)
    requires p <= |sys.instances[k].plans[i]|
    requires i in sys.instances[k].group && Entered(s[i], k)
    requires s[i].call == k ==> p <= s[i].pc
    requires r in know(i, p)
    ensures r < sys.n && Entered(s[r], k)
    decreases if p == 0 then 0 else time(i, p - 1) + 1
  {
    var inst := sys.instances[k];
    if p > 0 {
      if r in know(i, p - 1) {
        if p > 1 { assert time(i, p - 2) < time(i, p - 1); }
        KnownHaveEntered(sys, s, k, i, p - 1, r, time, know);
      } else {
        assert inst.plans[i][p - 1].Wait?;
        var j := inst.plans[i][p - 1].peer;
        var q := Releaser(inst, sys.n, i, p - 1);
        assert Edge(sys, j, q, i, p - 1, k);
        assert Completed(s[i], k, p - 1);
        assert Started(s[j], k, q);
        assert Releases(inst, j, q, i, p - 1);
        if q > 0 { assert time(j, q - 1) < time(j, q); }
        KnownHaveEntered(sys, s, k, j, q, r, time, know);
      }
    }
  }

  /** The operation that releases a given wait. */
  lemma Releaser(inst: Instance, n: nat, i: nat, p: nat) returns (q: nat)
    requires WellFormed(inst, n) && i < n && p < |inst.plans[i]| && inst.plans[i][p].Wait?
    ensures Releases(inst, inst.plans[i][p].peer, q, i, p)
  {
    var j := inst.plans[i][p].peer;
    assert OpInWorld(inst.plans[i][p], i, n);
    assert Awaits(inst.plans[i][p], j);
    assert HasSend(inst.plans[j], i);
    q :| 0 <= q < |inst.plans[j]| && Sends(inst.plans[j][q], i);
  }

  /** Barrier safety in a state that satisfies the invariant. */
  lemma ReturnedMeansAllEntered(sys: System, s: State, k: nat, i: nat, r: nat)
    requires GoodSystem(sys) && Inv(sys, s) && k < |sys.instances| && i < sys.n
    requires HasClock(sys.instances[k]) && Synchronizes(sys.instances[k])
    requires i in sys.instances[k].group && r in sys.instances[k].group
    requires Returned(s[i], k)
    ensures r < sys.n && Entered(s[r], k)
  {
    var time :| Clock(sys.instances[k], time);
    var know :| Knowledge(sys.instances[k], know);
    KnownHaveEntered(sys, s, k, i, |sys.instances[k].plans[i]|, r, time, know);
  }

  // ---------------------------------------------------------------- deadlock freedom

  /** A logical clock of an instance that has one. */
  ghost function ClockOf(inst: Instance): (time: (nat, nat) -> nat)
    requires HasClock(inst)
    ensures Clock(inst, time)
  {
    var time: (nat, nat) -> nat :| Clock(inst, time);
    time
  }

  ghost predicate AllHaveClocks(sys: System) {
    forall k :: 0 <= k < |sys.instances| ==> HasClock(sys.instances[k])
  }

  ghost predicate AllSynchronize(sys: System) {
    forall k :: 0 <= k < |sys.instances| ==> Synchronizes(sys.instances[k])
  }

  ghost predicate NoFailure(s: State) {
    forall i :: 0 <= i < |s| ==> !s[i].phase.Failed?
  }

  /** A completed notification has landed in the slot of its target. */
  lemma CompletedHasLanded(sys: System, s: State, j: nat, i: nat, k: nat, q: nat)
    requires GoodSystem(sys) && Inv(sys, s) && i < sys.n && j < sys.n && i != j && k < |sys.instances|
    requires q < |sys.instances[k].plans[j]| && Sends(sys.instances[k].plans[j][q], i)
    requires Completed(s[j], k, q)
    ensures s[i].incoming[j] >= Sent(sys, j, i, k) + 1
  {
    var nd := s[j];
    var plan := sys.instances[k].plans[j];
    assert PlanInWorld(plan, j, sys.n);
    assert EdgeWire(sys, j, nd, i, s[i].incoming[j]);
    assert nd.out[i] == Issued(sys, j, nd, i);
    if nd.call > k {
      IssuedByLaterCall(sys, nd, j, i, k, q);
    } else {
      IssuedWithinThisCall(sys, nd, j, i, q);
    }
  }

  /** A node in a later call has issued the notification of instance `k`, besides one that
      may be under way. */
  lemma IssuedByLaterCall(sys: System, nd: NodeState, j: nat, i: nat, k: nat, q: nat)
    requires GoodSystem(sys) && i < sys.n && j < sys.n && NodeShape(sys, j, nd) && k < nd.call
    requires q < |sys.instances[k].plans[j]| && Sends(sys.instances[k].plans[j][q], i)
    ensures Issued(sys, j, nd, i) >= Sent(sys, j, i, k) + 1 + if Writing(sys, j, nd, i) then 1 else 0
  {
    var plan := sys.instances[k].plans[j];
    assert PlanInWorld(plan, j, sys.n);
    SendCountIs(plan, i, |plan|);
    SentGrows(sys, j, i, k + 1, nd.call);
    if Writing(sys, j, nd, i) {
      assert PlanInWorld(CurrentPlan(sys, j, nd), j, sys.n);
      SendCountIs(CurrentPlan(sys, j, nd), i, nd.Front());
    }
  }

  /** A node past operation `q` of its call has issued its notification, and it is no longer
      under way. */
  lemma IssuedWithinThisCall(sys: System, nd: NodeState, j: nat, i: nat, q: nat)
    requires GoodSystem(sys) && i < sys.n && j < sys.n && NodeShape(sys, j, nd) && !nd.phase.Idle?
    requires q < nd.pc && Sends(CurrentPlan(sys, j, nd)[q], i)
    ensures Issued(sys, j, nd, i) >= Sent(sys, j, i, nd.call) + 1 && !Writing(sys, j, nd, i)
  {
    var plan := CurrentPlan(sys, j, nd);
    assert PlanInWorld(plan, j, sys.n);
    SendCountIs(plan, i, nd.Front());
  }

  /** If the poll of `i` cannot pass, the peer has not completed its notification. */
  lemma BlockedByPeer(sys: System, s: State, i: nat) returns (j: nat, q: nat)
    requires GoodSystem(sys) && Inv(sys, s) && i < sys.n
    requires s[i].phase.Busy? && CurrentPlan(sys, i, s[i])[s[i].pc].Wait?
    requires !Enabled(sys, s, Pass(i))
    ensures Edge(sys, j, q, i, s[i].pc, s[i].call) && !Completed(s[j], s[i].call, q)
  {
    var k, p := s[i].call, s[i].pc;
    var plan := CurrentPlan(sys, i, s[i]);
    j := plan[p].peer;
    assert OpInWorld(plan[p], i, sys.n);
    q := Releaser(sys.instances[k], sys.n, i, p);
    WaitCountIs(plan, j, p + 1);
    SentIsAwaited(sys, j, i, k);
    assert s[i].expected[j] == Demanded(sys, i, s[i], j);
    if Completed(s[j], k, q) {
      CompletedHasLanded(sys, s, j, i, k, q);
    }
  }

  /** The logical time of the operation a node is at. */
  ghost function Now(sys: System, i: nat, nd: NodeState): nat
    requires GoodSystem(sys) && AllHaveClocks(sys) && i < sys.n && NodeShape(sys, i, nd)
  {
    if nd.phase.Idle? || nd.pc == |CurrentPlan(sys, i, nd)| then 0
    else ClockOf(sys.instances[nd.call])(i, nd.pc) + 1
  }

  /** Deadlock freedom: while some node still has a call to make or to finish and nobody
      has failed, some step other than a failure is enabled. */
  lemma {:induction false} SomeStepEnabled(sys: System, s: State, i: nat) returns (a: Action)
    requires GoodSystem(sys) && Inv(sys, s) && NoFailure(s) && AllHaveClocks(sys)
    requires i < sys.n && s[i].call < |sys.instances|
    ensures Enabled(sys, s, a) && !a.Fail? && !a.FailPost?
    decreases s[i].call, Now(sys, i, s[i])
  {
    var nd := s[i];
    assert NodeShape(sys, i, nd);
    if nd.phase.Idle? {
      a := if InCall(sys, i, nd) then Enter(i) else Skip(i);
    } else if nd.phase.Ready? {
      a := if nd.pc < |CurrentPlan(sys, i, nd)| then Begin(i) else Return(i);
    } else if CurrentPlan(sys, i, nd)[nd.pc].Notify? {
      if nd.pending == {} {
        a := EndNotify(i);
      } else {
        var j :| j in nd.pending;
        a := Land(i, j);
      }
    } else if Enabled(sys, s, Pass(i)) {
      a := Pass(i);
    } else {
      var j, q := BlockedByPeer(sys, s, i);
      PeerIsEarlier(sys, s, i, j, q);
      a := SomeStepEnabled(sys, s, j);
    }
  }

  lemma PeerIsEarlier(sys: System, s: State, i: nat, j: nat, q: nat)
    requires GoodSystem(sys) && Inv(sys, s) && AllHaveClocks(sys) && i < sys.n
    requires s[i].phase.Busy? && Edge(sys, j, q, i, s[i].pc, s[i].call) && !Completed(s[j], s[i].call, q)
    ensures s[j].call < s[i].call || (s[j].call == s[i].call && Now(sys, j, s[j]) < Now(sys, i, s[i]))
  {
    var k, p := s[i].call, s[i].pc;
    var time := ClockOf(sys.instances[k]);
    assert time(j, q) < time(i, p);
    if s[j].call == k && !s[j].phase.Idle? && s[j].pc < q {
      assert time(j, s[j].pc) < time(j, q);
    }
  }

  // ---------------------------------------------------------------- quiescence

  /** When every node is between calls and has put the same instances behind it, the three
      counters of every directed edge are equal. */
  lemma Quiescence(sys: System, s: State, k: nat, i: nat, j: nat)
    requires GoodSystem(sys) && Inv(sys, s) && k <= |sys.instances| && i < sys.n && j < sys.n && i != j
    requires forall r :: 0 <= r < sys.n ==> s[r].phase.Idle? && s[r].call == k
    ensures s[i].out[j] == s[j].incoming[i] == s[j].expected[i] == Sent(sys, i, j, k)
  {
    assert EdgeWire(sys, i, s[i], j, s[j].incoming[i]);
    assert s[i].out[j] == Issued(sys, i, s[i], j);
    assert s[j].expected[i] == Demanded(sys, j, s[j], i);
    SentIsAwaited(sys, i, j, k);
  }

  // ---------------------------------------------------------------- run-ahead

  /** `j` is polling the slot of `i`. */
  ghost predicate Polling(sys: System, j: nat, nd: NodeState, i: nat)
    requires NodeShape(sys, j, nd)
  {
    nd.phase.Busy? && Awaits(CurrentPlan(sys, j, nd)[nd.pc], i)
  }

  lemma PollerExpects(sys: System, s: State, j: nat, i: nat)
    requires GoodSystem(sys) && Inv(sys, s) && i < sys.n && j < sys.n && Polling(sys, j, s[j], i)
    ensures i != j && HasSend(sys.instances[s[j].call].plans[i], j)
    ensures s[j].expected[i] == Sent(sys, i, j, s[j].call) + 1 == Sent(sys, i, j, s[j].call + 1)
    ensures s[j].incoming[i] <= s[i].out[j] == Issued(sys, i, s[i], j)
  {
    var k, plan := s[j].call, CurrentPlan(sys, j, s[j]);
    assert OpInWorld(plan[s[j].pc], j, sys.n);
    WaitCountIs(plan, i, s[j].Front());
    WaitCountIs(plan, i, |plan|);
    SentIsAwaited(sys, i, j, k);
    SentIsAwaited(sys, i, j, k + 1);
    assert HasWait(plan, i);
    assert EdgeWire(sys, i, s[i], j, s[j].incoming[i]);
    assert s[j].expected[i] == Demanded(sys, j, s[j], i);
    assert s[i].out[j] == Issued(sys, i, s[i], j);
  }

  /** If a node has issued more to `j` than instances `0..k` ask for, it has begun a
      notification of `j` in a later instance. */
  lemma {:induction false} LaterSend(sys: System, i: nat, j: nat, k: nat, l: nat) returns (m: nat, q: nat)
    requires GoodSystem(sys) && i < sys.n && j < sys.n && k <= l <= |sys.instances|
    requires Sent(sys, i, j, k) < Sent(sys, i, j, l)
    ensures k <= m < l && q < |sys.instances[m].plans[i]| && Sends(sys.instances[m].plans[i][q], j)
  {
    var plan := sys.instances[l - 1].plans[i];
    SendCountIs(plan, j, |plan|);
    if SendCount(plan, j, |plan|) > 0 {
      q :| 0 <= q < |plan| && Sends(plan[q], j);
      m := l - 1;
    } else {
      m, q := LaterSend(sys, i, j, k, l - 1);
    }
  }

  /** A peer that has left the instance `j` is still in has not finished a later one that
      notifies `j`: finishing it would need `j` to have entered it. */
  lemma AtMostOneLaterInstance(sys: System, s: State, j: nat, i: nat, l: nat)
    requires GoodSystem(sys) && Inv(sys, s) && AllHaveClocks(sys) && AllSynchronize(sys)
    requires i < sys.n && j < sys.n && s[j].call < l <= s[i].call
    ensures Sent(sys, i, j, l) <= Sent(sys, i, j, s[j].call + 1)
  {
    if Sent(sys, i, j, s[j].call + 1) < Sent(sys, i, j, l) {
      var m, q := LaterSend(sys, i, j, s[j].call + 1, l);
      var inst := sys.instances[m];
      assert HasSend(inst.plans[i], j);
      assert HasWait(inst.plans[j], i);
      ReturnedMeansAllEntered(sys, s, m, i, j);
    }
  }

  /** One call adds at most one notification of a given peer. */
  lemma IssuedWithinCall(sys: System, i: nat, nd: NodeState, j: nat)
    requires GoodSystem(sys) && i < sys.n && j < sys.n && NodeShape(sys, i, nd)
    ensures Issued(sys, i, nd, j) <= Sent(sys, i, j, nd.call) + 1
  {
    if !nd.phase.Idle? {
      SendCountIs(CurrentPlan(sys, i, nd), j, nd.Front());
    }
  }

  lemma IssuedAhead(sys: System, s: State, j: nat, i: nat)
    requires GoodSystem(sys) && Inv(sys, s) && AllHaveClocks(sys) && AllSynchronize(sys)
    requires i < sys.n && j < sys.n && s[j].call < |sys.instances|
    ensures Issued(sys, i, s[i], j) <= Sent(sys, i, j, s[j].call + 1) + 1
  {
    var k, l := s[j].call, s[i].call;
    assert NodeShape(sys, i, s[i]);
    IssuedWithinCall(sys, i, s[i], j);
    if l <= k {
      SentGrows(sys, i, j, l, k + 1);
    } else {
      AtMostOneLaterInstance(sys, s, j, i, l);
    }
  }

  /** The `>=` in the poll is needed by at most one: a peer can be at most one notification
      ahead of the instance that is being polled for. */
  lemma RunAheadBound(sys: System, s: State, j: nat, i: nat)
    requires GoodSystem(sys) && Inv(sys, s) && AllHaveClocks(sys) && AllSynchronize(sys)
    requires i < sys.n && j < sys.n && Polling(sys, j, s[j], i)
    ensures s[j].incoming[i] <= s[j].expected[i] + 1
  {
    PollerExpects(sys, s, j, i);
    IssuedAhead(sys, s, j, i);
  }

  /** Plans in which the lower rank of an edge hears from the higher one before it answers. */
  ghost predicate Handshake(inst: Instance) {
    && (forall a: nat, b: nat, q: nat :: a < b && SendsAt(inst, a, q, b) ==> HeardBefore(inst.plans[a], b, q))
    && (forall a: nat, b: nat, q: nat :: a < b && SendsAt(inst, b, q, a) ==> HasWait(inst.plans[b], a))
  }

  ghost predicate SendsAt(inst: Instance, i: nat, q: nat, j: nat) {
    i < |inst.plans| && q < |inst.plans[i]| && Sends(inst.plans[i][q], j)
  }

  predicate HeardBefore(plan: seq<Op>, j: nat, q: nat) {
    exists p :: 0 <= p < q && p < |plan| && Awaits(plan[p], j)
  }

  ghost predicate AllHandshake(sys: System) {
    forall k :: 0 <= k < |sys.instances| ==> Handshake(sys.instances[k])
  }

  /** The peer that answers (`i < j`) cannot have answered a later instance of `j`. */
  lemma AnswererIsNotAhead(sys: System, s: State, j: nat, i: nat, m: nat, q: nat)
    requires GoodSystem(sys) && Inv(sys, s) && AllHandshake(sys) && i < j < sys.n
    requires s[j].call < m < |sys.instances| && SendsAt(sys.instances[m], i, q, j)
    ensures !Started(s[i], m, q)
  {
    if Started(s[i], m, q) {
      var plan := sys.instances[m].plans[i];
      var p :| 0 <= p < q && p < |plan| && Awaits(plan[p], j);
      assert HasWait(plan, j) && HasSend(sys.instances[m].plans[j], i);
      var r := Releaser(sys.instances[m], sys.n, i, p);
      assert Edge(sys, j, r, i, p, m) && Completed(s[i], m, p);
    }
  }

  /** In a handshake plan the lower rank answers only after its wait. */
  lemma WaitPrecedesAnswer(inst: Instance, n: nat, j: nat, i: nat, p: nat, r: nat)
    requires WellFormed(inst, n) && Handshake(inst) && j < i && j < n && p < |inst.plans[j]|
    requires Awaits(inst.plans[j][p], i) && SendsAt(inst, j, r, i)
    ensures p < r
  {
    var h :| 0 <= h < r && h < |inst.plans[j]| && Awaits(inst.plans[j][h], i);
    assert PlanInWorld(inst.plans[j], j, n);
  }

  /** The peer that reports first (`i > j`) waits for the answer of this instance. */
  lemma ReporterIsNotAhead(sys: System, s: State, j: nat, i: nat)
    requires GoodSystem(sys) && Inv(sys, s) && AllHandshake(sys) && j < i < sys.n && Polling(sys, j, s[j], i)
    ensures s[i].call <= s[j].call
  {
    PollerExpects(sys, s, j, i);
    var k := s[j].call;
    var inst := sys.instances[k];
    var q :| 0 <= q < |inst.plans[i]| && Sends(inst.plans[i][q], j);
    assert SendsAt(inst, i, q, j);
    var p :| 0 <= p < |inst.plans[i]| && Awaits(inst.plans[i][p], j);
    var r := Releaser(inst, sys.n, i, p);
    assert Edge(sys, j, r, i, p, k);
    assert SendsAt(inst, j, r, i);
    WaitPrecedesAnswer(inst, sys.n, j, i, s[j].pc, r);
    assert !Started(s[j], k, r);
    assert !Completed(s[i], k, p);
  }

  /** With such plans the polled slot never runs ahead of the expected epoch. */
  lemma NoRunAhead(sys: System, s: State, j: nat, i: nat)
    requires GoodSystem(sys) && Inv(sys, s) && AllHandshake(sys)
    requires i < sys.n && j < sys.n && Polling(sys, j, s[j], i)
    ensures s[j].incoming[i] <= s[j].expected[i]
  {
    PollerExpects(sys, s, j, i);
    var k, l := s[j].call, s[i].call;
    if l <= k {
      IssuedBound(sys, i, s[i], j, k + 1);
    } else if i > j {
      ReporterIsNotAhead(sys, s, j, i);
    } else {
      if Sent(sys, i, j, k + 1) < Sent(sys, i, j, l) {
        var m, q := LaterSend(sys, i, j, k + 1, l);
        AnswererIsNotAhead(sys, s, j, i, m, q);
      }
      SentGrows(sys, i, j, k + 1, l);
      if !s[i].phase.Idle? {
        var plan := CurrentPlan(sys, i, s[i]);
        SendCountIs(plan, j, s[i].Front());
        if q :| 0 <= q < s[i].Front() && Sends(plan[q], j) {
          AnswererIsNotAhead(sys, s, j, i, l, q);
        }
      }
    }
  }
}
