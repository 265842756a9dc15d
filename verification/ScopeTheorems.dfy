/** What a polling scope leaves behind, reports and has been told, for every closure and
    whatever the queues do. */
module ScopeTheorems {
  import opened Wrappers
  import opened CompletionState
  import opened QueuePolling
  import opened ScopeStates

  /** What closing the scope saw of one request: whether the user had polled it, and if not,
      what the automatic poll answered. */
  datatype Report = UserPolled | AutoPolled(result: TransportResult)

  /** The errors of the automatically polled requests, in posting order. */
  function Failures(report: seq<Report>): seq<TransportError> {
    if |report| == 0 then []
    else
      var last := report[|report| - 1];
      Failures(report[..|report| - 1]) + (if last.AutoPolled? && last.result.Err? then [last.result.error] else [])
  }

  ghost predicate SomeAutoPolled(report: seq<Report>) {
    exists x :: 0 <= x < |report| && report[x].AutoPolled?
  }

  lemma OneMore(report: seq<Report>, one: Report)
    ensures Failures(report + [one]) == Failures(report) + (if Failed(one) then [one.result.error] else [])
    ensures SomeAutoPolled(report + [one]) <==> SomeAutoPolled(report) || one.AutoPolled?
  {
    var more := report + [one];
    assert more[..|report|] == report;
    assert more[|report|] == one;
    if SomeAutoPolled(report) {
      var x :| 0 <= x < |report| && report[x].AutoPolled?;
      assert more[x].AutoPolled?;
    }
  }

  lemma {:induction false} NoFailures(report: seq<Report>)
    ensures Failures(report) == [] <==> forall x :: 0 <= x < |report| && report[x].AutoPolled? ==> report[x].result.Ok?
  {
    if |report| > 0 {
      var init := report[..|report| - 1];
      NoFailures(init);
      assert forall x :: 0 <= x < |init| ==> init[x] == report[x];
    }
  }

  predicate Failed(r: Report) {
    r.AutoPolled? && r.result.Err?
  }

  function CountFailed(report: seq<Report>): nat {
    if |report| == 0 then 0
    else CountFailed(report[..|report| - 1]) + (if Failed(report[|report| - 1]) then 1 else 0)
  }

  /** The failure of request `x` is reported, at the place given by how many requests posted
      before it failed; and nothing else is reported. */
  lemma {:induction false} FailureInPlace(report: seq<Report>, x: nat)
    requires x < |report| && Failed(report[x])
    ensures |Failures(report)| == CountFailed(report)
    ensures CountFailed(report[..x]) < CountFailed(report)
    ensures Failures(report)[CountFailed(report[..x])] == report[x].result.error
  {
    FailuresCounted(report);
    var init := report[..|report| - 1];
    FailuresCounted(init);
    if x < |init| {
      FailureInPlace(init, x);
      assert init[..x] == report[..x];
    } else {
      assert report[..x] == init;
    }
  }

  lemma {:induction false} FailuresCounted(report: seq<Report>)
    ensures |Failures(report)| == CountFailed(report)
  {
    if |report| > 0 {
      FailuresCounted(report[..|report| - 1]);
    }
  }

  /** The waits that leaving the scope makes for a handle. */
  function Waits(h: Handle): nat {
    (if h.marked then 0 else 1) + (if h.forgotten then 0 else 1)
  }

  /** When its turn comes, the request of handle `x` has not been answered, and at least as many
      polls fail before it is fetched as the scope will make waits for it. */
  ghost predicate Stays(s: Scope, x: nat)
    requires IsHandle(s, x)
  {
    var h := s.handles[x];
    !IsFinal(h.answer) && FailuresAhead(QueueOf(s, x), h.id) >= Waits(h)
  }

  /** One wait of the scope: one failing poll fewer ahead, or the request's own answer. */
  lemma WaitIsExact(s: Scope, x: nat)
    requires Good(s) && IsHandle(s, x) && !IsFinal(s.handles[x].answer)
    ensures var t := AfterWait(s, x);
            && IsHandle(t, x) && t.handles[x].answer.Some?
            && t.handles[x] == s.handles[x].(answer := t.handles[x].answer)
            && (IsFinal(t.handles[x].answer) <==> FailuresAhead(QueueOf(s, x), s.handles[x].id) == 0)
            && (!IsFinal(t.handles[x].answer) ==>
                  FailuresAhead(QueueOf(t, x), s.handles[x].id) == FailuresAhead(QueueOf(s, x), s.handles[x].id) - 1)
  {
    assert GoodHandle(s.channels, s.handles[x]) && GoodChannel(s.channels[s.handles[x].peer]);
    SpinForBreaks(QueueOf(s, x), s.handles[x].id);
  }

  lemma SettleIsExact(s: Scope, x: nat)
    requires Good(s) && IsHandle(s, x)
    ensures var t := AfterSettle(s, x);
            IsHandle(t, x) && t.handles[x].answer.Some? && (IsFinal(t.handles[x].answer) <==> !Stays(s, x))
  {
    assert GoodHandle(s.channels, s.handles[x]);
    if IsFinal(s.handles[x].answer) {
      SettleKeeps(s, x);
      assert SameHandle(s.handles[x], AfterSettle(s, x).handles[x]);
    } else {
      WaitIsExact(s, x);
      var waited := if s.handles[x].marked then s else AfterWait(s, x);
      WaitKeeps(s, x);
      if IsFinal(waited.handles[x].answer) {
        WaitKeeps(waited, x);
        assert SameHandle(waited.handles[x], AfterWait(waited, x).handles[x]);
      } else {
        WaitIsExact(waited, x);
      }
    }
  }

  /** Dealing with one handle leaves the others alone. */
  lemma SettleMovesOne(s: Scope, x: nat)
    ensures |AfterSettle(s, x).handles| == |s.handles| && |AfterSettle(s, x).channels| == |s.channels|
    ensures forall y :: 0 <= y < |s.handles| && y != x ==> AfterSettle(s, x).handles[y] == s.handles[y]
  {
  }

  lemma {:induction false} ClosingLength(s: Scope, k: nat)
    ensures |Closing(s, k).handles| == |s.handles| && |Closing(s, k).channels| == |s.channels|
  {
    if k > 0 {
      ClosingLength(s, k - 1);
      SettleMovesOne(Closing(s, k - 1), k - 1);
    }
  }

  lemma ClosingMovesOne(s: Scope, k: nat, x: nat)
    requires 0 < k && x < |s.handles| && x != k - 1
    ensures |Closing(s, k).handles| == |Closing(s, k - 1).handles| == |s.handles|
    ensures Closing(s, k).handles[x] == Closing(s, k - 1).handles[x]
  {
    ClosingLength(s, k - 1);
    SettleMovesOne(Closing(s, k - 1), k - 1);
  }

  lemma {:induction false} UntouchedBefore(s: Scope, k: nat, x: nat)
    requires k <= x < |s.handles|
    ensures |Closing(s, k).handles| == |s.handles| && Closing(s, k).handles[x] == s.handles[x]
  {
    if k > 0 {
      UntouchedBefore(s, k - 1, x);
      ClosingMovesOne(s, k, x);
    }
  }

  lemma {:induction false} UntouchedAfter(s: Scope, j: nat, k: nat, x: nat)
    requires x < j <= k && x < |s.handles|
    ensures |Closing(s, k).handles| == |Closing(s, j).handles| == |s.handles|
    ensures Closing(s, k).handles[x] == Closing(s, j).handles[x]
  {
    if k > j {
      UntouchedAfter(s, j, k - 1, x);
      ClosingMovesOne(s, k, x);
    } else {
      ClosingLength(s, k);
    }
  }

  /** Only its own turn decides about a handle. */
  lemma TurnDecides(s: Scope, x: nat)
    requires Good(s) && x < |s.handles|
    ensures Good(Closing(s, x)) && IsHandle(Closing(s, x), x) && Closing(s, x).handles[x] == s.handles[x]
    ensures Good(Closed(s)) && IsHandle(Closed(s), x) && |Closed(s).handles| == |s.handles|
    ensures IsHandle(AfterSettle(Closing(s, x), x), x)
    ensures Closed(s).handles[x] == AfterSettle(Closing(s, x), x).handles[x]
    ensures SameHandle(s.handles[x], Closed(s).handles[x])
  {
    InTurn(s, x, x);
    InTurn(s, |s.handles|, x);
    UntouchedBefore(s, x, x);
    UntouchedAfter(s, x + 1, |s.handles|, x);
    SettleMovesOne(Closing(s, x), x);
    InTurn(s, x + 1, x);
  }

  lemma InTurn(s: Scope, k: nat, x: nat)
    requires Good(s) && x < |s.handles|
    ensures Good(Closing(s, k)) && |Closing(s, k).handles| == |s.handles| && IsHandle(Closing(s, k), x)
    ensures SameHandle(s.handles[x], Closing(s, k).handles[x])
  {
    ClosingKeeps(s, k);
    ClosingLength(s, k);
    assert GoodHandle(Closing(s, k).channels, Closing(s, k).handles[x]);
    assert SameHandle(s.handles[x], Closing(s, k).handles[x]);
  }

  lemma WaitsUntilAnswered(s: Scope, x: nat)
    requires Good(s) && IsHandle(s, x)
    ensures Waiting(QueueOf(s, x).cq, s.handles[x].id) <==> !IsFinal(s.handles[x].answer)
  {
    assert GoodHandle(s.channels, s.handles[x]) && GoodChannel(s.channels[s.handles[x].peer]);
    WaitingOrTaken(QueueOf(s, x).cq, s.handles[x].id);
  }

  /** A request is outstanding after the scope if and only if it was not answered when its turn
      came, and as many polls failed before it was fetched as the scope made waits for it. */
  lemma LeavesExactly(s: Scope, x: nat)
    requires Good(s) && x < |s.handles|
    ensures IsHandle(Closing(s, x), x) && Closing(s, x).handles[x] == s.handles[x]
    ensures IsHandle(Closed(s), x) && SameHandle(s.handles[x], Closed(s).handles[x])
    ensures Closed(s).handles[x].answer.Some? && (IsFinal(Closed(s).handles[x].answer) <==> !Stays(Closing(s, x), x))
    ensures Waiting(QueueOf(Closed(s), x).cq, s.handles[x].id) <==> Stays(Closing(s, x), x)
    ensures
      var h, v := s.handles[x], QueueOf(Closing(s, x), x);
      Stays(Closing(s, x), x) <==>
      && !IsFinal(h.answer)
      && FailuresAhead(v, h.id) >= (if h.marked && h.forgotten then 0 else if h.marked || h.forgotten then 1 else 2)
  {
    TurnDecides(s, x);
    SettleIsExact(Closing(s, x), x);
    WaitsUntilAnswered(Closed(s), x);
  }

  ghost predicate GoodChannels(channels: seq<ChannelState>) {
    forall a :: 0 <= a < |channels| ==> GoodChannel(channels[a])
  }

  /** The requests, with their peers, that a scope with this closure leaves outstanding. */
  ghost function LeftBehind(channels: seq<ChannelState>, steps: seq<UserStep>): set<(nat, nat)> {
    var s := Playing(Scope(channels, []), steps);
    set x | 0 <= x < |s.handles| && IsHandle(Closing(s, x), x) && Stays(Closing(s, x), x) :: (s.handles[x].peer, s.handles[x].id)
  }

  lemma OpenedIsGood(channels: seq<ChannelState>)
    requires GoodChannels(channels)
    ensures Good(Scope(channels, []))
  {
  }

  lemma FinalKeeps(channels: seq<ChannelState>, steps: seq<UserStep>)
    requires GoodChannels(channels)
    ensures Good(Playing(Scope(channels, []), steps)) && Good(Final(channels, steps))
    ensures |Playing(Scope(channels, []), steps).handles| == |Final(channels, steps).handles|
    ensures Advances(Scope(channels, []), Final(channels, steps))
  {
    var o := Scope(channels, []);
    var s := Playing(o, steps);
    OpenedIsGood(channels);
    PlayingKeeps(o, steps);
    ClosingKeeps(s, |s.handles|);
    ClosingLength(s, |s.handles|);
    AdvancesOn(o, s, Closed(s));
  }

  /** For any closure and any queues: of the requests posted in the scope exactly these are
      still held by the hardware, the queue or the cache afterwards; all others are answered. */
  lemma LeftIsExact(channels: seq<ChannelState>, steps: seq<UserStep>, a: nat, id: nat)
    requires GoodChannels(channels) && a < |channels|
    ensures |Final(channels, steps).channels| == |channels|
    ensures (a, id) in LeftBehind(channels, steps) ==> PostedSince(Scope(channels, []), Final(channels, steps), a, id)
    ensures PostedSince(Scope(channels, []), Final(channels, steps), a, id) ==>
              var c := Final(channels, steps).channels[a].queue.cq;
              && (Waiting(c, id) <==> (a, id) in LeftBehind(channels, steps))
              && (Waiting(c, id) <==> id !in c.taken)
  {
    var o, e := Scope(channels, []), Final(channels, steps);
    var s := Playing(o, steps);
    FinalKeeps(channels, steps);
    assert PostedSince(o, e, a, id) <==> NewHandle(o, e, a, id);
    assert GoodChannel(e.channels[a]);
    forall x: nat | x < |s.handles|
      ensures IsHandle(Closing(s, x), x) && SameHandle(s.handles[x], e.handles[x])
      ensures Waiting(QueueOf(e, x).cq, s.handles[x].id) <==> Stays(Closing(s, x), x)
    {
      LeavesExactly(s, x);
    }
    if NewHandle(o, e, a, id) {
      var x: nat :| x < |e.handles| && e.handles[x].peer == a && e.handles[x].id == id;
      WaitingOrTaken(e.channels[a].queue.cq, id);
      assert SameHandle(s.handles[x], e.handles[x]);
      if (a, id) in LeftBehind(channels, steps) {
        var y: nat :| y < |s.handles| && Stays(Closing(s, y), y) && (s.handles[y].peer, s.handles[y].id) == (a, id);
        assert SameHandle(s.handles[y], e.handles[y]);
      }
    }
  }

  /** Of the requests posted between two states of the channels exactly these are outstanding. */
  ghost predicate Leaves(before: seq<ChannelState>, after: seq<ChannelState>, left: set<(nat, nat)>) {
    && |after| == |before|
    && forall a: nat, id: nat :: a < |before| ==>
         var c := after[a].queue.cq;
         var posted := id in c.posted && id !in before[a].queue.cq.posted;
         && ((a, id) in left <==> posted && Waiting(c, id))
         && (posted ==> (Waiting(c, id) <==> id !in c.taken))
  }

  lemma FinalLeaves(channels: seq<ChannelState>, steps: seq<UserStep>)
    requires GoodChannels(channels)
    ensures Leaves(channels, Final(channels, steps).channels, LeftBehind(channels, steps))
  {
    FinalKeeps(channels, steps);
    forall a: nat, id: nat | a < |channels|
      ensures
        var c := Final(channels, steps).channels[a].queue.cq;
        var posted := id in c.posted && id !in channels[a].queue.cq.posted;
        && ((a, id) in LeftBehind(channels, steps) <==> posted && Waiting(c, id))
        && (posted ==> (Waiting(c, id) <==> id !in c.taken))
    {
      LeftIsExact(channels, steps, a, id);
    }
  }

  lemma LeftInRange(channels: seq<ChannelState>, steps: seq<UserStep>, a: nat, id: nat)
    requires GoodChannels(channels) && (a, id) in LeftBehind(channels, steps)
    ensures a < |channels|
  {
    var s := Playing(Scope(channels, []), steps);
    FinalKeeps(channels, steps);
    var x: nat :| x < |s.handles| && IsHandle(Closing(s, x), x) && (s.handles[x].peer, s.handles[x].id) == (a, id);
    LeavesExactly(s, x);
  }

  /** How many of the first `k` handles of channel `a` have last been answered by a failing
      poll. */
  function CountFailedPolls(handles: seq<Handle>, a: nat, k: nat): nat
    requires k <= |handles|
  {
    if k == 0 then 0 else CountFailedPolls(handles, a, k - 1) + (if ByFailedPoll(handles[k - 1], a) then 1 else 0)
  }

  predicate ByFailedPoll(h: Handle, a: nat) {
    h.peer == a && h.answer.Some? && h.answer.value.ByBrokenQueue?
  }

  lemma {:induction false} CountOfUpdate(handles: seq<Handle>, x: nat, h: Handle, a: nat, k: nat)
    requires x < |handles| && k <= |handles|
    ensures CountFailedPolls(handles[x := h], a, k) - CountFailedPolls(handles, a, k) ==
            if x < k then (if ByFailedPoll(h, a) then 1 else 0) - (if ByFailedPoll(handles[x], a) then 1 else 0) else 0
  {
    if k > 0 {
      CountOfUpdate(handles, x, h, a, k - 1);
    }
  }

  lemma {:induction false} CountOfPrefix(handles: seq<Handle>, h: Handle, a: nat, k: nat)
    requires k <= |handles|
    ensures CountFailedPolls(handles + [h], a, k) == CountFailedPolls(handles, a, k)
  {
    if k > 0 {
      CountOfPrefix(handles, h, a, k - 1);
    }
  }

  /** The failing polls of channel `a`: those that are some handle's last answer, and those still
      to come. */
  function Failing(s: Scope, a: nat): nat
    requires a < |s.channels|
  {
    CountFailedPolls(s.handles, a, |s.handles|) + CountBroken(s.channels[a].queue.script)
  }

  lemma HeardFailing(s: Scope, x: nat, r: Reply, marks: bool, a: nat)
    requires IsHandle(s, x) && a < |s.channels|
    requires r == PollOf(s, x) || (r == SpinOf(s, x) && Good(s))
    ensures Failing(Heard(s, x, r, marks), a) <= Failing(s, a)
  {
    var h := s.handles[x];
    CountOfUpdate(s.handles, x, Heard(s, x, r, marks).handles[x], a, |s.handles|);
    if !IsFinal(h.answer) {
      PollForCounts(QueueOf(s, x), h.id);
      if Good(s) {
        assert GoodHandle(s.channels, h) && GoodChannel(s.channels[h.peer]);
        SpinForCounts(QueueOf(s, x), h.id);
      }
    }
  }

  lemma StepFailing(s: Scope, step: UserStep, a: nat)
    requires Good(s) && a < |s.channels|
    ensures |AfterStep(s, step).channels| == |s.channels| && Failing(AfterStep(s, step), a) <= Failing(s, a)
  {
    match step
    case Post(peer, accepted) =>
      if peer < |s.channels| && accepted {
        CountOfPrefix(s.handles, AfterStep(s, step).handles[|s.handles|], a, |s.handles|);
      }
    case Poll(x) =>
      if IsHandle(s, x) {
        HeardFailing(s, x, PollOf(s, x), PollOf(s, x).answer.Some?, a);
      }
    case SpinPoll(x) =>
      if IsHandle(s, x) {
        HeardFailing(s, x, SpinOf(s, x), true, a);
      }
    case Forget(x) =>
      if IsHandle(s, x) {
        CountOfUpdate(s.handles, x, AfterStep(s, step).handles[x], a, |s.handles|);
      }
  }

  lemma SettleFailing(s: Scope, x: nat, a: nat)
    requires Good(s) && IsHandle(s, x) && a < |s.channels|
    ensures Failing(AfterSettle(s, x), a) <= Failing(s, a)
  {
    HeardFailing(s, x, SpinOf(s, x), false, a);
    WaitKeeps(s, x);
    var waited := if s.handles[x].marked then s else AfterWait(s, x);
    HeardFailing(waited, x, SpinOf(waited, x), false, a);
  }

  lemma {:induction false} PlayingFailing(s: Scope, steps: seq<UserStep>, a: nat)
    requires Good(s) && a < |s.channels|
    ensures |Playing(s, steps).channels| == |s.channels| && Failing(Playing(s, steps), a) <= Failing(s, a)
  {
    if |steps| > 0 {
      PlayingFailing(s, steps[..|steps| - 1], a);
      PlayingKeeps(s, steps[..|steps| - 1]);
      StepFailing(Playing(s, steps[..|steps| - 1]), steps[|steps| - 1], a);
    }
  }

  lemma TurnFailing(s: Scope, k: nat, a: nat)
    requires Good(s) && a < |s.channels| && k < |s.handles|
    ensures |Closing(s, k + 1).channels| == |Closing(s, k).channels| == |s.channels|
    ensures Failing(Closing(s, k + 1), a) <= Failing(Closing(s, k), a)
  {
    TurnDecides(s, k);
    ClosingLength(s, k);
    ClosingLength(s, k + 1);
    SettleFailing(Closing(s, k), k, a);
  }

  lemma {:induction false} ClosingFailing(s: Scope, k: nat, a: nat)
    requires Good(s) && a < |s.channels| && k <= |s.handles|
    ensures |Closing(s, k).channels| == |s.channels| && Failing(Closing(s, k), a) <= Failing(s, a)
  {
    if k > 0 {
      ClosingFailing(s, k - 1, a);
      TurnFailing(s, k - 1, a);
    }
  }

  /** The handles last answered by a failing poll are those of the requests left behind. */
  lemma LeftByFailedPoll(channels: seq<ChannelState>, steps: seq<UserStep>, a: nat, x: nat)
    requires GoodChannels(channels) && a < |channels| && x < |Final(channels, steps).handles|
    ensures var h := Final(channels, steps).handles[x];
            h.answer.Some? && (ByFailedPoll(h, a) <==> h.peer == a && (a, h.id) in LeftBehind(channels, steps))
  {
    var s, e := Playing(Scope(channels, []), steps), Final(channels, steps);
    FinalKeeps(channels, steps);
    LeavesExactly(s, x);
    if e.handles[x].peer == a && (a, e.handles[x].id) in LeftBehind(channels, steps) {
      var y: nat :| y < |s.handles| && IsHandle(Closing(s, y), y) && Stays(Closing(s, y), y)
                    && (s.handles[y].peer, s.handles[y].id) == (a, e.handles[x].id);
      assert x == y;
    }
  }

  /** Every request left behind has a failing poll of its own: a scope leaves at most as many
      requests of a channel outstanding as polls of its queue fail. */
  lemma OneFailureEach(channels: seq<ChannelState>, steps: seq<UserStep>, a: nat)
    requires GoodChannels(channels) && a < |channels|
    ensures var e := Final(channels, steps);
            CountFailedPolls(e.handles, a, |e.handles|) <= CountBroken(channels[a].queue.script)
  {
    var o := Scope(channels, []);
    var s := Playing(o, steps);
    FinalKeeps(channels, steps);
    PlayingFailing(o, steps, a);
    ClosingFailing(s, |s.handles|, a);
  }

  lemma {:induction false} CountedAtLeast(handles: seq<Handle>, a: nat, k: nat, x: nat)
    requires x < k <= |handles| && ByFailedPoll(handles[x], a)
    ensures CountFailedPolls(handles, a, k) > 0
  {
    if x < k - 1 {
      CountedAtLeast(handles, a, k - 1, x);
    }
  }

  /** While no poll of a queue fails, every request posted on it in the scope is answered. */
  lemma HealthyLeavesNothing(channels: seq<ChannelState>, steps: seq<UserStep>, a: nat)
    requires GoodChannels(channels) && a < |channels| && NoneBroken(channels[a].queue.script)
    ensures forall id :: (a, id) !in LeftBehind(channels, steps)
    ensures forall x: nat :: x < |Final(channels, steps).handles| && Final(channels, steps).handles[x].peer == a ==>
              IsFinal(Final(channels, steps).handles[x].answer)
  {
    var s, e := Playing(Scope(channels, []), steps), Final(channels, steps);
    NoneCounted(channels[a].queue.script);
    OneFailureEach(channels, steps, a);
    FinalKeeps(channels, steps);
    forall x: nat | x < |e.handles| && e.handles[x].peer == a
      ensures IsFinal(e.handles[x].answer) && (a, e.handles[x].id) !in LeftBehind(channels, steps)
    {
      LeftByFailedPoll(channels, steps, a, x);
      if ByFailedPoll(e.handles[x], a) {
        CountedAtLeast(e.handles, a, |e.handles|, x);
      }
    }
    forall id: nat | (a, id) in LeftBehind(channels, steps)
      ensures false
    {
      var x: nat :| x < |s.handles| && (s.handles[x].peer, s.handles[x].id) == (a, id);
      LeavesExactly(s, x);
    }
  }

  /** No poll of any of the queues is going to fail. */
  predicate AllHealthy(channels: seq<ChannelState>) {
    forall a :: 0 <= a < |channels| ==> NoneBroken(channels[a].queue.script)
  }

  /** Every request posted in between has been answered, and neither the hardware, the queue
      nor the cache still holds it. */
  ghost predicate NothingLeft(before: seq<ChannelState>, after: seq<ChannelState>)
    requires |before| == |after|
  {
    forall a: nat, id: nat :: a < |before| && id in after[a].queue.cq.posted && id !in before[a].queue.cq.posted ==>
      id in after[a].queue.cq.taken && !Waiting(after[a].queue.cq, id)
  }

  /** How the channels are after a scope whose closure has carried out these steps: as the
      steps and the waits of the scope leave them, with exactly these requests outstanding. */
  ghost predicate ScopeLeft(before: seq<ChannelState>, steps: seq<UserStep>, after: seq<ChannelState>) {
    && after == Final(before, steps).channels && |after| == |before|
    && Leaves(before, after, LeftBehind(before, steps))
    && (NothingLeft(before, after) <==> LeftBehind(before, steps) == {})
    && (AllHealthy(before) ==> NothingLeft(before, after))
  }

  lemma ScopeIsLeft(before: seq<ChannelState>, steps: seq<UserStep>)
    requires GoodChannels(before)
    ensures ScopeLeft(before, steps, Final(before, steps).channels)
  {
    var left, after := LeftBehind(before, steps), Final(before, steps).channels;
    FinalLeaves(before, steps);
    if left != {} {
      var a, id :| (a, id) in left;
      LeftInRange(before, steps, a, id);
    }
    if AllHealthy(before) {
      forall a: nat, id: nat | a < |before|
        ensures (a, id) !in left
      {
        HealthyLeavesNothing(before, steps, a);
      }
    }
  }

  /** What leaving the scope sees of handle `x` when its turn comes. */
  ghost function ReportOf(s: Scope, x: nat): Report {
    if !IsHandle(s, x) || s.handles[x].marked then UserPolled
    else
      match SpinOf(s, x).answer
      case Some(answer) => AutoPolled(Told(answer))
      case None => UserPolled
  }

  /** What it sees of the first `k` handles, one after the other. */
  ghost function Reports(s: Scope, k: nat): (r: seq<Report>)
    ensures |r| == k
  {
    if k == 0 then [] else Reports(s, k - 1) + [ReportOf(Closing(s, k - 1), k - 1)]
  }

  /** The errors that leaving the scope collects, in posting order. */
  ghost function AutoErrors(s: Scope): seq<TransportError> {
    Failures(Reports(s, |s.handles|))
  }

  /** Some of the first `k` handles does not count as polled. */
  ghost predicate SomeUnmarked(s: Scope, k: nat)
    requires k <= |s.handles|
  {
    exists y :: 0 <= y < k && !s.handles[y].marked
  }

  /** What has been collected from the first `k` handles. */
  ghost predicate Collected(s: Scope, k: nat, autoPolled: bool, errors: seq<TransportError>)
    requires k <= |s.handles|
  {
    errors == Failures(Reports(s, k)) && (autoPolled <==> SomeUnmarked(s, k))
  }

  lemma ReportAdds(s: Scope, x: nat, autoPolled: bool, errors: seq<TransportError>)
    requires Good(s) && x < |s.handles| && Collected(s, x, autoPolled, errors)
    ensures var report := ReportOf(Closing(s, x), x);
            Collected(s, x + 1, autoPolled || report.AutoPolled?, if Failed(report) then errors + [report.result.error] else errors)
  {
    TurnDecides(s, x);
    SpinFits(Closing(s, x), x);
    OneMore(Reports(s, x), ReportOf(Closing(s, x), x));
    SomeUnmarkedOn(s, x);
  }

  lemma AllCollected(s: Scope, autoPolled: bool, errors: seq<TransportError>)
    requires Collected(s, |s.handles|, autoPolled, errors)
    ensures errors == AutoErrors(s) && (autoPolled <==> !AllMarked(s))
  {
  }

  lemma SomeUnmarkedOn(s: Scope, x: nat)
    requires x < |s.handles|
    ensures SomeUnmarked(s, x + 1) <==> SomeUnmarked(s, x) || !s.handles[x].marked
  {
  }

  lemma {:induction false} ReportInPlace(s: Scope, k: nat, x: nat)
    requires x < k
    ensures Reports(s, k)[x] == ReportOf(Closing(s, x), x)
  {
    if x < k - 1 {
      ReportInPlace(s, k - 1, x);
    }
  }

  /** The wait of the scope for handle `x` is told that its request has succeeded: no poll of
      the queue fails before it is fetched, and that is the hardware's result. */
  ghost predicate AutoSucceeds(s: Scope, x: nat, bytes: nat) {
    && IsHandle(Closing(s, x), x) && IsHandle(Closed(s), x)
    && var h, c := Closing(s, x).handles[x], QueueOf(Closed(s), x).cq;
    && (IsFinal(h.answer) || FailuresAhead(QueueOf(Closing(s, x), x), h.id) == 0)
    && h.id in c.fate && c.fate[h.id] == Success(bytes)
  }

  /** It is told this error: that of the first poll of the queue that fails, if that comes
      before the request is fetched, and otherwise the hardware's for the request. */
  ghost predicate AutoFails(s: Scope, x: nat, e: TransportError) {
    && IsHandle(Closing(s, x), x) && IsHandle(Closed(s), x)
    && var h, v, c := Closing(s, x).handles[x], QueueOf(Closing(s, x), x), QueueOf(Closed(s), x).cq;
    if !IsFinal(h.answer) && FailuresAhead(v, h.id) > 0 then e.IbvError? && BreaksWith(v.script, e.errno)
    else h.id in c.fate && c.fate[h.id].Failure? && e == WorkError(c.fate[h.id].status)
  }

  ghost predicate Reported(s: Scope, x: nat, report: Report)
    requires x < |s.handles|
  {
    match report
    case UserPolled => s.handles[x].marked
    case AutoPolled(result) =>
      !s.handles[x].marked && if result.Ok? then AutoSucceeds(s, x, result.value) else AutoFails(s, x, result.error)
  }

  /** A request is polled automatically exactly if the user has not.  What is reported is the
      hardware's result for it, or the failure of a poll exactly if one comes before the
      request is fetched. */
  lemma ReportIsTrue(s: Scope, x: nat)
    requires Good(s) && x < |s.handles|
    ensures Reported(s, x, ReportOf(Closing(s, x), x))
  {
    var t, h := Closing(s, x), s.handles[x];
    TurnDecides(s, x);
    assert GoodHandle(t.channels, h) && GoodChannel(t.channels[h.peer]);
    if !h.marked {
      SpinFits(t, x);
      if !IsFinal(h.answer) {
        SpinForBreaks(QueueOf(t, x), h.id);
        SpinForTells(QueueOf(t, x), h.id);
      }
      if IsFinal(SpinOf(t, x).answer) {
        SettledAnswer(s, x, AfterWait(t, x).handles[x].answer);
      }
    }
  }

  /** A request's own answer to the scope's wait is the hardware's result for it. */
  lemma SettledAnswer(s: Scope, x: nat, answer: Option<Answer>)
    requires Good(s) && x < |s.handles| && IsHandle(Closing(s, x), x) && !s.handles[x].marked && IsFinal(answer)
    requires Closing(s, x).handles[x] == s.handles[x] && answer == AfterWait(Closing(s, x), x).handles[x].answer
    ensures IsHandle(Closed(s), x) && Closed(s).handles[x].id == s.handles[x].id
    ensures var c := QueueOf(Closed(s), x).cq;
            s.handles[x].id in c.fate && answer.value.result == c.fate[s.handles[x].id]
  {
    var t, e := Closing(s, x), Closed(s);
    var waited := AfterWait(t, x);
    TurnDecides(s, x);
    WaitKeeps(t, x);
    WaitKeeps(waited, x);
    assert SameHandle(waited.handles[x], AfterWait(waited, x).handles[x]);
    FinalIsFate(e, x);
  }

  lemma FinalIsFate(s: Scope, x: nat)
    requires Good(s) && IsHandle(s, x) && IsFinal(s.handles[x].answer)
    ensures var c, h := QueueOf(s, x).cq, s.handles[x]; h.id in c.fate && h.answer.value.result == c.fate[h.id]
  {
    assert GoodHandle(s.channels, s.handles[x]) && GoodChannel(s.channels[s.handles[x].peer]);
    assert Lawful(QueueOf(s, x).cq, s.handles[x].id);
  }

  /** The outcome of an automatic scope: the closure's panic or error comes before the errors
      of the requests it left to the scope. */
  function AutoOutcome<T, E>(end: ClosureEnd<T, E>, errors: seq<TransportError>): ScopeOutcome<T, E> {
    match end
    case Panics(payload) => Resumed(payload)
    case Fails(error) => ClosureError(error)
    case Returns(output) => if errors == [] then Done(output) else AutoPollError(errors)
  }

  /** The outcome of a manual scope, which must not be left with a request not polled. */
  function ManualOutcome<T, E>(end: ClosureEnd<T, E>, allPolled: bool): ScopeOutcome<T, E> {
    match end
    case Panics(payload) => Resumed(payload)
    case Fails(error) => ClosureError(error)
    case Returns(output) => if allPolled then Done(output) else UnpolledPanic
  }

  /** Handle `x` does not count as polled, and the wait of the scope for it fails. */
  ghost predicate LeftToFail(s: Scope, x: nat) {
    x < |s.handles| && !s.handles[x].marked && forall bytes :: !AutoSucceeds(s, x, bytes)
  }

  /** How many of the first `k` handles are left to fail. */
  ghost function CountLeftToFail(s: Scope, k: nat): nat {
    if k == 0 then 0 else CountLeftToFail(s, k - 1) + (if LeftToFail(s, k - 1) then 1 else 0)
  }

  /** The errors of the waits that failed and nothing else, each at its place in posting order. */
  ghost predicate ListsFailures(s: Scope, errors: seq<TransportError>) {
    && |errors| == CountLeftToFail(s, |s.handles|)
    && forall x: nat :: LeftToFail(s, x) ==>
         CountLeftToFail(s, x) < |errors| && AutoFails(s, x, errors[CountLeftToFail(s, x)])
  }

  lemma FailedIsLeftToFail(s: Scope, x: nat)
    requires Good(s) && x < |s.handles|
    ensures Failed(ReportOf(Closing(s, x), x)) <==> LeftToFail(s, x)
  {
    ReportIsTrue(s, x);
  }

  lemma {:induction false} FailedAreLeftToFail(s: Scope, k: nat)
    requires Good(s) && k <= |s.handles|
    ensures CountFailed(Reports(s, k)) == CountLeftToFail(s, k)
  {
    if k > 0 {
      FailedAreLeftToFail(s, k - 1);
      FailedIsLeftToFail(s, k - 1);
      CountFailedOn(Reports(s, k - 1), ReportOf(Closing(s, k - 1), k - 1));
    }
  }

  lemma CountFailedOn(report: seq<Report>, one: Report)
    ensures CountFailed(report + [one]) == CountFailed(report) + (if Failed(one) then 1 else 0)
  {
    assert (report + [one])[..|report|] == report;
  }

  lemma {:induction false} ReportsBefore(s: Scope, k: nat, x: nat)
    requires x <= k
    ensures Reports(s, k)[..x] == Reports(s, x)
  {
    if x < k {
      ReportsBefore(s, k - 1, x);
      assert Reports(s, k)[..x] == Reports(s, k - 1)[..x];
    }
  }

  /** What leaving the scope collects is true and complete. */
  lemma AutoErrorsAreTrue(s: Scope)
    requires Good(s)
    ensures ListsFailures(s, AutoErrors(s))
    ensures AutoErrors(s) == [] <==> forall x: nat :: !LeftToFail(s, x)
  {
    var n := |s.handles|;
    FailuresCounted(Reports(s, n));
    FailedAreLeftToFail(s, n);
    forall x: nat | LeftToFail(s, x)
      ensures CountLeftToFail(s, x) < |AutoErrors(s)| && AutoFails(s, x, AutoErrors(s)[CountLeftToFail(s, x)])
    {
      FailedIsLeftToFail(s, x);
      ReportIsTrue(s, x);
      ReportInPlace(s, n, x);
      FailureInPlace(Reports(s, n), x);
      ReportsBefore(s, n, x);
      FailedAreLeftToFail(s, x);
    }
    NoneLeftToFail(s, n);
  }

  lemma {:induction false} NoneLeftToFail(s: Scope, k: nat)
    requires k <= |s.handles|
    ensures CountLeftToFail(s, k) == 0 <==> forall x: nat :: x < k ==> !LeftToFail(s, x)
  {
    if k > 0 {
      NoneLeftToFail(s, k - 1);
    }
  }

  lemma ScopeIsTrue(channels: seq<ChannelState>, steps: seq<UserStep>)
    requires GoodChannels(channels)
    ensures
      var s := Playing(Scope(channels, []), steps);
      && ListsFailures(s, AutoErrors(s))
      && (AutoErrors(s) == [] <==>
            forall x: nat :: x < |s.handles| && !s.handles[x].marked ==> exists bytes :: AutoSucceeds(s, x, bytes))
  {
    FinalKeeps(channels, steps);
    var s := Playing(Scope(channels, []), steps);
    AutoErrorsAreTrue(s);
    NothingToFail(s);
  }

  lemma NothingToFail(s: Scope)
    ensures (forall x: nat :: !LeftToFail(s, x)) <==>
            forall x: nat :: x < |s.handles| && !s.handles[x].marked ==> exists bytes :: AutoSucceeds(s, x, bytes)
  {
    if forall x: nat :: !LeftToFail(s, x) {
      forall x: nat | x < |s.handles| && !s.handles[x].marked
        ensures exists bytes :: AutoSucceeds(s, x, bytes)
      {
        assert !LeftToFail(s, x);
      }
    }
  }

  predicate AllMarked(s: Scope) {
    forall x :: 0 <= x < |s.handles| ==> s.handles[x].marked
  }

  /** On a queue of which fewer polls fail than the scope makes waits for a request, the request
      is not left behind: one failing poll does no harm to a request that the closure has
      neither polled nor leaked. */
  lemma FewFailures(channels: seq<ChannelState>, steps: seq<UserStep>, x: nat)
    requires GoodChannels(channels) && x < |Playing(Scope(channels, []), steps).handles|
    ensures
      var h := Playing(Scope(channels, []), steps).handles[x];
      && h.peer < |channels|
      && (CountBroken(channels[h.peer].queue.script) < Waits(h) ==> (h.peer, h.id) !in LeftBehind(channels, steps))
      && (CountBroken(channels[h.peer].queue.script) < 2 && !h.marked && !h.forgotten ==> (h.peer, h.id) !in LeftBehind(channels, steps))
  {
    var o := Scope(channels, []);
    var s := Playing(o, steps);
    var h := s.handles[x];
    FinalKeeps(channels, steps);
    TurnDecides(s, x);
    LeavesExactly(s, x);
    PlayingFailing(o, steps, h.peer);
    ClosingFailing(s, x, h.peer);
    FailuresAheadAtMost(QueueOf(Closing(s, x), x), h.id);
    LeftByFailedPoll(channels, steps, h.peer, x);
  }

  /** The peers of the posts that are accepted among `n` channels, in order. */
  function PostedPeers(steps: seq<UserStep>, n: nat): (r: seq<nat>)
    ensures forall x :: 0 <= x < |r| ==> r[x] < n
  {
    if |steps| == 0 then []
    else
      var last := steps[|steps| - 1];
      PostedPeers(steps[..|steps| - 1], n) + (if last.Post? && last.accepted && last.peer < n then [last.peer] else [])
  }

  predicate Polls(step: UserStep, x: nat) {
    step == UserStep.Poll(x) || step == UserStep.SpinPoll(x)
  }

  /** Some step polled or waited for handle `x`. */
  ghost predicate PolledBy(steps: seq<UserStep>, x: nat) {
    exists i :: 0 <= i < |steps| && Polls(steps[i], x)
  }

  /** Some step did this to handle `x`, which had been posted before. */
  ghost predicate DoneBy(steps: seq<UserStep>, n: nat, step: UserStep, x: nat) {
    exists i :: 0 <= i < |steps| && steps[i] == step && x < |PostedPeers(steps[..i], n)|
  }

  lemma DoneByMore(steps: seq<UserStep>, last: UserStep, n: nat, step: UserStep, x: nat)
    ensures DoneBy(steps + [last], n, step, x) <==>
            DoneBy(steps, n, step, x) || (last == step && x < |PostedPeers(steps, n)|)
  {
    var more := steps + [last];
    assert more[..|steps|] == steps;
    assert forall i :: 0 <= i < |steps| ==> more[..i] == steps[..i];
    if DoneBy(steps, n, step, x) {
      var i :| 0 <= i < |steps| && steps[i] == step && x < |PostedPeers(steps[..i], n)|;
      assert more[i] == step;
    }
    if last == step && x < |PostedPeers(steps, n)| {
      assert more[|steps|] == step;
    }
  }

  /** What a closure has made of a handle. */
  ghost predicate HandleFits(steps: seq<UserStep>, n: nat, h: Handle, x: nat) {
    && (h.marked ==> PolledBy(steps, x))
    && (DoneBy(steps, n, UserStep.SpinPoll(x), x) ==> h.marked)
    && (h.forgotten <==> DoneBy(steps, n, UserStep.Forget(x), x))
  }

  /** Some step polled handle `x`, which had been posted before, and got an answer; a wait always
      gets one. */
  ghost predicate AnsweredBy(channels: seq<ChannelState>, steps: seq<UserStep>, x: nat) {
    exists i :: 0 <= i < |steps| && AnsweredAt(channels, steps, x, i)
  }

  ghost predicate AnsweredAt(channels: seq<ChannelState>, steps: seq<UserStep>, x: nat, i: nat)
    requires i < |steps|
  {
    var s := Playing(Scope(channels, []), steps[..i]);
    IsHandle(s, x) && (steps[i] == UserStep.SpinPoll(x) || (steps[i] == UserStep.Poll(x) && PollOf(s, x).answer.Some?))
  }

  lemma AnsweredByMore(channels: seq<ChannelState>, steps: seq<UserStep>, last: UserStep, x: nat)
    ensures
      var s := Playing(Scope(channels, []), steps);
      AnsweredBy(channels, steps + [last], x) <==>
      || AnsweredBy(channels, steps, x)
      || (IsHandle(s, x) && (last == UserStep.SpinPoll(x) || (last == UserStep.Poll(x) && PollOf(s, x).answer.Some?)))
  {
    var more := steps + [last];
    assert more[..|steps|] == steps && more[|steps|] == last;
    forall i: nat | i < |steps|
      ensures AnsweredAt(channels, more, x, i) <==> AnsweredAt(channels, steps, x, i)
    {
      assert more[..i] == steps[..i];
    }
    if AnsweredBy(channels, steps, x) {
      var i :| 0 <= i < |steps| && AnsweredAt(channels, steps, x, i);
      assert AnsweredAt(channels, more, x, i);
    }
    if AnsweredBy(channels, more, x) {
      var i :| 0 <= i < |more| && AnsweredAt(channels, more, x, i);
      assert i < |steps| ==> AnsweredAt(channels, steps, x, i);
    }
    if IsHandle(Playing(Scope(channels, []), steps), x) {
      assert AnsweredAt(channels, more, x, |steps|) <==>
        last == UserStep.SpinPoll(x) || (last == UserStep.Poll(x) && PollOf(Playing(Scope(channels, []), steps), x).answer.Some?);
    }
  }

  lemma MarkedByStep(s: Scope, step: UserStep, x: nat)
    requires Good(s) && (x < |s.handles| ==> (s.handles[x].marked <==> s.handles[x].answer.Some?))
    ensures
      var t := AfterStep(s, step);
      && |t.handles| >= |s.handles|
      && (x < |t.handles| ==>
            && (t.handles[x].marked <==> t.handles[x].answer.Some?)
            && (t.handles[x].marked <==>
                  x < |s.handles| &&
                  (|| s.handles[x].marked
                   || (IsHandle(s, x) && (step == UserStep.SpinPoll(x) || (step == UserStep.Poll(x) && PollOf(s, x).answer.Some?))))))
      && (x < |s.handles| ==> IsHandle(s, x))
  {
    if x < |s.handles| {
      assert GoodHandle(s.channels, s.handles[x]);
      SpinFits(s, x);
    }
  }

  /** A handle counts as polled if and only if a poll or a wait of the closure for it has been
      answered, with the request's own result or with the failure of a poll of the queue. */
  lemma {:induction false} MarkedIsAnswered(channels: seq<ChannelState>, steps: seq<UserStep>, x: nat)
    requires GoodChannels(channels)
    ensures
      var s := Playing(Scope(channels, []), steps);
      && (x >= |s.handles| ==> !AnsweredBy(channels, steps, x))
      && (x < |s.handles| ==>
            (s.handles[x].marked <==> s.handles[x].answer.Some?) && (s.handles[x].marked <==> AnsweredBy(channels, steps, x)))
  {
    OpenedIsGood(channels);
    if |steps| > 0 {
      var init, last := steps[..|steps| - 1], steps[|steps| - 1];
      assert init + [last] == steps;
      PlayingKeeps(Scope(channels, []), init);
      MarkedIsAnswered(channels, init, x);
      AnsweredByMore(channels, init, last, x);
      MarkedByStep(Playing(Scope(channels, []), init), last, x);
    }
  }

  lemma HandleFitsOn(steps: seq<UserStep>, last: UserStep, n: nat, h: Handle, g: Handle, x: nat)
    requires x < |PostedPeers(steps, n)| && HandleFits(steps, n, h, x)
    requires g.marked ==> h.marked || Polls(last, x)
    requires h.marked || last == UserStep.SpinPoll(x) ==> g.marked
    requires g.forgotten <==> h.forgotten || last == UserStep.Forget(x)
    ensures HandleFits(steps + [last], n, g, x)
  {
    var more := steps + [last];
    DoneByMore(steps, last, n, UserStep.SpinPoll(x), x);
    DoneByMore(steps, last, n, UserStep.Forget(x), x);
    if PolledBy(steps, x) {
      var i :| 0 <= i < |steps| && Polls(steps[i], x);
      assert Polls(more[i], x);
    }
    assert more[|steps|] == last;
  }

  lemma NewHandleFits(steps: seq<UserStep>, last: UserStep, n: nat, h: Handle)
    requires last.Post? && !h.marked && !h.forgotten
    ensures HandleFits(steps + [last], n, h, |PostedPeers(steps, n)|)
  {
    var x := |PostedPeers(steps, n)|;
    DoneByMore(steps, last, n, UserStep.SpinPoll(x), x);
    DoneByMore(steps, last, n, UserStep.Forget(x), x);
    NotYet(steps, n, UserStep.SpinPoll(x), x);
    NotYet(steps, n, UserStep.Forget(x), x);
  }

  lemma {:induction false} PeersOfPrefix(steps: seq<UserStep>, n: nat, i: nat)
    requires i <= |steps|
    ensures |PostedPeers(steps[..i], n)| <= |PostedPeers(steps, n)|
  {
    if i < |steps| {
      PeersOfPrefix(steps[..|steps| - 1], n, i);
      assert steps[..|steps| - 1][..i] == steps[..i];
    } else {
      assert steps[..i] == steps;
    }
  }

  lemma NotYet(steps: seq<UserStep>, n: nat, step: UserStep, x: nat)
    requires x >= |PostedPeers(steps, n)|
    ensures !DoneBy(steps, n, step, x)
  {
    forall i: nat | i < |steps|
      ensures |PostedPeers(steps[..i], n)| <= x
    {
      PeersOfPrefix(steps, n, i);
    }
  }

  ghost predicate HandlesFit(s: Scope, steps: seq<UserStep>) {
    && |s.handles| == |PostedPeers(steps, |s.channels|)|
    && forall x :: 0 <= x < |s.handles| ==>
         s.handles[x].peer == PostedPeers(steps, |s.channels|)[x] && HandleFits(steps, |s.channels|, s.handles[x], x)
  }

  lemma StepFits(s: Scope, steps: seq<UserStep>, last: UserStep)
    requires HandlesFit(s, steps)
    ensures |AfterStep(s, last).channels| == |s.channels| && HandlesFit(AfterStep(s, last), steps + [last])
  {
    var t := AfterStep(s, last);
    var n := |s.channels|;
    assert (steps + [last])[..|steps|] == steps;
    forall x | 0 <= x < |t.handles|
      ensures t.handles[x].peer == PostedPeers(steps + [last], n)[x] && HandleFits(steps + [last], n, t.handles[x], x)
    {
      if x < |s.handles| {
        HandleFitsOn(steps, last, n, s.handles[x], t.handles[x], x);
      } else {
        NewHandleFits(steps, last, n, t.handles[x]);
      }
    }
  }

  /** After a closure there is one handle for each accepted post, in order, of its peer; only
      handles it polled or waited for are marked, all it waited for are, and leaked are exactly
      those it leaked. */
  lemma {:induction false} PlayedHandles(channels: seq<ChannelState>, steps: seq<UserStep>)
    ensures |Playing(Scope(channels, []), steps).channels| == |channels|
    ensures HandlesFit(Playing(Scope(channels, []), steps), steps)
  {
    if |steps| > 0 {
      var init, last := steps[..|steps| - 1], steps[|steps| - 1];
      PlayedHandles(channels, init);
      assert init + [last] == steps;
      StepFits(Playing(Scope(channels, []), init), init, last);
    }
  }

  /** A closure that polls a handle while the queue cannot be polled, and leaks it. */
  lemma LosesOne(channels: seq<ChannelState>, pick: set<nat> -> WorkCompletion)
    requires channels == [ChannelState(QueueState(EMPTY, [Broken(5)], 1, pick), 0)] && IsPick(pick)
    ensures
      var steps := [Post(0, true), UserStep.Poll(0), UserStep.Forget(0)];
      LeftBehind(channels, steps) == {(0, 0)} && AllMarked(Playing(Scope(channels, []), steps))
  {
    var steps := [Post(0, true), UserStep.Poll(0), UserStep.Forget(0)];
    var s0 := Scope(channels, []);
    var s1, s2, s3 := AfterPost(s0, 0, true), AfterPoll(AfterPost(s0, 0, true), 0), Playing(s0, steps);
    assert steps[..2] == [Post(0, true), UserStep.Poll(0)] && steps[..2][..1] == [Post(0, true)] && steps[..1][..0] == [];
    assert Playing(s0, steps[..1]) == s1;
    assert Playing(s0, steps[..2]) == s2;
    assert s3 == AfterForget(s2, 0);
    assert s3.handles == [Handle(0, 0, Some(ByBrokenQueue(5)), true, true)];
    assert Closing(s3, 0) == s3;
    assert Stays(s3, 0);
  }
}
