/** A polling scope: requests posted in it are tracked and, however the user's closure ends,
    polled to completion before the scope is left. */
module PollingScopes {
  import opened Wrappers
  import opened CompletionState
  import opened QueuePolling
  import opened CompletionQueues
  import opened ScopeStates
  import opened ScopeTheorems
  import opened Batches

  /** The scope's shared handle to a request. */
  class ScopedPendingWork {
    const wr: PendingWork
    var userPolledToCompletion: bool
    /** The user leaked a copy of this handle, so that it is never dropped. */
    var forgotten: bool

    constructor (wr: PendingWork)
      ensures this.wr == wr && !userPolledToCompletion && !forgotten
    {
      this.wr := wr;
      userPolledToCompletion := false;
      forgotten := false;
    }

    ghost function View(peer: nat): Handle
      reads this, wr
    {
      Handle(peer, wr.wrId, wr.answer, userPolledToCompletion, forgotten)
    }

    method Poll() returns (r: Option<TransportResult>)
      requires wr.Valid()
      modifies `userPolledToCompletion, wr, wr.cq
      ensures wr.Valid() && wr.TookAtMostOwn()
      ensures wr.Follows(PollReply(old(wr.cq.View()), wr.wrId, old(wr.answer)), r)
      ensures userPolledToCompletion == (old(userPolledToCompletion) || r.Some?)
      ensures old(wr.status).Some? ==> unchanged(wr)
      ensures r.Some? && wr.answer.value.ByBrokenQueue? <==> old(wr.QueueBreaks())
    {
      r := wr.Poll();
      if r.Some? {
        userPolledToCompletion := true;
      }
    }

    method SpinPoll() returns (r: TransportResult)
      requires wr.Valid()
      modifies `userPolledToCompletion, wr, wr.cq
      ensures wr.Valid() && wr.TookAtMostOwn() && userPolledToCompletion
      ensures wr.Follows(SpinReply(old(wr.cq.View()), wr.wrId, old(wr.answer)), Some(r))
      ensures old(wr.status).Some? ==> unchanged(wr)
      ensures wr.answer.value.ByBrokenQueue? <==> old(wr.WaitBreaks())
      ensures old(wr.cq.Healthy()) ==> wr.status.Some?
    {
      r := wr.SpinPoll();
      userPolledToCompletion := true;
    }
  }

  datatype PostResult = Posted(work: ScopedPendingWork) | NotPosted(error: PostError)

  /** Posts a request and wraps its handle. */
  method PostShared(channel: Channel, accepted: bool, ghost peer: nat) returns (r: Option<ScopedPendingWork>)
    requires channel.Valid()
    modifies channel`nextWrId, channel.cq`state, channel.cq`inFlight
    ensures channel.Valid() && (r.Some? <==> accepted)
    ensures channel.nextWrId == old(channel.nextWrId) + 1
    ensures r.None? ==> channel.cq.View() == old(channel.cq.View())
    ensures r.Some? ==>
              && fresh(r.value) && fresh(r.value.wr) && r.value.wr.cq == channel.cq && r.value.wr.Represented()
              && r.value.View(peer) == Handle(peer, old(channel.nextWrId), None, false, false)
              && channel.cq.View() == old(channel.cq.View()).(cq := Posting(old(channel.cq.state), old(channel.nextWrId)))
  {
    var pending := channel.PostUnpolled(accepted);
    if pending.None? {
      return None;
    }
    var work := new ScopedPendingWork(pending.value);
    r := Some(work);
  }

  ghost predicate ChannelsDistinct(channels: seq<Channel>) {
    forall a, b :: 0 <= a < b < |channels| ==> channels[a] != channels[b] && channels[a].cq != channels[b].cq
  }

  ghost predicate HandlesDistinct(wrs: seq<ScopedPendingWork>) {
    forall x, y :: 0 <= x < y < |wrs| ==> wrs[x] != wrs[y] && wrs[x].wr != wrs[y].wr
  }

  lemma MoreDistinct(wrs: seq<ScopedPendingWork>, work: ScopedPendingWork)
    requires HandlesDistinct(wrs) && forall x :: 0 <= x < |wrs| ==> wrs[x] != work && wrs[x].wr != work.wr
    ensures HandlesDistinct(wrs + [work])
  {
  }

  ghost function Queues(channels: seq<Channel>): set<CachedCompletionQueue> {
    set a | 0 <= a < |channels| :: channels[a].cq
  }

  ghost function Objects(channels: seq<Channel>): set<object> {
    (set a | 0 <= a < |channels| :: channels[a]) + Queues(channels)
  }

  ghost predicate ChannelsValid(channels: seq<Channel>)
    reads Objects(channels)
  {
    ChannelsDistinct(channels) && forall a :: 0 <= a < |channels| ==> channels[a].Valid()
  }

  ghost function ChannelsView(channels: seq<Channel>): (r: seq<ChannelState>)
    reads Objects(channels)
    ensures |r| == |channels|
    ensures ChannelsValid(channels) ==> GoodChannels(r)
  {
    seq(|channels|, a requires 0 <= a < |channels| reads Objects(channels) => channels[a].View())
  }

  class PollingScope {
    const channels: seq<Channel>
    var wrs: seq<ScopedPendingWork>
    /** To which peers the requests went. */
    ghost var peers: seq<nat>
    ghost var repr: set<object>

    ghost predicate Footprint()
      reads this
    {
      && this in repr && |peers| == |wrs|
      && (forall a :: 0 <= a < |channels| ==> channels[a] in repr && channels[a].cq in repr)
      && (forall x :: 0 <= x < |wrs| ==> wrs[x] in repr && wrs[x].wr in repr)
      && (forall x :: 0 <= x < |wrs| ==> peers[x] < |channels| && wrs[x].wr.cq == channels[peers[x]].cq)
      && ChannelsDistinct(channels) && HandlesDistinct(wrs)
    }

    /** The scope as a value. */
    ghost function View(): (s: Scope)
      reads this, repr
      requires Footprint()
      ensures |s.channels| == |channels| && |s.handles| == |wrs|
    {
      Scope(seq(|channels|, a requires 0 <= a < |channels| && Footprint() reads this, repr => channels[a].View()),
            seq(|wrs|, x requires 0 <= x < |wrs| && Footprint() reads this, repr => wrs[x].View(peers[x])))
    }

    ghost predicate Represented()
      reads this, repr
      requires Footprint()
    {
      && (forall a :: 0 <= a < |channels| ==> channels[a].cq.Represented())
      && (forall x :: 0 <= x < |wrs| ==> wrs[x].wr.Represented())
    }

    ghost predicate Valid()
      reads this, repr
    {
      Footprint() && Represented() && Good(View())
    }

    lemma ChannelIsValid(a: nat)
      requires Valid() && a < |channels|
      ensures channels[a].Valid()
    {
      assert GoodChannel(View().channels[a]);
    }

    lemma HandleIsValid(x: nat)
      requires Valid() && x < |wrs|
      ensures wrs[x].wr.Valid() && IsHandle(View(), x)
      ensures QueueOf(View(), x) == wrs[x].wr.cq.View() && View().handles[x] == wrs[x].View(peers[x])
    {
      assert GoodHandle(View().channels, View().handles[x]);
      ChannelIsValid(peers[x]);
    }

    constructor (channels: seq<Channel>)
      requires ChannelsValid(channels)
      ensures Valid() && this.channels == channels && View() == Scope(ChannelsView(channels), [])
      ensures fresh(this) && repr == {this} + Objects(channels)
    {
      this.channels := channels;
      wrs, peers := [], [];
      repr := {this} + Objects(channels);
      new;
      assert View().channels == ChannelsView(channels);
    }

    /** Nothing of the scope has changed but handle `x` and its queue. */
    twostate predicate OnlyHandle(x: nat)
      reads this, repr
    {
      && wrs == old(wrs) && peers == old(peers) && repr == old(repr) && x < |wrs|
      && forall o :: o in repr && o != wrs[x] && o != wrs[x].wr && o != wrs[x].wr.cq ==> unchanged(o)
    }

    /** Handle `x` has followed the reply of its queue. */
    twostate predicate HandleHeard(x: nat, new r: Reply, new marks: bool)
      requires old(Footprint()) && Footprint() && x < |wrs| && IsHandle(old(View()), x)
      reads this, repr
    {
      && wrs[x].wr.cq.View() == r.queue
      && wrs[x].View(peers[x]) == Heard(old(View()), x, r, marks).handles[x]
    }

    /** Nobody but the handle and its queue is concerned. */
    twostate lemma HeardIs(x: nat, new r: Reply, new marks: bool)
      requires old(Valid()) && Footprint() && OnlyHandle(x)
      requires wrs[x].wr.cq.Represented()
      requires wrs[x].wr.Represented()
      requires IsHandle(old(View()), x) && HandleHeard(x, r, marks)
      ensures Represented() && View() == Heard(old(View()), x, r, marks)
    {
      assert View().channels == Heard(old(View()), x, r, marks).channels;
      assert View().handles == Heard(old(View()), x, r, marks).handles;
    }

    /** The user polls a handle. */
    method Poll(x: nat) returns (r: Option<TransportResult>)
      requires Valid() && x < |wrs|
      modifies wrs[x], wrs[x].wr, wrs[x].wr.cq
      ensures Valid() && View() == AfterPoll(old(View()), x)
      ensures r == if PollOf(old(View()), x).answer.Some? then Some(Told(PollOf(old(View()), x).answer.value)) else None
    {
      HandleIsValid(x);
      PollFits(View(), x);
      ghost var reply := PollOf(View(), x);
      HeardKeeps(View(), x, reply, reply.answer.Some?);
      r := wrs[x].Poll();
      HeardIs(x, reply, reply.answer.Some?);
    }

    /** The user waits for a handle. */
    method SpinPoll(x: nat) returns (r: TransportResult)
      requires Valid() && x < |wrs|
      modifies wrs[x], wrs[x].wr, wrs[x].wr.cq
      ensures Valid() && View() == AfterSpin(old(View()), x)
      ensures SpinOf(old(View()), x).answer.Some? && r == Told(SpinOf(old(View()), x).answer.value)
    {
      HandleIsValid(x);
      SpinFits(View(), x);
      ghost var reply := SpinOf(View(), x);
      HeardKeeps(View(), x, reply, true);
      r := wrs[x].SpinPoll();
      HeardIs(x, reply, true);
    }

    /** The scope waits for a request on its own account, without marking it. */
    method AwaitUnmarked(x: nat) returns (r: TransportResult)
      requires Valid() && x < |wrs|
      modifies wrs[x].wr, wrs[x].wr.cq
      ensures Valid() && View() == AfterWait(old(View()), x)
      ensures SpinOf(old(View()), x).answer.Some? && r == Told(SpinOf(old(View()), x).answer.value)
    {
      HandleIsValid(x);
      SpinFits(View(), x);
      ghost var reply := SpinOf(View(), x);
      HeardKeeps(View(), x, reply, false);
      r := wrs[x].wr.SpinPoll();
      HeardIs(x, reply, false);
    }

    /** The user leaks a copy of a handle. */
    method Forget(x: nat)
      requires Valid() && x < |wrs|
      modifies wrs[x]
      ensures Valid() && View() == AfterForget(old(View()), x)
    {
      HandleIsValid(x);
      ForgetKeeps(View(), x);
      wrs[x].forgotten := true;
      assert View().channels == old(View()).channels;
      assert View().handles == AfterForget(old(View()), x).handles;
    }

    lemma GivesBack(channels: seq<Channel>)
      requires Valid() && this.channels == channels
      ensures ChannelsValid(channels) && ChannelsView(channels) == View().channels
    {
      forall a: nat | a < |channels|
        ensures channels[a].Valid()
      {
        ChannelIsValid(a);
      }
    }

    /** Posts a request on the channel of a peer, not yet tracking it. */
    method PostOnChannel(peer: nat, accepted: bool) returns (r: Option<ScopedPendingWork>)
      requires Valid() && peer < |channels|
      modifies channels[peer], channels[peer].cq
      ensures Footprint() && Represented() && View().handles == old(View()).handles
      ensures View().channels == AfterPost(old(View()), peer, accepted).channels
      ensures r.Some? <==> accepted
      ensures r.Some? ==>
                && fresh(r.value) && fresh(r.value.wr) && r.value.wr.cq == channels[peer].cq && r.value.wr.Represented()
                && r.value.View(peer) == Handle(peer, old(channels[peer].nextWrId), None, false, false)
    {
      ChannelIsValid(peer);
      r := PostShared(channels[peer], accepted, peer);
    }

    lemma Tracking(before: Scope, work: ScopedPendingWork, peer: nat)
      requires Footprint() && |wrs| > 0 && wrs[|wrs| - 1] == work && peers[|wrs| - 1] == peer
      requires |before.channels| == |channels| && forall a :: 0 <= a < |channels| ==> channels[a].View() == before.channels[a]
      requires |before.handles| == |wrs| - 1 && forall x :: 0 <= x < |wrs| - 1 ==> wrs[x].View(peers[x]) == before.handles[x]
      ensures View() == Scope(before.channels, before.handles + [work.View(peer)])
    {
    }

    /** Posts a request on the channel of a peer and tracks it. */
    method ChannelPost(peer: nat, accepted: bool) returns (r: PostResult)
      requires Valid()
      modifies repr
      ensures Valid() && fresh(repr - old(repr)) && View() == AfterPost(old(View()), peer, accepted)
      ensures r.Posted? <==> peer < |channels| && accepted
      ensures r.Posted? ==> fresh(r.work) && wrs == old(wrs) + [r.work]
      ensures r.NotPosted? ==> wrs == old(wrs) && r.error == (if peer < |channels| then Refused else NotFound(peer))
    {
      if peer >= |channels| {
        return NotPosted(NotFound(peer));
      }
      PostKeeps(View(), peer, accepted);
      var pending := PostOnChannel(peer, accepted);
      if pending.None? {
        return NotPosted(Refused);
      }
      r := PostResult.Posted(pending.value);
      Track(peer, pending.value);
    }

    /** Adds a new handle. */
    method Track(peer: nat, work: ScopedPendingWork)
      requires Footprint() && Represented() && peer < |channels| && work.wr.cq == channels[peer].cq
      requires work !in repr && work.wr !in repr && work.wr.Represented()
      modifies this
      ensures wrs == old(wrs) + [work] && repr == old(repr) + {work, work.wr}
      ensures Footprint() && Represented() && View().channels == old(View()).channels
      ensures View().handles == old(View()).handles + [work.View(peer)]
    {
      MoreDistinct(wrs, work);
      wrs, peers, repr := wrs + [work], peers + [peer], repr + {work, work.wr};
      Tracking(old(View()), work, peer);
    }

    /** What leaving the scope does with one request: waits for it unless the user has, and
        drops the handle, which waits once more unless a copy was leaked. */
    method Settle(x: nat) returns (report: Report)
      requires Valid() && x < |wrs|
      modifies wrs[x].wr, wrs[x].wr.cq
      ensures Valid() && View() == AfterSettle(old(View()), x) && report == ReportOf(old(View()), x)
    {
      HandleIsValid(x);
      report := UserPolled;
      if !wrs[x].userPolledToCompletion {
        var result := AwaitUnmarked(x);
        report := AutoPolled(result);
      }
      if !wrs[x].forgotten {
        var _ := AwaitUnmarked(x);
      }
    }

    ghost function Works(): set<PendingWork>
      reads this
    {
      set x | 0 <= x < |wrs| :: wrs[x].wr
    }

    /** Deals with the next handle. */
    method SettleNext(ghost before: Scope, x: nat) returns (report: Report)
      requires Valid() && View() == Closing(before, x) && x < |wrs|
      modifies wrs[x].wr, wrs[x].wr.cq
      ensures Valid() && View() == Closing(before, x + 1) && report == ReportOf(Closing(before, x), x)
    {
      report := Settle(x);
    }

    /** Waits for every request the user did not wait for, collecting their errors. */
    method AutoPoll() returns (autoPolled: bool, errors: seq<TransportError>)
      requires Valid()
      modifies Works(), Queues(channels)
      ensures Valid() && View() == Closed(old(View()))
      ensures errors == AutoErrors(old(View())) && (autoPolled <==> !AllMarked(old(View())))
    {
      autoPolled, errors := false, [];
      ghost var before := View();
      for x := 0 to |wrs|
        invariant Valid() && View() == Closing(before, x)
        invariant Collected(before, x, autoPolled, errors)
      {
        ReportAdds(before, x, autoPolled, errors);
        var report := SettleNext(before, x);
        if report.AutoPolled? {
          autoPolled := true;
          if report.result.Err? {
            errors := errors + [report.result.error];
          }
        }
      }
      AllCollected(before, autoPolled, errors);
    }

    /** Leaves an automatic scope. */
    method Close<T, E>(end: ClosureEnd<T, E>) returns (outcome: ScopeOutcome<T, E>)
      requires Valid()
      modifies Works(), Queues(channels)
      ensures Valid() && View() == Closed(old(View())) && outcome == AutoOutcome(end, AutoErrors(old(View())))
    {
      var _, errors := AutoPoll();
      outcome :=
        match end
        case Panics(payload) => Resumed(payload)
        case Fails(error) => ClosureError(error)
        case Returns(output) => if errors == [] then Done(output) else AutoPollError(errors);
    }

    /** Leaves a manual scope: it is a mistake to return without having waited for everything. */
    method CloseManual<T, E>(end: ClosureEnd<T, E>) returns (outcome: ScopeOutcome<T, E>)
      requires Valid()
      modifies Works(), Queues(channels)
      ensures Valid() && View() == Closed(old(View())) && outcome == ManualOutcome(end, AllMarked(old(View())))
    {
      var autoPolled, _ := AutoPoll();
      outcome :=
        match end
        case Panics(payload) => Resumed(payload)
        case Fails(error) => ClosureError(error)
        case Returns(output) => if autoPolled then UnpolledPanic else Done(output);
    }

    /** One step of the user's closure; a handle it was not given it cannot use. */
    method Act(step: UserStep)
      requires Valid()
      modifies repr
      ensures Valid() && fresh(repr - old(repr)) && View() == AfterStep(old(View()), step)
    {
      match step
      case Post(peer, accepted) => var _ := ChannelPost(peer, accepted);
      case Poll(x) => if x < |wrs| { HandleIsValid(x); var _ := Poll(x); }
      case SpinPoll(x) => if x < |wrs| { HandleIsValid(x); var _ := SpinPoll(x); }
      case Forget(x) => if x < |wrs| { Forget(x); }
    }

    /** Carries out the user's closure. */
    method Play(steps: seq<UserStep>)
      requires Valid()
      modifies repr
      ensures Valid() && fresh(repr - old(repr)) && View() == Playing(old(View()), steps)
    {
      for i := 0 to |steps|
        invariant Valid() && fresh(repr - old(repr)) && View() == Playing(old(View()), steps[..i])
      {
        assert steps[..i + 1][..i] == steps[..i];
        Act(steps[i]);
      }
      assert steps[..|steps|] == steps;
    }

    /** Posts the next request of a batch. */
    method PostNext(ghost before: Scope, requests: seq<Request>, k: nat) returns (failure: Option<PostError>)
      requires Valid() && k < |requests| && View() == Playing(before, Posts(requests[..k]))
      modifies repr
      ensures Valid() && fresh(repr - old(repr)) && View() == Playing(before, Posts(requests[..k + 1]))
      ensures failure == if Accepted(requests[k], |channels|) then None else Some(Reason(requests[k], |channels|))
    {
      assert Posts(requests[..k + 1])[..k] == Posts(requests[..k]);
      var r := ChannelPost(requests[k].peer, requests[k].accepted);
      failure := if r.NotPosted? then Some(r.error) else None;
    }

    /** Posts a batch, stopping at the first request that cannot be posted; the requests
        posted before it stay tracked. */
    method PostAll(requests: seq<Request>) returns (failure: Option<PostError>)
      requires Valid()
      modifies repr
      ensures Valid() && fresh(repr - old(repr))
      ensures View() == Playing(old(View()), Posts(Tried(requests, |channels|)))
      ensures var m := AcceptedFirst(requests, |channels|);
              failure == if m < |requests| then Some(Reason(requests[m], |channels|)) else None
    {
      ghost var before := View();
      for k := 0 to |requests|
        invariant Valid() && fresh(repr - old(repr)) && View() == Playing(before, Posts(requests[..k]))
        invariant k <= AcceptedFirst(requests, |channels|)
      {
        TriedUpTo(requests, |channels|, k);
        failure := PostNext(before, requests, k);
        if failure.Some? {
          return;
        }
      }
      assert requests[..|requests|] == requests;
      failure := None;
    }

    /** Waits for the next request of a batch. */
    method SpinNext(ghost before: Scope, x: nat) returns (r: TransportResult)
      requires Valid() && View() == Playing(before, Spins(x)) && x < |wrs|
      modifies wrs[x], wrs[x].wr, wrs[x].wr.cq
      ensures Valid() && View() == Playing(before, Spins(x + 1))
      ensures SpinAnswer(before, x).Some? && r == Told(SpinAnswer(before, x).value)
    {
      HandleIsValid(x);
      assert Spins(x + 1)[..x] == Spins(x);
      r := SpinPoll(x);
    }

    /** Waits for all requests in order, stopping at the first error. */
    method SpinAll() returns (error: Option<TransportError>, results: seq<nat>)
      requires Valid()
      modifies (set w | w in wrs), Works(), Queues(channels)
      ensures Valid()
      ensures ResultsOf(old(View()), |wrs|, error, results)
      ensures View() == Playing(old(View()), Spins(if error.Some? then |results| + 1 else |results|))
    {
      error, results := None, [];
      ghost var before := View();
      for x := 0 to |wrs|
        invariant Valid() && View() == Playing(before, Spins(x)) && |results| == x
        invariant ResultsOf(before, x, None, results)
      {
        var r := SpinNext(before, x);
        if r.Err? {
          FirstFailure(before, x, |wrs|, results);
          return Some(r.error), results;
        }
        OneMoreResult(before, x, results);
        results := results + [r.value];
      }
    }

    /** The second half of a batch, when all requests have been posted. */
    method SpinBatch(requests: seq<Request>, ghost before: seq<ChannelState>)
      returns (end: ClosureEnd<seq<nat>, BatchError>)
      requires GoodChannels(before) && AcceptedFirst(requests, |before|) == |requests|
      requires Valid() && View() == Batched(before, requests) && |wrs| == |requests|
      modifies (set w | w in wrs), Works(), Queues(channels)
      ensures Valid() && end == BatchEnd(before, requests)
      ensures View() == Playing(Scope(before, []), BatchSteps(before, requests))
    {
      var error, results := SpinAll();
      PlayedBatch(before, requests);
      ResultsAreFirst(before, requests, error, results);
      end := if error.Some? then Fails(WorkFailed(error.value)) else Returns(results);
    }

    /** The closure of a batch operation. */
    method BatchBody(requests: seq<Request>, ghost before: seq<ChannelState>)
      returns (end: ClosureEnd<seq<nat>, BatchError>)
      requires Valid() && View() == Scope(before, []) && GoodChannels(before)
      modifies repr
      ensures Valid() && fresh(repr - old(repr)) && end == BatchEnd(before, requests)
      ensures View() == Playing(Scope(before, []), BatchSteps(before, requests))
    {
      BatchedHandles(before, requests);
      var failure := PostAll(requests);
      if failure.Some? {
        return Fails(PostFailed(failure.value));
      }
      end := SpinBatch(requests, before);
    }

    /** An automatic scope from its opening on. */
    method Conduct<T, E>(steps: seq<UserStep>, end: ClosureEnd<T, E>, ghost before: seq<ChannelState>)
      returns (outcome: ScopeOutcome<T, E>)
      requires Valid() && View() == Scope(before, []) && GoodChannels(before)
      modifies repr
      ensures Valid() && ScopeLeft(before, steps, View().channels)
      ensures outcome == AutoOutcome(end, AutoErrors(Playing(Scope(before, []), steps)))
    {
      Play(steps);
      outcome := Close(end);
      ScopeIsLeft(before, steps);
    }

    /** A manual scope from its opening on. */
    method ConductManual<T, E>(steps: seq<UserStep>, end: ClosureEnd<T, E>, ghost before: seq<ChannelState>)
      returns (outcome: ScopeOutcome<T, E>)
      requires Valid() && View() == Scope(before, []) && GoodChannels(before)
      modifies repr
      ensures Valid() && ScopeLeft(before, steps, View().channels)
      ensures outcome == ManualOutcome(end, AllMarked(Playing(Scope(before, []), steps)))
    {
      Play(steps);
      outcome := CloseManual(end);
      ScopeIsLeft(before, steps);
    }

    /** A batch operation from the opening of its scope on. */
    method ConductBatch(requests: seq<Request>, ghost before: seq<ChannelState>)
      returns (outcome: ScopeOutcome<seq<nat>, BatchError>)
      requires Valid() && View() == Scope(before, []) && GoodChannels(before)
      modifies repr
      ensures Valid() && ScopeLeft(before, BatchSteps(before, requests), View().channels)
      ensures outcome == ManualOutcome(BatchEnd(before, requests), true)
    {
      var end := BatchBody(requests, before);
      if end.Returns? {
        BatchWaitsForAll(before, requests);
      }
      outcome := CloseManual(end);
      ScopeIsLeft(before, BatchSteps(before, requests));
    }
  }

  /** Runs a closure in an automatic scope.  What it leaves outstanding, however the closure
      ends, is decided by the state of the queues before. */
  method Run<T, E>(channels: seq<Channel>, steps: seq<UserStep>, end: ClosureEnd<T, E>)
    returns (outcome: ScopeOutcome<T, E>)
    requires ChannelsValid(channels)
    modifies Objects(channels)
    ensures ChannelsValid(channels) && ScopeLeft(old(ChannelsView(channels)), steps, ChannelsView(channels))
    ensures end.Panics? ==> outcome == Resumed(end.payload)
    ensures end.Fails? ==> outcome == ClosureError(end.error)
    ensures
      var s := Playing(Scope(old(ChannelsView(channels)), []), steps);
      end.Returns? ==>
        && (outcome.Done? <==> forall x: nat :: x < |s.handles| && !s.handles[x].marked ==> exists bytes :: AutoSucceeds(s, x, bytes))
        && (outcome.Done? ==> outcome.output == end.output)
        && (!outcome.Done? ==> outcome.AutoPollError? && ListsFailures(s, outcome.errors))
  {
    ghost var before := ChannelsView(channels);
    ScopeIsTrue(before, steps);
    var scope := new PollingScope(channels);
    outcome := scope.Conduct(steps, end, before);
    scope.GivesBack(channels);
  }

  /** Runs a closure in a manual scope: returning with a request not waited for is a panic,
      raised only after everything has been waited for. */
  method RunManual<T, E>(channels: seq<Channel>, steps: seq<UserStep>, end: ClosureEnd<T, E>)
    returns (outcome: ScopeOutcome<T, E>)
    requires ChannelsValid(channels)
    modifies Objects(channels)
    ensures ChannelsValid(channels) && ScopeLeft(old(ChannelsView(channels)), steps, ChannelsView(channels))
    ensures end.Panics? ==> outcome == Resumed(end.payload)
    ensures end.Fails? ==> outcome == ClosureError(end.error)
    ensures
      var s := Playing(Scope(old(ChannelsView(channels)), []), steps);
      end.Returns? ==>
        outcome == if exists x :: 0 <= x < |s.handles| && !s.handles[x].marked then UnpolledPanic else Done(end.output)
  {
    ghost var before := ChannelsView(channels);
    var scope := new PollingScope(channels);
    outcome := scope.ConductManual(steps, end, before);
    scope.GivesBack(channels);
  }

  /** The batch operations of a multi-channel: posts all requests, stopping at the first that
      cannot be posted, then waits for them in order, stopping at the first that failed. */
  method Batch(channels: seq<Channel>, requests: seq<Request>)
    returns (outcome: ScopeOutcome<seq<nat>, BatchError>)
    requires ChannelsValid(channels)
    modifies Objects(channels)
    ensures ChannelsValid(channels) && GoodChannels(old(ChannelsView(channels)))
    ensures ScopeLeft(old(ChannelsView(channels)), BatchSteps(old(ChannelsView(channels)), requests), ChannelsView(channels))
    ensures outcome.Done? || outcome.ClosureError?
    ensures OutcomeIsTrue(old(ChannelsView(channels)), requests, outcome)
  {
    ghost var before := ChannelsView(channels);
    BatchIsTrue(before, requests);
    var scope := new PollingScope(channels);
    outcome := scope.ConductBatch(requests, before);
    scope.GivesBack(channels);
  }
  /** A failing poll of a queue answers for a request that is still outstanding, which then
      passes for polled.  If no drop polls it again it is left behind, though the scope
      reports success. */
  method FailedPollEscapes(pick: set<nat> -> WorkCompletion) returns (outcome: ScopeOutcome<(), ()>, channel: Channel)
    requires IsPick(pick)
    ensures outcome == Done(())
    ensures exists id :: id in channel.cq.state.posted && Waiting(channel.cq.state, id)
  {
    channel := new Channel(1, [Broken(5)], pick);
    outcome := LoseOne(channel, pick);
  }

  method LoseOne(channel: Channel, ghost pick: set<nat> -> WorkCompletion) returns (outcome: ScopeOutcome<(), ()>)
    requires IsPick(pick) && channel.Valid() && channel.View() == ChannelState(QueueState(EMPTY, [Broken(5)], 1, pick), 0)
    modifies channel, channel.cq
    ensures outcome == Done(())
    ensures 0 in channel.cq.state.posted && Waiting(channel.cq.state, 0)
  {
    ghost var before := ChannelsView([channel]);
    var steps := [Post(0, true), UserStep.Poll(0), UserStep.Forget(0)];
    LosesOne(before, pick);
    outcome := Run([channel], steps, Returns(()));
    assert (0, 0) in LeftBehind(before, steps);
    assert ChannelsView([channel])[0].queue.cq == channel.cq.state;
  }
}
