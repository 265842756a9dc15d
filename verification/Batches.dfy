/** The batch operations of a multi-channel as the closures of polling scopes: post all
    requests, then wait for them in order, giving up at the first that fails. */
module Batches {
  import opened Wrappers
  import opened CompletionState
  import opened QueuePolling
  import opened ScopeStates
  import opened ScopeTheorems

  datatype PostError = NotFound(peer: nat) | Refused

  /** One request of a batch; `accepted` is the queue pair's answer to it. */
  datatype Request = Request(peer: nat, accepted: bool)

  datatype BatchError = PostFailed(reason: PostError) | WorkFailed(transport: TransportError)

  predicate Accepted(r: Request, n: nat) {
    r.peer < n && r.accepted
  }

  /** Why a request that is not accepted cannot be posted. */
  function Reason(r: Request, n: nat): PostError {
    if r.peer < n then Refused else NotFound(r.peer)
  }

  /** How many requests are accepted before the first that is not. */
  function AcceptedFirst(requests: seq<Request>, n: nat): (m: nat)
    ensures m <= |requests| && (m < |requests| ==> !Accepted(requests[m], n))
    ensures forall i :: 0 <= i < m ==> Accepted(requests[i], n)
  {
    if |requests| == 0 || !Accepted(requests[0], n) then 0 else 1 + AcceptedFirst(requests[1..], n)
  }

  function Posts(requests: seq<Request>): seq<UserStep> {
    seq(|requests|, i requires 0 <= i < |requests| => Post(requests[i].peer, requests[i].accepted))
  }

  function Spins(k: nat): seq<UserStep> {
    seq(k, x requires 0 <= x < k => UserStep.SpinPoll(x))
  }

  /** All that are tried: those accepted, and the one that is not. */
  function Tried(requests: seq<Request>, n: nat): seq<Request> {
    var m := AcceptedFirst(requests, n);
    if m < |requests| then requests[..m + 1] else requests
  }

  lemma TriedUpTo(requests: seq<Request>, n: nat, k: nat)
    requires k <= AcceptedFirst(requests, n) && k < |requests|
    ensures !Accepted(requests[k], n) ==> AcceptedFirst(requests, n) == k && Tried(requests, n) == requests[..k + 1]
    ensures Accepted(requests[k], n) ==> k + 1 <= AcceptedFirst(requests, n)
  {
  }

  /** The scope after the posts. */
  ghost function Batched(channels: seq<ChannelState>, requests: seq<Request>): Scope {
    Playing(Scope(channels, []), Posts(Tried(requests, |channels|)))
  }

  /** What the wait for handle `x` is told, after those for the handles before it. */
  ghost function SpinAnswer(s: Scope, x: nat): Option<Answer> {
    var t := Playing(s, Spins(x));
    if IsHandle(t, x) then SpinOf(t, x).answer else None
  }

  predicate IsSuccess(answer: Option<Answer>) {
    IsFinal(answer) && answer.value.result.Success?
  }

  /** How many of `m` waits succeed before the first that fails. */
  ghost function SucceededFirst(s: Scope, m: nat): (k: nat)
    ensures k <= m && (k < m ==> !IsSuccess(SpinAnswer(s, k)))
    ensures forall i :: 0 <= i < k ==> IsSuccess(SpinAnswer(s, i))
  {
    if m == 0 then 0
    else
      var k := SucceededFirst(s, m - 1);
      if k == m - 1 && IsSuccess(SpinAnswer(s, k)) then m else k
  }

  /** The waits for the first `m` handles, one after the other up to the first that does not
      succeed, have given these results and this error. */
  ghost predicate ResultsOf(s: Scope, m: nat, error: Option<TransportError>, results: seq<nat>) {
    var k := SucceededFirst(s, m);
    && |results| == k && (error.None? <==> k == m)
    && (forall i :: 0 <= i < k ==> results[i] == SpinAnswer(s, i).value.result.bytes)
    && (error.Some? ==> SpinAnswer(s, k).Some? && error.value == FailureOf(SpinAnswer(s, k)))
  }

  lemma OneMoreResult(s: Scope, x: nat, results: seq<nat>)
    requires ResultsOf(s, x, None, results) && IsSuccess(SpinAnswer(s, x))
    ensures ResultsOf(s, x + 1, None, results + [SpinAnswer(s, x).value.result.bytes])
  {
    assert SucceededFirst(s, x) == x && SucceededFirst(s, x + 1) == x + 1;
  }

  lemma {:induction false} FirstFailure(s: Scope, x: nat, m: nat, results: seq<nat>)
    requires ResultsOf(s, x, None, results) && x < m && SpinAnswer(s, x).Some? && !IsSuccess(SpinAnswer(s, x))
    ensures ResultsOf(s, m, Some(FailureOf(SpinAnswer(s, x))), results)
  {
    if x < m - 1 {
      FirstFailure(s, x, m - 1, results);
    }
  }

  /** What the closure of the batch does. */
  ghost function BatchSteps(channels: seq<ChannelState>, requests: seq<Request>): seq<UserStep> {
    var posts := Posts(Tried(requests, |channels|));
    var m := AcceptedFirst(requests, |channels|);
    if m < |requests| then posts
    else
      var k := SucceededFirst(Batched(channels, requests), m);
      posts + Spins(if k < m then k + 1 else k)
  }

  /** The results of the first `m` waits. */
  ghost function Gained(s: Scope, m: nat): (r: seq<nat>)
    requires SucceededFirst(s, m) == m
    ensures |r| == m && forall i :: 0 <= i < m ==> r[i] == SpinAnswer(s, i).value.result.bytes
  {
    seq(m, i requires 0 <= i < m => SpinAnswer(s, i).value.result.bytes)
  }

  /** The error of a wait that did not succeed. */
  function FailureOf(answer: Option<Answer>): TransportError
    requires answer.Some? && !IsSuccess(answer)
  {
    Told(answer.value).error
  }

  /** How it ends. */
  ghost function BatchEnd(channels: seq<ChannelState>, requests: seq<Request>): ClosureEnd<seq<nat>, BatchError>
    requires GoodChannels(channels)
  {
    var m, s := AcceptedFirst(requests, |channels|), Batched(channels, requests);
    if m < |requests| then Fails(PostFailed(Reason(requests[m], |channels|)))
    else
      var k := SucceededFirst(s, m);
      if k == m then Returns(Gained(s, m))
      else
        BatchedHandles(channels, requests);
        SpinAnswered(s, k);
        Fails(WorkFailed(FailureOf(SpinAnswer(s, k))))
  }

  lemma {:induction false} PlayingOn(s: Scope, first: seq<UserStep>, then_: seq<UserStep>)
    ensures Playing(s, first + then_) == Playing(Playing(s, first), then_)
  {
    var steps := first + then_;
    if |then_| == 0 {
      assert steps == first;
    } else {
      PlayingOn(s, first, then_[..|then_| - 1]);
      assert steps[..|steps| - 1] == first + then_[..|then_| - 1];
    }
  }

  lemma {:induction false} PeersOfPosts(requests: seq<Request>, n: nat, k: nat)
    requires k <= AcceptedFirst(requests, n)
    ensures |PostedPeers(Posts(requests[..k]), n)| == k
    ensures forall i :: 0 <= i < k ==> PostedPeers(Posts(requests[..k]), n)[i] == requests[i].peer
  {
    if k > 0 {
      PeersOfPosts(requests, n, k - 1);
      assert Posts(requests[..k])[..k - 1] == Posts(requests[..k - 1]);
      assert Accepted(requests[k - 1], n);
    }
  }

  lemma PeersOfTried(requests: seq<Request>, n: nat)
    ensures PostedPeers(Posts(Tried(requests, n)), n) == PostedPeers(Posts(requests[..AcceptedFirst(requests, n)]), n)
  {
    var m := AcceptedFirst(requests, n);
    if m < |requests| {
      assert Posts(requests[..m + 1])[..m] == Posts(requests[..m]);
    } else {
      assert requests[..m] == requests;
    }
  }

  /** One handle for each request accepted before the first that is not. */
  lemma BatchedHandles(channels: seq<ChannelState>, requests: seq<Request>)
    requires GoodChannels(channels)
    ensures
      var s, m := Batched(channels, requests), AcceptedFirst(requests, |channels|);
      Good(s) && |s.handles| == m && forall i :: 0 <= i < m ==> s.handles[i].peer == requests[i].peer
  {
    var posts := Posts(Tried(requests, |channels|));
    OpenedIsGood(channels);
    PlayingKeeps(Scope(channels, []), posts);
    PlayedHandles(channels, posts);
    PeersOfTried(requests, |channels|);
    PeersOfPosts(requests, |channels|, AcceptedFirst(requests, |channels|));
  }

  lemma {:induction false} SpinsKeep(s: Scope, k: nat)
    requires Good(s)
    ensures Good(Playing(s, Spins(k))) && |Playing(s, Spins(k)).handles| == |s.handles|
  {
    if k > 0 {
      SpinsKeep(s, k - 1);
      assert Spins(k)[..k - 1] == Spins(k - 1);
      StepKeeps(Playing(s, Spins(k - 1)), UserStep.SpinPoll(k - 1));
    }
  }

  lemma SpinAnswered(s: Scope, x: nat)
    requires Good(s) && x < |s.handles|
    ensures SpinAnswer(s, x).Some?
  {
    var t := Playing(s, Spins(x));
    SpinsKeep(s, x);
    assert GoodHandle(t.channels, t.handles[x]);
    SpinFits(t, x);
  }

  /** A handle keeps what its wait was told, and its peer and request. */
  lemma {:induction false} SpinStays(s: Scope, x: nat, k: nat)
    requires Good(s) && x < |s.handles| && x < k
    ensures
      var t := Playing(s, Spins(k));
      && |t.handles| == |s.handles| && t.handles[x].answer == SpinAnswer(s, x) && t.handles[x].marked
      && t.handles[x].peer == s.handles[x].peer && t.handles[x].id == s.handles[x].id
  {
    var t := Playing(s, Spins(k - 1));
    SpinsKeep(s, k - 1);
    assert Spins(k)[..k - 1] == Spins(k - 1);
    if x < k - 1 {
      SpinStays(s, x, k - 1);
    } else {
      assert GoodHandle(t.channels, t.handles[x]);
      SpinAnswered(s, x);
      PlayingKeeps(s, Spins(x));
      assert SameHandle(s.handles[x], t.handles[x]);
    }
  }

  /** The scope when the closure of a batch ends. */
  lemma PlayedBatch(channels: seq<ChannelState>, requests: seq<Request>)
    requires GoodChannels(channels) && AcceptedFirst(requests, |channels|) == |requests|
    ensures
      var s := Batched(channels, requests);
      var k := SucceededFirst(s, |requests|);
      Playing(Scope(channels, []), BatchSteps(channels, requests)) == Playing(s, Spins(if k < |requests| then k + 1 else k))
  {
    var k := SucceededFirst(Batched(channels, requests), |requests|);
    PlayingOn(Scope(channels, []), Posts(Tried(requests, |channels|)), Spins(if k < |requests| then k + 1 else k));
  }

  lemma AllGained(s: Scope, m: nat, results: seq<nat>)
    requires ResultsOf(s, m, None, results)
    ensures SucceededFirst(s, m) == m && results == Gained(s, m)
  {
  }

  lemma ResultsAreFirst(channels: seq<ChannelState>, requests: seq<Request>, error: Option<TransportError>, results: seq<nat>)
    requires GoodChannels(channels) && AcceptedFirst(requests, |channels|) == |requests|
    requires ResultsOf(Batched(channels, requests), |requests|, error, results)
    ensures BatchEnd(channels, requests) == if error.Some? then Fails(WorkFailed(error.value)) else Returns(results)
    ensures |results| == SucceededFirst(Batched(channels, requests), |requests|)
  {
    if error.None? {
      AllGained(Batched(channels, requests), |requests|, results);
    }
  }

  /** The request of handle `i` has succeeded with this result, and the handle knows it. */
  ghost predicate Succeeded(s: Scope, i: nat, peer: nat, bytes: nat) {
    && IsHandle(s, i) && s.handles[i].peer == peer && s.handles[i].answer == Some(ByRequest(Success(bytes)))
    && s.handles[i].id in QueueOf(s, i).cq.fate && QueueOf(s, i).cq.fate[s.handles[i].id] == Success(bytes)
  }

  lemma AnswerWhenSpun(s: Scope, i: nat, k: nat)
    requires Good(s) && i < |s.handles| && i < k
    ensures SpinAnswer(s, i).Some? && Good(Playing(s, Spins(k))) && i < |Playing(s, Spins(k)).handles|
    ensures Playing(s, Spins(k)).handles[i].peer == s.handles[i].peer
    ensures Playing(s, Spins(k)).handles[i].answer == SpinAnswer(s, i)
  {
    SpinAnswered(s, i);
    SpinStays(s, i, k);
    SpinsKeep(s, k);
  }

  /** When the closure of the batch ends. */
  lemma AnswerWhenPlayed(channels: seq<ChannelState>, requests: seq<Request>, i: nat)
    requires GoodChannels(channels) && AcceptedFirst(requests, |channels|) == |requests|
    requires i < |requests| && i <= SucceededFirst(Batched(channels, requests), |requests|)
    ensures
      var answer, t := SpinAnswer(Batched(channels, requests), i), Playing(Scope(channels, []), BatchSteps(channels, requests));
      && answer.Some? && Good(t) && i < |t.handles| && t.handles[i].peer == requests[i].peer && t.handles[i].answer == answer
  {
    var s := Batched(channels, requests);
    var k := SucceededFirst(s, |requests|);
    AllBatched(channels, requests, i);
    AnswerWhenSpun(s, i, if k < |requests| then k + 1 else k);
    PlayedBatch(channels, requests);
  }

  lemma AllBatched(channels: seq<ChannelState>, requests: seq<Request>, i: nat)
    requires GoodChannels(channels) && AcceptedFirst(requests, |channels|) == |requests| && i < |requests|
    ensures Good(Batched(channels, requests)) && i < |Batched(channels, requests).handles|
    ensures Batched(channels, requests).handles[i].peer == requests[i].peer
  {
    BatchedHandles(channels, requests);
  }

  lemma AnswerAtTheEnd(channels: seq<ChannelState>, requests: seq<Request>, i: nat)
    requires GoodChannels(channels) && AcceptedFirst(requests, |channels|) == |requests|
    requires i < |requests| && i <= SucceededFirst(Batched(channels, requests), |requests|)
    ensures
      var answer, e := SpinAnswer(Batched(channels, requests), i), Final(channels, BatchSteps(channels, requests));
      && answer.Some? && IsHandle(e, i) && e.handles[i].peer == requests[i].peer
      && (IsFinal(answer) ==>
            && e.handles[i].answer == answer && e.handles[i].id in QueueOf(e, i).cq.fate
            && QueueOf(e, i).cq.fate[e.handles[i].id] == answer.value.result)
  {
    AnswerWhenPlayed(channels, requests, i);
    TurnDecides(Playing(Scope(channels, []), BatchSteps(channels, requests)), i);
    if IsFinal(SpinAnswer(Batched(channels, requests), i)) {
      FinalIsFate(Final(channels, BatchSteps(channels, requests)), i);
    }
  }

  lemma SucceedsAtTheEnd(channels: seq<ChannelState>, requests: seq<Request>, i: nat)
    requires GoodChannels(channels) && AcceptedFirst(requests, |channels|) == |requests|
    requires i < SucceededFirst(Batched(channels, requests), |requests|)
    ensures
      var answer := SpinAnswer(Batched(channels, requests), i);
      && IsSuccess(answer)
      && Succeeded(Final(channels, BatchSteps(channels, requests)), i, requests[i].peer, answer.value.result.bytes)
  {
    AnswerAtTheEnd(channels, requests, i);
  }

  /** The first wait that fails reports the request's failure, or that of a poll. */
  ghost predicate FailedWith(channels: seq<ChannelState>, e: Scope, k: nat, peer: nat, error: TransportError) {
    && IsHandle(e, k) && e.handles[k].peer == peer < |channels|
    && match error
       case WorkError(status) =>
         && e.handles[k].answer == Some(ByRequest(Failure(status)))
         && e.handles[k].id in QueueOf(e, k).cq.fate && QueueOf(e, k).cq.fate[e.handles[k].id] == Failure(status)
       case IbvError(errno) => Broken(errno) in channels[peer].queue.script
  }

  lemma FailsAtTheEnd(channels: seq<ChannelState>, requests: seq<Request>, k: nat)
    requires GoodChannels(channels) && AcceptedFirst(requests, |channels|) == |requests|
    requires k == SucceededFirst(Batched(channels, requests), |requests|) < |requests|
    ensures
      var answer := SpinAnswer(Batched(channels, requests), k);
      && answer.Some? && !IsSuccess(answer)
      && FailedWith(channels, Final(channels, BatchSteps(channels, requests)), k, requests[k].peer, FailureOf(answer))
  {
    AnswerAtTheEnd(channels, requests, k);
    BatchBreaks(channels, requests, k);
  }

  /** Request `m` is the first that cannot be posted, for this reason. */
  ghost predicate RefusedFirst(requests: seq<Request>, n: nat, m: nat, reason: PostError) {
    && m < |requests| && (forall i :: 0 <= i < m ==> requests[i].peer < n && requests[i].accepted)
    && if requests[m].peer >= n then reason == NotFound(requests[m].peer) else !requests[m].accepted && reason == Refused
  }

  /** Each request has a handle at its peer, up to the first `m`. */
  ghost predicate Posted(requests: seq<Request>, handles: seq<Handle>, m: nat) {
    && |handles| == m <= |requests|
    && forall i :: 0 <= i < m ==> handles[i].peer == requests[i].peer
  }

  /** What a batch reports is what the hardware did: the results of all requests, each in its
      place; or the reason why the first request that was not accepted could not be posted; or
      the failure of the first request that failed, all before it having succeeded; or the
      failure of a poll.  It never panics. */
  ghost predicate OutcomeIsTrue(channels: seq<ChannelState>, requests: seq<Request>,
      outcome: ScopeOutcome<seq<nat>, BatchError>) {
    var e, n := Final(channels, BatchSteps(channels, requests)), |channels|;
    match outcome
    case Done(results) =>
      && Posted(requests, e.handles, |requests|) && |results| == |requests|
      && forall i: nat :: i < |requests| ==> Succeeded(e, i, requests[i].peer, results[i])
    case ClosureError(PostFailed(reason)) =>
      exists m: nat :: RefusedFirst(requests, n, m, reason) && Posted(requests, e.handles, m)
    case ClosureError(WorkFailed(error)) =>
      && Posted(requests, e.handles, |requests|)
      && exists k: nat :: k < |requests| && FailedFirst(channels, requests, e, k, error)
    case _ => false
  }

  /** Request `k` failed with this error, and all before it succeeded. */
  ghost predicate FailedFirst(channels: seq<ChannelState>, requests: seq<Request>, e: Scope, k: nat, error: TransportError)
    requires k < |requests|
  {
    && FailedWith(channels, e, k, requests[k].peer, error)
    && forall i: nat :: i < k ==> IsHandle(e, i) && IsSuccess(e.handles[i].answer)
  }

  lemma FailureIsFirst(channels: seq<ChannelState>, requests: seq<Request>, k: nat)
    requires GoodChannels(channels) && AcceptedFirst(requests, |channels|) == |requests|
    requires k == SucceededFirst(Batched(channels, requests), |requests|) < |requests|
    ensures
      var answer := SpinAnswer(Batched(channels, requests), k);
      && answer.Some? && !IsSuccess(answer)
      && FailedFirst(channels, requests, Final(channels, BatchSteps(channels, requests)), k, FailureOf(answer))
  {
    var e := Final(channels, BatchSteps(channels, requests));
    FailsAtTheEnd(channels, requests, k);
    forall i: nat | i < k
      ensures IsHandle(e, i) && IsSuccess(e.handles[i].answer)
    {
      SucceedsAtTheEnd(channels, requests, i);
    }
  }

  lemma PostedAtTheEnd(channels: seq<ChannelState>, requests: seq<Request>)
    requires GoodChannels(channels)
    ensures Posted(requests, Final(channels, BatchSteps(channels, requests)).handles, AcceptedFirst(requests, |channels|))
  {
    var m, steps := AcceptedFirst(requests, |channels|), BatchSteps(channels, requests);
    var s := Batched(channels, requests);
    var t, e := Playing(Scope(channels, []), steps), Final(channels, steps);
    FinalKeeps(channels, steps);
    BatchedHandles(channels, requests);
    if m == |requests| {
      var k := SucceededFirst(s, m);
      PlayedBatch(channels, requests);
      SpinsKeepPeers(s, if k < m then k + 1 else k);
    }
    forall i: nat | i < m
      ensures e.handles[i].peer == requests[i].peer
    {
      TurnDecides(t, i);
    }
  }

  lemma SpinsKeepPeers(s: Scope, k: nat)
    requires Good(s)
    ensures |Playing(s, Spins(k)).handles| == |s.handles|
    ensures forall i :: 0 <= i < |s.handles| ==> Playing(s, Spins(k)).handles[i].peer == s.handles[i].peer
  {
    SpinsKeep(s, k);
    PlayingKeeps(s, Spins(k));
    assert forall i :: 0 <= i < |s.handles| ==> SameHandle(s.handles[i], Playing(s, Spins(k)).handles[i]);
  }

  lemma BatchIsTrue(channels: seq<ChannelState>, requests: seq<Request>)
    requires GoodChannels(channels)
    ensures OutcomeIsTrue(channels, requests, ManualOutcome(BatchEnd(channels, requests), true))
  {
    var s, m, n := Batched(channels, requests), AcceptedFirst(requests, |channels|), |channels|;
    var k := SucceededFirst(s, m);
    PostedAtTheEnd(channels, requests);
    if m < |requests| {
      assert forall i :: 0 <= i < m ==> Accepted(requests[i], n);
      assert RefusedFirst(requests, n, m, Reason(requests[m], n));
    } else if k < m {
      FailureIsFirst(channels, requests, k);
    } else {
      forall i: nat | i < m
        ensures SpinAnswer(s, i).Some? && SpinAnswer(s, i).value.ByRequest? && SpinAnswer(s, i).value.result.Success?
        ensures Succeeded(Final(channels, BatchSteps(channels, requests)), i, requests[i].peer, SpinAnswer(s, i).value.result.bytes)
      {
        SucceedsAtTheEnd(channels, requests, i);
      }
    }
  }

  /** A batch that succeeds has waited for all of its requests. */
  lemma BatchWaitsForAll(channels: seq<ChannelState>, requests: seq<Request>)
    requires GoodChannels(channels) && BatchEnd(channels, requests).Returns?
    ensures AllMarked(Playing(Scope(channels, []), BatchSteps(channels, requests)))
  {
    var s := Batched(channels, requests);
    BatchedHandles(channels, requests);
    PlayedBatch(channels, requests);
    SpinsKeep(s, |requests|);
    forall x: nat | x < |requests|
      ensures Playing(s, Spins(|requests|)).handles[x].marked
    {
      SpinStays(s, x, |requests|);
    }
  }

  /** A wait is answered by a failing poll only with an error that the queue was going to give. */
  lemma BatchBreaks(channels: seq<ChannelState>, requests: seq<Request>, k: nat)
    requires GoodChannels(channels) && k < AcceptedFirst(requests, |channels|)
    ensures
      var answer := SpinAnswer(Batched(channels, requests), k);
      answer.Some? && (answer.value.ByBrokenQueue? ==> Broken(answer.value.errno) in channels[requests[k].peer].queue.script)
  {
    var o, s, a := Scope(channels, []), Batched(channels, requests), requests[k].peer;
    var t := Playing(s, Spins(k));
    BatchedHandles(channels, requests);
    SpinAnswered(s, k);
    SpinsKeepPeers(s, k);
    OpenedIsGood(channels);
    PlayingKeeps(o, Posts(Tried(requests, |channels|)));
    PlayingKeeps(s, Spins(k));
    AdvancesOn(o, s, t);
    assert GoodHandle(t.channels, t.handles[k]) && GoodChannel(t.channels[a]);
    if !IsFinal(t.handles[k].answer) {
      SpinForTells(QueueOf(t, k), t.handles[k].id);
      if SpinAnswer(s, k).value.ByBrokenQueue? {
        BreaksInScript(t.channels[a].queue.script, channels[a].queue.script, SpinAnswer(s, k).value.errno);
      }
    }
  }

  lemma BreaksInScript(rest: seq<HardwareStep>, script: seq<HardwareStep>, errno: nat)
    requires IsRest(rest, script) && BreaksWith(rest, errno)
    ensures Broken(errno) in script
  {
    var k :| FirstBroken(rest, k) && rest[k] == Broken(errno);
    assert script[|script| - |rest| + k] == Broken(errno);
  }
}
