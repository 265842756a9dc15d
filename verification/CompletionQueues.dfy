/** A channel's completion queue with its cache, and the handles that share it. */
module CompletionQueues {
  import opened Wrappers
  import opened CompletionState
  import opened QueuePolling

  datatype PollOutcome = Polled(count: nat) | PollFailed(errno: nat)

  /** The completion queue and the cache in front of it.  `script` is what the hardware does
      at the coming polls; when it is used up, every poll finishes some request, which is
      all that is assumed of the hardware: posted requests complete, once, with some result. */
  class CachedCompletionQueue {
    const capacity: nat
    const pick: set<nat> -> WorkCompletion
    var script: seq<HardwareStep>
    var inFlight: set<nat>
    var queue: seq<WorkCompletion>
    var cache: map<nat, WorkCompletion>
    /** The same with what has been posted, answered and decided so far. */
    ghost var state: CqState

    /** The fields are those of the abstract state. */
    ghost predicate Represented()
      reads this
    {
      inFlight == state.inFlight && queue == state.queue && cache == state.cache
    }

    ghost predicate Valid()
      reads this
    {
      Represented() && Sound(View())
    }

    ghost function View(): QueueState
      reads this
    {
      QueueState(state, script, capacity, pick)
    }

    /** No coming poll of the hardware queue fails. */
    ghost predicate Healthy()
      reads this
    {
      NoneBroken(script)
    }

    constructor (capacity: nat, script: seq<HardwareStep>, pick: set<nat> -> WorkCompletion)
      requires capacity >= 1 && IsPick(pick)
      ensures Valid() && View() == QueueState(EMPTY, script, capacity, pick)
    {
      this.capacity := capacity;
      this.script := script;
      this.pick := pick;
      inFlight, queue, cache := {}, [], map[];
      state := EMPTY;
      EmptyConserves();
    }

    /** The hardware finishes one request. */
    method Finish(wc: WorkCompletion)
      requires Represented()
      modifies `inFlight, `queue, `state
      ensures Represented() && state == Finishing(old(state), wc)
    {
      inFlight := inFlight - {wc.wrId};
      queue := queue + [wc];
      state := Finishing(state, wc);
    }

    /** The hardware finishes those of the given requests that are in flight. */
    method FinishAll(wcs: seq<WorkCompletion>)
      requires Represented()
      modifies `inFlight, `queue, `state
      ensures Represented() && state == FinishingAll(old(state), wcs)
    {
      for x := 0 to |wcs|
        invariant Represented() && state == FinishingAll(old(state), wcs[..x])
      {
        assert wcs[..x + 1][..x] == wcs[..x];
        if wcs[x].wrId in inFlight {
          Finish(wcs[x]);
        }
      }
      assert wcs[..|wcs|] == wcs;
    }

    /** The hardware's part of one poll. */
    method Hardware() returns (errno: Option<nat>)
      requires Valid()
      modifies `script, `inFlight, `queue, `state
      ensures Represented() && state == AfterHardware(old(View()))
      ensures script == if |old(script)| > 0 then old(script)[1..] else []
      ensures errno.Some? <==> Breaking(old(View()))
      ensures errno.Some? ==> errno.value == old(script)[0].errno && unchanged(`state)
    {
      errno := None;
      if |script| > 0 {
        var step := script[0];
        script := script[1..];
        match step
        case Broken(e) => errno := Some(e);
        case Finishes(wcs) => FinishAll(wcs);
      } else if inFlight != {} {
        Finish(pick(inFlight));
      }
    }

    /** Stores completions in the cache, one by one. */
    method Store(wcs: seq<WorkCompletion>)
      modifies `cache
      ensures cache == Stored(old(cache), wcs)
    {
      for x := 0 to |wcs|
        invariant cache == Stored(old(cache), wcs[..x])
      {
        assert wcs[..x + 1][..x] == wcs[..x];
        cache := cache[wcs[x].wrId := wcs[x]];
      }
      assert wcs[..|wcs|] == wcs;
    }

    /** Moves up to `capacity` completions from the queue into the cache. */
    method Drain() returns (k: nat)
      requires Represented()
      modifies `queue, `cache, `state
      ensures Represented() && k == Fetched(old(queue), capacity) && state == Draining(old(state), k)
      ensures k == 0 ==> cache == old(cache)
    {
      k := Fetched(queue, capacity);
      var polled := queue[..k];
      queue := queue[k..];
      Store(polled);
      state := Draining(state, k);
    }

    /** Polls the hardware once and stores what it returned in the cache. */
    method Update() returns (r: PollOutcome)
      requires Valid()
      modifies `script, `inFlight, `queue, `cache, `state
      ensures Valid() && View() == Updated(old(View()))
      ensures Later(old(state), state) && SameRequests(old(state), state)
      ensures |old(script)| > 0 || Load(old(state)) > 0 ==> Nearer(old(View()), View())
      ensures r.PollFailed? <==> |old(script)| > 0 && old(script)[0].Broken?
      ensures r.PollFailed? ==> r.errno == old(script)[0].errno && state == old(state)
      ensures r == PollOutcome.Polled(0) || r.PollFailed? ==> cache == old(cache)
    {
      UpdatedConserves(View());
      var errno := Hardware();
      if errno.Some? {
        return PollFailed(errno.value);
      }
      var k := Drain();
      r := PollOutcome.Polled(k);
    }

    /** Takes the completion of one request out of the cache, if it is there. */
    method Consume(wrId: nat) returns (r: Option<WorkCompletion>)
      requires Valid()
      modifies `cache, `state
      ensures Valid() && View() == TakenFrom(old(View()), wrId).queue
      ensures r.Some? <==> wrId in old(cache)
      ensures r.Some? ==> state == Taking(old(state), wrId) && r.value == old(cache)[wrId]
      ensures Later(old(state), state)
    {
      if wrId !in cache {
        return None;
      }
      TakingConserves(state, wrId);
      r := Some(cache[wrId]);
      state := Taking(state, wrId);
      cache := cache - {wrId};
    }

    /** The queue pair accepts a request. */
    method Accept(wrId: nat)
      requires Valid() && wrId !in state.posted
      modifies `inFlight, `state
      ensures Valid() && View() == old(View()).(cq := Posting(old(state), wrId)) && Later(old(state), state)
    {
      PostingConserves(state, wrId);
      state := Posting(state, wrId);
      inFlight := inFlight + {wrId};
    }
  }

  /** A handle to one posted request. */
  class PendingWork {
    const wrId: nat
    const cq: CachedCompletionQueue
    var status: Option<WorkResult>
    /** The answer of the last poll of this handle that gave one. */
    ghost var answer: Option<Answer>

    /** The handle keeps an answer of its request, and no other. */
    ghost predicate Represented()
      reads this
    {
      status == if IsFinal(answer) then Some(answer.value.result) else None
    }

    /** The handle holds the result exactly when it has been taken from the queue, and then
        it is the hardware's result for this very request. */
    ghost predicate Valid()
      reads this, cq
    {
      && cq.Valid() && Represented()
      && wrId in cq.state.posted
      && (status.Some? <==> wrId in cq.state.taken)
      && (status.Some? ==> status.value == cq.state.taken[wrId])
    }

    constructor (wrId: nat, cq: CachedCompletionQueue)
      requires cq.Valid() && wrId in cq.state.posted && wrId !in cq.state.taken
      ensures Valid() && status.None? && answer.None? && this.wrId == wrId && this.cq == cq
    {
      this.wrId := wrId;
      this.cq := cq;
      status := None;
      answer := None;
    }

    /** What a handle tells is the hardware's result for its own request. */
    lemma AnswerIsTheHardwares()
      requires Valid() && status.Some?
      ensures wrId in cq.state.fate && status.value == cq.state.fate[wrId]
    {
      assert Lawful(cq.state, wrId);
    }

    /** Takes this request's completion if some poll has cached it. */
    method ConsumeCache()
      requires Valid() && status.None?
      modifies `status, `answer, cq`cache, cq`state
      ensures Valid() && (status.Some? <==> wrId in old(cq.cache))
      ensures cq.View() == TakenFrom(old(cq.View()), wrId).queue
      ensures answer == Newer(old(answer), TakenFrom(old(cq.View()), wrId).answer)
    {
      TakenFromConserves(cq.View(), wrId);
      var hit := cq.Consume(wrId);
      if hit.Some? {
        status := Some(hit.value.result);
        answer := Some(ByRequest(hit.value.result));
      }
    }

    /** The next poll of this handle will poll the queue, and that will fail. */
    ghost predicate QueueBreaks()
      reads this, cq
    {
      status.None? && wrId !in cq.cache && |cq.script| > 0 && cq.script[0].Broken?
    }

    /** Waiting for this handle from here on will meet a failing poll of the queue first. */
    ghost predicate WaitBreaks()
      reads this, cq
    {
      status.None? && FailuresAhead(cq.View(), wrId) > 0
    }

    /** The handle and its queue have done what this reply says, and the caller is told so. */
    twostate predicate Follows(reply: Reply, new r: Option<TransportResult>)
      reads this, cq
    {
      && cq.View() == reply.queue && answer == Newer(old(answer), reply.answer)
      && r == if reply.answer.Some? then Some(Told(reply.answer.value)) else None
    }

    /** Of the queue's requests this handle has taken at most its own. */
    twostate predicate TookAtMostOwn()
      reads this, cq
    {
      && cq.state.posted == old(cq.state.posted)
      && Later(old(cq.state), cq.state)
      && cq.state.taken == (if old(status.None?) && status.Some? then old(cq.state.taken)[wrId := status.value] else old(cq.state.taken))
    }

    /** The hardware's result of this request, as a caller is told it. */
    ghost predicate Tells(r: TransportResult)
      reads this, cq
    {
      && wrId in cq.state.fate
      && match cq.state.fate[wrId]
         case Success(bytes) => r == Ok(bytes)
         case Failure(status) => r == Err(WorkError(status))
    }

    /** Checks for completion.  A failing poll of the queue is reported as an error of this
        request although the request is still outstanding. */
    method Poll() returns (r: Option<TransportResult>)
      requires Valid()
      modifies this, cq
      ensures Valid() && TookAtMostOwn()
      ensures Follows(PollReply(old(cq.View()), wrId, old(answer)), r)
      ensures old(status).Some? ==> unchanged(this) && unchanged(cq)
      ensures r.Some? && answer.value.ByBrokenQueue? <==> old(QueueBreaks())
      ensures old(QueueBreaks()) ==> r == Some(Err(IbvError(old(cq.script)[0].errno)))
      ensures r.Some? && !old(QueueBreaks()) ==> status.Some? && Tells(r.value)
      ensures old(status).Some? || wrId in old(cq.cache) ==> r.Some? && cq.script == old(cq.script)
      ensures old(status).None? && wrId !in old(cq.cache) ==> cq.script == if |old(cq.script)| > 0 then old(cq.script)[1..] else []
      ensures r.None? ==> status.None? && wrId !in cq.cache && Nearer(old(cq.View()), cq.View())
    {
      if status.Some? {
        AnswerIsTheHardwares();
        return Some(ToTransport(status.value));
      }
      PollForConserves(cq.View(), wrId);
      ConsumeCache();
      if status.Some? {
        AnswerIsTheHardwares();
        return Some(ToTransport(status.value));
      }
      var polled := cq.Update();
      if polled.PollFailed? {
        answer := Some(ByBrokenQueue(polled.errno));
        return Some(Err(IbvError(polled.errno)));
      }
      if polled.count > 0 {
        ConsumeCache();
        if status.Some? {
          AnswerIsTheHardwares();
          return Some(ToTransport(status.value));
        }
      }
      r := None;
    }

    /** Busy-waits until the request has completed (or a poll of the queue fails). */
    method SpinPoll() returns (r: TransportResult)
      requires Valid()
      modifies this, cq
      ensures Valid() && TookAtMostOwn()
      ensures Follows(SpinReply(old(cq.View()), wrId, old(answer)), Some(r))
      ensures old(status).Some? ==> unchanged(this) && unchanged(cq)
      ensures answer.value.ByBrokenQueue? <==> old(WaitBreaks())
      ensures old(WaitBreaks()) ==> r.Err? && r.error.IbvError? && BreaksWith(old(cq.script), r.error.errno)
      ensures !old(WaitBreaks()) ==> status.Some? && Tells(r)
      ensures old(cq.Healthy()) ==> status.Some?
    {
      if status.None? {
        SpinForAnswers(cq.View(), wrId);
        SpinForTells(cq.View(), wrId);
        SpinForBreaks(cq.View(), wrId);
        NoneCounted(cq.script);
        FailuresAheadAtMost(cq.View(), wrId);
      }
      while true
        invariant Valid()
        invariant old(status).Some? ==> unchanged(this) && unchanged(cq)
        invariant old(status).None? ==>
                    && status.None? && answer == old(answer)
                    && SpinFor(cq.View(), wrId) == SpinFor(old(cq.View()), wrId)
        decreases |cq.script|, Load(cq.state)
      {
        var poll := Poll();
        if poll.Some? {
          return poll.value;
        }
      }
    }

    /** Dropping a handle waits for the hardware to be done with its buffers. */
    method Drop()
      requires Valid()
      modifies this, cq
      ensures Valid() && TookAtMostOwn() && answer.Some?
      ensures cq.View() == SpinReply(old(cq.View()), wrId, old(answer)).queue
      ensures old(status).Some? ==> unchanged(this) && unchanged(cq)
      ensures answer.value.ByBrokenQueue? <==> old(WaitBreaks())
      ensures old(cq.Healthy()) ==> status.Some?
    {
      var _ := SpinPoll();
    }
  }

  /** One connection: the queue pair with its id counter and its completion queue. */
  class Channel {
    const cq: CachedCompletionQueue
    var nextWrId: nat

    ghost predicate Valid()
      reads this, cq
    {
      cq.Valid() && forall id :: id in cq.state.posted ==> id < nextWrId
    }

    ghost function View(): ChannelState
      reads this, cq
    {
      ChannelState(cq.View(), nextWrId)
    }

    constructor (capacity: nat, script: seq<HardwareStep>, pick: set<nat> -> WorkCompletion)
      requires capacity >= 1 && IsPick(pick)
      ensures Valid() && fresh(cq) && View() == ChannelState(QueueState(EMPTY, script, capacity, pick), 0)
    {
      cq := new CachedCompletionQueue(capacity, script, pick);
      nextWrId := 0;
    }

    /** Hands out a fresh id; an id whose post fails is never used again. */
    method GetAndAdvanceWrId() returns (wrId: nat)
      requires Valid()
      modifies `nextWrId
      ensures Valid() && wrId == old(nextWrId) && nextWrId == wrId + 1
    {
      wrId := nextWrId;
      nextWrId := nextWrId + 1;
    }

    /** Posts a request; `accepted` is the queue pair's answer. */
    method PostUnpolled(accepted: bool) returns (r: Option<PendingWork>)
      requires Valid()
      modifies `nextWrId, cq`state, cq`inFlight
      ensures Valid() && (r.Some? <==> accepted)
      ensures nextWrId == old(nextWrId) + 1
      ensures r.None? ==> unchanged(cq)
      ensures r.Some? ==>
                && fresh(r.value) && r.value.Valid() && r.value.cq == cq && r.value.answer.None?
                && r.value.wrId == old(nextWrId) && r.value.wrId !in old(cq.state.posted)
                && cq.View() == old(cq.View()).(cq := Posting(old(cq.state), r.value.wrId))
    {
      var wrId := GetAndAdvanceWrId();
      if !accepted {
        return None;
      }
      assert Lawful(cq.state, wrId);
      cq.Accept(wrId);
      var work := new PendingWork(wrId, cq);
      r := Some(work);
    }
  }
}
