/** What polling a completion queue does, as a function of the queue: what a poll fetches, what
    it answers to the handle that polls, and when the answer is the failure of the poll
    itself. */
module QueuePolling {
  import opened Wrappers
  import opened CompletionState

  type TransportResult = Result<nat, TransportError>

  function ToTransport(result: WorkResult): TransportResult {
    match result
    case Success(bytes) => Ok(bytes)
    case Failure(status) => Err(WorkError(status))
  }

  /** What one poll of the hardware queue will do: fail, or finish some requests first. */
  datatype HardwareStep = Broken(errno: nat) | Finishes(wcs: seq<WorkCompletion>)

  /** Where the answer of a poll of a handle came from: the request itself, or a poll of the
      queue that failed. */
  datatype Answer = ByRequest(result: WorkResult) | ByBrokenQueue(errno: nat)

  /** What the poll tells its caller. */
  function Told(answer: Answer): TransportResult {
    match answer
    case ByRequest(result) => ToTransport(result)
    case ByBrokenQueue(errno) => Err(IbvError(errno))
  }

  /** The answer is the request's own, which is the last word on it. */
  predicate IsFinal(answer: Option<Answer>) {
    answer.Some? && answer.value.ByRequest?
  }

  /** A queue with what the hardware will do at the coming polls.  When the script is used up,
      each poll finishes one of the requests in flight: `pick` says which, and how.  The same
      requests are never in flight again, so this leaves out no order and no result. */
  datatype QueueState = QueueState(
    cq: CqState, script: seq<HardwareStep>, capacity: nat, pick: set<nat> -> WorkCompletion)

  /** A channel with its completion queue, as a value. */
  datatype ChannelState = ChannelState(queue: QueueState, nextWrId: nat)

  ghost predicate IsPick(pick: set<nat> -> WorkCompletion) {
    forall ids: set<nat> :: ids != {} ==> pick(ids).wrId in ids
  }

  ghost predicate Sound(v: QueueState) {
    v.capacity >= 1 && Conserved(v.cq) && IsPick(v.pick)
  }

  /** The queue after the hardware has finished those of the given requests that are in flight. */
  ghost function FinishingAll(c: CqState, wcs: seq<WorkCompletion>): CqState {
    if |wcs| == 0 then c
    else
      var d := FinishingAll(c, wcs[..|wcs| - 1]);
      if wcs[|wcs| - 1].wrId in d.inFlight then Finishing(d, wcs[|wcs| - 1]) else d
  }

  /** How many completions one poll fetches. */
  function Fetched(queue: seq<WorkCompletion>, capacity: nat): (k: nat)
    ensures k <= |queue| && k <= capacity && (k == |queue| || k == capacity)
  {
    if |queue| < capacity then |queue| else capacity
  }

  /** The next poll of the hardware queue will fail. */
  predicate Breaking(v: QueueState) {
    |v.script| > 0 && v.script[0].Broken?
  }

  /** What the hardware finishes at the next poll, if that does not fail. */
  ghost function AfterHardware(v: QueueState): CqState {
    if |v.script| > 0 then
      match v.script[0]
      case Broken(_) => v.cq
      case Finishes(wcs) => FinishingAll(v.cq, wcs)
    else if v.cq.inFlight == {} then v.cq
    else Finishing(v.cq, v.pick(v.cq.inFlight))
  }

  /** The queue after a poll: a failing one changes nothing. */
  ghost function Updated(v: QueueState): QueueState {
    var rest := if |v.script| > 0 then v.script[1..] else [];
    if Breaking(v) then v.(script := rest)
    else
      var c := AfterHardware(v);
      v.(cq := Draining(c, Fetched(c.queue, v.capacity)), script := rest)
  }

  /** The queue after a poll of a handle, and its answer, if it has one. */
  datatype Reply = Reply(queue: QueueState, answer: Option<Answer>)

  ghost function TakenFrom(v: QueueState, id: nat): Reply {
    if id in v.cq.cache then Reply(v.(cq := Taking(v.cq, id)), Some(ByRequest(v.cq.cache[id].result)))
    else Reply(v, None)
  }

  /** A poll for request `id`, not answered yet: a look into the cache, a poll of the queue,
      another look. */
  ghost function PollFor(v: QueueState, id: nat): Reply {
    if id in v.cq.cache then TakenFrom(v, id)
    else if Breaking(v) then Reply(Updated(v), Some(ByBrokenQueue(v.script[0].errno)))
    else TakenFrom(Updated(v), id)
  }

  /** What is left to wait for. */
  ghost function Load(c: CqState): nat {
    |c.inFlight| + |c.queue|
  }

  ghost predicate Nearer(v: QueueState, w: QueueState) {
    |w.script| < |v.script| || (|w.script| == |v.script| && Load(w.cq) < Load(v.cq))
  }

  /** Polling for request `id` until there is an answer. */
  ghost function SpinFor(v: QueueState, id: nat): Reply
    decreases |v.script|, Load(v.cq)
  {
    var r := PollFor(v, id);
    if r.answer.Some? || !Nearer(v, r.queue) then r else SpinFor(r.queue, id)
  }

  /** The same for a handle with its last answer, which it repeats if that was final. */
  ghost function PollReply(v: QueueState, id: nat, answer: Option<Answer>): Reply {
    if IsFinal(answer) then Reply(v, answer) else PollFor(v, id)
  }

  ghost function SpinReply(v: QueueState, id: nat, answer: Option<Answer>): Reply {
    if IsFinal(answer) then Reply(v, answer) else SpinFor(v, id)
  }

  /** The answer a handle has after a reply. */
  function Newer(answer: Option<Answer>, reply: Option<Answer>): Option<Answer> {
    if reply.Some? then reply else answer
  }

  /** How many polls of the queue fail before request `id` has been fetched. */
  ghost function FailuresAhead(v: QueueState, id: nat): nat
    decreases |v.script|
  {
    if id in v.cq.cache || |v.script| == 0 then 0
    else (if Breaking(v) then 1 else 0) + FailuresAhead(Updated(v), id)
  }

  /** How many polls of the queue fail at all. */
  function CountBroken(script: seq<HardwareStep>): nat {
    if |script| == 0 then 0 else (if script[0].Broken? then 1 else 0) + CountBroken(script[1..])
  }

  predicate NoneBroken(script: seq<HardwareStep>) {
    forall x :: 0 <= x < |script| ==> script[x].Finishes?
  }

  /** The first poll of the queue that fails, fails with this error. */
  ghost predicate BreaksWith(script: seq<HardwareStep>, errno: nat) {
    exists k :: FirstBroken(script, k) && script[k] == Broken(errno)
  }

  ghost predicate FirstBroken(script: seq<HardwareStep>, k: int) {
    0 <= k < |script| && script[k].Broken? && forall i :: 0 <= i < k ==> script[i].Finishes?
  }

  /** What is left of a script after some polls. */
  ghost predicate IsRest(rest: seq<HardwareStep>, script: seq<HardwareStep>) {
    |rest| <= |script| && rest == script[|script| - |rest|..]
  }

  lemma RestOfRest(a: seq<HardwareStep>, b: seq<HardwareStep>, c: seq<HardwareStep>)
    requires IsRest(a, b) && IsRest(b, c)
    ensures IsRest(a, c)
  {
  }

  lemma BreaksAfterAll(script: seq<HardwareStep>, errno: nat)
    requires |script| > 0 && script[0].Finishes? && BreaksWith(script[1..], errno)
    ensures BreaksWith(script, errno)
  {
    var k :| FirstBroken(script[1..], k) && script[1..][k] == Broken(errno);
    assert FirstBroken(script, k + 1);
  }

  lemma {:induction false} NoneCounted(script: seq<HardwareStep>)
    ensures NoneBroken(script) <==> CountBroken(script) == 0
  {
    if |script| > 0 {
      NoneCounted(script[1..]);
      assert forall x :: 0 < x < |script| ==> script[x] == script[1..][x - 1];
    }
  }

  /** The same requests posted and the same answered. */
  ghost predicate SameRequests(c: CqState, d: CqState) {
    c.posted == d.posted && c.taken == d.taken
  }

  lemma {:induction false} FinishingAllConserves(c: CqState, wcs: seq<WorkCompletion>)
    requires Conserved(c)
    ensures var d := FinishingAll(c, wcs);
            Conserved(d) && Later(c, d) && SameRequests(c, d) && Load(d) == Load(c)
  {
    if |wcs| > 0 {
      FinishingAllConserves(c, wcs[..|wcs| - 1]);
      var d := FinishingAll(c, wcs[..|wcs| - 1]);
      if wcs[|wcs| - 1].wrId in d.inFlight {
        FinishingConserves(d, wcs[|wcs| - 1]);
        LaterIsTransitive(c, d, FinishingAll(c, wcs));
      }
    }
  }

  lemma AfterHardwareConserves(v: QueueState)
    requires Sound(v)
    ensures var d := AfterHardware(v);
            Conserved(d) && Later(v.cq, d) && SameRequests(v.cq, d) && Load(d) == Load(v.cq)
    ensures |v.script| == 0 && Load(v.cq) > 0 ==> |AfterHardware(v).queue| > 0
  {
    if |v.script| > 0 && v.script[0].Finishes? {
      FinishingAllConserves(v.cq, v.script[0].wcs);
    } else if |v.script| == 0 && v.cq.inFlight != {} {
      FinishingConserves(v.cq, v.pick(v.cq.inFlight));
    }
  }

  /** A poll loses nothing, answers nobody, and brings something nearer. */
  lemma UpdatedConserves(v: QueueState)
    requires Sound(v)
    ensures Sound(Updated(v)) && Later(v.cq, Updated(v).cq) && SameRequests(v.cq, Updated(v).cq)
    ensures |v.script| > 0 || Load(v.cq) > 0 ==> Nearer(v, Updated(v))
  {
    if !Breaking(v) {
      var c := AfterHardware(v);
      AfterHardwareConserves(v);
      var k := Fetched(c.queue, v.capacity);
      DrainingConserves(c, k);
      LaterIsTransitive(v.cq, c, Draining(c, k));
    }
  }

  /** What an answer to request `id` leaves of the queue. */
  ghost predicate Answered(c: CqState, d: CqState, id: nat, answer: Option<Answer>) {
    && Later(c, d) && d.posted == c.posted
    && d.taken == if IsFinal(answer) then c.taken[id := answer.value.result] else c.taken
  }

  ghost predicate Unanswered(v: QueueState, id: nat) {
    Sound(v) && id in v.cq.posted && id !in v.cq.taken
  }

  lemma TakenFromConserves(v: QueueState, id: nat)
    requires Sound(v)
    ensures var r := TakenFrom(v, id); Sound(r.queue) && Answered(v.cq, r.queue.cq, id, r.answer)
  {
    if id in v.cq.cache {
      TakingConserves(v.cq, id);
    }
  }

  lemma SomethingLeft(v: QueueState, id: nat)
    requires Unanswered(v, id) && id !in v.cq.cache
    ensures Load(v.cq) > 0
  {
    WaitingOrTaken(v.cq, id);
    if id in v.cq.inFlight {
      assert |v.cq.inFlight| > 0;
    }
  }

  lemma PollForConserves(v: QueueState, id: nat)
    requires Unanswered(v, id)
    ensures var r := PollFor(v, id);
            && Sound(r.queue) && Answered(v.cq, r.queue.cq, id, r.answer)
            && (r.answer.None? ==> Nearer(v, r.queue) && Unanswered(r.queue, id))
  {
    if id in v.cq.cache {
      TakenFromConserves(v, id);
    } else {
      var u := Updated(v);
      UpdatedConserves(v);
      SomethingLeft(v, id);
      TakenFromConserves(u, id);
      LaterIsTransitive(v.cq, u.cq, PollFor(v, id).queue.cq);
    }
  }

  lemma PollForRest(v: QueueState, id: nat)
    ensures IsRest(PollFor(v, id).queue.script, v.script)
  {
    var rest := PollFor(v, id).queue.script;
    assert rest == v.script || rest == Updated(v).script;
  }

  /** Waiting for a request always ends with an answer. */
  lemma {:induction false} SpinForAnswers(v: QueueState, id: nat)
    requires Unanswered(v, id)
    ensures var r := SpinFor(v, id);
            r.answer.Some? && Sound(r.queue) && Answered(v.cq, r.queue.cq, id, r.answer) && IsRest(r.queue.script, v.script)
    decreases |v.script|, Load(v.cq)
  {
    var r := PollFor(v, id);
    PollForConserves(v, id);
    if r.answer.None? {
      SpinForAnswers(r.queue, id);
      PollForRest(v, id);
      RestOfRest(SpinFor(v, id).queue.script, r.queue.script, v.script);
      LaterIsTransitive(v.cq, r.queue.cq, SpinFor(v, id).queue.cq);
    } else {
      PollForRest(v, id);
    }
  }

  /** The wait is answered by a failing poll exactly if one comes before the request is
      fetched, and it uses up just that one. */
  lemma {:induction false} SpinForBreaks(v: QueueState, id: nat)
    requires Unanswered(v, id)
    ensures var r := SpinFor(v, id);
            && r.answer.Some?
            && (r.answer.value.ByBrokenQueue? <==> FailuresAhead(v, id) > 0)
            && (r.answer.value.ByBrokenQueue? ==> FailuresAhead(r.queue, id) == FailuresAhead(v, id) - 1)
    decreases |v.script|, Load(v.cq)
  {
    var r := PollFor(v, id);
    PollForConserves(v, id);
    if r.answer.None? {
      SpinForBreaks(r.queue, id);
    }
  }

  /** The error reported is that of the first poll that fails. */
  lemma {:induction false} SpinForTells(v: QueueState, id: nat)
    requires Unanswered(v, id)
    ensures var r := SpinFor(v, id);
            r.answer.Some? && (r.answer.value.ByBrokenQueue? ==> BreaksWith(v.script, r.answer.value.errno))
    decreases |v.script|, Load(v.cq)
  {
    var r := PollFor(v, id);
    PollForConserves(v, id);
    if r.answer.None? {
      SpinForTells(r.queue, id);
      if |v.script| > 0 && SpinFor(v, id).answer.value.ByBrokenQueue? {
        BreaksAfterAll(v.script, SpinFor(v, id).answer.value.errno);
      }
    } else if r.answer.value.ByBrokenQueue? {
      assert FirstBroken(v.script, 0);
    }
  }

  /** The queue after `k` polls of the hardware, if nobody takes anything from the cache. */
  ghost function AfterPolls(v: QueueState, k: nat): QueueState
    decreases k
  {
    if k == 0 then v else AfterPolls(Updated(v), k - 1)
  }

  /** Poll `k` will fail, and request `id` will not have been fetched by then. */
  ghost predicate FailsAt(v: QueueState, id: nat, k: nat) {
    k < |v.script| && v.script[k].Broken? && id !in AfterPolls(v, k).cq.cache
  }

  /** How many of the first `n` polls do so. */
  ghost function CountFails(v: QueueState, id: nat, n: nat): nat {
    if n == 0 then 0 else CountFails(v, id, n - 1) + (if FailsAt(v, id, n - 1) then 1 else 0)
  }

  lemma CacheGrows(v: QueueState, id: nat)
    requires id in v.cq.cache
    ensures id in Updated(v).cq.cache
  {
    if !Breaking(v) {
      var c := AfterHardware(v);
      CacheUntouched(v);
      StoredKeeps(c.cache, c.queue[..Fetched(c.queue, v.capacity)], id);
    }
  }

  lemma CacheUntouched(v: QueueState)
    ensures AfterHardware(v).cache == v.cq.cache
  {
    if |v.script| > 0 && v.script[0].Finishes? {
      FinishingAllKeepsCache(v.cq, v.script[0].wcs);
    }
  }

  lemma {:induction false} FinishingAllKeepsCache(c: CqState, wcs: seq<WorkCompletion>)
    ensures FinishingAll(c, wcs).cache == c.cache
  {
    if |wcs| > 0 {
      FinishingAllKeepsCache(c, wcs[..|wcs| - 1]);
    }
  }

  lemma {:induction false} StoredKeeps(cache: map<nat, WorkCompletion>, wcs: seq<WorkCompletion>, id: nat)
    requires id in cache
    ensures id in Stored(cache, wcs)
  {
    if |wcs| > 0 {
      StoredKeeps(cache, wcs[..|wcs| - 1], id);
    }
  }

  lemma {:induction false} CacheStays(v: QueueState, id: nat, k: nat)
    requires id in v.cq.cache
    ensures id in AfterPolls(v, k).cq.cache
    decreases k
  {
    if k > 0 {
      CacheGrows(v, id);
      CacheStays(Updated(v), id, k - 1);
    }
  }

  lemma {:induction false} CountShifted(v: QueueState, id: nat, n: nat)
    requires |v.script| > 0 && id !in v.cq.cache
    ensures CountFails(v, id, n + 1) == CountFails(Updated(v), id, n) + (if Breaking(v) then 1 else 0)
  {
    if n > 0 {
      CountShifted(v, id, n - 1);
      assert FailsAt(v, id, n) <==> FailsAt(Updated(v), id, n - 1);
    } else {
      assert FailsAt(v, id, 0) <==> Breaking(v);
      assert CountFails(v, id, 1) == CountFails(v, id, 0) + (if FailsAt(v, id, 0) then 1 else 0);
    }
  }

  lemma {:induction false} NothingFailsFetched(v: QueueState, id: nat, n: nat)
    requires id in v.cq.cache
    ensures CountFails(v, id, n) == 0
  {
    if n > 0 {
      NothingFailsFetched(v, id, n - 1);
      CacheStays(v, id, n - 1);
    }
  }

  /** The failing polls ahead of a request are the steps of the script that fail, as long as the
      request has not been fetched by the polls before. */
  lemma {:induction false} FailuresAheadAre(v: QueueState, id: nat)
    ensures FailuresAhead(v, id) == CountFails(v, id, |v.script|)
    decreases |v.script|
  {
    if id in v.cq.cache {
      NothingFailsFetched(v, id, |v.script|);
    } else if |v.script| > 0 {
      FailuresAheadAre(Updated(v), id);
      CountShifted(v, id, |v.script| - 1);
    }
  }

  /** Every failing poll is the answer of one poll of a handle: none goes unnoticed, and none
      is reported twice. */
  lemma {:induction false} SpinForCounts(v: QueueState, id: nat)
    requires Unanswered(v, id)
    ensures var r := SpinFor(v, id);
            && r.answer.Some?
            && CountBroken(v.script) == CountBroken(r.queue.script) + (if r.answer.value.ByBrokenQueue? then 1 else 0)
    decreases |v.script|, Load(v.cq)
  {
    var r := PollFor(v, id);
    PollForConserves(v, id);
    PollForCounts(v, id);
    if r.answer.None? {
      SpinForCounts(r.queue, id);
    }
  }

  lemma PollForCounts(v: QueueState, id: nat)
    ensures var r := PollFor(v, id);
            CountBroken(v.script) ==
            CountBroken(r.queue.script) + (if r.answer.Some? && r.answer.value.ByBrokenQueue? then 1 else 0)
  {
  }

  lemma {:induction false} FailuresAheadAtMost(v: QueueState, id: nat)
    ensures FailuresAhead(v, id) <= CountBroken(v.script)
    decreases |v.script|
  {
    if id !in v.cq.cache && |v.script| > 0 {
      FailuresAheadAtMost(Updated(v), id);
    }
  }
}
