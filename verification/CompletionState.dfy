/** Where the work requests of one channel can be, and the law that none is lost,
    duplicated or answered with somebody else's result. */
module CompletionState {
  /** The outcome the hardware reports for one request. */
  datatype WorkResult = Success(bytes: nat) | Failure(status: nat)

  datatype WorkCompletion = WorkCompletion(wrId: nat, result: WorkResult)

  /** One completion queue with its cache.  `posted` are the ids successfully posted so far,
      `fate` the results the hardware has given, `taken` the results held by handles. */
  datatype CqState = CqState(
    posted: set<nat>, inFlight: set<nat>, queue: seq<WorkCompletion>, cache: map<nat, WorkCompletion>,
    taken: map<nat, WorkResult>, fate: map<nat, WorkResult>)

  ghost predicate InQueue(queue: seq<WorkCompletion>, id: nat) {
    exists x :: 0 <= x < |queue| && queue[x].wrId == id
  }

  /** A posted request is in exactly one place, once; and wherever a result of it is kept, it
      is the one the hardware gave that very request. */
  ghost predicate Lawful(c: CqState, id: nat) {
    && (id in c.posted <==> id in c.inFlight || InQueue(c.queue, id) || id in c.cache || id in c.taken)
    && (id in c.inFlight ==> !InQueue(c.queue, id) && id !in c.cache && id !in c.taken)
    && (id in c.cache ==> !InQueue(c.queue, id) && id !in c.taken)
    && (id in c.taken ==> !InQueue(c.queue, id))
    && (forall x, y :: 0 <= x < y < |c.queue| && c.queue[x].wrId == id ==> c.queue[y].wrId != id)
    && (id in c.fate <==> id in c.posted && id !in c.inFlight)
    && (forall x :: 0 <= x < |c.queue| && c.queue[x].wrId == id ==> id in c.fate && c.queue[x].result == c.fate[id])
    && (id in c.cache ==> c.cache[id] == WorkCompletion(id, c.fate[id]))
    && (id in c.taken ==> c.taken[id] == c.fate[id])
  }

  ghost predicate Conserved(c: CqState) {
    forall id :: Lawful(c, id)
  }

  const EMPTY := CqState({}, {}, [], map[], map[], map[])

  /** A request is handed to the hardware. */
  function Posting(c: CqState, id: nat): CqState {
    c.(posted := c.posted + {id}, inFlight := c.inFlight + {id})
  }

  /** The hardware finishes a request and queues its completion. */
  function Finishing(c: CqState, wc: WorkCompletion): CqState {
    c.(inFlight := c.inFlight - {wc.wrId}, queue := c.queue + [wc], fate := c.fate[wc.wrId := wc.result])
  }

  /** The cache after the given completions have been stored in it one by one. */
  function Stored(cache: map<nat, WorkCompletion>, wcs: seq<WorkCompletion>): map<nat, WorkCompletion> {
    if |wcs| == 0 then cache
    else Stored(cache, wcs[..|wcs| - 1])[wcs[|wcs| - 1].wrId := wcs[|wcs| - 1]]
  }

  /** `k` completions move from the queue to the cache. */
  function Draining(c: CqState, k: nat): CqState
    requires k <= |c.queue|
  {
    c.(queue := c.queue[k..], cache := Stored(c.cache, c.queue[..k]))
  }

  /** A handle takes its completion out of the cache. */
  function Taking(c: CqState, id: nat): CqState
    requires id in c.cache
  {
    c.(cache := c.cache - {id}, taken := c.taken[id := c.cache[id].result])
  }

  lemma PostingConserves(c: CqState, id: nat)
    requires Conserved(c) && id !in c.posted
    ensures Conserved(Posting(c, id)) && Later(c, Posting(c, id))
  {
    forall i: nat
      ensures Lawful(Posting(c, id), i) && Kept(c, Posting(c, id), i)
    {
      assert Lawful(c, i);
    }
  }

  lemma FinishingConserves(c: CqState, wc: WorkCompletion)
    requires Conserved(c) && wc.wrId in c.inFlight
    ensures Conserved(Finishing(c, wc)) && Later(c, Finishing(c, wc))
  {
    var d := Finishing(c, wc);
    forall id: nat
      ensures Lawful(d, id) && Kept(c, d, id)
    {
      assert Lawful(c, id) && Lawful(c, wc.wrId);
      assert d.queue[|c.queue|] == wc;
      if InQueue(c.queue, id) {
        var x :| 0 <= x < |c.queue| && c.queue[x].wrId == id;
        assert d.queue[x].wrId == id;
      }
    }
  }

  /** Moving the queue's first completion to the cache. */
  lemma DrainOneKeeps(c: CqState, d: CqState, id: nat)
    requires Conserved(c) && |c.queue| > 0
    requires d == c.(queue := c.queue[1..], cache := c.cache[c.queue[0].wrId := c.queue[0]])
    ensures Lawful(d, id) && Kept(c, d, id)
  {
    assert Lawful(c, id) && Lawful(c, c.queue[0].wrId);
    assert InQueue(c.queue, c.queue[0].wrId);
    if InQueue(c.queue, id) && id != c.queue[0].wrId {
      var x :| 0 <= x < |c.queue| && c.queue[x].wrId == id;
      assert d.queue[x - 1].wrId == id;
    }
    if InQueue(d.queue, id) {
      var x :| 0 <= x < |d.queue| && d.queue[x].wrId == id;
      assert c.queue[x + 1].wrId == id;
    }
  }

  lemma DrainOneConserves(c: CqState)
    requires Conserved(c) && |c.queue| > 0
    ensures Conserved(c.(queue := c.queue[1..], cache := c.cache[c.queue[0].wrId := c.queue[0]]))
  {
    var d := c.(queue := c.queue[1..], cache := c.cache[c.queue[0].wrId := c.queue[0]]);
    forall id: nat
      ensures Lawful(d, id)
    {
      DrainOneKeeps(c, d, id);
    }
  }

  lemma {:induction false} DrainingConserves(c: CqState, k: nat)
    requires Conserved(c) && k <= |c.queue|
    ensures Conserved(Draining(c, k)) && Later(c, Draining(c, k))
  {
    if k == 0 {
      assert Draining(c, 0) == c;
    } else {
      DrainingConserves(c, k - 1);
      var d := Draining(c, k - 1);
      DrainOneConserves(d);
      assert d.queue[1..] == c.queue[k..];
      assert c.queue[..k][..k - 1] == c.queue[..k - 1];
    }
  }

  lemma TakingConserves(c: CqState, id: nat)
    requires Conserved(c) && id in c.cache
    ensures Conserved(Taking(c, id)) && Later(c, Taking(c, id))
    ensures id in c.fate && Taking(c, id).taken[id] == c.fate[id]
  {
    var d := Taking(c, id);
    assert Lawful(c, id);
    forall i: nat
      ensures Lawful(d, i) && Kept(c, d, i)
    {
      assert Lawful(c, i);
    }
  }

  /** Nothing that is known about request `id` is lost or changed between two states. */
  ghost predicate Kept(c: CqState, d: CqState, id: nat) {
    && (id in c.posted ==> id in d.posted)
    && (id in c.fate ==> id in d.fate && d.fate[id] == c.fate[id])
    && (id in c.taken ==> id in d.taken && d.taken[id] == c.taken[id])
  }

  ghost predicate Later(c: CqState, d: CqState) {
    forall id :: Kept(c, d, id)
  }

  lemma LaterIsTransitive(c: CqState, d: CqState, e: CqState)
    requires Later(c, d) && Later(d, e)
    ensures Later(c, e)
  {
    forall id: nat
      ensures Kept(c, e, id)
    {
      assert Kept(c, d, id) && Kept(d, e, id);
    }
  }

  /** What a request's handle has been told is the hardware's answer, then and ever after. */
  lemma AnswerIsForever(c: CqState, d: CqState, id: nat)
    requires Conserved(c) && Conserved(d) && Later(c, d) && id in c.taken
    ensures id in c.fate && id in d.taken && id in d.fate
    ensures c.taken[id] == d.taken[id] == c.fate[id] == d.fate[id]
  {
    assert Kept(c, d, id) && Lawful(c, id) && Lawful(d, id);
  }

  /** Requests that the hardware, the queue or the cache still hold. */
  ghost predicate Waiting(c: CqState, id: nat) {
    id in c.inFlight || InQueue(c.queue, id) || id in c.cache
  }

  lemma WaitingOrTaken(c: CqState, id: nat)
    requires Conserved(c) && id in c.posted
    ensures Waiting(c, id) <==> id !in c.taken
  {
    assert Lawful(c, id);
  }

  /** One step of the channel: a post, a completion by the hardware, a poll by any handle,
      a handle taking its own completion. */
  datatype Event = Posted(id: nat) | Finished(wc: WorkCompletion) | Polled(k: nat) | Took(id: nat)

  ghost predicate Possible(c: CqState, e: Event) {
    match e
    case Posted(id) => id !in c.posted
    case Finished(wc) => wc.wrId in c.inFlight
    case Polled(k) => k <= |c.queue|
    case Took(id) => id in c.cache
  }

  ghost function After(c: CqState, e: Event): CqState
    requires Possible(c, e)
  {
    match e
    case Posted(id) => Posting(c, id)
    case Finished(wc) => Finishing(c, wc)
    case Polled(k) => Draining(c, k)
    case Took(id) => Taking(c, id)
  }

  ghost predicate History(states: seq<CqState>, events: seq<Event>) {
    && |states| == |events| + 1
    && states[0] == EMPTY
    && forall t :: 0 <= t < |events| ==> Possible(states[t], events[t]) && states[t + 1] == After(states[t], events[t])
  }

  lemma EmptyConserves()
    ensures Conserved(EMPTY)
  {
  }

  lemma EventConserves(c: CqState, e: Event)
    requires Conserved(c) && Possible(c, e)
    ensures Conserved(After(c, e)) && Later(c, After(c, e))
  {
    match e
    case Posted(id) => PostingConserves(c, id);
    case Finished(wc) => FinishingConserves(c, wc);
    case Polled(k) => DrainingConserves(c, k);
    case Took(id) => TakingConserves(c, id);
  }

  /** In every reachable state the posted ids are the disjoint union of those in flight, in
      the queue, in the cache and taken, each with the hardware's own result; and an answer
      once taken never changes, however posts, completions and polls interleave. */
  lemma {:induction false} HistoryConserves(states: seq<CqState>, events: seq<Event>, t: nat, u: nat)
    requires History(states, events) && t <= u < |states|
    ensures Conserved(states[u]) && Later(states[t], states[u])
  {
    if t < u {
      HistoryConserves(states, events, t, u - 1);
      EventConserves(states[u - 1], events[u - 1]);
      LaterIsTransitive(states[t], states[u - 1], states[u]);
    } else if u > 0 {
      HistoryConserves(states, events, u - 1, u - 1);
      EventConserves(states[u - 1], events[u - 1]);
    }
  }
}
