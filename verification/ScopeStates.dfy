/** A polling scope as a value: its channels, the handles of what was posted in it, and what
    every step of the user's closure and the closing of the scope do to them. */
module ScopeStates {
  import opened Wrappers
  import opened CompletionState
  import opened QueuePolling

  /** What the user's closure does with the scope: posts, polls of handles it was given (by
      order of posting), leaking a handle. */
  datatype UserStep = Post(peer: nat, accepted: bool) | Poll(x: nat) | SpinPoll(x: nat) | Forget(x: nat)

  datatype ClosureEnd<T, E> = Returns(output: T) | Fails(error: E) | Panics(payload: string)

  datatype ScopeOutcome<T, E> =
    | Done(output: T)
    | ClosureError(error: E)
    | AutoPollError(errors: seq<TransportError>)
    | Resumed(payload: string)
    | UnpolledPanic

  /** A handle with its last answer: whether it counts as polled by the user, and whether the
      user has leaked a copy of it, so that it is never dropped. */
  datatype Handle = Handle(peer: nat, id: nat, answer: Option<Answer>, marked: bool, forgotten: bool)

  datatype Scope = Scope(channels: seq<ChannelState>, handles: seq<Handle>)

  ghost predicate GoodChannel(c: ChannelState) {
    Sound(c.queue) && forall id :: id in c.queue.cq.posted ==> id < c.nextWrId
  }

  /** A handle stands for a posted request, which is taken from its queue exactly when the
      handle's last answer is the request's own; and one that counts as polled has an answer. */
  ghost predicate GoodHandle(channels: seq<ChannelState>, h: Handle) {
    && h.peer < |channels|
    && var c := channels[h.peer].queue.cq;
    && h.id in c.posted && (h.id in c.taken <==> IsFinal(h.answer))
    && (IsFinal(h.answer) ==> c.taken[h.id] == h.answer.value.result)
    && (h.marked ==> h.answer.Some?)
  }

  ghost predicate OneHandleEach(handles: seq<Handle>) {
    forall x, y :: 0 <= x < y < |handles| && handles[x].peer == handles[y].peer ==> handles[x].id != handles[y].id
  }

  ghost predicate Good(s: Scope) {
    && (forall a :: 0 <= a < |s.channels| ==> GoodChannel(s.channels[a]))
    && (forall x :: 0 <= x < |s.handles| ==> GoodHandle(s.channels, s.handles[x]))
    && OneHandleEach(s.handles)
  }

  predicate IsHandle(s: Scope, x: nat) {
    x < |s.handles| && s.handles[x].peer < |s.channels|
  }

  function QueueOf(s: Scope, x: nat): QueueState
    requires IsHandle(s, x)
  {
    s.channels[s.handles[x].peer].queue
  }

  /** The scope after the queue has replied to handle `x`. */
  ghost function Heard(s: Scope, x: nat, r: Reply, marks: bool): Scope
    requires IsHandle(s, x)
  {
    var h := s.handles[x];
    Scope(s.channels[h.peer := s.channels[h.peer].(queue := r.queue)],
          s.handles[x := h.(answer := Newer(h.answer, r.answer), marked := h.marked || marks)])
  }

  ghost function PollOf(s: Scope, x: nat): Reply
    requires IsHandle(s, x)
  {
    PollReply(QueueOf(s, x), s.handles[x].id, s.handles[x].answer)
  }

  ghost function SpinOf(s: Scope, x: nat): Reply
    requires IsHandle(s, x)
  {
    SpinReply(QueueOf(s, x), s.handles[x].id, s.handles[x].answer)
  }

  /** The user posts: an id is used up also if the post is refused. */
  ghost function AfterPost(s: Scope, peer: nat, accepted: bool): Scope {
    if peer >= |s.channels| then s
    else
      var c := s.channels[peer];
      var id := c.nextWrId;
      if accepted then
        Scope(s.channels[peer := ChannelState(c.queue.(cq := Posting(c.queue.cq, id)), id + 1)],
              s.handles + [Handle(peer, id, None, false, false)])
      else s.(channels := s.channels[peer := c.(nextWrId := id + 1)])
  }

  /** The user polls a handle: any answer marks it. */
  ghost function AfterPoll(s: Scope, x: nat): Scope {
    if IsHandle(s, x) then Heard(s, x, PollOf(s, x), PollOf(s, x).answer.Some?) else s
  }

  /** The user waits for a handle. */
  ghost function AfterSpin(s: Scope, x: nat): Scope {
    if IsHandle(s, x) then Heard(s, x, SpinOf(s, x), true) else s
  }

  /** The scope waits for a handle on its own account, without marking it. */
  ghost function AfterWait(s: Scope, x: nat): Scope {
    if IsHandle(s, x) then Heard(s, x, SpinOf(s, x), false) else s
  }

  ghost function AfterForget(s: Scope, x: nat): Scope {
    if IsHandle(s, x) then s.(handles := s.handles[x := s.handles[x].(forgotten := true)]) else s
  }

  /** One step of the closure; a handle it was not given it cannot use. */
  ghost function AfterStep(s: Scope, step: UserStep): Scope {
    match step
    case Post(peer, accepted) => AfterPost(s, peer, accepted)
    case Poll(x) => AfterPoll(s, x)
    case SpinPoll(x) => AfterSpin(s, x)
    case Forget(x) => AfterForget(s, x)
  }

  ghost function Playing(s: Scope, steps: seq<UserStep>): Scope {
    if |steps| == 0 then s else AfterStep(Playing(s, steps[..|steps| - 1]), steps[|steps| - 1])
  }

  /** Leaving the scope deals with a handle: waits for it unless the user has, and drops it,
      which waits once more unless a copy was leaked. */
  ghost function AfterSettle(s: Scope, x: nat): Scope {
    if !IsHandle(s, x) then s
    else
      var waited := if s.handles[x].marked then s else AfterWait(s, x);
      if s.handles[x].forgotten then waited else AfterWait(waited, x)
  }

  /** The first `k` handles have been dealt with, in posting order. */
  ghost function Closing(s: Scope, k: nat): Scope {
    if k == 0 then s else AfterSettle(Closing(s, k - 1), k - 1)
  }

  ghost function Closed(s: Scope): Scope {
    Closing(s, |s.handles|)
  }

  /** The scope is left after the closure has carried out these steps. */
  ghost function Final(channels: seq<ChannelState>, steps: seq<UserStep>): Scope {
    Closed(Playing(Scope(channels, []), steps))
  }

  /** What a step can do to a handle. */
  ghost predicate SameHandle(h: Handle, g: Handle) {
    && g.peer == h.peer && g.id == h.id
    && (IsFinal(h.answer) ==> g.answer == h.answer)
    && (h.marked ==> g.marked) && (h.forgotten ==> g.forgotten)
  }

  ghost predicate NewHandle(s: Scope, t: Scope, a: nat, id: nat) {
    exists x :: |s.handles| <= x < |t.handles| && t.handles[x].peer == a && t.handles[x].id == id
  }

  ghost predicate PostedSince(s: Scope, t: Scope, a: nat, id: nat)
    requires a < |s.channels| && a < |t.channels|
  {
    id in t.channels[a].queue.cq.posted && id !in s.channels[a].queue.cq.posted
  }

  /** What holds between any two states of a scope: handles are only added, no request's own
      answer is taken back, what was posted in between has the new handles, and some polls of
      the queues have been made. */
  ghost predicate Advances(s: Scope, t: Scope) {
    && |t.channels| == |s.channels| && |t.handles| >= |s.handles|
    && (forall x :: 0 <= x < |s.handles| ==> SameHandle(s.handles[x], t.handles[x]))
    && (forall a, id :: 0 <= a < |s.channels| && id in s.channels[a].queue.cq.posted ==> id in t.channels[a].queue.cq.posted)
    && (forall a: nat, id: nat :: a < |s.channels| ==> (PostedSince(s, t, a, id) <==> NewHandle(s, t, a, id)))
    && (forall a :: 0 <= a < |s.channels| ==> IsRest(t.channels[a].queue.script, s.channels[a].queue.script))
  }

  /** A reply of its queue to handle `x`, as polls and waits give it. */
  ghost predicate ReplyFits(s: Scope, x: nat, r: Reply)
    requires IsHandle(s, x)
  {
    var h := s.handles[x];
    if IsFinal(h.answer) then r == Reply(QueueOf(s, x), h.answer)
    else
      && Sound(r.queue) && Answered(QueueOf(s, x).cq, r.queue.cq, h.id, r.answer)
      && IsRest(r.queue.script, QueueOf(s, x).script)
  }

  lemma PollFits(s: Scope, x: nat)
    requires Good(s) && x < |s.handles|
    ensures ReplyFits(s, x, PollOf(s, x))
  {
    var h := s.handles[x];
    assert GoodHandle(s.channels, h) && GoodChannel(s.channels[h.peer]);
    if !IsFinal(h.answer) {
      PollForConserves(QueueOf(s, x), h.id);
      PollForRest(QueueOf(s, x), h.id);
    }
  }

  lemma SpinFits(s: Scope, x: nat)
    requires Good(s) && x < |s.handles|
    ensures ReplyFits(s, x, SpinOf(s, x)) && SpinOf(s, x).answer.Some?
  {
    var h := s.handles[x];
    assert GoodHandle(s.channels, h) && GoodChannel(s.channels[h.peer]);
    if !IsFinal(h.answer) {
      SpinForAnswers(QueueOf(s, x), h.id);
    }
  }

  lemma HeardKeeps(s: Scope, x: nat, r: Reply, marks: bool)
    requires Good(s) && IsHandle(s, x) && ReplyFits(s, x, r) && (marks ==> r.answer.Some?)
    ensures Good(Heard(s, x, r, marks)) && Advances(s, Heard(s, x, r, marks))
  {
    var h, t := s.handles[x], Heard(s, x, r, marks);
    assert GoodHandle(s.channels, h) && GoodChannel(s.channels[h.peer]);
    forall y | 0 <= y < |t.handles|
      ensures GoodHandle(t.channels, t.handles[y]) && SameHandle(s.handles[y], t.handles[y])
    {
      assert GoodHandle(s.channels, s.handles[y]);
    }
  }

  lemma PostKeeps(s: Scope, peer: nat, accepted: bool)
    requires Good(s)
    ensures Good(AfterPost(s, peer, accepted)) && Advances(s, AfterPost(s, peer, accepted))
  {
    if peer < |s.channels| {
      var c, t := s.channels[peer], AfterPost(s, peer, accepted);
      var id := c.nextWrId;
      assert GoodChannel(c);
      PostingConserves(c.queue.cq, id);
      assert Lawful(c.queue.cq, id);
      forall y | 0 <= y < |s.handles|
        ensures GoodHandle(t.channels, t.handles[y]) && SameHandle(s.handles[y], t.handles[y])
        ensures t.handles[y].peer == peer ==> t.handles[y].id < id
      {
        assert GoodHandle(s.channels, s.handles[y]);
      }
      if accepted {
        assert t.handles[|s.handles|] == Handle(peer, id, None, false, false);
      }
    }
  }

  lemma ForgetKeeps(s: Scope, x: nat)
    requires Good(s)
    ensures Good(AfterForget(s, x)) && Advances(s, AfterForget(s, x))
  {
    if IsHandle(s, x) {
      assert GoodHandle(s.channels, s.handles[x]);
    }
  }

  lemma WaitKeeps(s: Scope, x: nat)
    requires Good(s)
    ensures Good(AfterWait(s, x)) && Advances(s, AfterWait(s, x))
  {
    if IsHandle(s, x) {
      SpinFits(s, x);
      HeardKeeps(s, x, SpinOf(s, x), false);
    }
  }

  lemma StepKeeps(s: Scope, step: UserStep)
    requires Good(s)
    ensures Good(AfterStep(s, step)) && Advances(s, AfterStep(s, step))
  {
    match step
    case Post(peer, accepted) => PostKeeps(s, peer, accepted);
    case Poll(x) =>
      if IsHandle(s, x) {
        PollFits(s, x);
        HeardKeeps(s, x, PollOf(s, x), PollOf(s, x).answer.Some?);
      }
    case SpinPoll(x) =>
      if IsHandle(s, x) {
        SpinFits(s, x);
        HeardKeeps(s, x, SpinOf(s, x), true);
      }
    case Forget(x) => ForgetKeeps(s, x);
  }

  lemma AdvancesOn(s: Scope, t: Scope, u: Scope)
    requires Advances(s, t) && Advances(t, u)
    ensures Advances(s, u)
  {
    forall x | 0 <= x < |s.handles|
      ensures SameHandle(s.handles[x], u.handles[x])
    {
      assert SameHandle(s.handles[x], t.handles[x]) && SameHandle(t.handles[x], u.handles[x]);
    }
    forall a: nat, id: nat | a < |s.channels|
      ensures PostedSince(s, u, a, id) <==> NewHandle(s, u, a, id)
    {
      assert PostedSince(s, t, a, id) <==> NewHandle(s, t, a, id);
      assert PostedSince(t, u, a, id) <==> NewHandle(t, u, a, id);
      NewHandleOn(s, t, u, a, id);
    }
    forall a | 0 <= a < |s.channels|
      ensures IsRest(u.channels[a].queue.script, s.channels[a].queue.script)
    {
      RestOfRest(u.channels[a].queue.script, t.channels[a].queue.script, s.channels[a].queue.script);
    }
  }

  lemma NewHandleOn(s: Scope, t: Scope, u: Scope, a: nat, id: nat)
    requires |s.handles| <= |t.handles| <= |u.handles|
    requires forall x :: 0 <= x < |t.handles| ==> SameHandle(t.handles[x], u.handles[x])
    ensures NewHandle(s, u, a, id) <==> NewHandle(s, t, a, id) || NewHandle(t, u, a, id)
  {
    if NewHandle(s, t, a, id) {
      var x :| |s.handles| <= x < |t.handles| && t.handles[x].peer == a && t.handles[x].id == id;
      assert SameHandle(t.handles[x], u.handles[x]);
    }
    if NewHandle(s, u, a, id) {
      var x :| |s.handles| <= x < |u.handles| && u.handles[x].peer == a && u.handles[x].id == id;
      if x < |t.handles| {
        assert SameHandle(t.handles[x], u.handles[x]);
      }
    }
  }

  lemma AdvancesSelf(s: Scope)
    ensures Advances(s, s)
  {
  }

  /** Whatever the closure does. */
  lemma {:induction false} PlayingKeeps(s: Scope, steps: seq<UserStep>)
    requires Good(s)
    ensures Good(Playing(s, steps)) && Advances(s, Playing(s, steps))
  {
    if |steps| == 0 {
      AdvancesSelf(s);
    } else {
      var t := Playing(s, steps[..|steps| - 1]);
      PlayingKeeps(s, steps[..|steps| - 1]);
      StepKeeps(t, steps[|steps| - 1]);
      AdvancesOn(s, t, Playing(s, steps));
    }
  }

  lemma SettleKeeps(s: Scope, x: nat)
    requires Good(s)
    ensures Good(AfterSettle(s, x)) && Advances(s, AfterSettle(s, x))
  {
    AdvancesSelf(s);
    var waited := if IsHandle(s, x) && !s.handles[x].marked then AfterWait(s, x) else s;
    WaitKeeps(s, x);
    WaitKeeps(waited, x);
    AdvancesOn(s, waited, AfterWait(waited, x));
  }

  lemma {:induction false} ClosingKeeps(s: Scope, k: nat)
    requires Good(s)
    ensures Good(Closing(s, k)) && Advances(s, Closing(s, k))
  {
    if k == 0 {
      AdvancesSelf(s);
    } else {
      ClosingKeeps(s, k - 1);
      SettleKeeps(Closing(s, k - 1), k - 1);
      AdvancesOn(s, Closing(s, k - 1), Closing(s, k));
    }
  }
}
