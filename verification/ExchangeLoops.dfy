/** The loops of one node and the node's steps in the interleaved exchange are the same
    computation: what a node has kept is what its loops keep of the messages it has read. */
module ExchangeLoops {
  import opened Framing
  import opened Exchange
  import opened ExchangeSafety
  import opened Exchanger

  /** The message a step lets node `i` read while serving, if any. */
  ghost function ServedBy<T>(w: World<T>, a: Action, i: nat): seq<Message<T>> {
    if a == ServeRead(i) && Shape(w) && Enabled(w, a) then [w.links[(w.nodes[i].phase.peer, i)].up[0]] else []
  }

  /** The same while connecting. */
  ghost function FetchedBy<T>(w: World<T>, a: Action, i: nat): seq<Message<T>> {
    if a == ConnectRead(i) && Shape(w) && Enabled(w, a) then [w.links[(i, w.nodes[i].phase.peer)].down[0]] else []
  }

  /** The messages node `i` has read while serving, in the first `t` steps of a run. */
  ghost function ServedMessages<T>(worlds: seq<World<T>>, actions: seq<Action>, t: nat, i: nat): seq<Message<T>>
    requires t <= |actions| < |worlds|
  {
    if t == 0 then [] else ServedMessages(worlds, actions, t - 1, i) + ServedBy(worlds[t - 1], actions[t - 1], i)
  }

  /** The messages node `i` has read while connecting. */
  ghost function FetchedMessages<T>(worlds: seq<World<T>>, actions: seq<Action>, t: nat, i: nat): seq<Message<T>>
    requires t <= |actions| < |worlds|
  {
    if t == 0 then [] else FetchedMessages(worlds, actions, t - 1, i) + FetchedBy(worlds[t - 1], actions[t - 1], i)
  }

  lemma ReceivedOneMore<T>(ms: seq<Message<T>>, m: Message<T>, lo: nat, hi: nat)
    ensures Received(ms + [m], lo, hi) == InsertIfValid(Received(ms, lo, hi), m, lo, hi)
  {
    assert (ms + [m])[..|ms|] == ms;
  }

  lemma ServedStep<T>(w: World<T>, a: Action, i: nat, ms: seq<Message<T>>)
    requires Shape(w) && Enabled(w, a) && i < |w.nodes| && w.nodes[i].served == Received(ms, 0, i)
    ensures |Apply(w, a).nodes| == |w.nodes|
    ensures Apply(w, a).nodes[i].served == Received(ms + ServedBy(w, a, i), 0, i)
  {
    if a == ServeRead(i) {
      ReceivedOneMore(ms, w.links[(w.nodes[i].phase.peer, i)].up[0], 0, i);
    } else {
      OthersKeep(w, a, i);
      assert ms + [] == ms;
    }
  }

  lemma FetchedStep<T>(w: World<T>, a: Action, i: nat, ms: seq<Message<T>>)
    requires Shape(w) && Enabled(w, a) && i < |w.nodes| && w.nodes[i].fetched == Received(ms, i + 1, |w.data|)
    ensures |Apply(w, a).nodes| == |w.nodes|
    ensures Apply(w, a).nodes[i].fetched == Received(ms + FetchedBy(w, a, i), i + 1, |w.data|)
  {
    if a == ConnectRead(i) {
      ReceivedOneMore(ms, w.links[(i, w.nodes[i].phase.peer)].down[0], i + 1, |w.data|);
    } else {
      OthersKeep(w, a, i);
      assert ms + [] == ms;
    }
  }

  /** In every state of every run. */
  lemma {:induction false} NodeKeepsWhatLoopsKeep<T>(
    data: seq<T>, worlds: seq<World<T>>, actions: seq<Action>, t: nat, i: nat)
    requires Run(data, worlds, actions) && t < |worlds| && i < |data|
    ensures |worlds[t].nodes| == |worlds[t].data| == |data|
    ensures worlds[t].nodes[i].served == Received(ServedMessages(worlds, actions, t, i), 0, i)
    ensures worlds[t].nodes[i].fetched == Received(FetchedMessages(worlds, actions, t, i), i + 1, |data|)
  {
    RunKeeps(data, worlds, actions, t);
    if t > 0 {
      NodeKeepsWhatLoopsKeep(data, worlds, actions, t - 1, i);
      ServedStep(worlds[t - 1], actions[t - 1], i, ServedMessages(worlds, actions, t - 1, i));
      FetchedStep(worlds[t - 1], actions[t - 1], i, FetchedMessages(worlds, actions, t - 1, i));
    }
  }

  lemma OthersKeep<T>(w: World<T>, a: Action, i: nat)
    requires Shape(w) && Enabled(w, a) && i < |w.nodes|
    ensures |Apply(w, a).nodes| == |w.nodes|
    ensures a != ServeRead(i) ==> Apply(w, a).nodes[i].served == w.nodes[i].served
    ensures a != ConnectRead(i) ==> Apply(w, a).nodes[i].fetched == w.nodes[i].fetched
  {
  }

  /** A node accepts another connection exactly while the serving loop would go on, and stops
      serving exactly when the loop would end. */
  lemma ServesLikeTheLoop<T>(data: seq<T>, worlds: seq<World<T>>, actions: seq<Action>, t: nat, i: nat)
    requires Run(data, worlds, actions) && t < |worlds| && i < |data|
    ensures |worlds[t].data| == |worlds[t].nodes| == |data| && Shape(worlds[t])
    ensures
      worlds[t].nodes[i].phase.Serving? ==>
        var ms := ServedMessages(worlds, actions, t, i);
        && (Unheard(ms, 0, i) ==> !Enabled(worlds[t], StopServing(i)))
        && (!Unheard(ms, 0, i) ==> Enabled(worlds[t], StopServing(i)) && forall p :: !Enabled(worlds[t], Accept(i, p)))
  {
    RunKeeps(data, worlds, actions, t);
    NodeKeepsWhatLoopsKeep(data, worlds, actions, t, i);
    CountMeansAll(ServedMessages(worlds, actions, t, i), i);
  }
}
