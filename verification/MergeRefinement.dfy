/** The dispatcher and `select!` on the objects, proved to be what MergeOrder makes of them. */
module MergeRefinement {
  import opened Base
  import opened Messages
  import opened Mpsc
  import opened Dispatcher
  import opened MergeOrder

  predicate DistinctTopics(topics: seq<Topic>) {
    forall i, j :: 0 <= i < j < |topics| ==> topics[i] != topics[j]
  }

  /** A receiver that subscribes to a topic, is not dropped, and holds what the inbox holds. */
  predicate Stands(d: MessageDispatcher, ch: Channel, inbox: Inbox)
    reads d, ch
  {
    ch in d.SubscribersOf(inbox.topic) && ch.deque == inbox.deque && ch.senderCount == 1 && !ch.receiverGone
  }

  /** The world that a dispatcher and the receivers of one `select!` stand for. */
  ghost predicate StandsFor(d: MessageDispatcher, receivers: seq<Channel>, w: World)
    reads d, receivers
  {
    && d.Valid() && d.localIndex == w.base + |w.log|
    && |receivers| == |w.inboxes|
    && (forall i :: 0 <= i < |receivers| ==> Stands(d, receivers[i], w.inboxes[i]))
    && (forall i, j :: 0 <= i < j < |w.inboxes| ==> w.inboxes[i].topic != w.inboxes[j].topic)
  }

  ghost function ChannelsOf(d: MessageDispatcher): set<Channel>
    reads d
  {
    set t, ch | t in d.subscribers && ch in d.subscribers[t] :: ch
  }

  lemma SubscribersAreChannels(d: MessageDispatcher, topic: Topic)
    ensures forall ch :: ch in d.SubscribersOf(topic) ==> ch in ChannelsOf(d)
  {
  }

  /** Receivers on different topics are different. */
  lemma Apart(d: MessageDispatcher, receivers: seq<Channel>, w: World)
    requires StandsFor(d, receivers, w)
    ensures forall i, j :: 0 <= i < j < |receivers| ==> receivers[i] != receivers[j]
    ensures forall i, t :: 0 <= i < |receivers| && receivers[i] in d.SubscribersOf(t) ==> t == w.inboxes[i].topic
  {
  }

  lemma {:induction false} LiveHas(channels: seq<Channel>, ch: Channel)
    requires ch in channels && !ch.receiverGone
    ensures ch in MessageDispatcher.Live(channels)
  {
    if ch != channels[0] {
      LiveHas(channels[1..], ch);
    }
  }

  // ---------------------------------------------------------------- one dispatch, one select

  method DispatchTo(d: MessageDispatcher, receivers: seq<Channel>, message: Message, ghost w: World)
    requires StandsFor(d, receivers, w)
    modifies d, d.SubscribersOf(message.destination)`deque
    ensures StandsFor(d, receivers, MergeOrder.Step(w, MergeOrder.Dispatch(message)))
    ensures ChannelsOf(d) <= old(ChannelsOf(d))
  {
    ghost var subscribed := d.SubscribersOf(message.destination);
    ghost var topics := d.subscribers;
    MessageDispatcher.LiveIsPart(subscribed);
    Apart(d, receivers, w);
    forall i | 0 <= i < |receivers| && receivers[i] in subscribed
      ensures receivers[i] in MessageDispatcher.Live(subscribed)
    {
      LiveHas(subscribed, receivers[i]);
    }
    var _ := d.Dispatch(message);
    ghost var w' := MergeOrder.Step(w, MergeOrder.Dispatch(message));
    forall i | 0 <= i < |receivers| ensures Stands(d, receivers[i], w'.inboxes[i]) {
      if w.inboxes[i].topic == message.destination {
        assert receivers[i] in subscribed;
      } else {
        assert receivers[i] !in subscribed;
      }
    }
    forall ch | ch in ChannelsOf(d) ensures ch in old(ChannelsOf(d)) {
      var t :| t in d.subscribers && ch in d.subscribers[t];
      assert t in topics && ch in topics[t];
    }
  }

  lemma SamePeeks(d: MessageDispatcher, receivers: seq<Channel>, w: World)
    requires StandsFor(d, receivers, w)
    ensures Peeks(receivers) == PeeksAt(w.inboxes)
  {
    assert forall i :: 0 <= i < |receivers| ==> Stands(d, receivers[i], w.inboxes[i]);
    hide Head;
  }

  /** What a select does to the world, by its choice. */
  lemma SelectIs(w: World)
    ensures var c, w' := Choose(PeeksAt(w.inboxes)), MergeOrder.Step(w, MergeOrder.Select);
      if c.NoChoice? then w' == w
      else
        && c.ind < |w.inboxes| && w.inboxes[c.ind].deque != []
        && var deque := w.inboxes[c.ind].deque;
           w' == w.(inboxes := w.inboxes[c.ind := w.inboxes[c.ind].(deque := deque[1..])],
             taken := w.taken + [deque[0]])
  {
    ChoiceIsLeast(PeeksAt(w.inboxes));
    hide Choose;
  }

  method SelectFrom(d: MessageDispatcher, receivers: seq<Channel>, ghost w: World) returns (r: Option<Item>)
    requires StandsFor(d, receivers, w)
    modifies receivers
    ensures StandsFor(d, receivers, MergeOrder.Step(w, MergeOrder.Select))
    ensures MergeOrder.Step(w, MergeOrder.Select).taken == w.taken + match r case None => [] case Some(item) => [item]
  {
    hide Choose, MergeOrder.Step, PeeksAt, Peeks;
    Apart(d, receivers, w);
    SamePeeks(d, receivers, w);
    SelectIs(w);
    var got := Dispatcher.Select(receivers);
    ghost var c := Choose(PeeksAt(w.inboxes));
    ghost var w' := MergeOrder.Step(w, MergeOrder.Select);
    forall i | 0 <= i < |receivers| ensures Stands(d, receivers[i], w'.inboxes[i]) {
      assert old(Stands(d, receivers[i], w.inboxes[i]));
      assert c.NoChoice? || i != c.ind ==> receivers[i].deque == old(receivers[i].deque);
    }
    match got {
      case None => r := None;
      case Some((_, Got(item))) => r := Some(item);
      case Some((_, _)) => r := None;
    }
  }

  // ---------------------------------------------------------------- a run

  /** Dispatches and selects in any order; returns what the selects took. */
  method Merge(d: MessageDispatcher, receivers: seq<Channel>, acts: seq<Act>, ghost w: World) returns (taken: seq<Item>)
    requires StandsFor(d, receivers, w)
    modifies d, ChannelsOf(d)
    ensures StandsFor(d, receivers, MergeOrder.Run(w, acts))
    ensures MergeOrder.Run(w, acts).taken == w.taken + taken
  {
    hide MergeOrder.Step;
    ghost var now := w;
    taken := [];
    var i := 0;
    while i < |acts|
      invariant i <= |acts| && StandsFor(d, receivers, now) && ChannelsOf(d) <= old(ChannelsOf(d))
      invariant MergeOrder.Run(w, acts) == MergeOrder.Run(now, acts[i..]) && now.taken == w.taken + taken
    {
      assert acts[i..][1..] == acts[i + 1..];
      match acts[i] {
        case Dispatch(message) =>
          SubscribersAreChannels(d, message.destination);
          DispatchTo(d, receivers, message, now);
          DispatchTakesNone(now, message);
        case Select =>
          var r := SelectFrom(d, receivers, now);
          if r.Some? {
            taken := taken + [r.value];
          }
      }
      now := MergeOrder.Step(now, acts[i]);
      i := i + 1;
    }
    assert acts[i..] == [];
  }

  lemma DispatchTakesNone(w: World, message: Message)
    ensures MergeOrder.Step(w, MergeOrder.Dispatch(message)).taken == w.taken
  {
  }

  // ---------------------------------------------------------------- subscribing

  /** The world of receivers that have just subscribed. */
  function Subscribing(base: nat, topics: seq<Topic>): World {
    World(base, seq(|topics|, i requires 0 <= i < |topics| => Inbox(topics[i], [])), [], [])
  }

  /** One more receiver, on a topic of its own. */
  method SubscribeOne(d: MessageDispatcher, receivers: seq<Channel>, topic: Topic, ghost w: World)
    returns (receiver: Channel)
    requires StandsFor(d, receivers, w) && forall i :: 0 <= i < |w.inboxes| ==> w.inboxes[i].topic != topic
    modifies d
    ensures StandsFor(d, receivers + [receiver], w.(inboxes := w.inboxes + [Inbox(topic, [])]))
    ensures fresh(receiver) && d.localIndex == old(d.localIndex) && ChannelsOf(d) <= old(ChannelsOf(d)) + {receiver}
  {
    ghost var before := d.subscribers;
    receiver := d.Subscribe(topic);
    forall i | 0 <= i < |receivers| ensures Stands(d, receivers[i], w.inboxes[i]) {
      assert old(Stands(d, receivers[i], w.inboxes[i]));
    }
    forall ch | ch in ChannelsOf(d) ensures ch == receiver || ch in old(ChannelsOf(d)) {
      var t :| t in d.subscribers && ch in d.subscribers[t];
      assert t != topic ==> t in before && ch in before[t];
      assert t == topic && ch != receiver ==> topic in before && ch in before[topic];
    }
  }

  method SubscribeAll(d: MessageDispatcher, topics: seq<Topic>) returns (receivers: seq<Channel>)
    requires d.Valid() && DistinctTopics(topics)
    modifies d
    ensures StandsFor(d, receivers, Subscribing(old(d.localIndex), topics))
    ensures d.localIndex == old(d.localIndex)
    ensures forall ch :: ch in ChannelsOf(d) ==> ch in old(ChannelsOf(d)) || fresh(ch)
  {
    receivers := [];
    var i := 0;
    ghost var base := d.localIndex;
    while i < |topics|
      invariant i <= |topics| && d.localIndex == base
      invariant StandsFor(d, receivers, Subscribing(base, topics[..i]))
      invariant forall ch :: ch in ChannelsOf(d) ==> ch in old(ChannelsOf(d)) || fresh(ch)
    {
      hide StandsFor, ChannelsOf;
      ghost var w := Subscribing(base, topics[..i]);
      var receiver := SubscribeOne(d, receivers, topics[i], w);
      SubscribingMore(base, topics, i);
      receivers := receivers + [receiver];
      i := i + 1;
    }
    assert topics[..i] == topics;
  }

  lemma SubscribingMore(base: nat, topics: seq<Topic>, n: nat)
    requires n < |topics|
    ensures var w := Subscribing(base, topics[..n]);
      Subscribing(base, topics[..n + 1]) == w.(inboxes := w.inboxes + [Inbox(topics[n], [])])
  {
  }

  /** `MergesInOrder`, with what it means for another select to find nothing. */
  lemma SubscribersMerge(base: nat, topics: seq<Topic>, acts: seq<Act>)
    requires DistinctTopics(topics)
    ensures var w' := MergeOrder.Run(Subscribing(base, topics), acts);
      var r := Restricted(w'.base, w'.log, w'.inboxes);
      && |w'.taken| <= |r| && w'.taken == r[..|w'.taken|]
      && (MergeOrder.Step(w', MergeOrder.Select) == w' ==> w'.taken == r)
  {
    MergesInOrder(Subscribing(base, topics), acts);
    hide MergeOrder.Step, Restricted, MergeOrder.Run;
  }

  /**
    Subscribing to different topics and then merging, whatever dispatches come in between, takes the first
    of the messages dispatched on these topics, in the order of the dispatcher's numbers, and all of them
    if another select would find nothing.
  */
  method MergeTopics(d: MessageDispatcher, topics: seq<Topic>, acts: seq<Act>) returns (taken: seq<Item>)
    requires d.Valid() && DistinctTopics(topics)
    modifies d, ChannelsOf(d)
    ensures var w' := MergeOrder.Run(Subscribing(old(d.localIndex), topics), acts);
      var r := Restricted(w'.base, w'.log, w'.inboxes);
      && |taken| <= |r| && taken == r[..|taken|] && taken == w'.taken
      && (MergeOrder.Step(w', MergeOrder.Select) == w' ==> taken == r)
  {
    hide MergeOrder.Step, Restricted, MergeOrder.Run, StandsFor;
    SubscribersMerge(d.localIndex, topics, acts);
    ghost var w := Subscribing(d.localIndex, topics);
    var receivers := SubscribeAll(d, topics);
    taken := Merge(d, receivers, acts, w);
  }
}
