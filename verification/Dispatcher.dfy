/** The dispatcher of a worker and its `select!` (crates/phala-mq/src/dispatcher.rs). */
module Dispatcher {
  import opened Base
  import opened Messages
  import opened Mpsc

  // ---------------------------------------------------------------- the choice of select!

  datatype Choice = NoChoice | Chosen(sn: nat, ind: nat)

  /** The running minimum of `select!`: a receiver whose senders have gone counts as number zero. */
  function Choose(peeks: seq<Peek>): Choice {
    if peeks == [] then NoChoice
    else
      var n := |peeks| - 1;
      var c := Choose(peeks[..n]);
      match peeks[n]
      case Next(sn) => if c.NoChoice? || sn < c.sn then Chosen(sn, n) else c
      case Gone => Chosen(0, n)
      case Empty => c
  }

  /** The last receiver whose senders have gone is chosen if there is one, else the first with the least number. */
  lemma {:induction false} ChoiceIsLeast(peeks: seq<Peek>)
    ensures var c := Choose(peeks);
      && (c.NoChoice? <==> forall i :: 0 <= i < |peeks| ==> peeks[i].Empty?)
      && (c.Chosen? ==> c.ind < |peeks|)
      && (c.Chosen? && (exists i :: 0 <= i < |peeks| && peeks[i].Gone?) ==>
            peeks[c.ind].Gone? && c.sn == 0 && forall i :: c.ind < i < |peeks| ==> !peeks[i].Gone?)
      && (c.Chosen? && (forall i :: 0 <= i < |peeks| ==> !peeks[i].Gone?) ==>
            && peeks[c.ind] == Next(c.sn)
            && (forall i :: 0 <= i < |peeks| && peeks[i].Next? ==> c.sn <= peeks[i].sn)
            && (forall i :: 0 <= i < c.ind && peeks[i].Next? ==> c.sn < peeks[i].sn))
  {
    if peeks != [] {
      var n := |peeks| - 1;
      ChoiceIsLeast(peeks[..n]);
      assert forall i :: 0 <= i < n ==> peeks[..n][i] == peeks[i];
      assert (exists i :: 0 <= i < n && peeks[..n][i].Gone?) ==> exists i :: 0 <= i < n && peeks[i].Gone?;
    }
  }

  lemma ChooseMore(peeks: seq<Peek>, n: nat)
    requires n < |peeks|
    ensures var c := Choose(peeks[..n]);
      Choose(peeks[..n + 1]) ==
        match peeks[n]
        case Next(sn) => if c.NoChoice? || sn < c.sn then Chosen(sn, n) else c
        case Gone => Chosen(0, n)
        case Empty => c
  {
    assert peeks[..n + 1][..n] == peeks[..n];
  }

  ghost function Peeks(receivers: seq<Channel>): seq<Peek>
    reads receivers
  {
    seq(|receivers|, i requires 0 <= i < |receivers| reads receivers =>
      Head(receivers[i].deque, receivers[i].senderCount))
  }

  /**
    In what the receivers hold and the senders they have: nothing is chosen exactly if all are empty and have
    senders, one without senders if there is one that is empty, and else one that holds the least number.
  */
  lemma ChoiceMeans(deques: seq<seq<Item>>, senders: seq<nat>)
    requires |deques| == |senders|
    ensures var c := Choose(seq(|deques|, i requires 0 <= i < |deques| => Head(deques[i], senders[i])));
      && (c.Chosen? ==> c.ind < |deques|)
      && (c.NoChoice? <==> forall i :: 0 <= i < |deques| ==> deques[i] == [] && senders[i] > 0)
      && (c.Chosen? && deques[c.ind] == [] <==> exists i :: 0 <= i < |deques| && deques[i] == [] && senders[i] == 0)
      && (c.Chosen? && deques[c.ind] == [] ==> senders[c.ind] == 0)
      && (c.Chosen? && deques[c.ind] != [] ==>
            forall i :: 0 <= i < |deques| && deques[i] != [] ==> deques[c.ind][0].0 <= deques[i][0].0)
  {
    var peeks := seq(|deques|, i requires 0 <= i < |deques| => Head(deques[i], senders[i]));
    ChoiceIsLeast(peeks);
    assert forall i :: 0 <= i < |deques| ==> peeks[i] == Head(deques[i], senders[i]);
    hide Choose;
  }

  /** `select!`: peeks at every receiver and takes from the chosen one; None if all are empty. */
  method Select(receivers: seq<Channel>) returns (r: Option<(nat, Received)>)
    modifies receivers
    ensures var c := Choose(old(Peeks(receivers)));
      if c.NoChoice? then r == None && forall ch :: ch in receivers ==> ch.deque == old(ch.deque)
      else
        && r.Some? && r.value.0 == c.ind < |receivers|
        && (forall ch :: ch in receivers && ch != receivers[c.ind] ==> ch.deque == old(ch.deque))
        && (match Head(old(receivers[c.ind].deque), old(receivers[c.ind].senderCount))
            case Next(_) => r.value.1 == Got(old(receivers[c.ind].deque)[0])
                            && receivers[c.ind].deque == old(receivers[c.ind].deque)[1..]
            case Gone => r.value.1 == SenderGone && receivers[c.ind].deque == old(receivers[c.ind].deque)
            case Empty => false)
    ensures forall ch :: ch in receivers ==>
      ch.senderCount == old(ch.senderCount) && ch.receiverGone == old(ch.receiverGone)
  {
    var min: Option<nat> := None;
    var minInd := 0;
    var ind := 0;
    ghost var peeks := Peeks(receivers);
    while ind < |receivers|
      invariant ind <= |receivers| && Peeks(receivers) == peeks
      invariant forall ch :: ch in receivers ==>
        ch.deque == old(ch.deque) && ch.senderCount == old(ch.senderCount) && ch.receiverGone == old(ch.receiverGone)
      invariant Choose(peeks[..ind]) == match min case None => NoChoice case Some(sn) => Chosen(sn, minInd)
    {
      ChooseMore(peeks, ind);
      hide Choose;
      var p := receivers[ind].PeekInd();
      assert p == Peeks(receivers)[ind];
      match p {
        case Next(sn) =>
          if min.None? || sn < min.value {
            min, minInd := Some(sn), ind;
          }
        case Gone => min, minInd := Some(0), ind;
        case Empty =>
      }
      ind := ind + 1;
    }
    assert peeks[..ind] == peeks;
    ChoiceIsLeast(peeks);
    hide Choose;
    if min.None? {
      return None;
    }
    var got := receivers[minInd].TryNext();
    return Some((minInd, got));
  }

  // ---------------------------------------------------------------- the dispatcher

  /** Every subscription has a channel of its own. */
  predicate OwnChannels(subscribers: map<Topic, seq<Channel>>) {
    && (forall t, i, j :: t in subscribers && 0 <= i < j < |subscribers[t]| ==> subscribers[t][i] != subscribers[t][j])
    && (forall t, t', c :: t in subscribers && t' in subscribers && c in subscribers[t] && c in subscribers[t'] ==>
      t == t')
  }

  lemma FewerSubscribers(subscribers: map<Topic, seq<Channel>>, topic: Topic, kept: seq<Channel>)
    requires OwnChannels(subscribers) && topic in subscribers
    requires forall ch :: ch in kept ==> ch in subscribers[topic]
    requires forall i, j :: 0 <= i < j < |kept| ==> kept[i] != kept[j]
    ensures OwnChannels(subscribers[topic := kept])
  {
  }

  class MessageDispatcher {
    var subscribers: map<Topic, seq<Channel>>
    var localIndex: nat

    predicate Valid()
      reads this
    {
      OwnChannels(subscribers)
    }

    constructor ()
      ensures Valid() && subscribers == map[] && localIndex == 0
    {
      subscribers, localIndex := map[], 0;
    }

    lemma OwnApart()
      requires Valid()
      ensures forall t, i, j :: t in subscribers && 0 <= i < j < |subscribers[t]| ==>
        subscribers[t][i] != subscribers[t][j]
    {
    }

    function SubscribersOf(topic: Topic): seq<Channel>
      reads this
    {
      if topic in subscribers then subscribers[topic] else []
    }

    method Subscribe(path: Topic) returns (receiver: Channel)
      requires Valid()
      modifies this`subscribers
      ensures Valid() && fresh(receiver) && receiver.deque == [] && receiver.senderCount == 1 && !receiver.receiverGone
      ensures subscribers == old(subscribers)[path := old(SubscribersOf(path)) + [receiver]]
    {
      receiver := new Channel();
      subscribers := subscribers[path := SubscribersOf(path) + [receiver]];
    }

    /** The channels whose receiver is there. */
    static ghost function Live(channels: seq<Channel>): seq<Channel>
      reads channels`receiverGone
    {
      if channels == [] then []
      else (if channels[0].receiverGone then [] else [channels[0]]) + Live(channels[1..])
    }

    static lemma {:induction false} LiveIsPart(channels: seq<Channel>)
      ensures |Live(channels)| <= |channels| && forall ch :: ch in Live(channels) ==> ch in channels && !ch.receiverGone
    {
      if channels != [] {
        LiveIsPart(channels[1..]);
      }
    }

    /** No live channel is left out. */
    static lemma {:induction false} LiveIsAll(channels: seq<Channel>)
      ensures forall ch :: ch in channels && !ch.receiverGone ==> ch in Live(channels)
    {
      if channels != [] {
        LiveIsAll(channels[1..]);
      }
    }

    static lemma {:induction false} LiveDistinct(channels: seq<Channel>)
      requires forall i, j :: 0 <= i < j < |channels| ==> channels[i] != channels[j]
      ensures var live := Live(channels); forall i, j :: 0 <= i < j < |live| ==> live[i] != live[j]
    {
      if channels != [] {
        LiveDistinct(channels[1..]);
        LiveIsPart(channels[1..]);
        var rest := Live(channels[1..]);
        assert forall i :: 0 <= i < |rest| ==> rest[i] in rest;
        assert Live(channels) == if channels[0].receiverGone then rest else [channels[0]] + rest;
      }
    }

    /** What a channel holds after a message was sent to it. */
    static function AfterSend(ch: Channel, item: Item): seq<Item>
      reads ch
    {
      if ch.receiverGone then ch.deque else ch.deque + [item]
    }

    static lemma LiveFrom(channels: seq<Channel>, i: nat)
      requires i <= |channels|
      ensures i == |channels| ==> Live(channels[i..]) == []
      ensures i < |channels| ==>
        Live(channels[i..]) == (if channels[i].receiverGone then [] else [channels[i]]) + Live(channels[i + 1..])
    {
      assert i < |channels| ==> channels[i..][1..] == channels[i + 1..];
    }

    /** The `retain` of `dispatch`: sends to every channel and keeps those that took the message. */
    static method SendAll(receivers: seq<Channel>, item: Item) returns (kept: seq<Channel>)
      requires forall i, j :: 0 <= i < j < |receivers| ==> receivers[i] != receivers[j]
      modifies receivers`deque
      ensures kept == old(Live(receivers))
      ensures forall ch :: ch in receivers ==> ch.deque == old(AfterSend(ch, item))
    {
      hide Live;
      kept := [];
      var i := 0;
      assert receivers[0..] == receivers;
      while i < |receivers|
        invariant i <= |receivers| && kept + Live(receivers[i..]) == old(Live(receivers))
        invariant forall k :: 0 <= k < i ==> receivers[k].deque == old(AfterSend(receivers[k], item))
        invariant forall k :: i <= k < |receivers| ==> receivers[k].deque == old(receivers[k].deque)
      {
        LiveFrom(receivers, i);
        var sent := receivers[i].Send(item);
        if sent {
          kept := kept + [receivers[i]];
        }
        i := i + 1;
      }
      LiveFrom(receivers, i);
    }

    /** Every live subscriber of the topic gets the message under the next number; the others are let go. */
    method Dispatch(message: Message) returns (count: nat)
      requires Valid()
      modifies this, SubscribersOf(message.destination)`deque
      ensures Valid() && localIndex == old(localIndex) + 1
      ensures forall ch :: ch in old(SubscribersOf(message.destination)) ==>
        ch.deque == old(AfterSend(ch, (localIndex, message)))
      ensures SubscribersOf(message.destination) == old(Live(SubscribersOf(message.destination)))
      ensures count == |SubscribersOf(message.destination)|
      ensures subscribers.Keys == old(subscribers).Keys
      ensures forall t :: t in subscribers && t != message.destination ==> subscribers[t] == old(subscribers)[t]
    {
      var sn := localIndex;
      localIndex := localIndex + 1;
      count := 0;
      if message.destination in subscribers {
        hide Live, AfterSend, OwnChannels;
        assert forall i, j :: 0 <= i < j < |subscribers[message.destination]| ==>
          subscribers[message.destination][i] != subscribers[message.destination][j] by { OwnApart(); }
        var receivers := subscribers[message.destination];
        var kept := SendAll(receivers, (sn, message));
        LiveIsPart(receivers);
        LiveDistinct(receivers);
        count := |kept|;
        FewerSubscribers(subscribers, message.destination, kept);
        subscribers := subscribers[message.destination := kept];
      }
    }

    method ResetLocalIndex()
      modifies this`localIndex
      ensures localIndex == 0
    {
      localIndex := 0;
    }
  }
}
