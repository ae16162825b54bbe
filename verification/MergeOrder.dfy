/**
  `select!` as a merge: receivers on different topics, taken from one at a time between
  arbitrary dispatches, give the messages back in the order in which they were dispatched.
*/
module MergeOrder {
  import opened Messages
  import opened Mpsc
  import opened Dispatcher

  datatype Inbox = Inbox(topic: Topic, deque: seq<Item>)

  /** The receivers of one `select!`, what was dispatched since they subscribed, and what they took. */
  datatype World = World(base: nat, inboxes: seq<Inbox>, log: seq<Message>, taken: seq<Item>)

  datatype Act = Dispatch(message: Message) | Select

  function Posted(inboxes: seq<Inbox>, item: Item): seq<Inbox> {
    seq(|inboxes|, i requires 0 <= i < |inboxes| =>
      if inboxes[i].topic == item.1.destination then inboxes[i].(deque := inboxes[i].deque + [item]) else inboxes[i])
  }

  function PeeksAt(inboxes: seq<Inbox>): seq<Peek> {
    seq(|inboxes|, i requires 0 <= i < |inboxes| => Head(inboxes[i].deque, 1))
  }

  function Step(w: World, a: Act): World {
    match a
    case Dispatch(message) =>
      w.(inboxes := Posted(w.inboxes, (w.base + |w.log|, message)), log := w.log + [message])
    case Select =>
      var c := Choose(PeeksAt(w.inboxes));
      if c.NoChoice? || c.ind >= |w.inboxes| || w.inboxes[c.ind].deque == [] then w
      else
        var inbox := w.inboxes[c.ind];
        w.(inboxes := w.inboxes[c.ind := inbox.(deque := inbox.deque[1..])], taken := w.taken + [inbox.deque[0]])
  }

  predicate Subscribed(inboxes: seq<Inbox>, topic: Topic) {
    exists i :: 0 <= i < |inboxes| && inboxes[i].topic == topic
  }

  /** The dispatched messages on subscribed topics, with their numbers. */
  function Restricted(base: nat, log: seq<Message>, inboxes: seq<Inbox>): seq<Item> {
    if log == [] then []
    else
      var n := |log| - 1;
      Restricted(base, log[..n], inboxes) +
        (if Subscribed(inboxes, log[n].destination) then [(base + n, log[n])] else [])
  }

  function OnTopic(items: seq<Item>, topic: Topic): seq<Item> {
    if items == [] then []
    else (if items[0].1.destination == topic then [items[0]] else []) + OnTopic(items[1..], topic)
  }

  predicate SameTopics(a: seq<Inbox>, b: seq<Inbox>) {
    |a| == |b| && forall i :: 0 <= i < |a| ==> a[i].topic == b[i].topic
  }

  // ---------------------------------------------------------------- the restricted order

  predicate Numbered(r: seq<Item>, inboxes: seq<Inbox>, end: nat) {
    && (forall i :: 0 <= i < |r| ==> r[i].0 < end && Subscribed(inboxes, r[i].1.destination))
    && (forall i, j :: 0 <= i < j < |r| ==> r[i].0 < r[j].0)
  }

  lemma {:induction false} RestrictedNumbers(base: nat, log: seq<Message>, inboxes: seq<Inbox>)
    ensures Numbered(Restricted(base, log, inboxes), inboxes, base + |log|)
  {
    if log != [] {
      var n := |log| - 1;
      RestrictedNumbers(base, log[..n], inboxes);
      var before := Restricted(base, log[..n], inboxes);
      assert Numbered(before, inboxes, base + n);
      hide Subscribed;
    }
  }

  lemma SubscribedSame(a: seq<Inbox>, b: seq<Inbox>, topic: Topic)
    requires SameTopics(a, b) && Subscribed(a, topic)
    ensures Subscribed(b, topic)
  {
    var i :| 0 <= i < |a| && a[i].topic == topic;
    assert b[i].topic == topic;
  }

  lemma {:induction false} RestrictedSame(base: nat, log: seq<Message>, a: seq<Inbox>, b: seq<Inbox>)
    requires SameTopics(a, b)
    ensures Restricted(base, log, a) == Restricted(base, log, b)
  {
    if log != [] {
      RestrictedSame(base, log[..|log| - 1], a, b);
      var topic := log[|log| - 1].destination;
      hide Subscribed;
      if Subscribed(a, topic) {
        SubscribedSame(a, b, topic);
      } else if Subscribed(b, topic) {
        SubscribedSame(b, a, topic);
      }
    }
  }

  lemma {:induction false} OnTopicAppended(items: seq<Item>, x: Item, topic: Topic)
    ensures OnTopic(items + [x], topic) == OnTopic(items, topic) + if x.1.destination == topic then [x] else []
  {
    if items == [] {
      assert [x][1..] == [] && items + [x] == [x];
    } else {
      OnTopicAppended(items[1..], x, topic);
      assert (items + [x])[1..] == items[1..] + [x];
    }
  }

  lemma {:induction false} OnTopicPart(items: seq<Item>, topic: Topic)
    ensures forall x :: x in OnTopic(items, topic) ==> x in items && x.1.destination == topic
  {
    if items != [] {
      OnTopicPart(items[1..], topic);
    }
  }

  // ---------------------------------------------------------------- the invariant

  /** What was taken is a beginning of the restricted order, and every inbox holds its part of the rest. */
  ghost predicate Inv(w: World) {
    var r := Restricted(w.base, w.log, w.inboxes);
    && (forall i, j :: 0 <= i < j < |w.inboxes| ==> w.inboxes[i].topic != w.inboxes[j].topic)
    && |w.taken| <= |r| && r[..|w.taken|] == w.taken
    && (forall i :: 0 <= i < |w.inboxes| ==> w.inboxes[i].deque == OnTopic(r[|w.taken|..], w.inboxes[i].topic))
  }

  lemma DispatchKeeps(w: World, message: Message)
    requires Inv(w)
    ensures Inv(Step(w, Dispatch(message)))
  {
    var w' := Step(w, Dispatch(message));
    var item := (w.base + |w.log|, message);
    var r, k := Restricted(w.base, w.log, w.inboxes), |w.taken|;
    RestrictedSame(w.base, w'.log, w'.inboxes, w.inboxes);
    assert w'.log[..|w.log|] == w.log;
    var r' := Restricted(w.base, w'.log, w.inboxes);
    assert r' == r + if Subscribed(w.inboxes, message.destination) then [item] else [];
    hide Restricted;
    forall i | 0 <= i < |w.inboxes| ensures w'.inboxes[i].deque == OnTopic(r'[k..], w.inboxes[i].topic) {
      OnTopicAppended(r[k..], item, w.inboxes[i].topic);
      assert w.inboxes[i].deque == OnTopic(r[k..], w.inboxes[i].topic);
      if Subscribed(w.inboxes, message.destination) {
        assert r'[k..] == r[k..] + [item];
      } else {
        assert r' == r && w.inboxes[i].topic != message.destination;
      }
    }
  }

  /** The next message of the restricted order heads its own inbox, and every other head has a greater number. */
  lemma HeadOfRest(w: World, i: nat)
    requires Inv(w) && i < |w.inboxes|
    requires |w.taken| < |Restricted(w.base, w.log, w.inboxes)|
    ensures var r := Restricted(w.base, w.log, w.inboxes);
      var x, deque := r[|w.taken|], w.inboxes[i].deque;
      if x.1.destination == w.inboxes[i].topic
      then deque == [x] + OnTopic(r[|w.taken| + 1..], w.inboxes[i].topic)
      else deque == OnTopic(r[|w.taken| + 1..], w.inboxes[i].topic) && (deque != [] ==> deque[0].0 > x.0)
  {
    var r, k := Restricted(w.base, w.log, w.inboxes), |w.taken|;
    assert r[k..][1..] == r[k + 1..];
    OnTopicPart(r[k + 1..], w.inboxes[i].topic);
    RestrictedNumbers(w.base, w.log, w.inboxes);
    hide Restricted, OnTopic;
    var rest := OnTopic(r[k + 1..], w.inboxes[i].topic);
    if rest != [] {
      assert rest[0] in r[k + 1..];
    }
  }

  /** The receiver that `select!` chooses. */
  lemma SelectsNext(w: World) returns (j: nat)
    requires Inv(w)
    requires |w.taken| < |Restricted(w.base, w.log, w.inboxes)|
    ensures var x := Restricted(w.base, w.log, w.inboxes)[|w.taken|];
      j < |w.inboxes| && w.inboxes[j].topic == x.1.destination && Choose(PeeksAt(w.inboxes)) == Chosen(x.0, j)
  {
    var r := Restricted(w.base, w.log, w.inboxes);
    var x := r[|w.taken|];
    RestrictedNumbers(w.base, w.log, w.inboxes);
    j :| 0 <= j < |w.inboxes| && w.inboxes[j].topic == x.1.destination;
    forall i | 0 <= i < |w.inboxes|
      ensures i == j ==> Head(w.inboxes[i].deque, 1) == Next(x.0)
      ensures i != j && Head(w.inboxes[i].deque, 1).Next? ==> Head(w.inboxes[i].deque, 1).sn > x.0
    {
      HeadOfRest(w, i);
    }
    hide Restricted, OnTopic;
    ChoiceIsLeast(PeeksAt(w.inboxes));
    assert PeeksAt(w.inboxes)[j] == Next(x.0);
    hide Choose;
  }

  /** `select!` takes the next message of the restricted order, and nothing only when none is left. */
  lemma SelectTakesNext(w: World)
    requires Inv(w)
    ensures var r := Restricted(w.base, w.log, w.inboxes);
      var w' := Step(w, Select);
      && Inv(w') && w'.log == w.log && |w.taken| <= |r| && w.taken == r[..|w.taken|]
      && w'.taken == (if |w.taken| < |r| then w.taken + [r[|w.taken|]] else w.taken)
  {
    var r, k := Restricted(w.base, w.log, w.inboxes), |w.taken|;
    var w' := Step(w, Select);
    if k < |r| {
      var j := SelectsNext(w);
      HeadOfRest(w, j);
      RestrictedSame(w.base, w.log, w'.inboxes, w.inboxes);
      forall i | 0 <= i < |w.inboxes| ensures w'.inboxes[i].deque == OnTopic(r[k + 1..], w.inboxes[i].topic) {
        HeadOfRest(w, i);
      }
      assert r[..k + 1] == r[..k] + [r[k]];
    } else {
      assert r[k..] == [];
      ChoiceIsLeast(PeeksAt(w.inboxes));
    }
  }

  // ---------------------------------------------------------------- runs

  function Run(w: World, acts: seq<Act>): World
    decreases |acts|
  {
    if acts == [] then w else Run(Step(w, acts[0]), acts[1..])
  }

  lemma {:induction false} RunKeeps(w: World, acts: seq<Act>)
    requires Inv(w)
    ensures Inv(Run(w, acts))
    decreases |acts|
  {
    if acts != [] {
      if acts[0].Dispatch? {
        DispatchKeeps(w, acts[0].message);
      } else {
        SelectTakesNext(w);
      }
      hide Inv, Step;
      RunKeeps(Step(w, acts[0]), acts[1..]);
    }
  }

  /** Receivers that just subscribed, on different topics. */
  predicate Fresh(w: World) {
    && w.log == [] && w.taken == []
    && (forall i :: 0 <= i < |w.inboxes| ==> w.inboxes[i].deque == [])
    && (forall i, j :: 0 <= i < j < |w.inboxes| ==> w.inboxes[i].topic != w.inboxes[j].topic)
  }

  /**
    However selects and dispatches are interleaved, the messages taken are the first of those
    dispatched on the subscribed topics, in the order of the dispatcher's numbers, none lost
    and none repeated; one more select takes the next of them, or nothing if all are taken.
  */
  lemma MergesInOrder(w: World, acts: seq<Act>)
    requires Fresh(w)
    ensures var w' := Run(w, acts);
      var r := Restricted(w'.base, w'.log, w'.inboxes);
      && |w'.taken| <= |r| && w'.taken == r[..|w'.taken|]
      && Step(w', Select).taken == (if |w'.taken| < |r| then r[..|w'.taken| + 1] else w'.taken)
  {
    hide *;
    FreshOk(w);
    RunKeeps(w, acts);
    var w' := Run(w, acts);
    SelectTakesNext(w');
    var r := Restricted(w'.base, w'.log, w'.inboxes);
    assert |w'.taken| < |r| ==> r[..|w'.taken| + 1] == r[..|w'.taken|] + [r[|w'.taken|]];
  }

  lemma FreshOk(w: World)
    requires Fresh(w)
    ensures Inv(w)
  {
  }
}
