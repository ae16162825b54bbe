/**
  Exactly-once, in-order delivery from the workers to the chain: the send queue, the chain and
  a relayer that may hold back, reorder, repeat and invent submissions.
*/
module Delivery {
  import opened Base
  import opened Messages
  import opened SendQueue
  import opened MqPallet

  /**
    Both ends. `history` is what each sender ever enqueued, None where a dummy channel dropped
    a message; `purged` is the greatest sequence a channel was purged with.
  */
  datatype Net = Net(
    channels: map<Origin, Channel>,
    history: map<Origin, seq<Option<Message>>>,
    purged: map<Origin, nat>,
    mq: Mq)

  datatype Act =
    | Enqueue(sender: Origin, message: Message, sign: nat -> nat)
    | SetDummy(sender: Origin, dummy: bool)
    | Purge(next: Origin -> nat)
    | Submit(signed: SignedMessage, signatureOk: bool)
    | PushLocal(message: Message)
    | QueueBound(message: Message)
    | NewBlock

  const START: Net := Net(map[], map[], map[], Mq(map[], [], [], []))

  function History(n: Net, s: Origin): seq<Option<Message>> {
    if s in n.history then n.history[s] else []
  }

  function Ingress(n: Net, s: Origin): nat {
    Get(n.mq.ingress, s)
  }

  function Max(a: nat, b: nat): nat { if a >= b then a else b }

  function Step(n: Net, a: Act): Net {
    match a
    case Enqueue(sender, message, sign) =>
      var ch := ChannelOf(n.channels, sender);
      n.(channels := n.channels[sender := Enqueued(ch, (sequence: nat) =>
        SignedMessage(message, sequence, sign(sequence)))],
         history := n.history[sender := History(n, sender) + [if ch.dummy then None else Some(message)]])
    case SetDummy(sender, dummy) => n.(channels := n.channels[sender := ChannelOf(n.channels, sender).(dummy := dummy)])
    case Purge(next) =>
      n.(channels := Purged(n.channels, next), purged := map k | k in n.channels :: Max(Get(n.purged, k), next(k)))
    case Submit(signed, signatureOk) => n.(mq := Synced(n.mq, signed, signatureOk))
    case PushLocal(message) => n.(mq := Dispatched(n.mq, message))
    case QueueBound(message) => n.(mq := n.mq.(queued := n.mq.queued + [message]))
    case NewBlock => n.(mq := Initialized(n.mq))
  }

  /** The sender enqueued this message under this sequence. */
  predicate Sent(n: Net, signed: SignedMessage) {
    var h := History(n, signed.message.sender);
    signed.sequence < |h| && h[signed.sequence] == Some(signed.message)
  }

  /**
    What the environment keeps to: a channel signs its own sender's messages, purging asks the
    chain for the next sequence, nobody forges a signature, and what the chain itself sends
    has no off-chain origin.
  */
  ghost predicate Allowed(n: Net, a: Act) {
    match a
    case Enqueue(sender, message, _) => message.sender == sender
    case Purge(next) => forall k :: k in n.channels ==> next(k) <= Ingress(n, k)
    case Submit(signed, signatureOk) => signatureOk ==> Sent(n, signed)
    case PushLocal(message) => !message.sender.IsOffchain()
    case QueueBound(message) => !message.sender.IsOffchain()
    case _ => true
  }

  // ---------------------------------------------------------------- the queue against the history

  /** The queue holds, in order, exactly the messages enqueued from sequence `i` on. */
  predicate Holds(messages: seq<SignedMessage>, h: seq<Option<Message>>, i: nat)
    decreases |h| - i
  {
    if i >= |h| then messages == []
    else if h[i].None? then Holds(messages, h, i + 1)
    else
      && messages != [] && messages[0].sequence == i && messages[0].message == h[i].value
      && Holds(messages[1..], h, i + 1)
  }

  lemma {:induction false} HoldsAppended(messages: seq<SignedMessage>, h: seq<Option<Message>>, i: nat,
      signed: SignedMessage)
    requires Holds(messages, h, i) && i <= |h| && signed.sequence == |h|
    ensures Holds(messages + [signed], h + [Some(signed.message)], i)
    ensures Holds(messages, h + [None], i)
    decreases |h| - i
  {
    if i == |h| {
      assert messages + [signed] == [signed] && [signed][1..] == [];
      assert Holds([], h + [None], i + 1);
    } else if h[i].None? {
      HoldsAppended(messages, h, i + 1, signed);
    } else {
      HoldsAppended(messages[1..], h, i + 1, signed);
      assert (messages + [signed])[1..] == messages[1..] + [signed];
    }
  }

  lemma {:induction false} HoldsKept(messages: seq<SignedMessage>, h: seq<Option<Message>>, i: nat, next: nat)
    requires Holds(messages, h, i)
    ensures Holds(Kept(messages, next), h, Max(i, next))
    decreases |h| - i
  {
    if i < |h| {
      HoldsKept(if h[i].None? then messages else messages[1..], h, i + 1, next);
      if i >= next && h[i].Some? {
        assert Kept(messages, next)[1..] == Kept(messages[1..], next);
      }
    }
  }

  /** Nothing from sequence `i` on is missing from the queue. */
  lemma {:induction false} HoldsAll(messages: seq<SignedMessage>, h: seq<Option<Message>>, i: nat, k: nat)
    requires Holds(messages, h, i) && i <= k < |h| && h[k].Some?
    ensures exists m :: m in messages && m.sequence == k && m.message == h[k].value
    decreases |h| - i
  {
    if k == i {
      assert messages[0] in messages;
    } else {
      HoldsAll(if h[i].None? then messages else messages[1..], h, i + 1, k);
      var m :| m in (if h[i].None? then messages else messages[1..]) && m.sequence == k && m.message == h[k].value;
      assert m in messages;
    }
  }

  // ---------------------------------------------------------------- the log

  /** What the chain dispatched for a sender. */
  function LogOf(log: seq<Message>, s: Origin): seq<Message> {
    if log == [] then []
    else
      var last := log[|log| - 1];
      LogOf(log[..|log| - 1], s) + (if last.sender == s then [last] else [])
  }

  /** The messages of the first entries of a history. */
  function Delivered(h: seq<Option<Message>>, n: nat): seq<Message>
    requires n <= |h| && forall i :: 0 <= i < n ==> h[i].Some?
  {
    seq(n, i requires 0 <= i < n => h[i].value)
  }

  lemma LogAppended(log: seq<Message>, s: Origin, message: Message)
    ensures LogOf(log + [message], s) == LogOf(log, s) + (if message.sender == s then [message] else [])
  {
    assert (log + [message])[..|log|] == log;
  }

  lemma {:induction false} LogOfLocal(q: Mq, messages: seq<Message>, s: Origin)
    requires s.IsOffchain() && forall m :: m in messages ==> !m.sender.IsOffchain()
    ensures var q' := AllDispatched(q, messages);
      LogOf(q'.log, s) == LogOf(q.log, s) && q'.ingress == q.ingress && q'.queued == q.queued
    decreases |messages|
  {
    if messages != [] {
      assert messages[0] in messages;
      LogAppended(q.log, s, messages[0]);
      LogOfLocal(Dispatched(q, messages[0]), messages[1..], s);
    }
  }

  // ---------------------------------------------------------------- the invariant

  ghost predicate SenderOk(n: Net, s: Origin) {
    var h, ch := History(n, s), ChannelOf(n.channels, s);
    && |h| == ch.sequence && Get(n.purged, s) <= Ingress(n, s) <= |h|
    && Holds(ch.messages, h, Get(n.purged, s))
    && (forall i :: 0 <= i < Ingress(n, s) ==> h[i].Some?)
    && (forall i :: 0 <= i < |h| && h[i].Some? ==> h[i].value.sender == s)
    && LogOf(n.mq.log, s) == Delivered(h, Ingress(n, s))
  }

  ghost predicate Inv(n: Net) {
    && (forall s: Origin :: s.IsOffchain() ==> SenderOk(n, s))
    && (forall s :: s in n.purged ==> s in n.channels)
    && (forall m :: m in n.mq.queued ==> !m.sender.IsOffchain())
  }

  lemma StartOk()
    ensures Inv(START)
  {
  }

  lemma EnqueueKeeps(n: Net, a: Act, s: Origin)
    requires a.Enqueue? && Allowed(n, a) && SenderOk(n, s)
    ensures SenderOk(Step(n, a), s)
  {
    if s == a.sender {
      var h, ch := History(n, s), ChannelOf(n.channels, s);
      HoldsAppended(ch.messages, h, Get(n.purged, s), SignedMessage(a.message, |h|, a.sign(|h|)));
      hide Holds, LogOf;
    }
  }

  lemma PurgeKeeps(n: Net, a: Act, s: Origin)
    requires a.Purge? && Allowed(n, a) && SenderOk(n, s)
    requires s in n.purged ==> s in n.channels
    ensures SenderOk(Step(n, a), s)
  {
    hide LogOf;
    HoldsKept(ChannelOf(n.channels, s).messages, History(n, s), Get(n.purged, s),
      if s in n.channels then a.next(s) else 0);
  }

  /** A step that touches neither this sender's channel contents nor its part of the log. */
  lemma UntouchedKeeps(n: Net, n': Net, s: Origin)
    requires SenderOk(n, s)
    requires History(n', s) == History(n, s) && Ingress(n', s) == Ingress(n, s) && Get(n'.purged, s) == Get(n.purged, s)
    requires ChannelOf(n'.channels, s) == ChannelOf(n.channels, s).(dummy := ChannelOf(n'.channels, s).dummy)
    requires LogOf(n'.mq.log, s) == LogOf(n.mq.log, s)
    ensures SenderOk(n', s)
  {
    hide Holds, LogOf, History, Ingress, Delivered;
  }

  /** The chain takes the next entry of the history. */
  lemma NextKeeps(n: Net, n': Net, s: Origin)
    requires SenderOk(n, s)
    requires n'.channels == n.channels && n'.history == n.history && n'.purged == n.purged
    requires var h, k := History(n, s), Ingress(n, s);
      && k < |h| && h[k].Some? && Ingress(n', s) == k + 1
      && LogOf(n'.mq.log, s) == LogOf(n.mq.log, s) + [h[k].value]
    ensures SenderOk(n', s)
  {
    hide Holds, LogOf, Ingress;
    var h, k := History(n, s), Ingress(n, s);
    assert Delivered(h, k + 1) == Delivered(h, k) + [h[k].value];
  }

  /** What an accepted submission does, and what it is. */
  lemma AcceptedIsNext(n: Net, a: Act)
    requires a.Submit? && Allowed(n, a) && Refused(n.mq, a.signed, a.signatureOk).None?
    ensures a.signed.sequence == Ingress(n, a.signed.message.sender) && Sent(n, a.signed)
    ensures var s, n' := a.signed.message.sender, Step(n, a);
      && n' == n.(mq := n'.mq) && n'.mq.log == n.mq.log + [a.signed.message]
      && (forall t :: Ingress(n', t) == Ingress(n, t) + if t == s then 1 else 0)
  {
    hide Sent;
  }

  lemma SubmitKeeps(n: Net, a: Act, s: Origin)
    requires a.Submit? && Allowed(n, a) && SenderOk(n, s)
    ensures SenderOk(Step(n, a), s)
  {
    if Refused(n.mq, a.signed, a.signatureOk).None? {
      AcceptedIsNext(n, a);
      LogAppended(n.mq.log, s, a.signed.message);
      hide LogOf, Ingress, Holds, SenderOk, Delivered, Refused, Step, Allowed;
      if a.signed.message.sender == s {
        NextKeeps(n, Step(n, a), s);
      } else {
        UntouchedKeeps(n, Step(n, a), s);
      }
    }
  }

  lemma LocalKeeps(n: Net, a: Act, s: Origin)
    requires a.PushLocal? || a.QueueBound? || a.NewBlock? || a.SetDummy?
    requires Allowed(n, a) && SenderOk(n, s) && s.IsOffchain()
    requires forall m :: m in n.mq.queued ==> !m.sender.IsOffchain()
    ensures SenderOk(Step(n, a), s)
  {
    if a.PushLocal? {
      LogAppended(n.mq.log, s, a.message);
    } else if a.NewBlock? {
      LogOfLocal(n.mq.(outbound := [], queued := []), n.mq.queued, s);
    }
    hide LogOf, AllDispatched, Holds, SenderOk;
    UntouchedKeeps(n, Step(n, a), s);
  }

  /** Whatever the relayer does, every step keeps both ends in agreement. */
  lemma StepKeeps(n: Net, a: Act)
    requires Inv(n) && Allowed(n, a)
    ensures Inv(Step(n, a))
  {
    hide SenderOk, Allowed, Step;
    forall s: Origin | s.IsOffchain() ensures SenderOk(Step(n, a), s) {
      assert SenderOk(n, s);
      match a {
        case Enqueue(_, _, _) => EnqueueKeeps(n, a, s);
        case Purge(_) => PurgeKeeps(n, a, s);
        case Submit(_, _) => SubmitKeeps(n, a, s);
        case _ => LocalKeeps(n, a, s);
      }
    }
    StepKeepsQueued(n, a);
  }

  lemma {:induction false} DispatchKeepsQueued(q: Mq, messages: seq<Message>)
    ensures AllDispatched(q, messages).queued == q.queued && AllDispatched(q, messages).ingress == q.ingress
    decreases |messages|
  {
    if messages != [] {
      DispatchKeepsQueued(Dispatched(q, messages[0]), messages[1..]);
    }
  }

  lemma StepKeepsQueued(n: Net, a: Act)
    requires Allowed(n, a)
    requires forall m :: m in n.mq.queued ==> !m.sender.IsOffchain()
    requires forall s :: s in n.purged ==> s in n.channels
    ensures forall m :: m in Step(n, a).mq.queued ==> !m.sender.IsOffchain()
    ensures forall s :: s in Step(n, a).purged ==> s in Step(n, a).channels
  {
    DispatchKeepsQueued(n.mq.(outbound := [], queued := []), n.mq.queued);
    hide AllDispatched;
  }

  // ---------------------------------------------------------------- runs

  function Run(n: Net, acts: seq<Act>): Net
    decreases |acts|
  {
    if acts == [] then n else Run(Step(n, acts[0]), acts[1..])
  }

  ghost predicate AllowedRun(n: Net, acts: seq<Act>)
    decreases |acts|
  {
    acts == [] || (Allowed(n, acts[0]) && AllowedRun(Step(n, acts[0]), acts[1..]))
  }

  lemma {:induction false} RunKeeps(n: Net, acts: seq<Act>)
    requires Inv(n) && AllowedRun(n, acts)
    ensures Inv(Run(n, acts))
    decreases |acts|
  {
    hide Inv, Allowed, Step;
    if acts != [] {
      StepKeeps(n, acts[0]);
      RunKeeps(Step(n, acts[0]), acts[1..]);
    }
  }

  /**
    After any run, what the chain dispatched for an off-chain sender is what that sender
    enqueued, in order, each once, up to the next expected sequence; and every message from
    there on that was not dropped by a dummy channel is still in the sender's queue.
  */
  lemma DeliveredInOrder(acts: seq<Act>, s: Origin)
    requires AllowedRun(START, acts) && s.IsOffchain()
    ensures var n := Run(START, acts);
      var h, k := History(n, s), Ingress(n, s);
      && k <= |h| && (forall i :: 0 <= i < k ==> h[i].Some?)
      && LogOf(n.mq.log, s) == seq(k, i requires 0 <= i < k => h[i].value)
      && (forall i :: k <= i < |h| && h[i].Some? ==>
            exists m :: m in ChannelOf(n.channels, s).messages && m.sequence == i && m.message == h[i].value)
  {
    StartOk();
    RunKeeps(START, acts);
    var n := Run(START, acts);
    hide Run, AllowedRun, Holds, LogOf;
    assert SenderOk(n, s);
    forall i | Ingress(n, s) <= i < |History(n, s)| && History(n, s)[i].Some?
      ensures exists m ::
        m in ChannelOf(n.channels, s).messages && m.sequence == i && m.message == History(n, s)[i].value
    {
      HoldsAll(ChannelOf(n.channels, s).messages, History(n, s), Get(n.purged, s), i);
    }
  }

  /** No channel of the run is ever set to dummy. */
  ghost predicate NeverDummy(acts: seq<Act>) {
    forall a :: a in acts ==> !(a.SetDummy? && a.dummy)
  }

  ghost predicate Whole(n: Net, s: Origin) {
    !ChannelOf(n.channels, s).dummy && forall i :: 0 <= i < |History(n, s)| ==> History(n, s)[i].Some?
  }

  lemma {:induction false} StaysWhole(n: Net, acts: seq<Act>, s: Origin)
    requires Whole(n, s) && NeverDummy(acts)
    ensures Whole(Run(n, acts), s)
    decreases |acts|
  {
    if acts != [] {
      var n1 := Step(n, acts[0]);
      assert acts[0] in acts;
      StepStaysWhole(n, acts[0], s);
      hide Whole;
      StaysWhole(n1, acts[1..], s);
    }
  }

  lemma StepStaysWhole(n: Net, a: Act, s: Origin)
    requires Whole(n, s) && !(a.SetDummy? && a.dummy)
    ensures Whole(Step(n, a), s)
  {
    hide Kept, AllDispatched, Synced, Dispatched;
    var h, h' := History(n, s), History(Step(n, a), s);
    assert h' == h || (|h'| == |h| + 1 && h'[..|h|] == h && h'[|h|].Some?);
  }

  /** Without dummy channels nothing is ever missing: dispatched and queued make up all that was enqueued. */
  lemma NothingLost(acts: seq<Act>, s: Origin, i: nat)
    requires AllowedRun(START, acts) && NeverDummy(acts) && s.IsOffchain()
    requires i < |History(Run(START, acts), s)|
    ensures var n := Run(START, acts);
      var h, k := History(n, s), Ingress(n, s);
      && h[i].Some?
      && (if i < k then i < |LogOf(n.mq.log, s)| && LogOf(n.mq.log, s)[i] == h[i].value
          else exists m :: m in ChannelOf(n.channels, s).messages && m.sequence == i && m.message == h[i].value)
  {
    hide *;
    StartWhole(s);
    StaysWhole(START, acts, s);
    WholeIs(Run(START, acts), s);
    DeliveredInOrder(acts, s);
  }

  lemma StartWhole(s: Origin)
    ensures Whole(START, s)
  {
  }

  lemma WholeIs(n: Net, s: Origin)
    requires Whole(n, s)
    ensures forall i :: 0 <= i < |History(n, s)| ==> History(n, s)[i].Some?
  {
  }

  // ---------------------------------------------------------------- progress

  /**
    The next expected message, if it was not dropped, is in the queue, and submitting it is
    accepted exactly when its topic is valid and its signature checks.
  */
  lemma HeadIsAccepted(n: Net, s: Origin, signatureOk: bool)
    requires Inv(n) && s.IsOffchain()
    requires Ingress(n, s) < |History(n, s)| && History(n, s)[Ingress(n, s)].Some?
    ensures exists m :: m in ChannelOf(n.channels, s).messages && m.sequence == Ingress(n, s)
                        && m.message == History(n, s)[Ingress(n, s)].value
                        && (Refused(n.mq, m, signatureOk) == None <==> signatureOk && IsValid(m.message.destination))
                        && (Refused(n.mq, m, signatureOk) == None ==>
                              Ingress(Step(n, Submit(m, signatureOk)), s) == Ingress(n, s) + 1)
  {
    assert SenderOk(n, s);
    HoldsAll(ChannelOf(n.channels, s).messages, History(n, s), Get(n.purged, s), Ingress(n, s));
  }

  /** A message dropped by a dummy channel that the chain has not passed stops the sender for good. */
  lemma {:induction false} HoleBlocks(n: Net, acts: seq<Act>, s: Origin, hole: nat)
    requires Inv(n) && AllowedRun(n, acts) && s.IsOffchain()
    requires Ingress(n, s) <= hole < |History(n, s)| && History(n, s)[hole].None?
    ensures Ingress(Run(n, acts), s) <= hole
    decreases |acts|
  {
    if acts != [] {
      var n1 := Step(n, acts[0]);
      StepKeeps(n, acts[0]);
      HoleStays(n, acts[0], s, hole);
      hide Step, Inv;
      HoleBlocks(n1, acts[1..], s, hole);
    }
  }

  lemma HoleStays(n: Net, a: Act, s: Origin, hole: nat)
    requires Inv(Step(n, a)) && s.IsOffchain()
    requires Ingress(n, s) <= hole < |History(n, s)| && History(n, s)[hole].None?
    ensures var n1 := Step(n, a);
      Ingress(n1, s) <= hole < |History(n1, s)| && History(n1, s)[hole].None?
  {
    assert SenderOk(Step(n, a), s);
    hide Holds, LogOf, Kept, AllDispatched, Delivered;
  }

  // ---------------------------------------------------------------- messages of the pallets

  lemma {:induction false} DispatchesInOrder(q: Mq, messages: seq<Message>)
    ensures AllDispatched(q, messages).log == q.log + messages
    decreases |messages|
  {
    if messages == [] {
      assert q.log + messages == q.log;
    } else {
      DispatchesInOrder(Dispatched(q, messages[0]), messages[1..]);
      assert q.log + messages == q.log + [messages[0]] + messages[1..];
    }
  }

  /** A new block dispatches what was queued, in order, once, and leaves the queue empty. */
  lemma QueuedOnce(q: Mq)
    ensures Initialized(q).log == q.log + q.queued && Initialized(q).queued == []
    ensures Initialized(q).ingress == q.ingress
  {
    var q0 := q.(outbound := [], queued := []);
    DispatchesInOrder(q0, q.queued);
    DispatchKeepsQueued(q0, q.queued);
  }

  // ---------------------------------------------------------------- messages that leave the chain

  /** The messages whose topic is not for subscribers on the chain only. */
  function Leaving(messages: seq<Message>): seq<Message> {
    if messages == [] then []
    else
      var n := |messages| - 1;
      Leaving(messages[..n]) + (if LeavesChain(messages[n].destination) then [messages[n]] else [])
  }

  lemma LeavingMore(messages: seq<Message>, message: Message)
    ensures Leaving(messages + [message]) ==
      Leaving(messages) + if LeavesChain(message.destination) then [message] else []
  {
    assert (messages + [message])[..|messages|] == messages;
  }

  /** What is put out since the log was this long is what of it leaves the chain. */
  predicate PutOut(q: Mq, since: nat) {
    since <= |q.log| && q.outbound == Leaving(q.log[since..])
  }

  lemma DispatchPutsOut(q: Mq, message: Message, since: nat)
    requires PutOut(q, since)
    ensures PutOut(Dispatched(q, message), since)
  {
    LeavingMore(q.log[since..], message);
    assert (q.log + [message])[since..] == q.log[since..] + [message];
    hide Leaving;
  }

  lemma {:induction false} AllPutOut(q: Mq, messages: seq<Message>, since: nat)
    requires PutOut(q, since)
    ensures PutOut(AllDispatched(q, messages), since)
    decreases |messages|
  {
    if messages != [] {
      DispatchPutsOut(q, messages[0], since);
      hide PutOut, Dispatched;
      AllPutOut(Dispatched(q, messages[0]), messages[1..], since);
    }
  }

  lemma BlockPutsOut(n: Net)
    ensures PutOut(Step(n, NewBlock).mq, |n.mq.log|)
  {
    var q := n.mq.(outbound := [], queued := []);
    assert q.log[|q.log|..] == [];
    assert PutOut(q, |q.log|);
    hide PutOut, AllDispatched;
    AllPutOut(q, n.mq.queued, |q.log|);
  }

  lemma StepPutsOut(n: Net, a: Act, since: nat)
    requires PutOut(n.mq, since) && !a.NewBlock?
    ensures PutOut(Step(n, a).mq, since)
  {
    match a {
      case Submit(signed, signatureOk) =>
        if Refused(n.mq, signed, signatureOk).None? {
          var sender := signed.message.sender;
          DispatchPutsOut(n.mq.(ingress := n.mq.ingress[sender := Get(n.mq.ingress, sender) + 1]), signed.message,
            since);
        }
      case PushLocal(message) => DispatchPutsOut(n.mq, message, since);
      case _ =>
    }
  }

  lemma {:induction false} StaysPutOut(n: Net, acts: seq<Act>, since: nat)
    requires PutOut(n.mq, since) && forall a :: a in acts ==> !a.NewBlock?
    ensures PutOut(Run(n, acts).mq, since)
    decreases |acts|
  {
    if acts != [] {
      assert acts[0] in acts;
      StepPutsOut(n, acts[0], since);
      hide PutOut, Step;
      StaysPutOut(Step(n, acts[0]), acts[1..], since);
    }
  }

  /**
    At any time within a block, what the chain has put out is exactly what it dispatched since the block began and
    that leaves the chain, in order.
  */
  lemma OutboundOfBlock(n: Net, acts: seq<Act>)
    requires forall a :: a in acts ==> !a.NewBlock?
    ensures var n' := Run(Step(n, NewBlock), acts);
      |n.mq.log| <= |n'.mq.log| && n'.mq.outbound == Leaving(n'.mq.log[|n.mq.log|..])
  {
    BlockPutsOut(n);
    StaysPutOut(Step(n, NewBlock), acts, |n.mq.log|);
    hide Leaving, Run, Step;
  }

  /** Why the chain refuses a message: the first of the four checks that fails, and it takes what passes them all. */
  lemma RefusedWhy(q: Mq, signed: SignedMessage, signatureOk: bool)
    ensures var r, sender := Refused(q, signed, signatureOk), signed.message.sender;
      var known := sender.Contract? || sender.Worker? || sender.Gatekeeper?;
      var expected := signed.sequence == Get(q.ingress, sender);
      && (r == Some(Refusal.BadSender) <==> !known)
      && (r == Some(BadDestination) <==> known && !IsValid(signed.message.destination))
      && (r == Some(BadSequence) <==> known && IsValid(signed.message.destination) && !expected)
      && (r.None? <==> known && IsValid(signed.message.destination) && expected && signatureOk)
  {
  }

  /** Topics in examples: the empty one and those that start with a reserved sign are none, a caret keeps one inside. */
  lemma TopicExamples()
    ensures !IsValid("") && !IsValid("~x") && !IsValid("!x") && !IsValid("'x") && IsValid("^x") && IsValid("x")
    ensures !LeavesChain("") && !LeavesChain("'x") && !LeavesChain("^x") && LeavesChain("x")
  {
  }
}
