/** The worker's side of the sequenced protocol (crates/phala-mq/src/send_queue.rs). */
module SendQueue {
  import opened Messages

  datatype Channel = Channel(sequence: nat, messages: seq<SignedMessage>, dummy: bool)

  function ChannelOf(channels: map<Origin, Channel>, sender: Origin): Channel {
    if sender in channels then channels[sender] else Channel(0, [], false)
  }

  /** A dummy channel counts the message and drops it. */
  function Enqueued(ch: Channel, build: nat -> SignedMessage): Channel {
    if ch.dummy then ch.(sequence := ch.sequence + 1)
    else ch.(messages := ch.messages + [build(ch.sequence)], sequence := ch.sequence + 1)
  }

  /** The messages that are not yet accepted. */
  function Kept(messages: seq<SignedMessage>, next: nat): seq<SignedMessage> {
    if messages == [] then []
    else if messages[0].sequence >= next then [messages[0]] + Kept(messages[1..], next)
    else Kept(messages[1..], next)
  }

  function Purged(channels: map<Origin, Channel>, nextSequenceFor: Origin -> nat): map<Origin, Channel> {
    map k | k in channels :: channels[k].(messages := Kept(channels[k].messages, nextSequenceFor(k)))
  }

  class MessageSendQueue {
    var inner: map<Origin, Channel>

    constructor ()
      ensures inner == map[]
    {
      inner := map[];
    }

    method EnqueueMessage(sender: Origin, build: nat -> SignedMessage)
      modifies this
      ensures inner == old(inner)[sender := Enqueued(ChannelOf(old(inner), sender), build)]
    {
      var entry := ChannelOf(inner, sender);
      if !entry.dummy {
        var message := build(entry.sequence);
        entry := entry.(messages := entry.messages + [message]);
      }
      entry := entry.(sequence := entry.sequence + 1);
      inner := inner[sender := entry];
    }

    method SetDummyMode(sender: Origin, dummy: bool)
      modifies this
      ensures inner == old(inner)[sender := ChannelOf(old(inner), sender).(dummy := dummy)]
    {
      inner := inner[sender := ChannelOf(inner, sender).(dummy := dummy)];
    }

    method MessagesOf(sender: Origin) returns (messages: seq<SignedMessage>)
      ensures messages == ChannelOf(inner, sender).messages
    {
      messages := if sender in inner then inner[sender].messages else [];
    }

    static method Retain(messages: seq<SignedMessage>, next: nat) returns (kept: seq<SignedMessage>)
      ensures kept == Kept(messages, next)
    {
      kept := [];
      var i := 0;
      while i < |messages|
        invariant i <= |messages|
        invariant kept + Kept(messages[i..], next) == Kept(messages, next)
      {
        assert messages[i..][1..] == messages[i + 1..];
        if messages[i].sequence >= next {
          kept := kept + [messages[i]];
        }
        i := i + 1;
      }
      assert messages[i..] == [];
    }

    method Purge(nextSequenceFor: Origin -> nat)
      modifies this
      ensures inner == Purged(old(inner), nextSequenceFor)
    {
      var senders := inner.Keys;
      while senders != {}
        invariant senders <= inner.Keys == old(inner).Keys
        invariant forall k :: k in senders ==> inner[k] == old(inner)[k]
        invariant forall k :: k in inner && k !in senders ==> inner[k] == Purged(old(inner), nextSequenceFor)[k]
      {
        var k :| k in senders;
        var kept := Retain(inner[k].messages, nextSequenceFor(k));
        inner := inner[k := inner[k].(messages := kept)];
        senders := senders - {k};
      }
    }
  }
}
