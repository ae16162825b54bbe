/** The chain's side of the sequenced protocol (pallets/phala/src/mq.rs). */
module MqPallet {
  import opened Base
  import opened Messages

  /** `log` is every message dispatched, in order: history that no code reads. */
  datatype Mq = Mq(ingress: map<Origin, nat>, outbound: seq<Message>, queued: seq<Message>, log: seq<Message>)

  datatype Refusal = BadSender | BadDestination | BadSequence | BadSignature

  function Dispatched(q: Mq, message: Message): Mq {
    q.(log := q.log + [message],
       outbound := if LeavesChain(message.destination) then q.outbound + [message] else q.outbound)
  }

  function AllDispatched(q: Mq, messages: seq<Message>): Mq
    decreases |messages|
  {
    if messages == [] then q else AllDispatched(Dispatched(q, messages[0]), messages[1..])
  }

  /** Why an off-chain message is refused, checks in the order of the code. */
  function Refused(q: Mq, signed: SignedMessage, signatureOk: bool): Option<Refusal> {
    if !signed.message.sender.IsOffchain() then Some(Refusal.BadSender)
    else if !IsValid(signed.message.destination) then Some(BadDestination)
    else if signed.sequence != Get(q.ingress, signed.message.sender) then Some(BadSequence)
    else if !signatureOk then Some(BadSignature)
    else None
  }

  function Synced(q: Mq, signed: SignedMessage, signatureOk: bool): Mq {
    if Refused(q, signed, signatureOk).Some? then q
    else
      var sender := signed.message.sender;
      Dispatched(q.(ingress := q.ingress[sender := Get(q.ingress, sender) + 1]), signed.message)
  }

  /** The start of a block: the outbound messages are cleared, the queued ones sent out. */
  function Initialized(q: Mq): Mq {
    AllDispatched(q.(outbound := [], queued := []), q.queued)
  }

  class Pallet {
    var offchainIngress: map<Origin, nat>
    var outboundMessages: seq<Message>
    var queuedOutboundMessage: seq<Message>
    ghost var log: seq<Message>

    ghost function Value(): Mq
      reads this
    {
      Mq(offchainIngress, outboundMessages, queuedOutboundMessage, log)
    }

    constructor ()
      ensures Value() == Mq(map[], [], [], [])
    {
      offchainIngress, outboundMessages, queuedOutboundMessage, log := map[], [], [], [];
    }

    method DispatchMessage(message: Message)
      modifies this`outboundMessages, this`log
      ensures Value() == Dispatched(old(Value()), message)
    {
      log := log + [message];
      if LeavesChain(message.destination) {
        outboundMessages := outboundMessages + [message];
      }
    }

    method SyncOffchainMessage(signed: SignedMessage, signatureOk: bool) returns (refusal: Option<Refusal>)
      modifies this
      ensures refusal == Refused(old(Value()), signed, signatureOk)
      ensures Value() == Synced(old(Value()), signed, signatureOk)
    {
      var sender := signed.message.sender;
      if !sender.IsOffchain() {
        return Some(Refusal.BadSender);
      }
      if !IsValid(signed.message.destination) {
        return Some(BadDestination);
      }
      var expected := Get(offchainIngress, sender);
      if signed.sequence != expected {
        return Some(BadSequence);
      }
      if !signatureOk {
        return Some(BadSignature);
      }
      offchainIngress := offchainIngress[sender := expected + 1];
      DispatchMessage(signed.message);
      return None;
    }

    method QueueBoundMessage(message: Message)
      modifies this`queuedOutboundMessage
      ensures Value() == old(Value()).(queued := old(queuedOutboundMessage) + [message])
    {
      queuedOutboundMessage := queuedOutboundMessage + [message];
    }

    method OnInitialize()
      modifies this
      ensures Value() == Initialized(old(Value()))
    {
      outboundMessages := [];
      var messages := queuedOutboundMessage;
      queuedOutboundMessage := [];
      var i := 0;
      while i < |messages|
        invariant i <= |messages|
        invariant Initialized(old(Value())) == AllDispatched(Value(), messages[i..])
      {
        assert messages[i..][1..] == messages[i + 1..];
        DispatchMessage(messages[i]);
        i := i + 1;
      }
      assert messages[i..] == [];
    }
  }
}
