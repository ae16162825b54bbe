/** The in-process channel (crates/phala-mq/src/simple_mpsc.rs). Both ends share one object. */
module Mpsc {
  import opened Messages

  /** A message with the number it was dispatched under. */
  type Item = (nat, Message)

  /** What a receiver sees without taking anything: `Gone` is the error that all senders have gone. */
  datatype Peek = Next(sn: nat) | Empty | Gone

  datatype Received = Got(item: Item) | Nothing | SenderGone

  function Head(deque: seq<Item>, senders: nat): Peek {
    if deque != [] then Next(deque[0].0) else if senders == 0 then Gone else Empty
  }

  class Channel {
    var deque: seq<Item>
    var senderCount: nat
    var receiverGone: bool

    constructor ()
      ensures deque == [] && senderCount == 1 && !receiverGone
    {
      deque, senderCount, receiverGone := [], 1, false;
    }

    /** False when the receiver has gone; nothing is queued then. */
    method Send(item: Item) returns (ok: bool)
      modifies this`deque
      ensures ok == !receiverGone && deque == if ok then old(deque) + [item] else old(deque)
    {
      if receiverGone {
        return false;
      }
      deque := deque + [item];
      return true;
    }

    method TryNext() returns (r: Received)
      modifies this`deque
      ensures match Head(old(deque), senderCount)
        case Next(sn) => r == Got(old(deque)[0]) && deque == old(deque)[1..]
        case Empty => r == Nothing && deque == old(deque)
        case Gone => r == SenderGone && deque == old(deque)
      ensures r == (if old(deque) != [] then Got(old(deque)[0]) else if senderCount == 0 then SenderGone else Nothing)
    {
      if deque != [] {
        r := Got(deque[0]);
        deque := deque[1..];
      } else if senderCount == 0 {
        r := SenderGone;
      } else {
        r := Nothing;
      }
    }

    method PeekInd() returns (p: Peek)
      ensures p == Head(deque, senderCount)
      ensures p == (if deque != [] then Next(deque[0].0) else if senderCount == 0 then Gone else Empty)
    {
      if deque != [] {
        return Next(deque[0].0);
      } else if senderCount == 0 {
        return Gone;
      }
      return Empty;
    }

    method Clear() returns (dropped: nat)
      modifies this`deque
      ensures deque == [] && dropped == |old(deque)|
    {
      dropped := |deque|;
      deque := [];
    }

    method CloneSender()
      modifies this`senderCount
      ensures senderCount == old(senderCount) + 1
    {
      senderCount := senderCount + 1;
    }

    method DropSender()
      requires senderCount > 0
      modifies this`senderCount
      ensures senderCount == old(senderCount) - 1
    {
      senderCount := senderCount - 1;
    }

    method DropReceiver()
      modifies this`receiverGone
      ensures receiverGone
    {
      receiverGone := true;
    }
  }
}
