/**
  The sequence gate of the transaction pool (pallets/phala/src/mq/check_seq.rs) and the scan
  of the pool for a sender's next sequence (crates/phala-node-rpc-ext/src/mq_seq.rs).
*/
module CheckSeq {
  import opened Base
  import opened Messages
  import opened MqPallet

  /** The encoding of a tag is taken to be injective. */
  datatype Tag = Tag(sender: Origin, sequence: nat)

  datatype Tx = Sync(signed: SignedMessage) | Other

  datatype Validity = Stale | Future | Valid(provided: seq<Tag>, required: seq<Tag>)

  type Expected = map<Origin, nat>

  /** The gate before a transaction is executed. */
  function PreDispatch(expected: Expected, tx: Tx): Validity {
    match tx
    case Other => Valid([], [])
    case Sync(signed) =>
      var next := Get(expected, signed.message.sender);
      if signed.sequence < next then Stale
      else if signed.sequence > next then Future
      else Valid([], [])
  }

  /** The check on entering the pool, against the state of the best block. */
  function Validate(expected: Expected, tx: Tx): Validity {
    match tx
    case Other => Valid([], [])
    case Sync(signed) =>
      var sender, next := signed.message.sender, Get(expected, signed.message.sender);
      if signed.sequence < next then Stale
      else Valid([Tag(sender, signed.sequence)],
        if signed.sequence > next then [Tag(sender, signed.sequence - 1)] else [])
  }

  /** The expected sequences after transactions whose dispatch succeeds. */
  function Executed(expected: Expected, txs: seq<Tx>): Expected {
    if txs == [] then expected
    else
      var before := Executed(expected, txs[..|txs| - 1]);
      match txs[|txs| - 1]
      case Other => before
      case Sync(signed) => before[signed.message.sender := Get(before, signed.message.sender) + 1]
  }

  /** The tags that a transaction provides. */
  predicate Provides(expected: Expected, tx: Tx, t: Tag) {
    Validate(expected, tx).Valid? && t in Validate(expected, tx).provided
  }

  /** No tag is provided twice, and every required tag is provided by an earlier transaction. */
  ghost predicate TagOrdered(expected: Expected, txs: seq<Tx>) {
    && (forall i :: 0 <= i < |txs| ==> Validate(expected, txs[i]).Valid?)
    && (forall i, j, t :: 0 <= i < j < |txs| && Provides(expected, txs[i], t) ==> !Provides(expected, txs[j], t))
    && (forall j :: 0 <= j < |txs| ==> forall t :: t in Validate(expected, txs[j]).required ==>
      ProvidedBefore(expected, txs, j, t))
  }

  predicate ProvidedBefore(expected: Expected, txs: seq<Tx>, j: nat, t: Tag)
    requires j <= |txs|
  {
    exists i :: 0 <= i < j && Provides(expected, txs[i], t)
  }

  /** A message that enters the pool provides its own tag and no other. */
  lemma ProvidesOwnTag(expected: Expected, tx: Tx, t: Tag)
    requires Validate(expected, tx).Valid?
    ensures Provides(expected, tx, t) <==> tx.Sync? && t == Tag(tx.signed.message.sender, tx.signed.sequence)
  {
  }

  /** Before position `k` exactly the sequences from the expected one up to the executed one were provided. */
  ghost predicate Contiguous(expected: Expected, txs: seq<Tx>, k: nat)
    requires k <= |txs|
  {
    forall s, q: nat :: ProvidedBefore(expected, txs, k, Tag(s, q)) <==>
      Get(expected, s) <= q < Get(Executed(expected, txs[..k]), s)
  }

  lemma NotProvidedBefore(expected: Expected, txs: seq<Tx>, k: nat, t: Tag)
    requires TagOrdered(expected, txs) && k < |txs| && Provides(expected, txs[k], t)
    ensures !ProvidedBefore(expected, txs, k, t)
  {
    hide Provides, Validate;
  }

  /** A message past the expected one requires the one in front of it, and none is valid below the expected one. */
  lemma RequiresPrevious(expected: Expected, tx: Tx)
    requires tx.Sync? && Validate(expected, tx).Valid?
    ensures var s, q := tx.signed.message.sender, tx.signed.sequence;
      q >= Get(expected, s) && (q > Get(expected, s) ==> Tag(s, q - 1) in Validate(expected, tx).required)
  {
  }

  lemma TagOrderedAt(expected: Expected, txs: seq<Tx>, k: nat)
    requires TagOrdered(expected, txs) && k < |txs|
    ensures Validate(expected, txs[k]).Valid?
    ensures forall t :: t in Validate(expected, txs[k]).required ==> ProvidedBefore(expected, txs, k, t)
  {
    hide Provides, Validate;
  }

  lemma NextIsExpected(expected: Expected, txs: seq<Tx>, k: nat)
    requires TagOrdered(expected, txs) && k < |txs| && Contiguous(expected, txs, k)
    ensures PreDispatch(Executed(expected, txs[..k]), txs[k]).Valid?
    ensures txs[k].Sync? ==>
      txs[k].signed.sequence == Get(Executed(expected, txs[..k]), txs[k].signed.message.sender)
  {
    hide TagOrdered, Validate, Executed, Provides, ProvidedBefore;
    TagOrderedAt(expected, txs, k);
    if txs[k].Sync? {
      var s, q := txs[k].signed.message.sender, txs[k].signed.sequence;
      ProvidesOwnTag(expected, txs[k], Tag(s, q));
      NotProvidedBefore(expected, txs, k, Tag(s, q));
      RequiresPrevious(expected, txs[k]);
      if q > Get(expected, s) {
        assert ProvidedBefore(expected, txs, k, Tag(s, q - 1));
      }
      assert !(Get(expected, s) <= q < Get(Executed(expected, txs[..k]), s));
      ExecutedGrows(expected, txs[..k], s);
    }
  }

  lemma {:induction false} ExecutedGrows(expected: Expected, txs: seq<Tx>, s: Origin)
    ensures Get(Executed(expected, txs), s) >= Get(expected, s)
  {
    if txs != [] {
      ExecutedGrows(expected, txs[..|txs| - 1], s);
    }
  }

  lemma ExecutedNext(expected: Expected, txs: seq<Tx>, k: nat)
    requires k < |txs|
    ensures Executed(expected, txs[..k + 1]) ==
            var before := Executed(expected, txs[..k]);
            if txs[k].Sync? then before[txs[k].signed.message.sender := Get(before, txs[k].signed.message.sender) + 1]
            else before
  {
    assert txs[..k + 1][..k] == txs[..k];
  }

  lemma ProvidedNext(expected: Expected, txs: seq<Tx>, k: nat, t: Tag)
    requires k < |txs|
    ensures ProvidedBefore(expected, txs, k + 1, t) <==>
      ProvidedBefore(expected, txs, k, t) || Provides(expected, txs[k], t)
  {
  }

  lemma {:induction false} StaysContiguous(expected: Expected, txs: seq<Tx>, k: nat)
    requires TagOrdered(expected, txs) && k <= |txs|
    ensures Contiguous(expected, txs, k)
  {
    if k == 0 {
      assert txs[..0] == [];
      hide Provides;
    } else {
      hide TagOrdered, Validate, Executed, Provides, ProvidedBefore, Contiguous;
      StaysContiguous(expected, txs, k - 1);
      ContiguousNext(expected, txs, k);
    }
  }

  lemma ContiguousNext(expected: Expected, txs: seq<Tx>, k: nat)
    requires TagOrdered(expected, txs) && 0 < k <= |txs| && Contiguous(expected, txs, k - 1)
    ensures Contiguous(expected, txs, k)
  {
    hide TagOrdered, Validate, Executed, Provides, ProvidedBefore;
    NextIsExpected(expected, txs, k - 1);
    ExecutedNext(expected, txs, k - 1);
    TagOrderedAt(expected, txs, k - 1);
    forall s, q: nat
      ensures ProvidedBefore(expected, txs, k, Tag(s, q)) <==>
        Get(expected, s) <= q < Get(Executed(expected, txs[..k]), s)
    {
      ProvidedNext(expected, txs, k - 1, Tag(s, q));
      ProvidesOwnTag(expected, txs[k - 1], Tag(s, q));
      ExecutedGrows(expected, txs[..k - 1], s);
    }
  }

  /**
    Executing transactions in any order that respects the tags never meets a stale or a
    future message, provided every dispatch succeeds.
  */
  lemma TagOrderIsSound(expected: Expected, txs: seq<Tx>, k: nat)
    requires TagOrdered(expected, txs) && k < |txs|
    ensures PreDispatch(Executed(expected, txs[..k]), txs[k]).Valid?
  {
    StaysContiguous(expected, txs, k);
    NextIsExpected(expected, txs, k);
  }

  /** Transactions executed one after the other, signatures checked. */
  function SyncAll(q: Mq, txs: seq<Tx>): Mq {
    if txs == [] then q
    else
      var before := SyncAll(q, txs[..|txs| - 1]);
      match txs[|txs| - 1]
      case Other => before
      case Sync(signed) => Synced(before, signed, true)
  }

  function MessagesIn(txs: seq<Tx>): seq<Message> {
    if txs == [] then []
    else MessagesIn(txs[..|txs| - 1]) + (if txs[|txs| - 1].Sync? then [txs[|txs| - 1].signed.message] else [])
  }

  predicate WellFormed(tx: Tx) {
    tx.Sync? ==> tx.signed.message.sender.IsOffchain() && IsValid(tx.signed.message.destination)
  }

  /** The gate lets a well-formed message through exactly if the chain would then accept it, its signature checked. */
  lemma GateIsExact(q: Mq, tx: Tx)
    requires tx.Sync? && WellFormed(tx)
    ensures PreDispatch(q.ingress, tx).Valid? <==> Refused(q, tx.signed, true).None?
    ensures PreDispatch(q.ingress, tx).Stale? <==> tx.signed.sequence < Get(q.ingress, tx.signed.message.sender)
    ensures PreDispatch(q.ingress, tx).Future? <==> tx.signed.sequence > Get(q.ingress, tx.signed.message.sender)
  {
  }

  /** The pool takes all but the stale ones, and asks for the message before one that is past the expected one. */
  lemma PoolAdmits(expected: Expected, tx: Tx)
    requires tx.Sync?
    ensures var s, next := tx.signed.sequence, Get(expected, tx.signed.message.sender);
      && (Validate(expected, tx).Stale? <==> s < next) && !Validate(expected, tx).Future?
      && (s >= next ==> forall t :: t in Validate(expected, tx).required <==>
            s > next && t == Tag(tx.signed.message.sender, s - 1))
  {
  }

  /** The chain accepts every message that the pool hands over in an order that respects the tags. */
  lemma {:induction false} PoolOrderDelivers(q: Mq, txs: seq<Tx>, k: nat)
    requires TagOrdered(q.ingress, txs) && k <= |txs| && forall tx :: tx in txs ==> WellFormed(tx)
    ensures SyncAll(q, txs[..k]).ingress == Executed(q.ingress, txs[..k])
    ensures SyncAll(q, txs[..k]).log == q.log + MessagesIn(txs[..k])
  {
    if k > 0 {
      PoolOrderDelivers(q, txs, k - 1);
      TagOrderIsSound(q.ingress, txs, k - 1);
      assert txs[..k][..k - 1] == txs[..k - 1] && WellFormed(txs[k - 1]);
      hide TagOrdered;
    }
  }

  // ---------------------------------------------------------------- the scan of the pool

  /** Some ready transaction provides the sender's tag for this sequence. */
  predicate Provided(ready: seq<seq<Tag>>, sender: Origin, sequence: nat) {
    exists i :: 0 <= i < |ready| && Tag(sender, sequence) in ready[i]
  }

  /** Ready transactions of the sender come in the order of their sequences, one tag each. */
  ghost predicate Ascending(ready: seq<seq<Tag>>, sender: Origin) {
    && (forall i, a: nat, b: nat ::
          0 <= i < |ready| && Tag(sender, a) in ready[i] && Tag(sender, b) in ready[i] ==> a == b)
    && (forall i, j, a: nat, b: nat ::
          0 <= i < j < |ready| && Tag(sender, a) in ready[i] && Tag(sender, b) in ready[j] ==> a < b)
  }

  /**
    Every sequence from the state's up to the result is provided by a ready transaction; on
    ascending lists the result itself is not, so it is the least that is free.
  */
  method GetMqSeq(stateSeq: nat, ready: seq<seq<Tag>>, sender: Origin) returns (current: nat)
    ensures current >= stateSeq
    ensures forall q: nat :: stateSeq <= q < current ==> Provided(ready, sender, q)
    ensures Ascending(ready, sender) ==> !Provided(ready, sender, current)
  {
    current := stateSeq;
    var currentTag := Tag(sender, current);
    var i := 0;
    while i < |ready|
      invariant i <= |ready| && current >= stateSeq && currentTag == Tag(sender, current)
      invariant forall q: nat :: stateSeq <= q < current ==> Provided(ready, sender, q)
      invariant Ascending(ready, sender) ==> forall k :: 0 <= k < i ==> Tag(sender, current) !in ready[k]
    {
      var provided := ready[i];
      ghost var before := current;
      var j := 0;
      while j < |provided|
        invariant j <= |provided| && current == before && currentTag == Tag(sender, current)
        invariant forall k :: 0 <= k < j ==> provided[k] != currentTag
      {
        if provided[j] == currentTag {
          assert Provided(ready, sender, current);
          current := current + 1;
          currentTag := Tag(sender, current);
          break;
        }
        j := j + 1;
      }
      assert current == before + 1 ==> Tag(sender, before) in ready[i];
      i := i + 1;
    }
  }
}
