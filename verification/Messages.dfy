/** Messages between the chain and its off-chain workers (crates/phala-mq/src/types.rs). */
module Messages {

  datatype Origin =
    | FromPallet(name: string) | Contract(id: nat) | Worker(key: nat) | FromAccount(account: nat)
    | MultiLocation(location: string) | Gatekeeper
  {
    predicate IsOffchain() { Contract? || Worker? || Gatekeeper? }
  }

  type Topic = string

  const RESERVED: string := "~!@#$%&*_+-=|<>?,./;:'"

  predicate IsValid(topic: Topic) {
    topic != "" && topic[0] !in RESERVED
  }

  /** Topics for subscribers on the chain only start with a caret. */
  predicate LeavesChain(topic: Topic) {
    IsValid(topic) && topic[0] != '^'
  }

  datatype Message = Message(sender: Origin, destination: Topic, payload: nat)

  datatype SignedMessage = SignedMessage(message: Message, sequence: nat, signature: nat)
}
