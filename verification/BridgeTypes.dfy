/** Messages, replies and transport outcomes shared by the two ends of the training-message bridge. */
module BridgeTypes {

  /** A serialized tensor; the bridge never looks inside. */
  type Tensor = seq<bv8>

  /** The `msg_case` of a TrainerWorkerMessage; `NotSet` stands for every case the receive cache rejects. */
  datatype Body = Prefetch | Start | Commit | Data(name: string, tensor: Tensor) | NotSet

  datatype Message = Message(seqNum: nat, body: Body)

  datatype ResultCode = SUCCESS | MESSAGE_DUPLICATED | MESSAGE_MISSING | UNKNOWN_ERROR

  /** How one transmission attempt ends at the sender. */
  datatype Outcome = TransportError | Replied(code: ResultCode)

  /** SUCCESS and MESSAGE_DUPLICATED free the message; everything else schedules a resend. */
  predicate Settles(o: Outcome) {
    o == Replied(SUCCESS) || o == Replied(MESSAGE_DUPLICATED)
  }
}
