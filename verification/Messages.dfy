/** The message and outcome types every component passes around
    (`src/canonical_message.rs`, `src/outcomes.rs`, `src/errors.rs`). */
module Messages {

  datatype Option<+T> = None | Some(value: T)

  newtype Byte = x: int | 0 <= x < 256

  /** A canonical message: identity, payload bytes and string metadata. */
  datatype Message = Message(id: nat, payload: seq<Byte>, metadata: map<string, string>)

  /** What a route decides about one received message. */
  datatype Disposition = Ack | Nack | Reply(message: Message)

  /** `ProcessingError`: the class of a failure is what decides redelivery. */
  datatype ErrorClass = Retryable | NonRetryable | Connection

  datatype ProcessingError = ProcessingError(kind: ErrorClass, reason: string)

  /** The prefix of framework-injected source positions. */
  const SOURCE_METADATA_PREFIX := "mqb.src."

  predicate IsSourceMetadataKey(key: string) {
    SOURCE_METADATA_PREFIX <= key
  }
}
