/** The event row that the write path leaves in the outbox and the delivery pipeline picks up. */
module Events {
  /** `described` is true when the posting also stored a raw descriptor row for the normalizer. */
  datatype OutboxRow = OutboxRow(id: nat, eventId: string, txnId: string, described: bool)
}
