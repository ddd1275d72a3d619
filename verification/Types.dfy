/** Identifiers, amounts and small result types shared by every component of the model. */
module Types {

  datatype Option<+T> = None | Some(value: T)

  datatype Result<+T, +E> = Ok(value: T) | Err(error: E)

  /** A 32-byte Nostr event id; also the idempotency key handed to the wallet. */
  type EventId = nat

  /** A 32-byte Lightning payment hash. */
  type PaymentHash = nat

  /** The stable identifier a host chose for one authorization. */
  type ConnectionId = nat

  /** A canonical secure relay URL. */
  type Relay = string

  /** A 16-byte random claim token. */
  type Token = nat

  datatype NwcMethod = GetInfo | GetBalance | MakeInvoice | PayInvoice | LookupInvoice | ListTransactions

  /** The largest value SQLite stores in an INTEGER column. */
  const I64_MAX: nat := 0x7FFF_FFFF_FFFF_FFFF

  /** The largest value of the program's unsigned 64-bit integers. */
  const U64_MAX: nat := 0xFFFF_FFFF_FFFF_FFFF

  const NANOS_PER_SECOND: nat := 1_000_000_000

  /** True when an unsigned value can be written to an INTEGER column. */
  predicate Fits(value: nat) {
    value <= I64_MAX
  }
}
