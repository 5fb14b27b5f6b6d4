/**
 * The canonical message record handed to the `process_whatsapp_message`
 * database procedure, and the log of those calls.
 */
module Records {
  import opened Wrappers

  /** Who wrote a message: a customer (inbound) or the clinic (outbound). */
  /** Passed to the database as `p_sender` text `'customer'` or `'clinic'`. */
  datatype Sender = Customer | Clinic

  /** The only `p_message_type` either handler ever passes. */
  const TextType: string := "text"

  /**
   * The named parameters of one `process_whatsapp_message` call. The
   * timestamp is kept as milliseconds since the epoch; its ISO-8601
   * rendering is not modelled. `whatsappId` is None when the payload carried
   * no id (JavaScript `undefined`).
   */
  datatype Record = Record(
    phoneNumber: string,
    content: string,
    whatsappId: Option<string>,
    sender: Sender,
    messageType: string,
    timestampMs: int)

  /** One call made to the database, with whether it answered with an error. */
  datatype SinkCall = SinkCall(record: Record, failed: bool)

  /**
   * How the database answers: given the calls made so far and a new record,
   * whether it reports an error. The handlers never look further than the
   * answer's error flag.
   */
  type SinkBehaviour = (seq<SinkCall>, Record) -> bool

  /** The largest magnitude, in milliseconds, of a valid JavaScript Date (100,000,000 days). */
  const MaxTimeMs: int := 8_640_000_000_000_000

  /** `new Date(ms).toISOString()` succeeds exactly for milliseconds within the Date range. */
  predicate InDateRange(ms: int)
  {
    -MaxTimeMs <= ms <= MaxTimeMs
  }

  /** `seconds * 1000`: epoch seconds as epoch milliseconds. */
  function EpochMillis(seconds: int): (ms: int)
    ensures ms % 1000 == 0 && ms / 1000 == seconds
  {
    seconds * 1000
  }
}
