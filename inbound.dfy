/**
 * The POST /webhook handler: it reads the message list of the first change
 * of the first entry of a provider notification and makes one database call
 * per message, in order.
 */
module Inbound {
  import opened Wrappers
  import opened Phone
  import opened Records

  /**
   * The notification envelope. Every level may be absent; a JSON `null`
   * entry, change or value reads like an absent one under optional chaining.
   */
  datatype Envelope = Envelope(entry: Option<seq<Entry>>)
  datatype Entry = Entry(changes: Option<seq<Change>>)
  datatype Change = Change(value: Option<Value>)
  datatype Value = Value(messages: Option<seq<Element>>)

  /** An element of `messages`: `null`, on which reading `.from` throws, or a message object. */
  datatype Element = NullMessage | Msg(message: Message)

  datatype TextPart = TextPart(body: Option<string>)

  /**
   * One inbound message. `timestamp` is the number `parseInt` made of the
   * payload's epoch-seconds field, None when that was NaN.
   */
  datatype Message = Message(
    from: Option<string>,
    text: Option<TextPart>,
    id: Option<string>,
    timestamp: Option<int>)

  /** A webhook POST is answered 200 after the scan, or 500 when the handler threw. */
  datatype WebhookReply = Acknowledged | ServerError {
    function StatusCode(): int
    {
      if Acknowledged? then 200 else 500
    }
  }

  /** The first change of the first entry, if the envelope reaches that far. */
  function FirstChange(env: Envelope): Option<Change>
  {
    if env.entry.Some? && |env.entry.value| > 0 then
      var entry := env.entry.value[0];
      if entry.changes.Some? && |entry.changes.value| > 0 then Some(entry.changes.value[0]) else None
    else None
  }

  /**
   * `entry?.[0]?.changes?.[0]?.value?.messages`, with an absent list read as
   * no messages.
   */
  function Batch(env: Envelope): (batch: seq<Element>)
    ensures batch != [] ==> FirstChange(env).Some? && FirstChange(env).value.value.Some?
                            && FirstChange(env).value.value.value.messages == Some(batch)
    ensures FirstChange(env).Some? && FirstChange(env).value.value.Some?
            && FirstChange(env).value.value.value.messages.Some?
            ==> batch == FirstChange(env).value.value.value.messages.value
  {
    var change := FirstChange(env);
    if change.Some? && change.value.value.Some? && change.value.value.value.messages.Some?
    then change.value.value.value.messages.value
    else []
  }

  /** A message processed in the loop throws: `null.from`, or a RangeError from an invalid Date. */
  predicate Throws(e: Element)
  {
    e.NullMessage? || e.message.timestamp.None? || !InDateRange(EpochMillis(e.message.timestamp.value))
  }

  /** How many leading messages are processed before one throws (all of them if none does). */
  function Processed(batch: seq<Element>): (k: nat)
    ensures k <= |batch|
    ensures forall i :: 0 <= i < k ==> !Throws(batch[i])
    ensures k < |batch| ==> Throws(batch[k])
  {
    if batch == [] || Throws(batch[0]) then 0 else 1 + Processed(batch[1..])
  }

  /** A value interpolated into a template string: an absent one prints as `undefined`. */
  function Rendered(o: Option<string>): string
  {
    o.GetOr("undefined")
  }

  /** `message.text?.body || ''`: the body when present and non-empty, otherwise the empty string. */
  function Content(m: Message): (c: string)
    ensures c != "" <==> m.text.Some? && m.text.value.body.Some? && m.text.value.body.value != ""
    ensures c != "" ==> c == m.text.value.body.value
  {
    if m.text.Some? && m.text.value.body.Some? then m.text.value.body.value else ""
  }

  /** What the database call for an inbound message carries. */
  predicate IsInboundRecordOf(r: Record, e: Element)
  {
    && e.Msg?
    && e.message.timestamp.Some?
    && r.phoneNumber == StorageId(Rendered(e.message.from))
    && r.content == Content(e.message)
    && r.whatsappId == e.message.id
    && r.sender == Customer
    && r.messageType == TextType
    && r.timestampMs == e.message.timestamp.value * 1000
  }

  /**
   * POST /webhook. `log0` is the database's call log before the request and
   * `log` the log after it; `rejects` stands for the database's answers.
   */
  method HandleWebhook(body: Envelope, log0: seq<SinkCall>, rejects: SinkBehaviour)
    returns (reply: WebhookReply, log: seq<SinkCall>)
    ensures Processed(Batch(body)) == |Batch(body)| ==> reply == Acknowledged
    ensures Processed(Batch(body)) < |Batch(body)| ==> reply == ServerError
    ensures reply.StatusCode() == (if Processed(Batch(body)) == |Batch(body)| then 200 else 500)
    ensures |log| == |log0| + Processed(Batch(body))
    ensures log[..|log0|] == log0
    ensures forall i :: 0 <= i < Processed(Batch(body)) ==> IsInboundRecordOf(log[|log0| + i].record, Batch(body)[i])
    ensures forall i :: |log0| <= i < |log| ==> log[i].failed == rejects(log[..i], log[i].record)
  {
    var batch := Batch(body);
    reply := Acknowledged;
    log := log0;
    var i := 0;
    while i < |batch|
      invariant 0 <= i <= |batch|
      invariant forall j :: 0 <= j < i ==> !Throws(batch[j])
      invariant |log| == |log0| + i
      invariant log[..|log0|] == log0
      invariant forall j :: 0 <= j < i ==> IsInboundRecordOf(log[|log0| + j].record, batch[j])
      invariant forall j :: |log0| <= j < |log| ==> log[j].failed == rejects(log[..j], log[j].record)
    {
      var element := batch[i];
      if element.NullMessage? {
        reply := ServerError;
        break;
      }
      var message := element.message;
      var content := Content(message);
      if message.timestamp.None? || !InDateRange(EpochMillis(message.timestamp.value)) {
        reply := ServerError;
        break;
      }
      var record := Record(StorageId(Rendered(message.from)), content, message.id, Customer, TextType,
                           EpochMillis(message.timestamp.value));
      var failed := rejects(log, record);
      ghost var before := log;
      log := log + [SinkCall(record, failed)];
      assert log[..|before|] == before;
      assert forall j :: 0 <= j <= |before| ==> log[..j] == before[..j];
      i := i + 1;
    }
    assert i == Processed(batch);
  }

  /** With the list absent at any level, or empty, there is nothing to process. */
  lemma MissingListMeansNoMessages(env: Envelope)
    requires || env.entry.None?
             || |env.entry.value| == 0
             || env.entry.value[0].changes.None?
             || |env.entry.value[0].changes.value| == 0
             || env.entry.value[0].changes.value[0].value.None?
             || env.entry.value[0].changes.value[0].value.value.messages.None?
             || env.entry.value[0].changes.value[0].value.value.messages == Some([])
    ensures Batch(env) == []
    ensures Processed(Batch(env)) == |Batch(env)|
  {
  }

  /** A message list present in the first change of the first entry is the batch, whatever else the envelope holds. */
  lemma PresentListIsBatch(entries: seq<Entry>, changes: seq<Change>, messages: seq<Element>)
    requires |entries| > 0 && entries[0].changes == Some(changes)
    requires |changes| > 0 && changes[0].value == Some(Value(Some(messages)))
    ensures Batch(Envelope(Some(entries))) == messages
  {
  }

  /** Only the first change of the first entry is ever read. */
  lemma OnlyFirstChangeRead(a: Envelope, b: Envelope)
    requires FirstChange(a) == FirstChange(b)
    ensures Batch(a) == Batch(b)
  {
  }

  /** Well-formed messages are all processed (a consequence of the contract of Processed). */
  lemma WellFormedBatchFullyProcessed(batch: seq<Element>)
    requires forall i :: 0 <= i < |batch| ==> !Throws(batch[i])
    ensures Processed(batch) == |batch|
  {
  }

  /** The processed prefix ends at the first message that throws (likewise). */
  lemma ProcessedStopsAtFirstThrow(batch: seq<Element>, k: nat)
    requires k < |batch| && Throws(batch[k])
    requires forall i :: 0 <= i < k ==> !Throws(batch[i])
    ensures Processed(batch) == k
  {
  }
}
