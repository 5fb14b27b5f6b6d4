/**
 * The POST /send-message handler: validate the request, clean the phone,
 * send the text through the provider, validate the provider's answer and
 * record the sent message.
 */
module Outbound {
  import opened Wrappers
  import opened Phone
  import opened Records

  /** A JSON field of the request body: absent (or undefined), a string, or any other JSON value. */
  datatype Field = Absent | Str(s: string) | NonString(truthy: bool)

  /** JavaScript truthiness of a field: `null`, `false` and `0` are the falsy non-strings. */
  predicate Truthy(f: Field)
  {
    match f
    case Absent => false
    case Str(s) => s != ""
    case NonString(t) => t
  }

  /** The `{phone, message}` body of the request; a non-string message is not modelled. */
  datatype SendRequest = SendRequest(phone: Field, message: Option<string>)

  /** The parts of the provider request that vary: `to` and `text.body`. */
  datatype ProviderRequest = ProviderRequest(to: string, body: string)

  /** An element of the provider's `messages` answer list. */
  datatype SentMessage = SentMessage(id: Option<string>)

  /** The provider's response data; a `null` element of `messages` is None. */
  datatype SendData = SendData(messages: Option<seq<Option<SentMessage>>>)

  /** The HTTP response attached to a failed provider call. */
  datatype UpstreamResponse = UpstreamResponse(status: int, data: Option<string>)

  /** How the provider call ends: it throws (network failure or non-2xx status) or it responds. */
  datatype ProviderOutcome =
    | TransportError(errorMessage: string, response: Option<UpstreamResponse>)
    | Responded(data: Option<SendData>)

  /** The JSON the handler answers with. */
  datatype SendReply =
    | MissingFields
    | Sent(whatsappMessageId: Option<string>)
    | InvalidResponse(upstreamData: Option<SendData>)
    | SendFailed(details: string, status: Option<int>)
  {
    function StatusCode(): int
    {
      match this
      case MissingFields => 400
      case Sent(_) => 200
      case InvalidResponse(_) => 500
      case SendFailed(_, _) => 500
    }
  }

  /** The TypeError message of `phone.replace(...)` on a phone that is not a string. */
  const ReplaceNotAFunction: string := "phone.replace is not a function"

  /** `!phone || !message`. */
  predicate MissingInput(req: SendRequest)
  {
    !Truthy(req.phone) || req.message.None? || req.message.value == ""
  }

  /**
   * `messages[0]` of a response that passes the shape check
   * `data && data.messages && data.messages[0]`, and None for one that fails it.
   */
  function FirstSent(data: Option<SendData>): (first: Option<SentMessage>)
    ensures first.Some? <==> data.Some? && data.value.messages.Some? && |data.value.messages.value| > 0
                             && data.value.messages.value[0].Some?
    ensures first.Some? ==> first == data.value.messages.value[0]
  {
    if data.Some? && data.value.messages.Some? && |data.value.messages.value| > 0
    then data.value.messages.value[0]
    else None
  }

  /** `error.response?.data || error.message`. */
  function ErrorDetails(errorMessage: string, response: Option<UpstreamResponse>): (d: string)
    ensures response.Some? && response.value.data.Some? && response.value.data.value != "" ==> d == response.value.data.value
    ensures response.None? || response.value.data.None? || response.value.data.value == "" ==> d == errorMessage
  {
    if response.Some? && response.value.data.Some? && response.value.data.value != ""
    then response.value.data.value
    else errorMessage
  }

  /** What the database call for a sent message carries. */
  predicate IsOutboundRecordOf(r: Record, cleanPhone: string, message: string, id: Option<string>, now: int)
  {
    && r.phoneNumber == StorageId(cleanPhone)
    && r.content == message
    && r.whatsappId == id
    && r.sender == Clinic
    && r.messageType == TextType
    && r.timestampMs == now
  }

  /**
   * POST /send-message. `provider` is how the provider call would end, `now`
   * the clock at the database call, `log0`/`log` the database's call log
   * before and after, `rejects` its answers. `call` is the provider request
   * made, if any.
   */
  method SendMessage(req: SendRequest, provider: ProviderOutcome, now: int, log0: seq<SinkCall>, rejects: SinkBehaviour)
    returns (reply: SendReply, call: Option<ProviderRequest>, log: seq<SinkCall>)
    ensures reply == MissingFields <==> MissingInput(req)
    ensures reply.MissingFields? ==> call == None && log == log0
    ensures !MissingInput(req) && !req.phone.Str? ==>
              call == None && log == log0 && reply == SendFailed(ReplaceNotAFunction, None)
    ensures !MissingInput(req) && req.phone.Str? ==>
              call == Some(ProviderRequest(CleanPhone(req.phone.s), req.message.value))
    ensures call.Some? && provider.TransportError? ==>
              log == log0
              && reply == SendFailed(ErrorDetails(provider.errorMessage, provider.response),
                                     if provider.response.Some? then Some(provider.response.value.status) else None)
    ensures call.Some? && provider.Responded? && FirstSent(provider.data).None? ==>
              log == log0 && reply == InvalidResponse(provider.data)
    ensures call.Some? && provider.Responded? && FirstSent(provider.data).Some? ==>
              var id := FirstSent(provider.data).value.id;
              && reply == Sent(id)
              && |log| == |log0| + 1 && log[..|log0|] == log0
              && IsOutboundRecordOf(log[|log0|].record, call.value.to, call.value.body, id, now)
              && log[|log0|].failed == rejects(log0, log[|log0|].record)
    ensures reply.Sent? <==> log != log0
    ensures reply.StatusCode() == (if MissingInput(req) then 400 else if reply.Sent? then 200 else 500)
  {
    call := None;
    log := log0;
    if MissingInput(req) {
      return MissingFields, call, log;
    }
    if !req.phone.Str? {
      return SendFailed(ReplaceNotAFunction, None), call, log;
    }
    var cleanPhone := CleanPhone(req.phone.s);
    var message := req.message.value;
    call := Some(ProviderRequest(cleanPhone, message));
    match provider {
      case TransportError(errorMessage, response) =>
        var status := if response.Some? then Some(response.value.status) else None;
        reply := SendFailed(ErrorDetails(errorMessage, response), status);
      case Responded(data) =>
        var first := FirstSent(data);
        if first.None? {
          return InvalidResponse(data), call, log;
        }
        var messageId := first.value.id;
        var record := Record(StorageId(cleanPhone), message, messageId, Clinic, TextType, now);
        var failed := rejects(log, record);
        log := log + [SinkCall(record, failed)];
        reply := Sent(messageId);
    }
  }
}
