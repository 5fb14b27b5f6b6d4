# WhatsApp relay server: verified model of its request logic

The server (`src/index.ts`) sits between the Meta WhatsApp Business API and a
Supabase database. It answers the provider's webhook ownership check. For an
incoming webhook notification it turns each message in the first change of
the first entry into one call of the `process_whatsapp_message` database
procedure, in order, until a message makes the handler throw. It sends clinic
messages through the provider and records, with the same procedure, each send
whose provider response passes the shape check (a `messages[0]` present).

This project models the four pieces of decision logic inside those routes,
with the network and the database as inputs:

- `Verification` — the GET /webhook gate: 200 with the echoed challenge, or 403.
- `Inbound` — POST /webhook: the optional envelope `entry[0].changes[0].value.messages`,
  the loop over the messages, the record each message becomes, and the 500 the
  handler answers when a message makes it throw.
- `Phone` — `replace(/\D/g, '')` as a digit filter, and the storage identifier
  `<phone>@s.whatsapp.net`.
- `Outbound` — POST /send-message: input check (400), phone cleaning, the provider
  call as an outcome value, the response-shape check (500), the single database call
  and the 200 with the provider's message id.
- `Records` holds the record passed to the database and the database call log;
  `Wrappers` holds `Option`.

The database is a call log: each handler takes the log before the request and
returns the log after it. Each `SinkCall` keeps the record and whether the
database reported an error. The database's answer is a parameter `rejects`, a
function of the calls made so far and the new record. The provider call is a
`ProviderOutcome` parameter: a thrown error, with an optional HTTP response,
or response data. The send time is a parameter `now`, in milliseconds.

The model follows the code where it departs from what the system is meant to
do:

- The inbound phone is interpolated raw (`${from}@s.whatsapp.net`). It is not
  digit-cleaned, although stored phones are meant to be digits only.
- No inbound message is skipped for lacking a sender or an id. A missing `from`
  prints as `undefined`, and a missing `id` is passed on as absent.
- A message that makes the loop throw is not isolated. This happens for a `null`
  element (reading `.from`) and for a timestamp that `parseInt` turns into NaN or
  that lies outside the JavaScript Date range, so that `toISOString` throws a
  RangeError. The enclosing `try` answers 500. The messages after it are not
  processed, and the calls already made stay in the log.
- The outbound shape check does not look at `messages[0].id`. A response whose
  first element has no `id` still succeeds, with an absent id.
- In the inbound envelope, only index 0 of `entry` and of `changes` is read;
  the other entries and changes are never iterated.

## Model

| member | source | states |
|---|---|---|
| Verification.VerifyWebhook | src/index.ts:51-57 | the answer is 200 iff mode is `subscribe` and the token equals the configured verify token; a 200 carries the challenge (empty when absent) |
| Verification.VerifyEchoesChallenge | src/index.ts:51-53 | a matching request gets status 200 and exactly the challenge it sent, for every challenge |
| Verification.VerifyRefusesOthers | src/index.ts:54-56 | any other mode, or any missing or different token, gets 403 whatever the challenge |
| Verification.VerifyIgnoresChallenge | src/index.ts:51 | the status never depends on the challenge |
| Phone.CleanPhone | src/index.ts:114 | the cleaned phone consists of ASCII digits only and is no longer than the input |
| Phone.CleanPhoneFixesExactlyDigits | src/index.ts:114 | cleaning leaves a string unchanged iff it is all digits |
| Phone.CleanPhoneIdempotent | src/index.ts:114 | cleaning a cleaned phone changes nothing |
| Phone.CleanPhoneConcat | src/index.ts:114 | cleaning distributes over concatenation (the global replace works character by character) |
| Phone.CleanPhoneKeepsEveryDigit | src/index.ts:114 | every digit of the input occurs as often in the result, and no other character occurs |
| Phone.CleanPhoneIsSubsequence | src/index.ts:114 | the cleaned phone is an in-order subsequence of the input |
| Phone.DigitSubsequenceBound | src/index.ts:114 | no all-digit subsequence of the input is longer than the cleaned phone |
| Phone.DigitSubsequenceUnique | src/index.ts:114 | an all-digit subsequence of the input at least as long as the cleaned phone is the cleaned phone: it is the in-order sequence of the input's digits |
| Phone.StorageId | src/index.ts:81 | the storage identifier is the phone followed by the fixed suffix (its length is the sum) |
| Phone.StorageIdRoundTrip | src/index.ts:150 | stripping the suffix (`PhoneOf`, an inverse defined only in the model; the source never strips it) from a storage identifier gives back the phone, so distinct phones get distinct identifiers |
| Phone.PhoneOfInverse | src/index.ts:150 | every identifier that ends in the suffix is the storage identifier of its phone part, as recovered by the model-only inverse `PhoneOf` |
| Phone.OutboundIdIsDigitsAtSuffix | src/index.ts:114 | an outbound identifier is all digits followed by the suffix, and the digits are the cleaned phone |
| Phone.FormattedNumberExample | src/index.ts:114 | `+55 (11) 91234-5678` cleans to `5511912345678` and is stored as `5511912345678@s.whatsapp.net` |
| Records.InDateRange | src/index.ts:86 | `new Date(ms).toISOString()` succeeds exactly for milliseconds of magnitude at most 8.64e15; outside it throws a RangeError |
| Records.EpochMillis | src/index.ts:86 | `parseInt(timestamp) * 1000` is a whole number of milliseconds whose seconds are the input |
| Inbound.FirstChange | src/index.ts:65-66 | `entry?.[0]` then `changes?.[0]`: the first change of the first entry, absent when either list is absent or empty |
| Inbound.Batch | src/index.ts:65-68 | a `messages` list present at the first change of the first entry is the batch, and a non-empty batch can only come from there |
| Inbound.PresentListIsBatch | src/index.ts:65-71 | an envelope whose `entry[0].changes[0].value.messages` is a list yields exactly that list, whatever the other entries and changes hold |
| Inbound.Throws | src/index.ts:72-86 | a message makes the loop throw iff it is `null` (reading `.from`) or its parsed timestamp is NaN or outside the Date range (`toISOString`) |
| Inbound.Rendered | src/index.ts:81 | a value interpolated into the template prints as itself, or as `undefined` when absent |
| Inbound.Content | src/index.ts:73 | the content is the text body when present and non-empty, and empty otherwise |
| Inbound.Processed | src/index.ts:71-94 | the loop gets through the longest prefix of messages none of which throws; the next message, if any, throws |
| Inbound.IsInboundRecordOf | src/index.ts:80-87 | the rpc arguments for an inbound message: `from@s.whatsapp.net`, the content, the id, sender `customer`, type `text`, timestamp × 1000 |
| Inbound.HandleWebhook | src/index.ts:61-102 | one database call per processed message, in list order, each carrying `from@s.whatsapp.net`, the content, the id, sender customer, type `text` and timestamp × 1000; nothing before is changed; each call's error flag is the database's answer; 200 when all messages were processed, 500 when one threw; the number of calls and the reply do not depend on the database's answers |
| Inbound.MissingListMeansNoMessages | src/index.ts:65-70 | an absent entry list, first entry, change list, first change, value or message list, or an empty message list, gives no messages and so no calls and 200 |
| Inbound.OnlyFirstChangeRead | src/index.ts:65-66 | envelopes that agree on the first change of the first entry give the same messages |
| Inbound.WellFormedBatchFullyProcessed | src/index.ts:71-94 | when no message throws, every message is processed, so N messages give N calls |
| Inbound.ProcessedStopsAtFirstThrow | src/index.ts:98-100 | processing stops exactly at the first message that throws |
| Outbound.Truthy | src/index.ts:109 | JavaScript truthiness of a request field: absent, the empty string and falsy non-strings are false |
| Outbound.MissingInput | src/index.ts:109 | `!phone` or `!message`: the phone is falsy or the message is absent or empty |
| Outbound.IsOutboundRecordOf | src/index.ts:149-156 | the rpc arguments for a sent message: cleaned phone with the suffix, the message, the provider id, sender `clinic`, type `text`, the send time |
| Outbound.FirstSent | src/index.ts:137 | the shape check passes iff data, `messages` and a non-null `messages[0]` are present, and then yields `messages[0]` |
| Outbound.ErrorDetails | src/index.ts:180 | the error details are the upstream response data when present and non-empty, else the error message |
| Outbound.SendMessage | src/index.ts:105-183 | 400 iff phone or message is missing or empty, then with no provider call and no database call; a non-string phone throws on `replace`, giving 500 with no calls; otherwise the provider gets the cleaned phone and the message; a thrown provider error gives 500 with its details and upstream status and no database call; a failed shape check gives 500 with the data echoed and no database call; otherwise exactly one database call (cleaned phone with suffix, the message, `messages[0].id`, sender clinic, type `text`, the send time) and 200 with that id whatever the database answers; the log grows iff the reply is 200 |

## Left out

- Express setup, middleware, environment loading and `app.listen` (src/index.ts:1-21, 196-202): process bootstrap.
- `GET /` and `GET /status` (src/index.ts:24-38, 187-194): static descriptors with the wall-clock time.
- The fallback verify token of src/index.ts:16: the configured token is a parameter of `VerifyWebhook`.
- Repeated query parameters, which Express turns into arrays: they never equal a string, so for mode and token they act like an absent value. An array challenge (echoed as JSON) is not modelled.
- The HTTP request to the provider (URL, headers, `messaging_product` and `type` fields, src/index.ts:118-132). Only its `to` and `text.body` are kept, and its result is an input.
- The database procedure itself, including any de-duplication by message id. It is an appended call log whose answers are a parameter.
- ISO-8601 formatting of timestamps and the string parsing of `parseInt`. The timestamp is the integer `parseInt` produced, or None for NaN; only the Date range check of `toISOString` is modelled.
- Non-string `from`, `id`, `text.body` and `message` values, and non-array `entry`, `changes` or `messages` values.
- Provider data is modelled as strings: in `UpstreamResponse.data` a non-empty string stands for any truthy JSON value (an error object included), and falsy non-strings (`null`, `0`, `false`) are not told apart from an absent value. Likewise a falsy primitive as `messages[0]` is modelled only as an absent element.
- Console logging, the response bodies' fixed texts, and concurrency between requests.
