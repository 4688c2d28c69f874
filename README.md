# Inbound call routing webhook, modelled in Dafny

The system is a small IVR controller for a call-control platform. The
platform posts webhook events about a phone call: `call.initiated`,
`call.gather.ended` (the caller pressed a menu digit) and `call.hangup`.
The controller answers the call and starts a DTMF menu. It reads the digit
the caller chose and transfers the call to the SIP address of the sales,
support or porting department. Two process-wide sets record which calls are
already routed and which have hung up, so that a duplicated or late gather
event never causes another transfer once one has been accepted or the call
has hung up. A transfer the platform rejects leaves the call unrouted, and a
repeated gather transfers it again. Every reply to a decoded event object
is an HTTP 200 with a small status object.

The model has four modules:

- `Events` (`events.dfy`): the decoded event. It holds an optional event
  type and a payload with optional `call_control_id`, `digit` and `digits`
  strings, plus `result` and `dtmf` values that are absent, an object or some
  other JSON value. It also defines Python truthiness for these fields.
- `Text` (`text.dfy`): Python's `str.strip()`, using the whitespace set of
  `str.isspace()`.
- `Digits` (`digits.dfy`): digit extraction from a payload, and the
  digit → department → SIP URI tables.
- `Webhook` (`webhook.dfy`): the dispatcher. `Dispatch` is the reaction to one
  event as a pure function: the sets afterwards, the commands issued in
  order, and the reply. `CallRegistry` is the imperative form. It is a class
  holding the `routed` and `ended` sets, and its `Handle` method updates them
  in place and is proved equal to `Dispatch`. `Run`, `Transfers` and
  `AcceptedTransfers` follow a sequence of deliveries, for properties that
  span several events.

The outbound commands (answer, menu, transfer) are modelled as values of
`Command` that the reaction lists. The platform's verdict on an answer and on
a transfer is an input boolean. The menu's verdict is ignored, as in the
source.

In these points the model follows the code:

- A `call.gather.ended` without a call id replies `gather_ignored`, not
  `missing_call_control_id`.
- An unmapped digit and a rejected transfer both reply `gather_processed`.
- A `call.initiated` is answered even when the call is already routed or
  ended. Only gather events consult the sets.
- The two sets may overlap: a routed call that hangs up is in both.
- Nothing guards the sets against concurrent handlers. The model handles one
  event at a time.

## Model

| member | source | states |
|---|---|---|
| `Text.TrimStart` | app.py:90 | the leading-whitespace half of `strip`: a suffix of the input that does not start with whitespace, with only whitespace cut off |
| `Text.TrimEnd` | app.py:90 | the trailing-whitespace half of `strip`: a prefix of the input that does not end with whitespace, with only whitespace cut off |
| `Text.Strip` | app.py:90 | `strip` leaves no whitespace at either end, never lengthens, and gives `""` exactly when the input is all whitespace |
| `Text.StripSurrounded` | app.py:90 | any whitespace around a string with non-space ends is removed, and the string itself is kept, so `" 2 "` strips to `"2"` |
| `Text.StripIdempotent` | app.py:90 | a property of `strip` itself: stripping twice is stripping once |
| `Digits.NestedDigits` | app.py:92-94 | a nested object yields its first truthy `digits`, then `digit`, stripped, else `""`; a value that is not an object yields `""` |
| `Digits.NestedSource` | app.py:91 | the nested value read is `result` if truthy, else `dtmf` if truthy, else the empty object |
| `Digits.ExtractDigits` | app.py:87-94 | the extracted digit never has whitespace at either end |
| `Digits.DirectFieldsShadowNested` | app.py:88-90 | once `digit` or `digits` is truthy, `result`/`dtmf` cannot change the result, even when the direct value is blank and strips to `""` |
| `Digits.NestedFallback` | app.py:91-94 | without a truthy direct field, a truthy `result` hides `dtmf`; a truthy value that is not an object gives `""`; neither truthy gives `""` |
| `Digits.ExtractDigitsPrecedence` | app.py:87-94 | a truthy `digit` is taken before `digits`, each stripped; failing both, a truthy `result` object is read, else a truthy `dtmf` object, and with neither the result is `""` |
| `Digits.DigitFieldExample` | app.py:88-90 | `{digit: " 2 "}` gives `"2"` |
| `Digits.DigitsFieldExample` | app.py:88-90 | `{digits: "1"}` gives `"1"` |
| `Digits.NestedDigitsExample` | app.py:91-93 | `{result: {digits: "3"}}` gives `"3"` |
| `Digits.EmptyPayloadExample` | app.py:91-94 | `{}` gives `""` |
| `Digits.BlankDigitExample` | app.py:88-90 | a blank `digit` of `"  "` gives `""` although `result` holds `"3"` |
| `Digits.DigitBeforeDigitsExample` | app.py:88-90 | `{digit: "1", digits: "2"}` gives `"1"` |
| `Digits.NestedDigitsBeforeDigitExample` | app.py:91-93 | `{result: {digits: "3", digit: "1"}}` gives `"3"` |
| `Digits.DtmfFallbackExample` | app.py:91-93 | `{result: {}, dtmf: {digit: "2"}}` gives `"2"`, since an empty object is falsy |
| `Digits.Department` | app.py:32-37 | the two tables as read by the lookup at app.py:119-121: exactly the one-character strings `"1"`, `"2"`, `"3"` select a department (sales, support, porting, both directions), and every selected department has a SIP URI |
| `Digits.UnmappedDigits` | app.py:119-124 | `""`, `"12"`, `"4"`, `"0"`, `"a"` and `" 1"` select no department |
| `Webhook.CallId` | app.py:106-107 | a call id counts as present exactly when it is a non-empty string |
| `Webhook.Dispatch` | app.py:104-133 | both sets only grow; every command is for the event's call; at most one transfer, and never of a routed or ended call; a call becomes routed exactly when its transfer was issued and accepted; a call becomes ended exactly when a hangup names it; a suppressed gather does nothing and replies `gather_ignored` |
| `Webhook.Initiated` | app.py:105-112 | `call.initiated` leaves the sets alone. Without an id it replies `missing_call_control_id` and issues nothing. Otherwise it issues one answer. If that fails it replies `answer_failed` with no menu; if it succeeds it issues one menu and replies `answered_and_menu_started` |
| `Webhook.GatherProcessedReaction` | app.py:118-125 | a fresh gather replies `gather_processed` with the extracted digit and never touches `ended`. A mapped digit issues exactly one transfer to its department's URI, and the call is routed iff the transfer was accepted. Any other digit issues one menu replay and changes nothing |
| `Webhook.Hangup` | app.py:127-131 | `call.hangup` issues nothing, replies `received`, leaves `routed` alone, and marks a named call ended whatever its earlier state |
| `Webhook.OtherEvent` | app.py:133 | any other event type, or none, issues nothing, changes nothing and replies `received` echoing the type |
| `Webhook.Run` | app.py:40-41 | over any sequence of events both sets only grow |
| `Webhook.RoutedExactlyOnce` | app.py:116-122 | over any sequence of events, a call has at most one accepted transfer, and exactly one if it ends up newly routed |
| `Webhook.NoTransferOfSettledCall` | app.py:116-117 | once a call is routed or ended, no later sequence of events ever transfers it |
| `Webhook.RejectedTransferRetried` | app.py:116-122 | a fresh gather with a mapped digit whose transfer is rejected leaves the call unrouted, so the same gather delivered again issues a second transfer |
| `Webhook.NoTransferAfterHangup` | app.py:127-130 | after a hangup names a call, nothing that arrives later transfers it |
| `Webhook.CallRegistry.constructor` | app.py:40-41 | both sets start empty |
| `Webhook.CallRegistry.Handle` | app.py:97-133 | handling an event in place issues the commands and reply of `Dispatch`, leaves the sets as `Dispatch` does, and only adds to them |

## Left out

- HTTP plumbing: routing, JSON decoding, `jsonify` and the server start-up
  (app.py:97-102, 140-144). The handler takes an already decoded event.
  Every reply to a decoded event object is HTTP 200, so the code is not
  modelled.
- A body that is not an event object: a truthy body that is not an object (a
  non-empty array, a string, a non-zero number, `true`), or a `data` that is
  null or not an object, makes the lookups at app.py:100-102 fail before the
  `try` and gets the server's HTTP 500. A falsy body such as `[]` becomes `{}`
  and is answered `received`. The model's events are always
  decoded objects.
- Transport of the three commands: the POST requests, headers, base URL,
  timeout, fresh command ids and the menu's prompt text (app.py:16-24,
  44-85). A command is an emitted value, and the platform's verdict is an
  input boolean.
- Configuration: loading the API key, the `KEY` prefix check, the port and
  the debug flag (app.py:11-14). These are start-up settings, not dispatch
  logic.
- Logging. It has no effect on replies or state.
- The catch-all handler that replies `error` (app.py:135-137). It only
  catches Python runtime faults, and the model has none.
- Digits.ExtractDigits: does not model the `str()` coercion of non-string
  values (app.py:90, 93). `digit`, `digits` and the `digits`/`digit` of a
  nested object are strings or absent. A JSON null behaves like an absent
  field, except inside a nested object, where the key still makes the object
  truthy and so counts like `""`.
- Concurrent handlers and races on the shared sets. Events are handled one
  at a time.
- No eviction of the sets. This matches the source, where both only grow.
