/**
 * The decoded shape of one inbound webhook event of the call-control
 * platform, restricted to the fields the dispatcher reads, and the
 * JSON truthiness rules the handler applies to them.
 */
module Events {

  datatype Option<+T> = None | Some(value: T)

  /** The value found under `result` or `dtmf` in an event payload:
      missing (or JSON null); a JSON object, of which only its `digits` and
      `digit` strings and whether it has any other key matter; or some other
      JSON value, of which only its truthiness matters. */
  datatype Nested =
    | Absent
    | Object(digits: Option<string>, digit: Option<string>, otherKeys: bool)
    | Scalar(truthy: bool)

  /** The inner `payload` object of an event. */
  datatype Payload = Payload(
    callControlId: Option<string>,
    digit: Option<string>,
    digits: Option<string>,
    result: Nested,
    dtmf: Nested)

  /** One event: its `event_type` tag (possibly missing) and its payload. */
  datatype Event = Event(eventType: Option<string>, payload: Payload)

  /** A string field is truthy when it is present and non-empty. */
  predicate Present(v: Option<string>) {
    v.Some? && v.value != ""
  }

  /** An object is truthy when it has at least one key (a key holding
      null or `""` counts), any other value by its own truthiness. */
  predicate NestedTruthy(n: Nested) {
    match n
    case Absent => false
    case Object(digits, digit, otherKeys) => digits.Some? || digit.Some? || otherKeys
    case Scalar(truthy) => truthy
  }

  /** A payload with no fields at all, `{}`. */
  const EmptyPayload := Payload(None, None, None, Absent, Absent)

  /** The empty object, `{}`. */
  const EmptyObject := Object(None, None, false)
}
