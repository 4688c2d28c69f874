/**
 * Reading the caller's menu choice out of a `call.gather.ended` payload,
 * and the static tables that turn that digit into a department and the
 * department into the SIP address a call is transferred to.
 */
module Digits {
  import opened Events
  import opened Text

  /** The digit held in a nested `result`/`dtmf` value: for an object, its
      first truthy `digits` or `digit` string, stripped, else `""`; for any
      other value, `""`. */
  function NestedDigits(n: Nested): (r: string)
    ensures Trimmed(r)
    ensures n.Object? && Present(n.digits) ==> r == Strip(n.digits.value)
    ensures n.Object? && !Present(n.digits) && Present(n.digit) ==> r == Strip(n.digit.value)
    ensures n.Object? && !Present(n.digits) && !Present(n.digit) ==> r == ""
    ensures !n.Object? ==> r == ""
  {
    match n
    case Object(digits, digit, _) =>
      if Present(digits) then Strip(digits.value)
      else if Present(digit) then Strip(digit.value)
      else ""
    case _ => ""
  }

  /** The nested value extraction falls back to: `result` if truthy, else
      `dtmf` if truthy, else the empty object. */
  function NestedSource(p: Payload): (n: Nested)
    ensures n == p.result || n == p.dtmf || n == EmptyObject
    ensures NestedTruthy(p.result) ==> n == p.result
    ensures !NestedTruthy(p.result) && NestedTruthy(p.dtmf) ==> n == p.dtmf
    ensures !NestedTruthy(p.result) && !NestedTruthy(p.dtmf) ==> n == EmptyObject
  {
    if NestedTruthy(p.result) then p.result
    else if NestedTruthy(p.dtmf) then p.dtmf
    else EmptyObject
  }

  /** The digit string of a payload: the first truthy of `digit` and
      `digits`, stripped; failing both, the digit of the nested value. */
  function ExtractDigits(p: Payload): (r: string)
    ensures Trimmed(r)
  {
    if Present(p.digit) then Strip(p.digit.value)
    else if Present(p.digits) then Strip(p.digits.value)
    else NestedDigits(NestedSource(p))
  }

  /** Once `digit` or `digits` is truthy, nothing nested is consulted, even
      when the direct value strips to the empty string. */
  lemma DirectFieldsShadowNested(p: Payload, result: Nested, dtmf: Nested)
    requires Present(p.digit) || Present(p.digits)
    ensures ExtractDigits(p) == ExtractDigits(p.(result := result, dtmf := dtmf))
    ensures AllSpace(if Present(p.digit) then p.digit.value else p.digits.value) ==> ExtractDigits(p) == ""
  {
  }

  /** With no truthy direct field, a truthy `result` hides `dtmf`, and a
      truthy value that is not an object yields `""`. */
  lemma NestedFallback(p: Payload, dtmf: Nested)
    requires !Present(p.digit) && !Present(p.digits)
    ensures NestedTruthy(p.result) ==> ExtractDigits(p) == ExtractDigits(p.(dtmf := dtmf))
    ensures NestedTruthy(p.result) && !p.result.Object? ==> ExtractDigits(p) == ""
    ensures !NestedTruthy(p.result) && NestedTruthy(p.dtmf) && !p.dtmf.Object? ==> ExtractDigits(p) == ""
    ensures !NestedTruthy(p.result) && !NestedTruthy(p.dtmf) ==> ExtractDigits(p) == ""
  {
  }

  /** Where the extracted digit comes from, field by field: `digit` before
      `digits`; failing both, the object under `result` if truthy, else the
      one under `dtmf`; inside that object `digits` before `digit`; each
      taken value stripped, and `""` when nothing is found. */
  lemma ExtractDigitsPrecedence(p: Payload)
    ensures Present(p.digit) ==> ExtractDigits(p) == Strip(p.digit.value)
    ensures !Present(p.digit) && Present(p.digits) ==> ExtractDigits(p) == Strip(p.digits.value)
    ensures !Present(p.digit) && !Present(p.digits) && p.result.Object? && NestedTruthy(p.result) ==>
      ExtractDigits(p) == NestedDigits(p.result)
    ensures !Present(p.digit) && !Present(p.digits) && !NestedTruthy(p.result) && p.dtmf.Object? && NestedTruthy(p.dtmf) ==>
      ExtractDigits(p) == NestedDigits(p.dtmf)
    ensures !Present(p.digit) && !Present(p.digits) && !NestedTruthy(p.result) && !NestedTruthy(p.dtmf) ==>
      ExtractDigits(p) == ""
  {
  }

  /** Extraction from a padded `digit`. */
  lemma DigitFieldExample()
    ensures ExtractDigits(EmptyPayload.(digit := Some(" 2 "))) == "2"
  {
  }

  /** Extraction from `digits`. */
  lemma DigitsFieldExample()
    ensures ExtractDigits(EmptyPayload.(digits := Some("1"))) == "1"
  {
  }

  /** Extraction from a nested `result` object. */
  lemma NestedDigitsExample()
    ensures ExtractDigits(EmptyPayload.(result := EmptyObject.(digits := Some("3")))) == "3"
  {
  }

  /** Nothing to extract from the empty payload. */
  lemma EmptyPayloadExample()
    ensures ExtractDigits(EmptyPayload) == ""
  {
    assert NestedSource(EmptyPayload) == EmptyObject;
  }

  /** A blank but non-empty `digit` is taken and strips to `""`; the digit
      in `result` is never looked at. */
  lemma BlankDigitExample()
    ensures ExtractDigits(EmptyPayload.(digit := Some("  "), result := EmptyObject.(digits := Some("3")))) == ""
  {
    assert AllSpace("  ");
  }

  /** With both direct fields present, `digit` wins. */
  lemma DigitBeforeDigitsExample()
    ensures ExtractDigits(EmptyPayload.(digit := Some("1"), digits := Some("2"))) == "1"
  {
  }

  /** Inside a nested object, `digits` wins over `digit`. */
  lemma NestedDigitsBeforeDigitExample()
    ensures ExtractDigits(EmptyPayload.(result := Object(Some("3"), Some("1"), false))) == "3"
  {
    var n := Object(Some("3"), Some("1"), false);
    assert NestedSource(EmptyPayload.(result := n)) == n;
    assert NestedDigits(n) == Strip("3");
    assert [] + "3" + [] == "3";
    StripSurrounded([], "3", []);
  }

  /** An empty `result` object is falsy, so the `dtmf` object is read. */
  lemma DtmfFallbackExample()
    ensures ExtractDigits(EmptyPayload.(result := EmptyObject, dtmf := EmptyObject.(digit := Some("2")))) == "2"
  {
  }

  /** The department names and the SIP address each one is transferred to. */
  const DepartmentUris: map<string, string> := map[
    "sales" := "sip:xxxxxxxxxxxxxxxxxxx",
    "support" := "sip:xxxxxxxxxxxxxxxxxxx",
    "porting" := "sip:xxxxxxxxxxxxxxxxxxx"]

  /** The menu: which digit selects which department. */
  const DigitToDepartment: map<string, string> := map["1" := "sales", "2" := "support", "3" := "porting"]

  /** The department a digit selects, if the digit is mapped to a
      non-empty department name. */
  function Department(digit: string): (dept: Option<string>)
    ensures dept.Some? <==> |digit| == 1 && '1' <= digit[0] <= '3'
    ensures dept == Some("sales") <==> digit == "1"
    ensures dept == Some("support") <==> digit == "2"
    ensures dept == Some("porting") <==> digit == "3"
    ensures dept.Some? ==> dept.value in DepartmentUris
  {
    assert |digit| == 1 ==> digit == [digit[0]];
    if digit in DigitToDepartment && DigitToDepartment[digit] != "" then Some(DigitToDepartment[digit]) else None
  }

  /** Strings the menu has no department for, among them the empty digit,
      several digits and digits outside the menu. */
  lemma UnmappedDigits()
    ensures Department("") == None
    ensures Department("12") == None
    ensures Department("4") == None
    ensures Department("0") == None
    ensures Department("a") == None
    ensures Department(" 1") == None
  {
  }
}
