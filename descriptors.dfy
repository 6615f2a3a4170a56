/**
 * The operation descriptor that intent resolution produces and the orchestrator
 * consumes: `{intent, subscriberNo, month, amount}`, and the calendar period format.
 */
module Descriptors {
  import opened Wrappers
  import opened Strings
  import opened JsonValues

  /** The subscriber served when a message names none (the built-in value of DEFAULT_SUBSCRIBER_NO). */
  const DefaultSubscriberNo: string := "1234567890"

  lemma DefaultSubscriberIsDigits()
    ensures |DefaultSubscriberNo| == 10 && AllDigits(DefaultSubscriberNo)
  {
  }

  datatype Intent = QueryBill | QueryBillDetailed | PayBill | Greeting | Unknown

  /** The wire name of an intent. */
  function IntentName(i: Intent): string {
    match i
    case QueryBill => "query_bill"
    case QueryBillDetailed => "query_bill_detailed"
    case PayBill => "pay_bill"
    case Greeting => "greeting"
    case Unknown => "unknown"
  }

  /**
   * The branch that the `===` comparisons against the wire names select for an
   * intent value: anything that is not one of the four known names behaves as unknown.
   */
  function IntentOf(v: Option<Json>): (i: Intent)
    ensures i != Unknown ==> v == Some(JString(IntentName(i)))
    ensures forall j: Intent :: j != Unknown && v == Some(JString(IntentName(j))) ==> i == j
  {
    if v == Some(JString("query_bill")) then QueryBill
    else if v == Some(JString("query_bill_detailed")) then QueryBillDetailed
    else if v == Some(JString("pay_bill")) then PayBill
    else if v == Some(JString("greeting")) then Greeting
    else Unknown
  }

  type CalendarMonth = m: nat | 1 <= m <= 12 witness 1

  /** The reading of the local calendar clock: `getFullYear()` and `getMonth() + 1`. */
  datatype Clock = Clock(year: nat, month: CalendarMonth)

  /** `${year}-${String(month).padStart(2, '0')}`. */
  function CurrentPeriod(c: Clock): string {
    NatText(c.year) + "-" + PadZeros(NatText(c.month), 2)
  }

  /** A `YYYY-MM` period whose month is 01 .. 12. */
  predicate IsPeriod(s: string) {
    |s| == 7 && AllDigits(s[..4]) && s[4] == '-' && AllDigits(s[5..]) && 1 <= DigitsValue(s[5..]) <= 12
  }

  lemma FourDigitYear(y: nat)
    requires 1000 <= y <= 9999
    ensures |NatText(y)| == 4
  {
    assert |NatText(y / 1000)| == 1;
    assert |NatText(y / 100)| == 2;
    assert |NatText(y / 10)| == 3;
  }

  /** The current period is a well-formed `YYYY-MM` whenever the year has four digits. */
  lemma CurrentPeriodIsPeriod(c: Clock)
    requires 1000 <= c.year <= 9999
    ensures IsPeriod(CurrentPeriod(c))
    ensures CurrentPeriod(c)[..4] == NatText(c.year)
  {
    FourDigitYear(c.year);
    var p := CurrentPeriod(c);
    var mm := PadZeros(NatText(c.month), 2);
    assert p[5..] == mm;
    assert p[..4] == NatText(c.year);
    NatTextRoundTrip(c.month);
    if c.month < 10 {
      var d := NatText(c.month);
      assert |d| == 1;
      assert PadZeros(d, 2) == PadZeros("0" + d, 2) == "0" + d;
      assert mm[..1] == "0" && mm[1..] == d;
      assert DigitsValue(mm[..1]) == 0;
    } else {
      assert mm == NatText(c.month);
    }
  }

  /**
   * The descriptor of one message. `intent`, `subscriberNo` and `month` are the
   * values as parsed (a model reply may put any JSON there); `amount` is a number or null.
   */
  datatype Descriptor = Descriptor(intent: Option<Json>, subscriberNo: Json, month: Json, amount: Option<real>)
}
