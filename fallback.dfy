/**
 * The deterministic resolver `fallbackIntentParsing`: keyword classification,
 * month-name table, year scan, subscriber-number scan and amount scan over the
 * lower-cased message.
 */
module Fallback {
  import opened Wrappers
  import opened Strings
  import opened JsonValues
  import opened Descriptors

  const GreetingWords: seq<string> := ["hello", "hi", "hey", "greeting", "merhaba", "selam"]
  const DetailWords: seq<string> := ["detailed", "breakdown", "detail", "detayl\U{0131}", "detay"]
  const PayWords: seq<string> := ["pay", "payment", "\U{00F6}de", "\U{00F6}deme"]
  const BillWords: seq<string> := ["bill", "invoice", "check", "fatura", "sorgula", "sorgulama"]

  /** The `||` chain of `includes` tests over one keyword group. */
  predicate ContainsAny(m: string, words: seq<string>) {
    exists k :: 0 <= k < |words| && Contains(m, words[k])
  }

  /** Some keyword of the group occurs somewhere in `m`, as plain substring. */
  ghost predicate Mentions(m: string, words: seq<string>) {
    exists k: nat, j: nat :: k < |words| && OccursAt(m, words[k], j)
  }

  lemma MentionsIff(m: string, words: seq<string>)
    ensures ContainsAny(m, words) <==> Mentions(m, words)
  {
    forall k | 0 <= k < |words| {
      ContainsIff(m, words[k]);
    }
  }

  /** The intent of a lower-cased message: the first keyword group, in priority order, that it mentions. */
  function Classify(m: string): Intent {
    if ContainsAny(m, GreetingWords) then Greeting
    else if ContainsAny(m, DetailWords) then QueryBillDetailed
    else if ContainsAny(m, PayWords) then PayBill
    else if ContainsAny(m, BillWords) then QueryBill
    else Unknown
  }

  /**
   * Greeting words beat "detail" words, which beat pay words, which beat bill
   * words; a message mentioning none of them is unknown.
   */
  lemma ClassifyPriority(m: string)
    ensures Classify(m) == Greeting <==> Mentions(m, GreetingWords)
    ensures Classify(m) == QueryBillDetailed <==> !Mentions(m, GreetingWords) && Mentions(m, DetailWords)
    ensures Classify(m) == PayBill <==>
      !Mentions(m, GreetingWords) && !Mentions(m, DetailWords) && Mentions(m, PayWords)
    ensures Classify(m) == QueryBill <==>
      !Mentions(m, GreetingWords) && !Mentions(m, DetailWords) && !Mentions(m, PayWords) && Mentions(m, BillWords)
    ensures Classify(m) == Unknown <==>
      !Mentions(m, GreetingWords) && !Mentions(m, DetailWords) && !Mentions(m, PayWords) && !Mentions(m, BillWords)
  {
    MentionsIff(m, GreetingWords);
    MentionsIff(m, DetailWords);
    MentionsIff(m, PayWords);
    MentionsIff(m, BillWords);
  }

  /** Matching is plain substring search: "this" contains "hi" and is a greeting. */
  lemma ThisIsAGreeting()
    ensures Classify("this") == Greeting
  {
    assert OccursAt("this", GreetingWords[1], 1);
    MentionsIff("this", GreetingWords);
  }

  /** The month-name table, in the order the loop visits it: English names first, then Turkish. */
  const MonthTable: seq<(string, string)> := [
    ("january", "01"), ("february", "02"), ("march", "03"), ("april", "04"),
    ("may", "05"), ("june", "06"), ("july", "07"), ("august", "08"),
    ("september", "09"), ("october", "10"), ("november", "11"), ("december", "12"),
    ("ocak", "01"), ("\U{015F}ubat", "02"), ("mart", "03"), ("nisan", "04"),
    ("may\U{0131}s", "05"), ("haziran", "06"), ("temmuz", "07"), ("a\U{011F}ustos", "08"),
    ("eyl\U{00FC}l", "09"), ("ekim", "10"), ("kas\U{0131}m", "11"), ("aral\U{0131}k", "12")
  ]

  /** Every month number in the table is two digits between 01 and 12. */
  lemma MonthNumbersValid(k: nat)
    requires k < |MonthTable|
    ensures |MonthTable[k].1| == 2 && AllDigits(MonthTable[k].1)
    ensures 1 <= DigitsValue(MonthTable[k].1) <= 12
  {
  }

  /** The index of the first table entry whose name occurs in `m`. */
  function MonthIndex(m: string): (r: Option<nat>)
    ensures r.Some? ==> r.value < |MonthTable| && Contains(m, MonthTable[r.value].0)
    ensures r.Some? ==> forall j :: 0 <= j < r.value ==> !Contains(m, MonthTable[j].0)
    ensures r.None? ==> forall j :: 0 <= j < |MonthTable| ==> !Contains(m, MonthTable[j].0)
  {
    var P := (k: nat) => k < |MonthTable| && Contains(m, MonthTable[k].0);
    assert forall k: nat :: P(k) <==> k < |MonthTable| && Contains(m, MonthTable[k].0);
    FirstIndex(|MonthTable|, 0, P)
  }

  /** `\b(20\d{2})\b` matches at index `i`. */
  predicate YearAt(m: string, i: nat) {
    i + 4 <= |m| && m[i] == '2' && m[i + 1] == '0' && IsDigit(m[i + 2]) && IsDigit(m[i + 3])
    && (i == 0 || !IsWordChar(m[i - 1])) && (i + 4 == |m| || !IsWordChar(m[i + 4]))
  }

  /** Where the first standalone `20xx` starts. */
  function YearIndex(m: string): (r: Option<nat>)
    ensures r.Some? ==> YearAt(m, r.value) && forall j :: 0 <= j < r.value ==> !YearAt(m, j)
    ensures r.None? ==> forall j: nat :: !YearAt(m, j)
  {
    var P := (i: nat) => YearAt(m, i);
    assert forall i: nat :: P(i) <==> YearAt(m, i);
    FirstIndex(|m|, 0, P)
  }

  /** `\d{10,}` matches at index `i`. */
  predicate LongRunAt(m: string, i: nat) { i + 10 <= |m| && AllDigits(m[i..i + 10]) }

  lemma LongRunDigits(m: string, k: nat)
    requires LongRunAt(m, k)
    ensures forall t :: k <= t < k + 10 ==> IsDigit(m[t])
  {
    var w := m[k..k + 10];
    assert forall t :: k <= t < k + 10 ==> w[t - k] == m[t];
  }

  lemma LongRunStartsEarlier(m: string, k: nat)
    requires LongRunAt(m, k) && k > 0 && IsDigit(m[k - 1])
    ensures LongRunAt(m, k - 1)
  {
    LongRunDigits(m, k);
    var w := m[k - 1..k + 9];
    assert forall t :: 0 <= t < 10 ==> w[t] == m[k - 1 + t];
  }

  lemma LongRunExtends(m: string, k: nat)
    requires LongRunAt(m, k)
    ensures DigitRunEnd(m, k) >= k + 10
  {
    var e := DigitRunEnd(m, k);
    LongRunDigits(m, k);
  }

  /** The first match of `\d{10,}`: the run of ten or more digits that starts earliest. */
  function SubscriberIn(m: string): (r: Option<string>)
    ensures r.None? <==> forall i: nat :: !LongRunAt(m, i)
    ensures r.Some? ==> |r.value| >= 10 && AllDigits(r.value)
  {
    var P := (i: nat) => LongRunAt(m, i);
    assert forall i: nat :: P(i) <==> LongRunAt(m, i);
    match FirstIndex(|m|, 0, P)
    case Some(k) =>
      LongRunExtends(m, k);
      Some(m[k..DigitRunEnd(m, k)])
    case None => None
  }

  /**
   * The subscriber number is the whole digit run that holds the first ten-digit
   * window: it is neither preceded nor followed by a digit.
   */
  lemma SubscriberIsFirstLongRun(m: string, k: nat)
    requires LongRunAt(m, k) && forall j :: 0 <= j < k ==> !LongRunAt(m, j)
    ensures SubscriberIn(m) == Some(m[k..DigitRunEnd(m, k)])
    ensures k == 0 || !IsDigit(m[k - 1])
    ensures DigitRunEnd(m, k) == |m| || !IsDigit(m[DigitRunEnd(m, k)])
  {
    var P := (i: nat) => LongRunAt(m, i);
    assert forall i: nat :: P(i) <==> LongRunAt(m, i);
    assert FirstIndex(|m|, 0, P) == Some(k);
    if k > 0 && IsDigit(m[k - 1]) {
      LongRunStartsEarlier(m, k);
      assert false;
    }
  }

  /** `\s+for\s+` matches at index `i` (the spaces before "for" start at `i`). */
  predicate ForSeparatorAt(m: string, i: nat) {
    i < |m| && IsSpace(m[i]) &&
    var j := SpaceRunEnd(m, i);
    StartsAt(m, j, "for") && j + 3 < |m| && IsSpace(m[j + 3])
  }

  /** `m.split(/\s+for\s+/i)[0]`: the text before the first separator, or all of it. */
  function BeforeFor(m: string): (r: string)
    ensures r <= m
    ensures r == m || ForSeparatorAt(m, |r|)
    ensures forall i :: 0 <= i < |r| ==> !ForSeparatorAt(m, i)
  {
    var P := (i: nat) => ForSeparatorAt(m, i);
    assert forall i: nat :: P(i) <==> ForSeparatorAt(m, i);
    match FirstIndex(|m|, 0, P)
    case Some(k) => m[..k]
    case None => m
  }

  /** The end of the greedy match of `\d+\.?\d*` that starts at the digit at `i`. */
  function NumeralEnd(m: string, i: nat): (e: nat)
    requires i < |m| && IsDigit(m[i])
    ensures i < e <= |m|
  {
    var d := DigitRunEnd(m, i);
    if d < |m| && m[d] == '.' then DigitRunEnd(m, d + 1) else d
  }

  /** `parseFloat` of the numeral that starts at `i`: its digits as units, its fraction length as scale. */
  function ParseNumeral(m: string, i: nat): (n: Json)
    requires i < |m| && IsDigit(m[i])
    ensures n.JNumber? && n.units >= 0
  {
    var d := DigitRunEnd(m, i);
    if d < |m| && m[d] == '.' then
      var f := DigitRunEnd(m, d + 1);
      var digits := m[i..d] + m[d + 1..f];
      assert AllDigits(digits);
      JNumber(DigitsValue(digits), f - d - 1)
    else
      JNumber(DigitsValue(m[i..d]), 0)
  }

  /** `(\d+\.?\d*)\s*(?:tl|lira|₺)` matches at index `i`. */
  predicate SuffixedAmountAt(m: string, i: nat) {
    i < |m| && IsDigit(m[i]) &&
    var f := SpaceRunEnd(m, NumeralEnd(m, i));
    StartsAt(m, f, "tl") || StartsAt(m, f, "lira") || StartsAt(m, f, "\U{20BA}")
  }

  function FirstDigit(s: string): (r: Option<nat>)
    ensures r.Some? ==> r.value < |s| && IsDigit(s[r.value]) && forall j :: 0 <= j < r.value ==> !IsDigit(s[j])
    ensures r.None? ==> forall j :: 0 <= j < |s| ==> !IsDigit(s[j])
  {
    var P := (i: nat) => i < |s| && IsDigit(s[i]);
    assert forall i: nat :: P(i) <==> i < |s| && IsDigit(s[i]);
    FirstIndex(|s|, 0, P)
  }

  function NumberOf(n: Json): real
    requires n.JNumber?
  {
    NumberValue(n.units, n.scale)
  }

  /** Where the first numeral followed by a currency word starts. */
  function FirstSuffixedAmount(m: string): (r: Option<nat>)
    ensures r.Some? ==> SuffixedAmountAt(m, r.value) && forall j :: 0 <= j < r.value ==> !SuffixedAmountAt(m, j)
    ensures r.None? ==> forall j: nat :: !SuffixedAmountAt(m, j)
  {
    var P := (i: nat) => SuffixedAmountAt(m, i);
    assert forall i: nat :: P(i) <==> SuffixedAmountAt(m, i);
    FirstIndex(|m|, 0, P)
  }

  /**
   * The payment amount: the first numeral before the first "for"; failing that,
   * the first numeral followed by a currency word anywhere; otherwise none.
   */
  function AmountIn(m: string): Option<real> {
    var b := BeforeFor(m);
    match FirstDigit(b)
    case Some(k) => Some(NumberOf(ParseNumeral(b, k)))
    case None =>
      match FirstSuffixedAmount(m)
      case Some(k) => Some(NumberOf(ParseNumeral(m, k)))
      case None => None
  }

  /** A prefix that ends at a space cuts no numeral short. */
  lemma NumeralInPrefix(m: string, p: nat, k: nat)
    requires k < p < |m| && IsSpace(m[p]) && IsDigit(m[k])
    ensures ParseNumeral(m[..p], k) == ParseNumeral(m, k)
  {
    var b := m[..p];
    var d := DigitRunEnd(m, k);
    var db := DigitRunEnd(b, k);
    assert forall t :: k <= t < p ==> b[t] == m[t];
    DigitRunEndsAgree(m, p, k);
    assert d == db;
    if d < |m| && m[d] == '.' {
      assert d < p;
      DigitRunEndsAgree(m, p, d + 1);
      assert m[k..d] == b[k..d];
      var f := DigitRunEnd(m, d + 1);
      assert m[d + 1..f] == b[d + 1..f];
    } else {
      assert m[k..d] == b[k..d];
    }
  }

  lemma DigitRunEndsAgree(m: string, p: nat, i: nat)
    requires i <= p < |m| && IsSpace(m[p])
    ensures DigitRunEnd(m, i) == DigitRunEnd(m[..p], i) <= p
    decreases p - i
  {
    var b := m[..p];
    if i < p && IsDigit(m[i]) {
      assert b[i] == m[i];
      DigitRunEndsAgree(m, p, i + 1);
      assert RunEnd(m, i, IsDigit) == RunEnd(m, i + 1, IsDigit);
      assert RunEnd(b, i, IsDigit) == RunEnd(b, i + 1, IsDigit);
    }
  }

  /** With a digit before the first "for", the amount is the numeral at the first digit of the message. */
  lemma AmountBeforeFor(m: string, k: nat)
    requires k < |BeforeFor(m)| && IsDigit(m[k]) && forall j :: 0 <= j < k ==> !IsDigit(m[j])
    ensures AmountIn(m) == Some(NumberOf(ParseNumeral(m, k)))
  {
    var b := BeforeFor(m);
    assert forall j :: 0 <= j < |b| ==> b[j] == m[j];
    assert FirstDigit(b) == Some(k);
    assert AmountIn(m) == Some(NumberOf(ParseNumeral(b, k)));
    if b != m {
      assert b == m[..|b|];
      assert ForSeparatorAt(m, |b|);
      NumeralInPrefix(m, |b|, k);
      assert ParseNumeral(b, k) == ParseNumeral(m, k);
    }
  }

  /** With no digit before the first "for", the amount is the first numeral with a currency word. */
  lemma AmountFromCurrency(m: string, k: nat)
    requires forall j :: 0 <= j < |BeforeFor(m)| ==> !IsDigit(m[j])
    requires SuffixedAmountAt(m, k) && forall j :: 0 <= j < k ==> !SuffixedAmountAt(m, j)
    ensures AmountIn(m) == Some(NumberOf(ParseNumeral(m, k)))
  {
    var b := BeforeFor(m);
    assert forall j :: 0 <= j < |b| ==> b[j] == m[j];
    assert FirstDigit(b) == None;
    FirstSuffixedAmountIs(m, k);
  }

  lemma FirstSuffixedAmountIs(m: string, k: nat)
    requires SuffixedAmountAt(m, k) && forall j :: 0 <= j < k ==> !SuffixedAmountAt(m, j)
    ensures FirstSuffixedAmount(m) == Some(k)
  {
    var r := FirstSuffixedAmount(m);
    assert r.Some?;
    assert !(r.value < k);
    assert !(k < r.value);
  }

  /** With neither, there is no amount. */
  lemma NoAmount(m: string)
    requires forall j :: 0 <= j < |BeforeFor(m)| ==> !IsDigit(m[j])
    requires forall j: nat :: !SuffixedAmountAt(m, j)
    ensures AmountIn(m) == None
  {
    var b := BeforeFor(m);
    assert forall j :: 0 <= j < |b| ==> b[j] == m[j];
    assert FirstDigit(b) == None;
  }

  /** The year a month name is combined with: the first standalone `20xx`, else the current year. */
  function YearText(m: string, clock: Clock): (y: string)
    ensures YearIndex(m).Some? ==> |y| == 4 && y[..2] == "20" && AllDigits(y)
    ensures YearIndex(m).None? ==> y == NatText(clock.year)
  {
    match YearIndex(m)
    case Some(i) => m[i..i + 4]
    case None => NatText(clock.year)
  }

  /** The period a message names: the first month name with the year of the text, else the current period. */
  function MonthOf(m: string, clock: Clock): string {
    match MonthIndex(m)
    case Some(k) => YearText(m, clock) + "-" + MonthTable[k].1
    case None => CurrentPeriod(clock)
  }

  /** `fallbackIntentParsing(userMessage)` with the clock read as `clock`. */
  function FallbackIntent(userMessage: string, clock: Clock): Descriptor {
    var m := Lower(userMessage);
    var intent := Classify(m);
    var subscriber := match SubscriberIn(m) case Some(s) => s case None => DefaultSubscriberNo;
    var amount := if intent == PayBill then AmountIn(m) else None;
    Descriptor(Some(JString(IntentName(intent))), JString(subscriber), JString(MonthOf(m, clock)), amount)
  }

  /** The resolver as the source runs it. */
  method FallbackIntentParsing(userMessage: string, clock: Clock) returns (d: Descriptor)
    ensures d == FallbackIntent(userMessage, clock)
  {
    var message := Lower(userMessage);
    var intent := Classify(message);
    var month := FindMonth(message, clock);
    var subscriberMatch := SubscriberIn(message);
    var subscriberNo := if subscriberMatch.Some? then subscriberMatch.value else DefaultSubscriberNo;
    var amount := None;
    if intent == PayBill {
      amount := AmountIn(message);
    }
    d := Descriptor(Some(JString(IntentName(intent))), JString(subscriberNo), JString(month), amount);
  }

  /**
   * The month part of the resolver: the year of the text, then a search of the
   * month table by a loop that stops at the first name found.
   */
  method FindMonth(message: string, clock: Clock) returns (month: string)
    ensures month == MonthOf(message, clock)
  {
    var currentMonth := CurrentPeriod(clock);
    month := currentMonth;
    var year := NatText(clock.year);
    var yearMatch := YearIndex(message);
    if yearMatch.Some? {
      year := message[yearMatch.value..yearMatch.value + 4];
    }
    assert year == YearText(message, clock);
    var k := 0;
    while k < |MonthTable|
      invariant 0 <= k <= |MonthTable|
      invariant month == currentMonth
      invariant forall j :: 0 <= j < k ==> !Contains(message, MonthTable[j].0)
    {
      if Contains(message, MonthTable[k].0) {
        assert MonthIndex(message) == Some(k);
        month := year + "-" + MonthTable[k].1;
        break;
      }
      k := k + 1;
    }
  }

  /** The subscriber number is always present: ten or more digits, the default when the text has none. */
  lemma FallbackSubscriber(userMessage: string, clock: Clock)
    ensures var d := FallbackIntent(userMessage, clock);
      d.subscriberNo.JString? && |d.subscriberNo.s| >= 10 && AllDigits(d.subscriberNo.s)
      && (SubscriberIn(Lower(userMessage)).None? ==> d.subscriberNo.s == DefaultSubscriberNo)
  {
    var m := Lower(userMessage);
    var d := FallbackIntent(userMessage, clock);
    assert d.subscriberNo == JString(match SubscriberIn(m) case Some(s) => s case None => DefaultSubscriberNo);
    DefaultSubscriberIsDigits();
  }

  /**
   * The period is the current one unless a month name occurs; then it is the
   * year of the text (or the current year) with the table's number for the first
   * name found. Either way it is a well-formed `YYYY-MM` for a four-digit clock year.
   */
  lemma FallbackPeriod(userMessage: string, clock: Clock)
    requires 1000 <= clock.year <= 9999
    ensures var m := Lower(userMessage); var d := FallbackIntent(userMessage, clock);
      d.month.JString? && IsPeriod(d.month.s)
      && (MonthIndex(m).None? ==> d.month.s == CurrentPeriod(clock))
      && (MonthIndex(m).Some? ==>
            d.month.s[..4] == YearText(m, clock) && d.month.s[5..] == MonthTable[MonthIndex(m).value].1)
  {
    var m := Lower(userMessage);
    match MonthIndex(m)
    case None =>
      CurrentPeriodIsPeriod(clock);
    case Some(k) =>
      MonthNumbersValid(k);
      if YearIndex(m).None? {
        FourDigitYear(clock.year);
      }
      var p := YearText(m, clock) + "-" + MonthTable[k].1;
      assert p[..4] == YearText(m, clock) && p[5..] == MonthTable[k].1;
  }

  /** Only a payment carries an amount. */
  lemma FallbackAmountOnlyForPay(userMessage: string, clock: Clock)
    ensures var d := FallbackIntent(userMessage, clock);
      (d.amount.Some? ==> d.intent == Some(JString("pay_bill")))
      && (d.intent == Some(JString("pay_bill")) ==> d.amount == AmountIn(Lower(userMessage)))
  {
    var m := Lower(userMessage);
    var intent := Classify(m);
    var d := FallbackIntent(userMessage, clock);
    assert d.intent == Some(JString(IntentName(intent)));
    assert d.amount == if intent == PayBill then AmountIn(m) else None;
    assert intent != PayBill ==> IntentName(intent)[0] != 'p' || |IntentName(intent)| != 8;
  }
}
