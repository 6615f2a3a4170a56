/**
 * Intent resolution through the language model (`parseIntentWithOllama`): the
 * reply text is cut down to its JSON object, parsed, and the parsed object is
 * normalised in place; every failure on the way falls back to keyword matching.
 * The HTTP call is a parameter (`reply`, `None` when it fails or carries no
 * text) and so is `JSON.parse` (`parse`).
 */
module Resolver {
  import opened Wrappers
  import opened Strings
  import opened JsonValues
  import opened Descriptors
  import opened Fallback

  /**
   * The bounds of the match of `/\{[\s\S]*\}/`: the leftmost `{` that has a `}`
   * after it is the first `{`, and the greedy body runs to the last `}`.
   */
  function SpanBounds(t: string): (r: Option<(nat, nat)>)
    ensures r.Some? ==>
      r.value.0 < r.value.1 < |t| && t[r.value.0] == '{' && t[r.value.1] == '}'
      && (forall i :: 0 <= i < r.value.0 ==> t[i] != '{')
      && (forall j :: r.value.1 < j < |t| ==> t[j] != '}')
    ensures r.None? <==> forall i, j :: 0 <= i < j < |t| && t[i] == '{' ==> t[j] != '}'
  {
    var IsOpen := (i: nat) => i < |t| && t[i] == '{';
    var IsClose := (j: nat) => j < |t| && t[j] == '}';
    assert forall i: nat :: IsOpen(i) <==> i < |t| && t[i] == '{';
    assert forall j: nat :: IsClose(j) <==> j < |t| && t[j] == '}';
    match FirstIndex(|t|, 0, IsOpen)
    case None => None
    case Some(a) =>
      match LastIndex(|t|, IsClose)
      case None => None
      case Some(b) => if a < b then Some((a, b)) else None
  }

  /** `jsonMatch[0]`: the text `JSON.parse` is given, if the reply has a match at all. */
  function JsonSpan(t: string): (r: Option<string>)
    ensures r.Some? ==> |r.value| >= 2 && r.value[0] == '{' && r.value[|r.value| - 1] == '}'
    ensures r.None? <==> SpanBounds(t).None?
  {
    match SpanBounds(t)
    case None => None
    case Some((a, b)) => Some(t[a..b + 1])
  }

  /**
   * Prose the model wraps around its object is cut away: with no `{` before the
   * object (`body`) and no `}` after it, the span is exactly that object.
   */
  lemma SpanStripsProse(before: string, body: string, after: string)
    requires |body| >= 2 && body[0] == '{' && body[|body| - 1] == '}'
    requires forall i :: 0 <= i < |before| ==> before[i] != '{'
    requires forall j :: 0 <= j < |after| ==> after[j] != '}'
    ensures JsonSpan(before + body + after) == Some(body)
  {
    var t := before + body + after;
    var a := |before|;
    var b := |before| + |body| - 1;
    assert t[a] == '{' && t[b] == '}';
    var r := SpanBounds(t);
    assert r.Some?;
    assert r.value.0 == a by {
      assert forall i :: 0 <= i < a ==> t[i] == before[i];
    }
    assert r.value.1 == b by {
      assert forall j :: b < j < |t| ==> t[j] == after[j - b - 1];
    }
    assert t[a..b + 1] == body;
  }

  /** `!parsed.month || parsed.month === 'null' || parsed.month === null`. */
  predicate MonthMissing(v: Option<Json>) {
    !Present(v) || v == Some(JString("null")) || v == Some(JNull)
  }

  /**
   * The amount after normalisation: a string gives its first numeral (`(\d+\.?\d*)`
   * read by `parseFloat`), a number is kept, anything else and every falsy value
   * becomes `null`.
   */
  function CoercedAmount(v: Option<Json>): (r: Json)
    ensures r.JNull? || r.JNumber?
    ensures !Present(v) ==> r.JNull?
    ensures Present(v) && v.value.JNumber? ==> r == v.value
    ensures v.Some? && v.value.JString? ==>
      (r.JNumber? <==> exists k :: 0 <= k < |v.value.s| && IsDigit(v.value.s[k]))
    ensures r.JNumber? && r.units < 0 ==> v == Some(r)
    ensures Present(v) && !v.value.JString? && !v.value.JNumber? ==> r.JNull?
  {
    if !Present(v) then JNull
    else
      match v.value
      case JString(s) =>
        (match FirstDigit(s)
         case Some(k) => ParseNumeral(s, k)
         case None => JNull)
      case JNumber(_, _) => v.value
      case _ => JNull
  }

  /** A text amount is read as the numeral that starts at its first digit. */
  lemma TextAmountIsFirstNumeral(s: string, k: nat)
    requires k < |s| && IsDigit(s[k]) && forall j :: 0 <= j < k ==> !IsDigit(s[j])
    ensures CoercedAmount(Some(JString(s))) == ParseNumeral(s, k)
  {
    assert FirstDigit(s) == Some(k);
  }

  /** The three normalising assignments to `parsed`, in the order the source makes them. */
  function Normalized(parsed: map<string, Json>, clock: Clock): map<string, Json> {
    var p1 :=
      if !Present(Get(parsed, "subscriberNo")) then parsed["subscriberNo" := JString(DefaultSubscriberNo)]
      else parsed;
    var p2 :=
      if MonthMissing(Get(p1, "month")) then p1["month" := JString(CurrentPeriod(clock))]
      else p1;
    p2["amount" := CoercedAmount(Get(p2, "amount"))]
  }

  /**
   * What normalisation guarantees: a truthy subscriber number and month (kept
   * when the model gave them), the month never the text "null", the amount
   * `null` or a number, and every other property untouched.
   */
  lemma NormalizedFields(parsed: map<string, Json>, clock: Clock)
    ensures var q := Normalized(parsed, clock);
      && q.Keys == parsed.Keys + {"subscriberNo", "month", "amount"}
      && Present(Get(q, "subscriberNo"))
      && (Present(Get(parsed, "subscriberNo")) ==> q["subscriberNo"] == parsed["subscriberNo"])
      && !MonthMissing(Get(q, "month"))
      && (!MonthMissing(Get(parsed, "month")) ==> q["month"] == parsed["month"])
      && (MonthMissing(Get(parsed, "month")) ==> q["month"] == JString(CurrentPeriod(clock)))
      && q["amount"] == CoercedAmount(Get(parsed, "amount"))
      && forall k :: k in parsed && k != "subscriberNo" && k != "month" && k != "amount" ==> q[k] == parsed[k]
  {
    var q := Normalized(parsed, clock);
    assert "subscriberNo" in q && "month" in q;
    var c := CurrentPeriod(clock);
    assert c[|NatText(clock.year)|] == '-';
    assert c != "";
  }

  /** The normalisation as the source performs it: `parsed` is updated property by property. */
  method NormalizeParsed(parsed: map<string, Json>, clock: Clock) returns (p: map<string, Json>)
    ensures p == Normalized(parsed, clock)
  {
    p := parsed;
    if !Present(Get(p, "subscriberNo")) {
      p := p["subscriberNo" := JString(DefaultSubscriberNo)];
    }
    var month := Get(p, "month");
    if !Present(month) || month == Some(JString("null")) || month == Some(JNull) {
      p := p["month" := JString(CurrentPeriod(clock))];
    }
    var amount := Get(p, "amount");
    if Present(amount) {
      match amount.value {
        case JString(s) =>
          var k := FirstDigit(s);
          if k.Some? {
            p := p["amount" := ParseNumeral(s, k.value)];
          } else {
            p := p["amount" := JNull];
          }
        case JNumber(_, _) =>
          p := p["amount" := amount.value];
        case _ =>
          p := p["amount" := JNull];
      }
    } else {
      p := p["amount" := JNull];
    }
  }

  /** The descriptor the caller reads off the normalised object. */
  function DescriptorOf(q: map<string, Json>): (d: Descriptor)
    requires "subscriberNo" in q && "month" in q && "amount" in q
    requires q["amount"].JNull? || q["amount"].JNumber?
    ensures d.intent == Get(q, "intent")
    ensures d.subscriberNo == q["subscriberNo"] && d.month == q["month"]
    ensures d.amount.None? <==> q["amount"].JNull?
    ensures d.amount.Some? ==> d.amount.value == NumberOf(q["amount"])
  {
    var a := q["amount"];
    Descriptor(Get(q, "intent"), q["subscriberNo"], q["month"],
               if a.JNumber? then Some(NumberOf(a)) else None)
  }

  /** `parseIntentWithOllama(userMessage)` given the model's reply and the parser. */
  function ResolveIntent(userMessage: string, reply: Option<string>,
                         parse: string -> Option<map<string, Json>>, clock: Clock): Descriptor
  {
    match reply
    case None => FallbackIntent(userMessage, clock)
    case Some(t) =>
      match JsonSpan(t)
      case None => FallbackIntent(userMessage, clock)
      case Some(span) =>
        match parse(span)
        case None => FallbackIntent(userMessage, clock)
        case Some(parsed) =>
          NormalizedFields(parsed, clock);
          DescriptorOf(Normalized(parsed, clock))
  }

  method ParseIntentWithOllama(userMessage: string, reply: Option<string>,
                               parse: string -> Option<map<string, Json>>, clock: Clock)
    returns (d: Descriptor)
    ensures d == ResolveIntent(userMessage, reply, parse, clock)
  {
    if reply.Some? {
      var span := JsonSpan(reply.value);
      if span.Some? {
        var parsed := parse(span.value);
        if parsed.Some? {
          var p := NormalizeParsed(parsed.value, clock);
          NormalizedFields(parsed.value, clock);
          d := DescriptorOf(p);
          return;
        }
      }
    }
    d := FallbackIntentParsing(userMessage, clock);
  }

  /** A descriptor the orchestrator can act on: truthy subscriber, a month other than "null". */
  predicate Populated(d: Descriptor) {
    Truthy(d.subscriberNo) && Truthy(d.month) && d.month != JString("null")
  }

  /** Whichever way the intent was resolved, the descriptor is populated. */
  lemma ResolvedIsPopulated(userMessage: string, reply: Option<string>,
                            parse: string -> Option<map<string, Json>>, clock: Clock)
    ensures Populated(ResolveIntent(userMessage, reply, parse, clock))
  {
    var d := ResolveIntent(userMessage, reply, parse, clock);
    if d == FallbackIntent(userMessage, clock) {
      FallbackPopulated(userMessage, clock);
    } else {
      var parsed := parse(JsonSpan(reply.value).value).value;
      NormalizedFields(parsed, clock);
    }
  }

  lemma FallbackPopulated(userMessage: string, clock: Clock)
    ensures Populated(FallbackIntent(userMessage, clock))
  {
    FallbackSubscriber(userMessage, clock);
    var m := Lower(userMessage);
    var d := FallbackIntent(userMessage, clock);
    var y := NatText(clock.year);
    match MonthIndex(m)
    case None =>
      assert d.month.s[|y|] == '-';
    case Some(k) =>
      var yt := YearText(m, clock);
      assert d.month.s[|yt|] == '-';
  }

  /** A reply without a `{ ... }` span is resolved by keywords. */
  lemma NoSpanFallsBack(userMessage: string, t: string,
                        parse: string -> Option<map<string, Json>>, clock: Clock)
    requires forall i, j :: 0 <= i < j < |t| && t[i] == '{' ==> t[j] != '}'
    ensures ResolveIntent(userMessage, Some(t), parse, clock) == FallbackIntent(userMessage, clock)
  {
  }

  /** A failed model call, or a span that does not parse, is resolved by keywords as well. */
  lemma FailedReplyFallsBack(userMessage: string, reply: Option<string>,
                             parse: string -> Option<map<string, Json>>, clock: Clock)
    requires reply.None? || JsonSpan(reply.value).None? || parse(JsonSpan(reply.value).value).None?
    ensures ResolveIntent(userMessage, reply, parse, clock) == FallbackIntent(userMessage, clock)
  {
  }

  /**
   * A reply that parses decides the descriptor: its intent passes through
   * unchecked, a truthy subscriber and a present month are kept, the rest
   * takes the defaults.
   */
  lemma ParsedReplyDescriptor(userMessage: string, t: string,
                              parse: string -> Option<map<string, Json>>, clock: Clock)
    requires JsonSpan(t).Some? && parse(JsonSpan(t).value).Some?
    ensures var parsed := parse(JsonSpan(t).value).value;
            var d := ResolveIntent(userMessage, Some(t), parse, clock);
      && d.intent == Get(parsed, "intent")
      && (Present(Get(parsed, "subscriberNo")) ==> d.subscriberNo == parsed["subscriberNo"])
      && (!Present(Get(parsed, "subscriberNo")) ==> d.subscriberNo == JString(DefaultSubscriberNo))
      && (!MonthMissing(Get(parsed, "month")) ==> d.month == parsed["month"])
      && (MonthMissing(Get(parsed, "month")) ==> d.month == JString(CurrentPeriod(clock)))
      && (d.amount.None? <==> CoercedAmount(Get(parsed, "amount")).JNull?)
      && (d.amount.Some? ==> d.amount.value == NumberOf(CoercedAmount(Get(parsed, "amount"))))
  {
    NormalizedFields(parse(JsonSpan(t).value).value, clock);
  }

  /** A model amount written as text is read by its first numeral, so a sign is dropped. */
  lemma SignedTextAmount()
    ensures CoercedAmount(Some(JString("-5"))) == JNumber(5, 0)
  {
    var s := "-5";
    assert !IsDigit(s[0]) && IsDigit(s[1]);
    assert FirstDigit(s) == Some(1);
    assert DigitRunEnd(s, 1) == 2;
    assert s[1..2] == "5";
  }
}
