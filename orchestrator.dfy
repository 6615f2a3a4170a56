/**
 * The operation dispatch (`callMidtermAPI`) and the chat turn around it: one
 * descriptor becomes at most one billing request, preceded by a login when no
 * token is held and followed by one more login when the request is refused with
 * 401. The backend's answers are parameters, and the requests the server sends
 * are recorded so that what it asks for can be stated.
 *
 * The names are kept as the source has them: the intent `query_bill` asks the
 * detailed endpoint, `query_bill_detailed` the simple one.
 */
module Orchestrator {
  import opened Wrappers
  import opened Strings
  import opened JsonValues
  import opened Descriptors
  import opened Resolver
  import opened Auth
  import opened Cache

  /** A failed request as the HTTP client reports it: the status and body message when there was a response. */
  datatype HttpError = HttpError(status: Option<int>, bodyMessage: Option<string>, message: string)

  datatype Response<T> = Ok(value: T) | Failed(error: HttpError)

  datatype LineItem = LineItem(description: string, amount: real, category: string)

  /** The detailed query's body; `billDetails` may be missing. */
  datatype DetailedBill = DetailedBill(billTotal: real, billDetails: Option<seq<LineItem>>)

  datatype PayReply = PayReply(paymentStatus: string, paidAmount: real, remainingAmount: real, errorMessage: Option<string>)

  /**
   * The backend's answers to the requests one call can make. A query answered
   * with an empty body is `Ok(None)`.
   */
  datatype Backend = Backend(
    login: LoginOutcome,
    detailed: Response<Option<DetailedBill>>,
    simple: Response<Option<BillData>>,
    pay: Response<PayReply>,
    relogin: LoginOutcome)

  /** The body posted to the payment endpoint; `amount` is left out to pay the bill in full. */
  datatype PayBody = PayBody(subscriberNo: Json, month: Json, amount: Option<real>)

  /** A request the server sends, with the bearer token it carries. */
  datatype BackendCall =
    | Login
    | QueryDetailed(bearer: Option<string>, subscriberNo: string, month: string)
    | QuerySimple(bearer: Option<string>, subscriberNo: string, month: string)
    | Pay(bearer: Option<string>, body: PayBody)

  /** The messages the assistant sends back, by the facts each one reports. */
  datatype Message =
    | DetailedNotFound(month: string)
    | DetailedSummary(month: string, total: real, items: seq<LineItem>)
    | DetailedFetchFailed(month: string, detail: string)
    | BillNotFound(month: string)
    | BillSummary(month: string, total: real, status: StatusLine)
    | PaymentSucceeded
    | PaymentFailed(reason: string)
    | NotUnderstood
    | SessionExpired
    | AuthenticationFailed
    | NoBillForMonth(month: string)
    | Failure(detail: string)
    | Help

  datatype ResultData = NoData | Detailed(detailedBill: DetailedBill) | Summary(summary: BillData) | Payment(reply: PayReply)

  /** `{ success, data, message }`. */
  datatype BillingResult = BillingResult(success: bool, data: ResultData, message: Message)

  /**
   * Everything one call leaves behind: its result, the token, the cache, the
   * expiry timer it scheduled and the requests it sent, in order.
   */
  datatype Effect = Effect(
    result: BillingResult,
    token: Option<string>,
    entries: map<string, CachedPayment>,
    timer: Option<Timer>,
    calls: seq<BackendCall>)

  /** `${subscriberNo}-${month}`. */
  function CacheKey(subscriberNo: string, month: string): string {
    subscriberNo + "-" + month
  }

  /** A key whose subscriber part is shorter has its `-` where a dash-free longer number has a digit. */
  lemma DashSeparates(s1: string, m1: string, s2: string, m2: string)
    requires forall i :: 0 <= i < |s2| ==> s2[i] != '-'
    ensures |s1| < |s2| ==> CacheKey(s1, m1) != CacheKey(s2, m2)
  {
    if |s1| < |s2| {
      assert CacheKey(s1, m1)[|s1|] == '-';
      assert CacheKey(s2, m2)[|s1|] == s2[|s1|];
    }
  }

  /** Two subscribers without a `-` in their numbers never share a cache entry. */
  lemma CacheKeyInjective(s1: string, m1: string, s2: string, m2: string)
    requires forall i :: 0 <= i < |s1| ==> s1[i] != '-'
    requires forall i :: 0 <= i < |s2| ==> s2[i] != '-'
    ensures CacheKey(s1, m1) == CacheKey(s2, m2) <==> s1 == s2 && m1 == m2
  {
    DashSeparates(s1, m1, s2, m2);
    DashSeparates(s2, m2, s1, m1);
    if CacheKey(s1, m1) == CacheKey(s2, m2) {
      var k := CacheKey(s1, m1);
      assert s1 == k[..|s1|] == s2;
      assert m1 == k[|s1| + 1..] == m2;
    }
  }

  /** A subscriber number that holds a `-` can share a key with another subscriber's bill. */
  lemma CacheKeyCollision()
    ensures CacheKey("1-2", "3") == CacheKey("1", "2-3")
  {
  }

  /** The month the query branches use: the given one, or the current period when it is missing. */
  function DefaultMonth(month: Json, clock: Clock): string {
    if MonthMissing(Some(month)) then CurrentPeriod(clock) else Text(month)
  }

  /**
   * A given month is used as its text, a period string unchanged; a missing month
   * becomes the current period, which is well formed.
   */
  lemma DefaultMonthIsPeriod(month: Json, clock: Clock)
    requires 1000 <= clock.year <= 9999
    ensures month.JString? && IsPeriod(month.s) ==> DefaultMonth(month, clock) == month.s
    ensures !MonthMissing(Some(month)) ==> DefaultMonth(month, clock) == Text(month)
    ensures MonthMissing(Some(month)) ==> DefaultMonth(month, clock) == CurrentPeriod(clock)
    ensures MonthMissing(Some(month)) ==> IsPeriod(DefaultMonth(month, clock))
  {
    if MonthMissing(Some(month)) {
      CurrentPeriodIsPeriod(clock);
    }
  }

  /** The payment body: a positive amount is sent, any other leaves the amount to the backend. */
  function PayBillBody(subscriberNo: Json, month: Json, amount: Option<real>): (b: PayBody)
    ensures b.subscriberNo == subscriberNo && b.month == month
    ensures b.amount.Some? <==> amount.Some? && amount.value > 0.0
    ensures b.amount.Some? ==> b.amount == amount
  {
    PayBody(subscriberNo, month, if amount.Some? && amount.value > 0.0 then amount else None)
  }

  /** `error.response?.data?.message || error.message`. */
  function ErrorDetail(e: HttpError): string {
    if e.bodyMessage.Some? && e.bodyMessage.value != "" then e.bodyMessage.value else e.message
  }

  /** `... || 'Unknown error'` on top of `ErrorDetail`, as the detailed query's own handler reads it. */
  function InnerErrorDetail(e: HttpError): string {
    var d := ErrorDetail(e);
    if d != "" then d else "Unknown error"
  }

  /** The message for a failed request other than 401. */
  function FailureMessage(e: HttpError, month: string): Message {
    var detail := ErrorDetail(e);
    if e.status == Some(404) || Contains(detail, "not found") || Contains(detail, "Bill not found") then
      NoBillForMonth(month)
    else
      Failure(detail)
  }

  /** The shared error handler: a 401 triggers one login and asks for a retry by the user; nothing is retried. */
  function Recover(e: HttpError, month: string, relogin: LoginOutcome, token: Option<string>,
                   entries: map<string, CachedPayment>, calls: seq<BackendCall>): Effect
  {
    if e.status == Some(401) then
      var m := if relogin.LoginAccepted? then SessionExpired else AuthenticationFailed;
      Effect(BillingResult(false, NoData, m), TokenAfter(relogin), entries, None, calls + [Login])
    else
      Effect(BillingResult(false, NoData, FailureMessage(e, month)), token, entries, None, calls)
  }

  /**
   * The `query_bill` branch once `calls` (ending with its request) is sent: it
   * catches its own errors, so a failure is reported with its message whatever
   * the status.
   */
  function DetailedQuery(m: string, answer: Response<Option<DetailedBill>>, token: Option<string>,
                         entries: map<string, CachedPayment>, calls: seq<BackendCall>): (e: Effect)
    ensures e.calls == calls && e.token == token && e.entries == entries && e.timer.None?
  {
    match answer
    case Failed(err) =>
      Effect(BillingResult(false, NoData, DetailedFetchFailed(m, InnerErrorDetail(err))), token, entries, None, calls)
    case Ok(reply) =>
      if reply.None? || reply.value.billDetails.None? then
        Effect(BillingResult(false, NoData, DetailedNotFound(m)), token, entries, None, calls)
      else
        var bill := reply.value;
        Effect(BillingResult(true, Detailed(bill), DetailedSummary(m, bill.billTotal, bill.billDetails.value)),
               token, entries, None, calls)
  }

  /** The `query_bill_detailed` branch: the backend's record, with a recent payment laid over it. */
  function SimpleQuery(sub: string, m: string, answer: Response<Option<BillData>>, relogin: LoginOutcome,
                       token: Option<string>, entries: map<string, CachedPayment>, calls: seq<BackendCall>,
                       now: int): (e: Effect)
    ensures e.calls == calls || e.calls == calls + [Login]
    ensures e.entries == entries && e.timer.None?
  {
    match answer
    case Failed(err) => Recover(err, m, relogin, token, entries, calls)
    case Ok(None) => Effect(BillingResult(false, NoData, BillNotFound(m)), token, entries, None, calls)
    case Ok(Some(data)) =>
      var recent := FreshEntry(entries, CacheKey(sub, m), now);
      Effect(BillingResult(true, Summary(Overlay(recent, data)), BillSummary(m, data.billTotal, StatusFor(recent, data))),
             token, entries, None, calls)
  }

  /** The `pay_bill` branch: a successful payment is remembered under its key, with an expiry timer. */
  function PayAttempt(sub: string, monthText: string, answer: Response<PayReply>, relogin: LoginOutcome,
                      token: Option<string>, entries: map<string, CachedPayment>, calls: seq<BackendCall>,
                      now: int): (e: Effect)
    ensures e.calls == calls || e.calls == calls + [Login]
  {
    match answer
    case Failed(err) => Recover(err, monthText, relogin, token, entries, calls)
    case Ok(reply) =>
      if reply.paymentStatus == "Successful" then
        var key := CacheKey(sub, monthText);
        Effect(BillingResult(true, Payment(reply), PaymentSucceeded), token,
               entries[key := CachedPayment(reply.paidAmount, reply.remainingAmount, now)],
               Some(Timer(key, now)), calls)
      else
        var reason := if reply.errorMessage.Some? && reply.errorMessage.value != "" then reply.errorMessage.value
                      else "Unknown error";
        Effect(BillingResult(false, Payment(reply), PaymentFailed(reason)), token, entries, None, calls)
  }

  /** The token a call works with: the one held, or the one a first login obtains. */
  function WorkingToken(token: Option<string>, login: LoginOutcome): Option<string> {
    if Usable(token) then token else TokenAfter(login)
  }

  /** The requests sent before the bill request: a login when no usable token is held. */
  function Preamble(token: Option<string>): seq<BackendCall> {
    if Usable(token) then [] else [Login]
  }

  /**
   * `callMidtermAPI(intent, subscriberNo, month, amount)` against `backend`, at
   * time `now`, after the requests `sent`; the effect's `calls` extend `sent`.
   */
  function Call(token: Option<string>, entries: map<string, CachedPayment>, sent: seq<BackendCall>,
                intent: Option<Json>, subscriberNo: Json, month: Json, amount: Option<real>,
                backend: Backend, now: int, clock: Clock): Effect
  {
    var t := WorkingToken(token, backend.login);
    var pre := sent + Preamble(token);
    var sub := Text(subscriberNo);
    match IntentOf(intent)
    case QueryBill =>
      var m := DefaultMonth(month, clock);
      DetailedQuery(m, backend.detailed, t, entries, pre + [QueryDetailed(t, sub, m)])
    case QueryBillDetailed =>
      var m := DefaultMonth(month, clock);
      SimpleQuery(sub, m, backend.simple, backend.relogin, t, entries, pre + [QuerySimple(t, sub, m)], now)
    case PayBill =>
      PayAttempt(sub, Text(month), backend.pay, backend.relogin, t, entries,
                 pre + [Pay(t, PayBillBody(subscriberNo, month, amount))], now)
    case _ =>
      Effect(BillingResult(false, NoData, NotUnderstood), t, entries, None, pre)
  }

  /** The number of requests in `calls` that are bill operations rather than logins. */
  function BillCalls(calls: seq<BackendCall>): (n: nat)
    ensures n <= |calls|
  {
    if calls == [] then 0 else (if calls[0].Login? then 0 else 1) + BillCalls(calls[1..])
  }

  lemma {:induction false} BillCallsAppend(a: seq<BackendCall>, b: seq<BackendCall>)
    ensures BillCalls(a + b) == BillCalls(a) + BillCalls(b)
  {
    if a == [] {
      assert a + b == b;
    } else {
      assert (a + b)[1..] == a[1..] + b;
      BillCallsAppend(a[1..], b);
    }
  }

  /**
   * Every call sends at most one bill request, and one only for the three
   * billing intents; at most two logins surround it.
   */
  lemma AtMostOneBillRequest(token: Option<string>, entries: map<string, CachedPayment>, sent: seq<BackendCall>,
                             intent: Option<Json>, subscriberNo: Json, month: Json, amount: Option<real>,
                             backend: Backend, now: int, clock: Clock)
    ensures var e := Call(token, entries, sent, intent, subscriberNo, month, amount, backend, now, clock);
      && e.calls[..|sent|] == sent
      && BillCalls(e.calls) == BillCalls(sent) + (if IntentOf(intent) in {QueryBill, QueryBillDetailed, PayBill} then 1 else 0)
      && |e.calls| <= |sent| + 3
      && (Usable(token) && |e.calls| > |sent| ==> !e.calls[|sent|].Login?)
  {
    var e := Call(token, entries, sent, intent, subscriberNo, month, amount, backend, now, clock);
    var t := WorkingToken(token, backend.login);
    var pre := Preamble(token);
    var sub := Text(subscriberNo);
    match IntentOf(intent)
    case QueryBill =>
      CallShape(sent, pre, QueryDetailed(t, sub, DefaultMonth(month, clock)), e.calls, Usable(token));
    case QueryBillDetailed =>
      CallShape(sent, pre, QuerySimple(t, sub, DefaultMonth(month, clock)), e.calls, Usable(token));
    case PayBill =>
      CallShape(sent, pre, Pay(t, PayBillBody(subscriberNo, month, amount)), e.calls, Usable(token));
    case _ =>
      // only the preamble facts of the helper are needed here
      OneRequest(sent, pre, Pay(t, PayBillBody(subscriberNo, month, amount)));
  }

  /**
   * The request each billing intent sends right after the preamble: `query_bill`
   * asks the detailed endpoint, `query_bill_detailed` the simple one, and
   * `pay_bill` posts the payment body, each with the working token.
   */
  lemma RequestFollowsIntent(token: Option<string>, entries: map<string, CachedPayment>, sent: seq<BackendCall>,
                             intent: Option<Json>, subscriberNo: Json, month: Json, amount: Option<real>,
                             backend: Backend, now: int, clock: Clock)
    ensures var e := Call(token, entries, sent, intent, subscriberNo, month, amount, backend, now, clock);
            var t := WorkingToken(token, backend.login);
            var n := |sent| + |Preamble(token)|;
            var sub := Text(subscriberNo);
      && (IntentOf(intent) == QueryBill ==>
            |e.calls| > n && e.calls[n] == QueryDetailed(t, sub, DefaultMonth(month, clock)))
      && (IntentOf(intent) == QueryBillDetailed ==>
            |e.calls| > n && e.calls[n] == QuerySimple(t, sub, DefaultMonth(month, clock)))
      && (IntentOf(intent) == PayBill ==>
            |e.calls| > n && e.calls[n] == Pay(t, PayBillBody(subscriberNo, month, amount)))
  {
    var e := Call(token, entries, sent, intent, subscriberNo, month, amount, backend, now, clock);
    var t := WorkingToken(token, backend.login);
    var pre := sent + Preamble(token);
    var sub := Text(subscriberNo);
    match IntentOf(intent)
    case QueryBill =>
      NextRequest(pre, QueryDetailed(t, sub, DefaultMonth(month, clock)), e.calls);
    case QueryBillDetailed =>
      NextRequest(pre, QuerySimple(t, sub, DefaultMonth(month, clock)), e.calls);
    case PayBill =>
      NextRequest(pre, Pay(t, PayBillBody(subscriberNo, month, amount)), e.calls);
    case _ =>
  }

  lemma NextRequest(pre: seq<BackendCall>, req: BackendCall, calls: seq<BackendCall>)
    requires calls == pre + [req] || calls == pre + [req] + [Login]
    ensures |calls| > |pre| && calls[|pre|] == req
  {
  }

  /** The history of a billing call: the preamble, its one request, and perhaps a login after it. */
  lemma CallShape(sent: seq<BackendCall>, pre: seq<BackendCall>, req: BackendCall, calls: seq<BackendCall>, usable: bool)
    requires pre == [] || pre == [Login]
    requires usable ==> pre == []
    requires !req.Login?
    requires calls == sent + pre + [req] || calls == sent + pre + [req] + [Login]
    ensures calls[..|sent|] == sent
    ensures BillCalls(calls) == BillCalls(sent) + 1
    ensures |calls| <= |sent| + 3
    ensures usable ==> !calls[|sent|].Login?
  {
    OneRequest(sent, pre, req);
    if usable {
      assert calls[|sent|] == req;
    }
  }

  /**
   * After `sent`, a login preamble, one bill request and possibly one login
   * after it add exactly one bill request.
   */
  lemma OneRequest(sent: seq<BackendCall>, pre: seq<BackendCall>, req: BackendCall)
    requires pre == [] || pre == [Login]
    requires !req.Login?
    ensures BillCalls(sent + pre) == BillCalls(sent)
    ensures BillCalls(sent + pre + [req]) == BillCalls(sent) + 1
    ensures BillCalls(sent + pre + [req] + [Login]) == BillCalls(sent) + 1
    ensures (sent + pre)[..|sent|] == sent && (sent + pre + [req])[..|sent|] == sent
    ensures (sent + pre + [req] + [Login])[..|sent|] == sent
  {
    assert BillCalls(pre) == 0 by {
      if pre != [] {
        assert BillCalls(pre[1..]) == 0;
      }
    }
    assert BillCalls([req]) == 1 by { assert [req][1..] == []; }
    assert BillCalls([Login]) == 0 by { assert [Login][1..] == []; }
    BillCallsAppend(sent, pre);
    BillCallsAppend(sent + pre, [req]);
    BillCallsAppend(sent + pre + [req], [Login]);
  }

  /** An intent that is not one of the three billing operations is answered without a bill request. */
  lemma UnknownIntentAnswersDirectly(token: Option<string>, entries: map<string, CachedPayment>, sent: seq<BackendCall>,
                                     intent: Option<Json>, subscriberNo: Json, month: Json, amount: Option<real>,
                                     backend: Backend, now: int, clock: Clock)
    requires IntentOf(intent) !in {QueryBill, QueryBillDetailed, PayBill}
    ensures var e := Call(token, entries, sent, intent, subscriberNo, month, amount, backend, now, clock);
      && e.result == BillingResult(false, NoData, NotUnderstood)
      && e.entries == entries && e.timer.None?
      && e.calls == sent + Preamble(token)
  {
  }

  /**
   * A 401 on the simple query or the payment costs exactly one more login and
   * no second attempt: the call fails, says whether the new login worked, and
   * keeps the token that login produced.
   */
  lemma UnauthorizedLogsInOnce(token: Option<string>, entries: map<string, CachedPayment>, sent: seq<BackendCall>,
                               intent: Option<Json>, subscriberNo: Json, month: Json, amount: Option<real>,
                               backend: Backend, now: int, clock: Clock, e401: HttpError)
    requires e401.status == Some(401)
    requires (IntentOf(intent) == QueryBillDetailed && backend.simple == Failed(e401))
          || (IntentOf(intent) == PayBill && backend.pay == Failed(e401))
    ensures var e := Call(token, entries, sent, intent, subscriberNo, month, amount, backend, now, clock);
      && |e.calls| >= |sent| + 2 && e.calls[|e.calls| - 1] == Login && !e.calls[|e.calls| - 2].Login?
      && BillCalls(e.calls) == BillCalls(sent) + 1
      && !e.result.success
      && (e.result.message == SessionExpired <==> backend.relogin.LoginAccepted?)
      && (e.result.message == AuthenticationFailed <==> backend.relogin.LoginRejected?)
      && e.token == TokenAfter(backend.relogin)
      && e.entries == entries
  {
    AtMostOneBillRequest(token, entries, sent, intent, subscriberNo, month, amount, backend, now, clock);
  }

  /**
   * The detailed query handles its own errors: a 401 there is reported as a
   * fetch error and does not renew the token.
   */
  lemma DetailedQueryKeepsItsErrors(token: Option<string>, entries: map<string, CachedPayment>, sent: seq<BackendCall>,
                                    intent: Option<Json>, subscriberNo: Json, month: Json, amount: Option<real>,
                                    backend: Backend, now: int, clock: Clock, err: HttpError)
    requires IntentOf(intent) == QueryBill && backend.detailed == Failed(err)
    ensures var e := Call(token, entries, sent, intent, subscriberNo, month, amount, backend, now, clock);
      && e.calls[|e.calls| - 1].QueryDetailed?
      && e.token == (if Usable(token) then token else TokenAfter(backend.login))
      && e.result == BillingResult(false, NoData, DetailedFetchFailed(DefaultMonth(month, clock), InnerErrorDetail(err)))
      && InnerErrorDetail(err) != ""
  {
  }

  /** `"Bill not found"` contains `"not found"`, so the third test of the not-found check never decides. */
  lemma BillNotFoundIsNotFound(s: string)
    ensures Contains(s, "Bill not found") ==> Contains(s, "not found")
  {
    if Contains(s, "Bill not found") {
      ContainsIff(s, "Bill not found");
      var j: nat :| OccursAt(s, "Bill not found", j);
      var w := s[j..j + 14];
      assert w == "Bill not found";
      assert s[j + 5..j + 14] == w[5..14] == "not found";
      assert OccursAt(s, "not found", j + 5);
      ContainsIff(s, "not found");
    }
  }

  /**
   * Failures other than 401 are told apart by status and message: 404 or a
   * message mentioning "not found" means no bill for the month, anything else
   * is reported with its message.
   */
  lemma FailureClassification(e: HttpError, month: string)
    requires e.status != Some(401)
    ensures FailureMessage(e, month) == NoBillForMonth(month)
        <==> e.status == Some(404) || Contains(ErrorDetail(e), "not found")
    ensures FailureMessage(e, month) != NoBillForMonth(month) ==> FailureMessage(e, month) == Failure(ErrorDetail(e))
  {
    BillNotFoundIsNotFound(ErrorDetail(e));
  }

  /**
   * A payment is remembered exactly when the backend reports it "Successful",
   * and then under the key of the paid subscriber and month, with a timer for
   * that entry; no other call touches the cache.
   */
  lemma PaymentRecordedOnlyOnSuccess(token: Option<string>, entries: map<string, CachedPayment>, sent: seq<BackendCall>,
                                     intent: Option<Json>, subscriberNo: Json, month: Json, amount: Option<real>,
                                     backend: Backend, now: int, clock: Clock)
    ensures var e := Call(token, entries, sent, intent, subscriberNo, month, amount, backend, now, clock);
      var paid := IntentOf(intent) == PayBill && backend.pay.Ok? && backend.pay.value.paymentStatus == "Successful";
      && (paid ==>
            var key := CacheKey(Text(subscriberNo), Text(month));
            && e.entries == entries[key := CachedPayment(backend.pay.value.paidAmount, backend.pay.value.remainingAmount, now)]
            && e.timer == Some(Timer(key, now)) && e.result.success)
      && (!paid ==> e.entries == entries && e.timer.None?)
      && (IntentOf(intent) == PayBill && backend.pay.Ok? ==> (e.result.success <==> paid))
  {
  }

  /**
   * Querying right after paying shows the payment: for a subscriber and month
   * given as strings, a simple query within five minutes reports the status
   * from the remembered amounts, and one made later the backend's own.
   */
  lemma ReadAfterPay(token: Option<string>, entries: map<string, CachedPayment>, sent: seq<BackendCall>,
                     subscriber: string, period: string, amount: Option<real>,
                     payBackend: Backend, queryBackend: Backend, paidAt: int, queriedAt: int,
                     clock: Clock, data: BillData)
    requires !MonthMissing(Some(JString(period)))
    requires payBackend.pay.Ok? && payBackend.pay.value.paymentStatus == "Successful"
    requires queryBackend.simple == Ok(Some(data))
    ensures
      var paid := Call(token, entries, sent, Some(JString("pay_bill")), JString(subscriber), JString(period),
                       amount, payBackend, paidAt, clock);
      var query := Call(paid.token, paid.entries, paid.calls, Some(JString("query_bill_detailed")), JString(subscriber),
                        JString(period), None, queryBackend, queriedAt, clock);
      var reply := payBackend.pay.value;
      && (queriedAt < paidAt + FreshnessWindow ==>
            query.result.message
              == BillSummary(period, data.billTotal,
                             if reply.remainingAmount <= 0.0 then Paid
                             else UnpaidWithBalance(reply.remainingAmount, reply.paidAmount)))
      && (queriedAt >= paidAt + FreshnessWindow ==>
            query.result.message == BillSummary(period, data.billTotal, if data.paidStatus then Paid else Unpaid))
  {
    var paid := Call(token, entries, sent, Some(JString("pay_bill")), JString(subscriber), JString(period),
                     amount, payBackend, paidAt, clock);
    var key := CacheKey(subscriber, period);
    assert IntentOf(Some(JString("pay_bill"))) == PayBill;
    assert IntentOf(Some(JString("query_bill_detailed"))) == QueryBillDetailed;
    assert DefaultMonth(JString(period), clock) == period;
    assert paid.entries[key].timestamp == paidAt;
  }

  /** What the chat client shows for one message. */
  datatype Reply = HelpReply | ApiReply(text: Message, data: ResultData, intent: Option<Json>)

  class Server {
    const auth: AuthSession
    const cache: PaymentCache
    /** Expiry timers scheduled and not yet fired. */
    var timers: seq<Timer>
    /** The requests sent to the backend so far. */
    ghost var requests: seq<BackendCall>

    constructor()
      ensures fresh(auth) && fresh(cache)
      ensures auth.token == None && cache.entries == map[]
      ensures timers == [] && requests == []
    {
      auth := new AuthSession();
      cache := new PaymentCache();
      timers := [];
      requests := [];
    }

    /** The shared `catch` of `callMidtermAPI`. */
    method RecoverFrom(e: HttpError, month: string, relogin: LoginOutcome) returns (result: BillingResult)
      modifies this, auth
      ensures var r := Recover(e, month, relogin, old(auth.token), cache.entries, old(requests));
        && result == r.result && auth.token == r.token && requests == r.calls
      ensures timers == old(timers)
    {
      if e.status == Some(401) {
        var refreshed := auth.RefreshAuth(relogin);
        requests := requests + [Login];
        if refreshed {
          result := BillingResult(false, NoData, SessionExpired);
        } else {
          result := BillingResult(false, NoData, AuthenticationFailed);
        }
        return;
      }
      var errorMessage := ErrorDetail(e);
      if e.status == Some(404) || Contains(errorMessage, "not found") || Contains(errorMessage, "Bill not found") {
        result := BillingResult(false, NoData, NoBillForMonth(month));
      } else {
        result := BillingResult(false, NoData, Failure(errorMessage));
      }
    }

    /** The `query_bill` branch: the detailed endpoint, with its own error handling. */
    method FetchDetailedBill(sub: string, m: string, answer: Response<Option<DetailedBill>>)
      returns (result: BillingResult)
      modifies this
      ensures var e := DetailedQuery(m, answer, auth.token, cache.entries, old(requests) + [QueryDetailed(auth.token, sub, m)]);
        result == e.result && requests == e.calls
      ensures timers == old(timers)
    {
      requests := requests + [QueryDetailed(auth.token, sub, m)];
      match answer {
        case Failed(e) =>
          result := BillingResult(false, NoData, DetailedFetchFailed(m, InnerErrorDetail(e)));
        case Ok(reply) =>
          if reply.None? || reply.value.billDetails.None? {
            result := BillingResult(false, NoData, DetailedNotFound(m));
          } else {
            var bill := reply.value;
            result := BillingResult(true, Detailed(bill), DetailedSummary(m, bill.billTotal, bill.billDetails.value));
          }
      }
    }

    /** The `query_bill_detailed` branch: the simple endpoint and the payment overlay. */
    method FetchBillSummary(sub: string, m: string, answer: Response<Option<BillData>>, relogin: LoginOutcome, now: int)
      returns (result: BillingResult)
      modifies this, auth
      ensures var e := SimpleQuery(sub, m, answer, relogin, old(auth.token), cache.entries,
                                   old(requests) + [QuerySimple(old(auth.token), sub, m)], now);
        result == e.result && auth.token == e.token && requests == e.calls
      ensures timers == old(timers)
    {
      requests := requests + [QuerySimple(auth.token, sub, m)];
      match answer {
        case Failed(e) =>
          result := RecoverFrom(e, m, relogin);
        case Ok(None) =>
          result := BillingResult(false, NoData, BillNotFound(m));
        case Ok(Some(data)) =>
          var status, shown := cache.QueryStatus(CacheKey(sub, m), now, data);
          result := BillingResult(true, Summary(shown), BillSummary(m, data.billTotal, status));
      }
    }

    /** The `pay_bill` branch: posts the payment and remembers a successful one. */
    method SubmitPayment(subscriberNo: Json, month: Json, amount: Option<real>, answer: Response<PayReply>,
                         relogin: LoginOutcome, now: int)
      returns (result: BillingResult)
      modifies this, auth, cache
      ensures var e := PayAttempt(Text(subscriberNo), Text(month), answer, relogin, old(auth.token), old(cache.entries),
                                  old(requests) + [Pay(old(auth.token), PayBillBody(subscriberNo, month, amount))], now);
        && result == e.result && auth.token == e.token && cache.entries == e.entries && requests == e.calls
        && timers == old(timers) + (if e.timer.Some? then [e.timer.value] else [])
    {
      var body := PayBillBody(subscriberNo, month, amount);
      requests := requests + [Pay(auth.token, body)];
      match answer {
        case Failed(e) =>
          result := RecoverFrom(e, Text(month), relogin);
        case Ok(reply) =>
          if reply.paymentStatus == "Successful" {
            var key := CacheKey(Text(subscriberNo), Text(month));
            cache.RecordPayment(key, reply.paidAmount, reply.remainingAmount, now);
            timers := timers + [Timer(key, now)];
            result := BillingResult(true, Payment(reply), PaymentSucceeded);
          } else {
            var reason := if reply.errorMessage.Some? && reply.errorMessage.value != "" then reply.errorMessage.value
                          else "Unknown error";
            result := BillingResult(false, Payment(reply), PaymentFailed(reason));
          }
      }
    }

    /** `callMidtermAPI`: logs in if needed, then dispatches on the intent. */
    method CallMidtermAPI(intent: Option<Json>, subscriberNo: Json, month: Json, amount: Option<real>,
                          backend: Backend, now: int, clock: Clock)
      returns (result: BillingResult)
      modifies this, auth, cache
      ensures var e := Call(old(auth.token), old(cache.entries), old(requests), intent, subscriberNo, month, amount, backend, now, clock);
        && result == e.result
        && auth.token == e.token
        && cache.entries == e.entries
        && timers == old(timers) + (if e.timer.Some? then [e.timer.value] else [])
        && requests == e.calls
    {
      if !Usable(auth.token) {
        var _ := auth.InitializeAuth(backend.login);
        requests := requests + [Login];
      }
      assert auth.token == WorkingToken(old(auth.token), backend.login);
      assert requests == old(requests) + Preamble(old(auth.token));
      match IntentOf(intent) {
        case QueryBill =>
          result := FetchDetailedBill(Text(subscriberNo), DefaultMonth(month, clock), backend.detailed);
        case QueryBillDetailed =>
          result := FetchBillSummary(Text(subscriberNo), DefaultMonth(month, clock), backend.simple, backend.relogin, now);
        case PayBill =>
          result := SubmitPayment(subscriberNo, month, amount, backend.pay, backend.relogin, now);
        case _ =>
          result := BillingResult(false, NoData, NotUnderstood);
      }
    }

    /** A pending expiry timer fires as the source schedules it: the key is deleted whatever entry it holds. */
    method FireTimer(i: nat)
      requires i < |timers|
      modifies this, cache
      ensures cache.entries == old(cache.entries) - {old(timers)[i].key}
      ensures timers == old(timers)[..i] + old(timers)[i + 1..]
      ensures auth.token == old(auth.token) && requests == old(requests)
    {
      var t := timers[i];
      cache.Evict(t.key);
      timers := timers[..i] + timers[i + 1..];
    }

    /** The corrected timer action: the entry goes only if no later payment replaced it. */
    method FireTimerCorrected(i: nat)
      requires i < |timers|
      modifies this, cache
      ensures cache.entries == Expired(old(cache.entries), old(timers)[i].key, old(timers)[i].recordedAt)
      ensures timers == old(timers)[..i] + old(timers)[i + 1..]
      ensures auth.token == old(auth.token) && requests == old(requests)
    {
      var t := timers[i];
      cache.ExpireEntry(t.key, t.recordedAt);
      timers := timers[..i] + timers[i + 1..];
    }

    /**
     * One chat message: resolve the intent, answer a greeting with the help text
     * and without touching the backend, otherwise hand the descriptor to `CallMidtermAPI`.
     */
    method HandleMessage(userMessage: string, reply: Option<string>, parse: string -> Option<map<string, Json>>,
                         backend: Backend, now: int, clock: Clock)
      returns (answer: Reply)
      modifies this, auth, cache
      ensures var d := ResolveIntent(userMessage, reply, parse, clock);
        if d.intent == Some(JString("greeting")) then
          && answer == HelpReply
          && auth.token == old(auth.token) && cache.entries == old(cache.entries)
          && timers == old(timers) && requests == old(requests)
        else
          var e := Call(old(auth.token), old(cache.entries), old(requests), d.intent, d.subscriberNo, d.month, d.amount, backend, now, clock);
          && answer == ApiReply(e.result.message, e.result.data, d.intent)
          && auth.token == e.token && cache.entries == e.entries
          && timers == old(timers) + (if e.timer.Some? then [e.timer.value] else [])
          && requests == e.calls
    {
      var intentData := ParseIntentWithOllama(userMessage, reply, parse, clock);
      if intentData.intent == Some(JString("greeting")) {
        answer := HelpReply;
        return;
      }
      var apiResult := CallMidtermAPI(intentData.intent, intentData.subscriberNo, intentData.month,
                                      intentData.amount, backend, now, clock);
      answer := ApiReply(apiResult.message, apiResult.data, intentData.intent);
    }
  }
}
