/**
 * The short-lived memory of recent payments (`paymentCache`): after a successful
 * payment the reported amounts are kept for five minutes under
 * `${subscriberNo}-${month}`, so that a bill query in that window shows them
 * even if the backend has not caught up.
 */
module Cache {
  import opened Wrappers

  /** `5 * 60 * 1000` milliseconds. */
  const FreshnessWindow: int := 5 * 60 * 1000

  /** One remembered payment; `timestamp` is `Date.now()` when it was recorded. */
  datatype CachedPayment = CachedPayment(paidAmount: real, remainingAmount: real, timestamp: int)

  /** A timer scheduled by `setTimeout` when a payment was recorded; it fires `FreshnessWindow` later. */
  datatype Timer = Timer(key: string, recordedAt: int)

  /** `(Date.now() - cachedPayment.timestamp) < 5 * 60 * 1000`. */
  predicate IsFresh(p: CachedPayment, now: int) {
    now - p.timestamp < FreshnessWindow
  }

  /** The entry a query may use: present and still recent. */
  function FreshEntry(entries: map<string, CachedPayment>, key: string, now: int): (r: Option<CachedPayment>)
    ensures r.Some? <==> key in entries && IsFresh(entries[key], now)
    ensures r.Some? ==> r.value == entries[key]
  {
    if key in entries && IsFresh(entries[key], now) then Some(entries[key]) else None
  }

  /** An expiry that removes the entry only if it is still the one the timer was set for. */
  function Expired(entries: map<string, CachedPayment>, key: string, recordedAt: int): map<string, CachedPayment> {
    if key in entries && entries[key].timestamp == recordedAt then entries - {key} else entries
  }

  /**
   * The bill record the simple query returns. Only the properties the overlay
   * reads or writes are modelled; `{ ...data }` copies the rest unchanged.
   */
  datatype BillData = BillData(
    billTotal: real,
    paidStatus: bool,
    remainingAmount: Option<real>,
    paidAmount: Option<real>,
    hasRecentPayment: Option<bool>)

  /** The status line of the bill summary. */
  datatype StatusLine = Paid | Unpaid | UnpaidWithBalance(remaining: real, paid: real)

  /** The status shown: a recent payment decides it, otherwise the backend's `paidStatus`. */
  function StatusFor(recent: Option<CachedPayment>, data: BillData): StatusLine {
    match recent
    case Some(p) => if p.remainingAmount <= 0.0 then Paid else UnpaidWithBalance(p.remainingAmount, p.paidAmount)
    case None => if data.paidStatus then Paid else Unpaid
  }

  /** The data returned with the summary: the backend's record with a recent payment laid over it. */
  function Overlay(recent: Option<CachedPayment>, data: BillData): BillData {
    match recent
    case None => data
    case Some(p) =>
      data.(remainingAmount := Some(p.remainingAmount),
            paidAmount := Some(p.paidAmount),
            hasRecentPayment := Some(true),
            paidStatus := if p.remainingAmount > 0.0 then false else data.paidStatus)
  }

  /**
   * The status line and the returned data agree, with one exception: a recent
   * payment that cleared the bill is shown as paid while `paidStatus` keeps the
   * backend's `false`.
   */
  lemma StatusAgreesWithData(recent: Option<CachedPayment>, data: BillData)
    ensures StatusFor(recent, data) != Paid ==> !Overlay(recent, data).paidStatus
    ensures (StatusFor(recent, data) == Paid && !Overlay(recent, data).paidStatus)
        <==> (recent.Some? && recent.value.remainingAmount <= 0.0 && !data.paidStatus)
    ensures Overlay(recent, data).paidStatus ==> StatusFor(recent, data) == Paid
  {
  }

  /**
   * The overlay never changes the total, reports the cached amounts exactly when
   * a recent payment exists, and leaves the backend's record as it is otherwise.
   */
  lemma OverlayReflectsPayment(recent: Option<CachedPayment>, data: BillData)
    ensures Overlay(recent, data).billTotal == data.billTotal
    ensures recent.None? ==> Overlay(recent, data) == data
    ensures recent.Some? ==>
      && Overlay(recent, data).remainingAmount == Some(recent.value.remainingAmount)
      && Overlay(recent, data).paidAmount == Some(recent.value.paidAmount)
      && Overlay(recent, data).hasRecentPayment == Some(true)
  {
  }

  /**
   * As written, the timer of an earlier payment deletes by key alone: when a
   * second payment for the same key is recorded before it fires, it removes the
   * newer entry while that entry is still recent.
   */
  lemma StaleTimerHidesFreshPayment(entries: map<string, CachedPayment>, key: string,
                                    first: CachedPayment, second: CachedPayment, now: int)
    requires first.timestamp <= second.timestamp
    requires first.timestamp + FreshnessWindow <= now < second.timestamp + FreshnessWindow
    ensures var e := entries[key := first][key := second];
      FreshEntry(e, key, now) == Some(second) && FreshEntry(e - {key}, key, now) == None
  {
  }

  /** The same, with numbers: payments at 0 s and 200 s, a query at 350 s. */
  lemma StaleTimerExample()
    ensures var first := CachedPayment(50.0, 50.0, 0);
            var second := CachedPayment(50.0, 0.0, 200000);
            var e := map["1234567890-2025-01" := first]["1234567890-2025-01" := second];
      FreshEntry(e, "1234567890-2025-01", 350000) == Some(second)
      && FreshEntry(e - {"1234567890-2025-01"}, "1234567890-2025-01", 350000) == None
  {
    var first := CachedPayment(50.0, 50.0, 0);
    var second := CachedPayment(50.0, 0.0, 200000);
    StaleTimerHidesFreshPayment(map[], "1234567890-2025-01", first, second, 350000);
  }

  /**
   * The corrected expiry: once its timer is due it never changes what any query
   * sees, and it leaves no entry recorded at its own time behind.
   */
  lemma {:induction false} ExpiryKeepsFreshEntries(entries: map<string, CachedPayment>, key: string,
                                                   recordedAt: int, now: int)
    requires now >= recordedAt + FreshnessWindow
    ensures forall k :: FreshEntry(Expired(entries, key, recordedAt), k, now) == FreshEntry(entries, k, now)
    ensures key in Expired(entries, key, recordedAt) ==> Expired(entries, key, recordedAt)[key].timestamp != recordedAt
  {
    forall k
      ensures FreshEntry(Expired(entries, key, recordedAt), k, now) == FreshEntry(entries, k, now)
    {
      if k == key && key in entries && entries[key].timestamp == recordedAt {
        assert !IsFresh(entries[key], now);
      }
    }
  }

  /** With the corrected expiry the scenario above keeps the second payment visible. */
  lemma CorrectedTimerKeepsNewerPayment(entries: map<string, CachedPayment>, key: string,
                                        first: CachedPayment, second: CachedPayment, now: int)
    requires first.timestamp < second.timestamp
    requires first.timestamp + FreshnessWindow <= now < second.timestamp + FreshnessWindow
    ensures var e := entries[key := first][key := second];
      FreshEntry(Expired(e, key, first.timestamp), key, now) == Some(second)
  {
    var e := entries[key := first][key := second];
    ExpiryKeepsFreshEntries(e, key, first.timestamp, now);
    assert FreshEntry(e, key, now) == Some(second);
  }

  class PaymentCache {
    /** `paymentCache`, a `Map` from `${subscriberNo}-${month}` to the remembered payment. */
    var entries: map<string, CachedPayment>

    /** `new Map()`. */
    constructor()
      ensures entries == map[]
    {
      entries := map[];
    }

    /** `paymentCache.set(key, {...})`: the new payment replaces any earlier one under the key. */
    method RecordPayment(key: string, paidAmount: real, remainingAmount: real, now: int)
      modifies this
      ensures entries == old(entries)[key := CachedPayment(paidAmount, remainingAmount, now)]
      ensures FreshEntry(entries, key, now) == Some(CachedPayment(paidAmount, remainingAmount, now))
    {
      entries := entries[key := CachedPayment(paidAmount, remainingAmount, now)];
    }

    /** The status line and the data a bill summary shows for `key` at time `now`. */
    method QueryStatus(key: string, now: int, data: BillData) returns (status: StatusLine, shown: BillData)
      ensures status == StatusFor(FreshEntry(entries, key, now), data)
      ensures shown == Overlay(FreshEntry(entries, key, now), data)
    {
      var cached := if key in entries then Some(entries[key]) else None;
      if cached.Some? && now - cached.value.timestamp < FreshnessWindow {
        var p := cached.value;
        if p.remainingAmount <= 0.0 {
          status := Paid;
        } else {
          status := UnpaidWithBalance(p.remainingAmount, p.paidAmount);
        }
        shown := data.(remainingAmount := Some(p.remainingAmount),
                       paidAmount := Some(p.paidAmount),
                       hasRecentPayment := Some(true));
        if p.remainingAmount > 0.0 {
          shown := shown.(paidStatus := false);
        }
      } else {
        status := if data.paidStatus then Paid else Unpaid;
        shown := data;
      }
    }

    /** `paymentCache.delete(key)`, what the source's timer does when it fires. */
    method Evict(key: string)
      modifies this
      ensures entries == old(entries) - {key}
    {
      entries := entries - {key};
    }

    /** The corrected timer action: delete the entry only if it is the one the timer was set for. */
    method ExpireEntry(key: string, recordedAt: int)
      modifies this
      ensures entries == Expired(old(entries), key, recordedAt)
    {
      if key in entries && entries[key].timestamp == recordedAt {
        entries := entries - {key};
      }
    }
  }
}
