/** The order-level admin actions of class-ss-orders.php: recording the
    non-return fee when an order is paid, extending an order's return
    period, resetting its labels (with the Shippo refund of the outbound
    label) and creating a replacement order. Posted ids are strings; only
    strings of decimal digits name an order in this model. */
module Orders {
  import opened Php
  import opened Wp
  import opened Helpers
  import opened LabelFiles
  import opened Tracking
  import opened Shippo
  import opened LabelGenerator
  import AdditionalFees

  /** The order a posted id names: its digits read as an order id. */
  function PostedOrder(orders: map<int, Order>, posted: string): (r: Option<int>)
    ensures r.Some? ==> IsDigits(posted) && r.value in orders
  {
    if IsDigits(posted) && IntVal(posted) in orders then Some(IntVal(posted)) else None
  }

  /** An order id posted in its decimal form names that order. */
  lemma PostedIdNamesOrder(orders: map<int, Order>, id: int)
    requires id > 0 && id in orders
    ensures PostedOrder(orders, IntToString(id)) == Some(id)
  {
    IntValRoundTrip(id);
  }

  // ---------------------------------------------------------------------
  // `wdm_add_meta`

  const DEFAULT_FEE := 2500
  const RETURNABLE_KEY := "wdm_returnable_item"
  const TEST_MODE_KEY := "wdm_is_test_mode"

  /** The fee per returnable item, in cents: the `wdm_return_fee` option
      when it is set and non-empty, 2500 otherwise. */
  function FeePerItem(cfg: Config): int {
    if Empty(Opt(cfg, "wdm_return_fee")) then DEFAULT_FEE else IntVal(Opt(cfg, "wdm_return_fee"))
  }

  /** The Stripe gateway's `testmode` setting, "" when the settings are empty. */
  function StripeTestMode(cfg: Config): string {
    if cfg.stripe.Some? then cfg.stripe.value.testMode else ""
  }

  /** `wdm_add_meta`: the order records the Stripe test mode, its
      returnable count and the non-return fee for that count; nothing else
      about it changes. */
  function PlacedMeta(cfg: Config, o: Order): (r: Order)
    ensures r == o.(meta := r.meta)
    ensures r.meta.Keys == o.meta.Keys + {TEST_MODE_KEY, RETURNABLE_KEY, AdditionalFees.FEE_META}
    ensures forall k :: k in o.meta && k !in {TEST_MODE_KEY, RETURNABLE_KEY, AdditionalFees.FEE_META} ==> r.meta[k] == o.meta[k]
    ensures Meta(r, TEST_MODE_KEY) == StripeTestMode(cfg)
  {
    var count := ReturnableItems(o, cfg.eligibleClasses);
    SetMeta(SetMeta(SetMeta(o, TEST_MODE_KEY, StripeTestMode(cfg)), RETURNABLE_KEY, IntToString(count)),
            AdditionalFees.FEE_META, IntToString(FeePerItem(cfg) * count))
  }

  /** The stored fee reads back as the per-item fee times the stored
      returnable count, which reads back as the order's returnable count:
      2500 cents per item when no fee is configured, and nothing for a
      converted order. */
  lemma PlacedFeeReadsBack(cfg: Config, o: Order)
    ensures var r := PlacedMeta(cfg, o);
            var count := ReturnableItems(o, cfg.eligibleClasses);
            IntVal(Meta(r, RETURNABLE_KEY)) == count
            && IntVal(Meta(r, AdditionalFees.FEE_META)) == FeePerItem(cfg) * IntVal(Meta(r, RETURNABLE_KEY))
            && (Empty(Opt(cfg, "wdm_return_fee")) ==> IntVal(Meta(r, AdditionalFees.FEE_META)) == 2500 * count)
            && (Meta(o, "wdm_order_converted") == "converted" ==> IntVal(Meta(r, AdditionalFees.FEE_META)) == 0)
  {
    var r := PlacedMeta(cfg, o);
    var count := ReturnableItems(o, cfg.eligibleClasses);
    var fee := FeePerItem(cfg) * count;
    assert Meta(r, RETURNABLE_KEY) == IntToString(count);
    assert Meta(r, AdditionalFees.FEE_META) == IntToString(fee);
    IntValRoundTrip(count);
    IntValRoundTrip(fee);
    if Meta(o, "wdm_order_converted") == "converted" {
      assert count == 0;
    }
  }

  /** `wdm_add_meta` against the database, for the order whose payment
      completed. */
  method AddMeta(site: Site, cfg: Config, id: int)
    requires id in site.orders
    modifies site`orders
    ensures site.orders == old(site.orders)[id := PlacedMeta(cfg, old(site.orders)[id])]
  {
    var count := CountReturnableItems(site.orders[id], cfg.eligibleClasses);
    var fee := if Empty(Opt(cfg, "wdm_return_fee")) then DEFAULT_FEE * count else IntVal(Opt(cfg, "wdm_return_fee")) * count;
    site.UpdateMeta(id, TEST_MODE_KEY, StripeTestMode(cfg));
    site.UpdateMeta(id, RETURNABLE_KEY, IntToString(count));
    site.UpdateMeta(id, AdditionalFees.FEE_META, IntToString(fee));
  }

  // ---------------------------------------------------------------------
  // `wdm_extend_return_period`

  const INVALID_REQUEST := "Invalid request"
  const EXTENDED := "Extended"
  const MAIL_NOT_EXTENDED := "Unable to extend the time for scheduled mail"
  const MAIL_KEPT := "The return period has been extended, but the mail action cannot be extended."
  const EXTEND_KEY := "wdm_extend_returns"

  /** Failures of the reminder-mail half, which do not stop the extension. */
  const NON_CRITICAL: set<string> := {MAIL_NOT_FOUND, MAIL_NOT_EXTENDED, MAIL_NOT_UNSCHEDULED}

  /** A failure that ends the request: one not in the tolerated set. */
  predicate Critical(error: Option<string>) {
    error.Some? && error.value !in NON_CRITICAL
  }

  /** What extending does to the order's actions and meta: the outcome of
      `wdm_remove_scheduled_actions` with rescheduling on. */
  function Extension(db: Store, cfg: Config, id: int): RemoveOutcome
    requires id in db.orders
  {
    var o := db.orders[id];
    RemoveScheduled(db.queue, o.meta, ChargeArgsOf(cfg, id, o), id, ExtendedTime(cfg), true)
  }

  /** The extension counter after one more extension: 1 when it is empty,
      otherwise one more than its value. */
  function NextCount(prev: string): string {
    IntToString(if Empty(prev) then 1 else IntVal(prev) + 1)
  }

  /** `wdm_extend_return_period`: an empty or unknown id is an invalid
      request that changes nothing. Otherwise the fee charge and the
      reminder mail are moved by the extension time; a failure of the charge
      half ends the request with its message, keeping what it wrote, and
      anything else counts one more extension, reported as a success only
      when nothing failed. */
  function ExtendSpec(db: Store, cfg: Config, posted: string): (r: (Store, Result<string>))
    ensures r.0.orders.Keys == db.orders.Keys && r.0.refunds == db.refunds
    ensures r.1 == Err(INVALID_REQUEST) ==> r.0 == db
    ensures r.1.Ok? ==> r.1.value == EXTENDED
  {
    var pid := PostedOrder(db.orders, posted);
    if Empty(posted) || pid.None? then (db, Err(INVALID_REQUEST))
    else Extend(db, cfg, pid.value)
  }

  /** Extending the return period of an order. */
  function Extend(db: Store, cfg: Config, id: int): (r: (Store, Result<string>))
    requires id in db.orders
    ensures r.0.orders.Keys == db.orders.Keys && r.0.refunds == db.refunds
    ensures r.1 != Err(INVALID_REQUEST)
    ensures r.1.Ok? ==> r.1.value == EXTENDED
  {
    var o := db.orders[id];
    var rm := Extension(db, cfg, id);
    var db1 := db.(queue := rm.queue, orders := db.orders[id := o.(meta := rm.meta)]);
    if Critical(rm.error) then (db1, Err(rm.error.value))
    else (Counted(db1, id, Meta(o, EXTEND_KEY)), if rm.error.None? then Ok(EXTENDED) else Err(MAIL_KEPT))
  }

  /** One more extension recorded on the order. */
  function Counted(db: Store, id: int, prev: string): Store
    requires id in db.orders
  {
    db.(orders := db.orders[id := SetMeta(db.orders[id], EXTEND_KEY, NextCount(prev))])
  }

  /** For an order: the charge half's two failures abort with their
      message and leave the counter alone; otherwise the counter goes from
      empty to 1, or from n to n + 1, and a mail failure is reported without
      undoing the extension. */
  lemma ExtendCountsOnce(db: Store, cfg: Config, id: int)
    requires id in db.orders
    ensures var r := Extend(db, cfg, id);
            var rm := Extension(db, cfg, id);
            var before := Meta(db.orders[id], EXTEND_KEY);
            var after := Meta(r.0.orders[id], EXTEND_KEY);
            r.1 in {Ok(EXTENDED), Err(MAIL_KEPT), Err(CHARGE_NOT_FOUND), Err(CHARGE_NOT_UNSCHEDULED)}
            && (r.1 == Err(CHARGE_NOT_FOUND) || r.1 == Err(CHARGE_NOT_UNSCHEDULED) ==> after == before && r.1 == Err(rm.error.value))
            && (r.1 == Ok(EXTENDED) || r.1 == Err(MAIL_KEPT) ==>
                  IntVal(after) == (if Empty(before) then 1 else IntVal(before) + 1))
            && (r.1 == Ok(EXTENDED) <==> rm.error.None?)
  {
    var o := db.orders[id];
    var rm := Extension(db, cfg, id);
    var r := Extend(db, cfg, id);
    var n := if Empty(Meta(o, EXTEND_KEY)) then 1 else IntVal(Meta(o, EXTEND_KEY)) + 1;
    IntValRoundTrip(n);
    assert rm.error.Some? ==> rm.error.value in {CHARGE_NOT_FOUND, CHARGE_NOT_UNSCHEDULED, MAIL_NOT_FOUND, MAIL_NOT_UNSCHEDULED};
    if Critical(rm.error) {
      assert rm.error.value in {CHARGE_NOT_FOUND, CHARGE_NOT_UNSCHEDULED};
      var c := ChargeStep(db.queue, o.meta, ChargeArgsOf(cfg, id, o), ExtendedTime(cfg), true);
      assert rm == c;
      assert EXTEND_KEY !in {"wdm_return_by", "wdm_return_by_ct"};
      assert Meta(r.0.orders[id], EXTEND_KEY) == Meta(o, EXTEND_KEY);
    } else {
      assert Meta(r.0.orders[id], EXTEND_KEY) == IntToString(n);
    }
  }

  /** With no pending fee charge there is nothing to extend: the request
      fails with "The charge action not found ..." and nothing is written. */
  lemma ExtendWithoutChargeChangesNothing(db: Store, cfg: Config, id: int)
    requires id in db.orders
    requires NextScheduled(db.queue, CHARGE_HOOK, ChargeFilter(ChargeArgsOf(cfg, id, db.orders[id]))).None?
    ensures Extend(db, cfg, id) == (db, Err(CHARGE_NOT_FOUND))
  {
    var o := db.orders[id];
    NoPendingChargeNothingChanges(db.queue, o.meta, ChargeArgsOf(cfg, id, o), id, ExtendedTime(cfg));
    assert Critical(Some(CHARGE_NOT_FOUND));
    assert o.(meta := o.meta) == o;
    assert db.orders[id := o] == db.orders;
  }

  /** A successful extension by a positive time moves the fee charge:
      every pending action is still counted once, the charge runs `ext`
      seconds after its previous next run, and `wdm_return_by` reads back as
      that time. */
  lemma ExtendMovesCharge(db: Store, cfg: Config, id: int)
    requires id in db.orders
    requires ExtendedTime(cfg) > 0
    requires Extend(db, cfg, id).1 == Ok(EXTENDED)
    ensures var o := db.orders[id];
            var f := ChargeFilter(ChargeArgsOf(cfg, id, o));
            var r := Extend(db, cfg, id).0;
            var t := NextScheduled(db.queue, CHARGE_HOOK, f).value + ExtendedTime(cfg);
            |r.queue| == |db.queue|
            && Action(t, CHARGE_HOOK, ChargeSchedArgs(ChargeArgsOf(cfg, id, o))) in r.queue
            && IntVal(Meta(r.orders[id], "wdm_return_by")) == t
  {
    var o := db.orders[id];
    var charge := ChargeArgsOf(cfg, id, o);
    var rm := Extension(db, cfg, id);
    ExtendedIsCounted(db, cfg, id);
    RescheduleExtends(db.queue, o.meta, charge, id, ExtendedTime(cfg));
    ReturnByReadsBack(db.queue, o.meta, charge, id, ExtendedTime(cfg));
    CountedKeepsReturnBy(db.(queue := rm.queue, orders := db.orders[id := o.(meta := rm.meta)]), id, Meta(o, EXTEND_KEY));
  }

  /** A successful extension is the outcome of the two halves with the
      counter advanced. */
  lemma ExtendedIsCounted(db: Store, cfg: Config, id: int)
    requires id in db.orders
    requires Extend(db, cfg, id).1 == Ok(EXTENDED)
    ensures var o := db.orders[id];
            var rm := Extension(db, cfg, id);
            rm.error.None? && NextScheduled(db.queue, CHARGE_HOOK, ChargeFilter(ChargeArgsOf(cfg, id, o))).Some?
            && Extend(db, cfg, id).0 == Counted(db.(queue := rm.queue, orders := db.orders[id := o.(meta := rm.meta)]), id, Meta(o, EXTEND_KEY))
  {
    var o := db.orders[id];
    if NextScheduled(db.queue, CHARGE_HOOK, ChargeFilter(ChargeArgsOf(cfg, id, o))).None? {
      NoPendingChargeNothingChanges(db.queue, o.meta, ChargeArgsOf(cfg, id, o), id, ExtendedTime(cfg));
      assert false;
    }
  }

  /** Advancing the counter keeps the queue and `wdm_return_by`. */
  lemma CountedKeepsReturnBy(db: Store, id: int, prev: string)
    requires id in db.orders
    ensures var r := Counted(db, id, prev);
            r.queue == db.queue && Meta(r.orders[id], "wdm_return_by") == Meta(db.orders[id], "wdm_return_by")
            && Meta(r.orders[id], "wdm_return_by_ct") == Meta(db.orders[id], "wdm_return_by_ct")
  {
    assert EXTEND_KEY != "wdm_return_by" && EXTEND_KEY != "wdm_return_by_ct";
  }

  /** After an extension the mails' return date is the moved charge time
      less six hours, formatted; PHP's `empty` reads a stored "0" as no
      date. */
  lemma ExtendedReturnDate(db: Store, cfg: Config, id: int, formatDate: int -> string)
    requires id in db.orders
    requires Extend(db, cfg, id).1 == Ok(EXTENDED)
    ensures var o := db.orders[id];
            var t := NextScheduled(db.queue, CHARGE_HOOK, ChargeFilter(ChargeArgsOf(cfg, id, o))).value + ExtendedTime(cfg) - 21600;
            ReturnDateText(Extend(db, cfg, id).0.orders[id], formatDate) == if t == 0 then "" else formatDate(t)
  {
    var o := db.orders[id];
    var charge := ChargeArgsOf(cfg, id, o);
    var t := NextScheduled(db.queue, CHARGE_HOOK, ChargeFilter(charge)).value + ExtendedTime(cfg) - 21600;
    var rm := Extension(db, cfg, id);
    var mid := db.(queue := rm.queue, orders := db.orders[id := o.(meta := rm.meta)]);
    ExtendedIsCounted(db, cfg, id);
    ReturnByReadsBack(db.queue, o.meta, charge, id, ExtendedTime(cfg));
    assert Meta(mid.orders[id], "wdm_return_by_ct") == IntToString(t);
    CountedKeepsReturnBy(mid, id, Meta(o, EXTEND_KEY));
    ReturnDateOf(Extend(db, cfg, id).0.orders[id], t, formatDate);
  }

  /** `wdm_extend_return_period` against the database. */
  method ExtendReturnPeriod(site: Site, cfg: Config, posted: string) returns (result: Result<string>)
    modifies site`orders, site`queue
    ensures (site.Snapshot(), result) == ExtendSpec(old(site.Snapshot()), cfg, posted)
  {
    var pid := PostedOrder(site.orders, posted);
    if Empty(posted) || pid.None? {
      return Err(INVALID_REQUEST);
    }
    result := ExtendOrder(site, cfg, pid.value);
  }

  /** Extending an order's return period against the database. */
  method ExtendOrder(site: Site, cfg: Config, id: int) returns (result: Result<string>)
    requires id in site.orders
    modifies site`orders, site`queue
    ensures (site.Snapshot(), result) == Extend(old(site.Snapshot()), cfg, id)
  {
    var prev := Meta(site.orders[id], EXTEND_KEY);
    var error := RemoveScheduledActions(site, cfg, id, true);
    if Critical(error) {
      return Err(error.value);
    }
    site.UpdateMeta(id, EXTEND_KEY, NextCount(prev));
    result := if error.None? then Ok(EXTENDED) else Err(MAIL_KEPT);
  }

  // ---------------------------------------------------------------------
  // `wdm_shippo_outbound_refunds` and `wdm_get_transaction_number`

  const OUT_TRANSACTION := "wdm_shippo_outbound_transaction_id"
  const OUT_CARRIER := "wdm_shippo_outbound_carrier_token"

  /** The body of Shippo's `/tracks/` request: tracking number and carrier. */
  datatype TrackQuery = TrackQuery(trackingNumber: string, carrier: string)

  /** The lookup of the outbound transaction: none without an outbound
      tracking number; in live mode (order test-mode meta "no") the order's
      tracking number and carrier, the carrier defaulting to "usps"; in test
      mode Shippo's test number "SHIPPO_DELIVERED" with carrier "shippo". */
  function TrackQueryFor(o: Order): (q: Option<TrackQuery>)
    ensures q.None? <==> Empty(Meta(o, SHIPPO_OUT_NUMBER))
    ensures q.Some? && Meta(o, TEST_MODE_KEY) != "no" ==> q.value == TrackQuery("SHIPPO_DELIVERED", "shippo")
    ensures q.Some? && Meta(o, TEST_MODE_KEY) == "no" ==>
              q.value.trackingNumber == Meta(o, SHIPPO_OUT_NUMBER)
              && (Empty(Meta(o, OUT_CARRIER)) ==> q.value.carrier == "usps")
              && (!Empty(Meta(o, OUT_CARRIER)) ==> q.value.carrier == Meta(o, OUT_CARRIER))
    ensures q.Some? ==> !Empty(q.value.trackingNumber) && !Empty(q.value.carrier)
  {
    var number := Meta(o, SHIPPO_OUT_NUMBER);
    var carrier := if Empty(Meta(o, OUT_CARRIER)) then "usps" else Meta(o, OUT_CARRIER);
    if Empty(number) then None
    else if Meta(o, TEST_MODE_KEY) == "no" then Some(TrackQuery(number, carrier))
    else Some(TrackQuery("SHIPPO_DELIVERED", "shippo"))
  }

  /** The transaction to refund: the stored one when it is non-empty,
      otherwise the one Shippo's lookup answers (`lookup`, "" when the
      reply has none); None when there is nothing to refund. */
  function RefundTransaction(o: Order, lookup: TrackQuery -> string): (t: Option<string>)
    ensures t.Some? ==> !Empty(t.value)
    ensures !Empty(Meta(o, OUT_TRANSACTION)) ==> t == Some(Meta(o, OUT_TRANSACTION))
    ensures Empty(Meta(o, OUT_TRANSACTION)) && Empty(Meta(o, SHIPPO_OUT_NUMBER)) ==> t.None?
    ensures Empty(Meta(o, OUT_TRANSACTION)) && !Empty(Meta(o, SHIPPO_OUT_NUMBER)) ==>
              var q := TrackQueryFor(o).value;
              (t.Some? <==> !Empty(lookup(q))) && (t.Some? ==> t.value == lookup(q))
  {
    if !Empty(Meta(o, OUT_TRANSACTION)) then Some(Meta(o, OUT_TRANSACTION))
    else
      var q := TrackQueryFor(o);
      if q.None? || Empty(lookup(q.value)) then None else Some(lookup(q.value))
  }

  /** `wdm_shippo_outbound_refunds`: the refund id Shippo answers for the
      transaction (`refund`, "" when the reply has none), "" when there is
      no transaction. */
  function OutboundRefundId(o: Order, lookup: TrackQuery -> string, refund: string -> string): (id: string)
    ensures RefundTransaction(o, lookup).None? ==> id == ""
    ensures !Empty(id) ==> RefundTransaction(o, lookup).Some? && id == refund(RefundTransaction(o, lookup).value)
  {
    var t := RefundTransaction(o, lookup);
    if t.None? then "" else refund(t.value)
  }

  // ---------------------------------------------------------------------
  // `wdm_label_reset`

  const REFUND_ID_KEY := "wdm_shippo_outbound_refund_id"
  const REFUND_FAILED := "Unable to raise refund request"

  /** The meta a reset deletes from a shipped or processing order. */
  const RESET_KEYS: seq<string> := [
    "easypost_inbound_carrier", "easypost_shipment_id", "easypost_tracking_id",
    "inbound-shipping-label-generated", "merged-shipping-label-generated", "outbound-shipping-label-generated",
    "wdm_return_by", "wdm_return_by_ct",
    "wdm_shippo_outbound_tracking_number", "wdm_shippo_outbound_tracking_status", "wdm_shippo_outbound_tracking_url",
    "wdm_shippo_outbound_transaction_id", "wdm_shippo_outbound_carrier_token",
    "wdm_shippo_inbound_tracking_number", "wdm_shippo_inbound_tracking_status", "wdm_shippo_inbound_tracking_url",
    "wdm_shippo_inbound_transaction_id", "wdm_shippo_inbound_carrier_token",
    "pre_transit_time", "generating_return_label",
    "usps_tracking_id", "wdm_usps_inbound_tracking_status", "usps_tracking_url", "usps_routing_number",
    "wdm_order_converted"]

  /** The refund ids recorded as the source writes them: `old;new` when
      both are non-empty, otherwise the new id, even when it is empty. */
  function RefundIdAsWritten(prev: string, added: string): string {
    if !Empty(prev) && !Empty(added) then prev + ";" + added else added
  }

  /** As written, a refund request that fails erases the ids recorded by
      earlier resets. */
  lemma RefundIdAsWrittenErases(prev: string)
    requires !Empty(prev)
    ensures RefundIdAsWritten(prev, "") == "" && !(prev <= RefundIdAsWritten(prev, ""))
  {
  }

  /** The refund ids recorded: the earlier ids are kept in front, a new id
      is added last, and a failed request (no new id) changes nothing. */
  function RecordRefundId(prev: string, added: string): (r: string)
    ensures !Empty(prev) ==> prev <= r
    ensures !Empty(added) ==> |added| <= |r| && r[|r| - |added|..] == added
    ensures !Empty(prev) && !Empty(added) ==> r == prev + ";" + added
    ensures Empty(added) ==> r == prev
    ensures Empty(prev) ==> r == added || r == prev
  {
    if Empty(added) then prev else if Empty(prev) then added else prev + ";" + added
  }

  /** The corrected record differs from the written one only when the
      request failed. */
  lemma RecordRefundIdAgrees(prev: string, added: string)
    requires !Empty(added)
    ensures RecordRefundId(prev, added) == RefundIdAsWritten(prev, added)
  {
  }

  /** The scheduled deletions of an order's three labels, as the reset
      looks them up: the outbound and the inbound label with the order id as
      an integer, the merged label with it as a string. */
  function DeletionArgs(cfg: Config, id: int, posted: string): seq<Args> {
    [LabelFileArgs(IntArg(id), LabelFile(cfg, posted, "outbound")),
     LabelFileArgs(IntArg(id), LabelFile(cfg, posted, "inbound")),
     LabelFileArgs(StrArg(IntToString(id)), MergedFile(cfg, posted))]
  }

  /** `as_unschedule_all_actions` of the deletion hook for each argument
      list in turn. */
  function CancelEach(q: seq<Action>, args: seq<Args>): (r: seq<Action>)
    ensures forall a :: a in r ==> a in q
    ensures forall a :: a in r ==> !(a.hook == DELETE_HOOK && a.args in args)
  {
    if args == [] then q
    else UnscheduleAll(CancelEach(q, args[..|args| - 1]), DELETE_HOOK, Exactly(args[|args| - 1]))
  }

  /** The meta left after deleting `keys`. */
  function WithoutKeys(m: map<string, string>, keys: seq<string>): (r: map<string, string>)
    ensures forall k :: k in r <==> k in m && k !in keys
    ensures forall k :: k in r ==> r[k] == m[k]
  {
    m - (set k | k in keys)
  }

  /** A shipped or processing order loses its label and tracking meta and
      goes back to processing; any other order is left as it is. */
  function ClearLabels(o: Order): (r: Order)
    ensures o.status in {"shipped", "processing"} ==>
              r == o.(meta := WithoutKeys(o.meta, RESET_KEYS), status := "processing")
    ensures o.status !in {"shipped", "processing"} ==> r == o
  {
    if o.status in {"shipped", "processing"} then o.(meta := WithoutKeys(o.meta, RESET_KEYS), status := "processing") else o
  }

  /** The queue after a reset: the next fee charge and reminder mail are
      cancelled (the charge with the order's charge arguments, or any when
      the Stripe settings are empty), then every pending deletion of the
      order's three labels. */
  function ResetQueue(q: seq<Action>, cfg: Config, id: int, posted: string, o: Order): seq<Action> {
    var q1 := Unschedule(q, CHARGE_HOOK, ChargeFilter(ChargeArgsOf(cfg, id, o))).0;
    var q2 := Unschedule(q1, MAIL_HOOK, Exactly(OrderIdArg(id))).0;
    CancelEach(q2, DeletionArgs(cfg, id, posted))
  }

  /** `wdm_label_reset` for a posted id and Shippo's answers: an empty id
      does nothing. Otherwise the outbound label's refund is requested and
      its id recorded; without a refund id the request ends with "Unable to
      raise refund request". With one, the order's pending actions are
      cancelled and its labels cleared. An id naming no order has no
      transaction to refund. */
  function LabelResetSpec(db: Store, cfg: Config, posted: string, lookup: TrackQuery -> string,
                          refund: string -> string): (r: (Store, Option<string>))
    ensures r.0.orders.Keys == db.orders.Keys && r.0.refunds == db.refunds && r.0.files == db.files
    ensures Empty(posted) ==> r == (db, None)
    ensures r.1.Some? ==> r.1.value == REFUND_FAILED && r.0.queue == db.queue
  {
    if Empty(posted) then (db, None)
    else
      var pid := PostedOrder(db.orders, posted);
      if pid.None? then (db, Some(REFUND_FAILED))
      else
        var id := pid.value;
        var o := db.orders[id];
        var added := OutboundRefundId(o, lookup, refund);
        var db1 := db.(orders := db.orders[id := SetMeta(o, REFUND_ID_KEY, RecordRefundId(Meta(o, REFUND_ID_KEY), added))]);
        if Empty(added) then (db1, Some(REFUND_FAILED)) else (Reset(db1, cfg, id, posted, o), None)
  }

  /** The reset proper, once the refund is requested: the order's pending
      actions are cancelled (the charge looked up with the arguments of the
      order `o` as it was loaded) and its labels cleared. */
  function Reset(db: Store, cfg: Config, id: int, posted: string, o: Order): (r: Store)
    requires id in db.orders
    ensures r.orders.Keys == db.orders.Keys && r.refunds == db.refunds && r.files == db.files
  {
    db.(orders := db.orders[id := ClearLabels(db.orders[id])], queue := ResetQueue(db.queue, cfg, id, posted, o))
  }

  /** A failed refund request leaves the order as it was, its recorded
      refund ids included, and cancels nothing. */
  lemma FailedResetKeepsOrder(db: Store, cfg: Config, posted: string, id: int, lookup: TrackQuery -> string,
                              refund: string -> string)
    requires !Empty(posted) && PostedOrder(db.orders, posted) == Some(id)
    requires REFUND_ID_KEY in db.orders[id].meta
    requires Empty(OutboundRefundId(db.orders[id], lookup, refund))
    ensures LabelResetSpec(db, cfg, posted, lookup, refund) == (db, Some(REFUND_FAILED))
  {
    var o := db.orders[id];
    assert SetMeta(o, REFUND_ID_KEY, Meta(o, REFUND_ID_KEY)) == o;
    assert db.orders[id := o] == db.orders;
  }

  /** Every label flag, the return-label marker, every inbound tracking
      key and the conversion mark are among the keys a reset deletes. */
  lemma FlagsAmongResetKeys()
    ensures FlagKey("outbound") in RESET_KEYS && FlagKey("inbound") in RESET_KEYS && FlagKey("merged") in RESET_KEYS
  {
    assert RESET_KEYS[5] == FlagKey("outbound");
    assert RESET_KEYS[3] == FlagKey("inbound");
    assert RESET_KEYS[4] == FlagKey("merged");
  }

  lemma PartnerKeysAmongResetKeys()
    ensures MARKER in RESET_KEYS && "wdm_order_converted" in RESET_KEYS
    ensures forall i :: 0 <= i < 3 ==> PARTNER_KEYS[i] in RESET_KEYS
  {
    assert RESET_KEYS[19] == MARKER;
    assert RESET_KEYS[24] == "wdm_order_converted";
    assert PARTNER_KEYS[0] == RESET_KEYS[2];
    assert PARTNER_KEYS[1] == RESET_KEYS[20];
    assert PARTNER_KEYS[2] == RESET_KEYS[13];
  }

  /** The recorded refund ids survive a reset. */
  lemma RefundKeyKept()
    ensures REFUND_ID_KEY !in RESET_KEYS
  {
  }

  /** A cleared shipped or processing order is back in processing with no
      label flag, no return-label marker, no inbound tracking partner and
      no conversion mark, so labels can be generated for it again. */
  lemma ClearedOrderFresh(o: Order)
    requires o.status in {"shipped", "processing"}
    ensures var c := ClearLabels(o);
            c.status == "processing"
            && Empty(Meta(c, FlagKey("outbound"))) && Empty(Meta(c, FlagKey("inbound"))) && Empty(Meta(c, FlagKey("merged")))
            && MARKER !in c.meta && MarkerOk(c)
            && InboundTrackingPartner(c) == ""
            && Meta(c, "wdm_order_converted") == ""
            && Meta(c, REFUND_ID_KEY) == Meta(o, REFUND_ID_KEY)
  {
    FlagsAmongResetKeys();
    PartnerKeysAmongResetKeys();
    RefundKeyKept();
    var c := ClearLabels(o);
    var m := WithoutKeys(o.meta, RESET_KEYS);
    assert c.meta == m && c.status == "processing";
    assert FlagKey("outbound") !in m && FlagKey("inbound") !in m && FlagKey("merged") !in m;
    assert MARKER !in m && "wdm_order_converted" !in m;
    assert forall i :: 0 <= i < 3 ==> PARTNER_KEYS[i] !in c.meta;
    assert (REFUND_ID_KEY in m <==> REFUND_ID_KEY in o.meta);
  }

  /** After a successful reset of a shipped or processing order, the order
      is fresh for label generation and its new refund id is recorded last,
      after the earlier ones. */
  lemma ResetReadiesRegeneration(db: Store, cfg: Config, posted: string, id: int, lookup: TrackQuery -> string,
                                 refund: string -> string)
    requires !Empty(posted) && PostedOrder(db.orders, posted) == Some(id)
    requires db.orders[id].status in {"shipped", "processing"}
    requires LabelResetSpec(db, cfg, posted, lookup, refund).1.None?
    ensures var before := db.orders[id];
            var added := OutboundRefundId(before, lookup, refund);
            var o := LabelResetSpec(db, cfg, posted, lookup, refund).0.orders[id];
            o.status == "processing"
            && Empty(Meta(o, FlagKey("outbound"))) && Empty(Meta(o, FlagKey("inbound"))) && Empty(Meta(o, FlagKey("merged")))
            && MarkerOk(o) && InboundTrackingPartner(o) == ""
            && Meta(o, REFUND_ID_KEY) == RecordRefundId(Meta(before, REFUND_ID_KEY), added)
            && !Empty(added)
  {
    var before := db.orders[id];
    var added := OutboundRefundId(before, lookup, refund);
    var o1 := SetMeta(before, REFUND_ID_KEY, RecordRefundId(Meta(before, REFUND_ID_KEY), added));
    ClearedOrderFresh(o1);
  }

  /** After a successful reset no deletion of the order's labels, as label
      storage and merging schedule them, is pending any more. */
  lemma ResetCancelsDeletions(db: Store, cfg: Config, id: int, lookup: TrackQuery -> string, refund: string -> string,
                              t: int, kind: string)
    requires id > 0 && id in db.orders
    requires kind in {"outbound", "inbound"}
    requires LabelResetSpec(db, cfg, IntToString(id), lookup, refund).1.None?
    ensures var q := LabelResetSpec(db, cfg, IntToString(id), lookup, refund).0.queue;
            var name := IntToString(id);
            Action(t, DELETE_HOOK, LabelFileArgs(IntArg(id), LabelFile(cfg, name, kind))) !in q
            && Action(t, DELETE_HOOK, LabelFileArgs(StrArg(name), MergedFile(cfg, name))) !in q
  {
    var name := IntToString(id);
    PostedIdNamesOrder(db.orders, id);
    var args := DeletionArgs(cfg, id, name);
    assert LabelFileArgs(IntArg(id), LabelFile(cfg, name, kind)) in args;
    assert LabelFileArgs(StrArg(name), MergedFile(cfg, name)) in args;
  }

  /** Cancelling the order's next fee charge and reminder mail. */
  method CancelPending(site: Site, cfg: Config, id: int, o: Order)
    modifies site`queue
    ensures site.queue == Unschedule(Unschedule(old(site.queue), CHARGE_HOOK, ChargeFilter(ChargeArgsOf(cfg, id, o))).0,
                                     MAIL_HOOK, Exactly(OrderIdArg(id))).0
  {
    var found := site.UnscheduleNext(CHARGE_HOOK, ChargeFilter(ChargeArgsOf(cfg, id, o)));
    found := site.UnscheduleNext(MAIL_HOOK, Exactly(OrderIdArg(id)));
  }

  /** The loop over the three label files. */
  method CancelDeletions(site: Site, args: seq<Args>)
    modifies site`queue
    ensures site.queue == CancelEach(old(site.queue), args)
  {
    var i := 0;
    while i < |args|
      invariant 0 <= i <= |args|
      invariant site.queue == CancelEach(old(site.queue), args[..i])
    {
      assert args[..i + 1][..i] == args[..i];
      site.UnscheduleEvery(DELETE_HOOK, Exactly(args[i]));
      i := i + 1;
    }
    assert args[..|args|] == args;
  }

  /** The loop deleting a list of keys, one `delete_post_meta` each. */
  method DeleteKeys(site: Site, id: int, keys: seq<string>)
    requires id in site.orders
    modifies site`orders
    ensures site.orders == old(site.orders)[id := old(site.orders)[id].(meta := WithoutKeys(old(site.orders)[id].meta, keys))]
  {
    ghost var o := site.orders[id];
    assert WithoutKeys(o.meta, keys[..0]) == o.meta;
    assert old(site.orders)[id := o.(meta := o.meta)] == old(site.orders);
    var i := 0;
    while i < |keys|
      invariant 0 <= i <= |keys|
      invariant site.orders == old(site.orders)[id := o.(meta := WithoutKeys(o.meta, keys[..i]))]
    {
      WithoutOneMore(o.meta, keys, i);
      site.DeleteMeta(id, keys[i]);
      i := i + 1;
    }
    assert keys[..|keys|] == keys;
  }

  /** Deleting one more key of the list. */
  lemma WithoutOneMore(m: map<string, string>, keys: seq<string>, i: int)
    requires 0 <= i < |keys|
    ensures WithoutKeys(m, keys[..i + 1]) == WithoutKeys(m, keys[..i]) - {keys[i]}
  {
    assert keys[..i + 1] == keys[..i] + [keys[i]];
  }

  /** Clearing the labels of a shipped or processing order. */
  method ClearOrderLabels(site: Site, id: int)
    requires id in site.orders
    modifies site`orders
    ensures site.orders == old(site.orders)[id := ClearLabels(old(site.orders)[id])]
  {
    if site.orders[id].status in {"shipped", "processing"} {
      DeleteKeys(site, id, RESET_KEYS);
      site.UpdateStatus(id, "processing");
    }
  }

  /** The reset proper against the database. */
  method ResetOrder(site: Site, cfg: Config, id: int, posted: string, o: Order)
    requires id in site.orders
    modifies site`orders, site`queue
    ensures site.Snapshot() == Reset(old(site.Snapshot()), cfg, id, posted, o)
  {
    CancelPending(site, cfg, id, o);
    CancelDeletions(site, DeletionArgs(cfg, id, posted));
    ClearOrderLabels(site, id);
  }

  /** `wdm_label_reset` against the database. */
  method LabelReset(site: Site, cfg: Config, posted: string, lookup: TrackQuery -> string, refund: string -> string)
    returns (error: Option<string>)
    modifies site`orders, site`queue
    ensures (site.Snapshot(), error) == LabelResetSpec(old(site.Snapshot()), cfg, posted, lookup, refund)
  {
    if Empty(posted) {
      return None;
    }
    var pid := PostedOrder(site.orders, posted);
    if pid.None? {
      return Some(REFUND_FAILED);
    }
    var id := pid.value;
    var o := site.orders[id];
    var added := OutboundRefundId(o, lookup, refund);
    site.UpdateMeta(id, REFUND_ID_KEY, RecordRefundId(Meta(o, REFUND_ID_KEY), added));
    if Empty(added) {
      return Some(REFUND_FAILED);
    }
    ResetOrder(site, cfg, id, posted, o);
    error := None;
  }

  // ---------------------------------------------------------------------
  // `wdm_clone_order`

  const CLONE_MISSING := "Please provide valid order id, machine type and product id "
  const NO_ADDRESS := "Please make sure that order contains valid shipping and billing address"
  const INVALID_ORDER := "Invalid order."
  const ORDER_GENERATED := "Order Generated"

  /** The replacement order: the posted product once, total 0, processing,
      the original's customer and addresses, marked as a replacement for
      the posted machine type, with the original's Stripe customer and (when
      it has one) its non-return fee. */
  function Replacement(og: Order, productId: int, productClass: string, machine: string, now: int): (r: Order)
    ensures r.status == "processing" && r.total == 0 && r.items == [LineItem(productId, productClass, 1)]
    ensures r.customerId == og.customerId && r.shipping == og.shipping && r.billing == og.billing
    ensures r.notes == [] && r.fees == [] && r.refundRequests == [] && r.totalRefunded == 0
    ensures Meta(r, "wdm_is_replacement_order") == "true" && Meta(r, "machine_type") == machine
    ensures Meta(r, "_stripe_customer_id") == Meta(og, "_stripe_customer_id")
    ensures !Empty(Meta(og, "wdm_non_return_fee")) ==> Meta(r, "wdm_non_return_fee") == Meta(og, "wdm_non_return_fee")
    ensures Empty(Meta(og, "wdm_non_return_fee")) ==> "wdm_non_return_fee" !in r.meta
    ensures r.meta.Keys <= {"wdm_is_replacement_order", "machine_type", "_billing_address_index",
                            "_shipping_address_index", "_stripe_customer_id", "wdm_non_return_fee"}
  {
    var meta := map[]["wdm_is_replacement_order" := "true"]["machine_type" := machine]
                    ["_billing_address_index" := og.billing]["_shipping_address_index" := og.shipping]
                    ["_stripe_customer_id" := Meta(og, "_stripe_customer_id")];
    var fee := Meta(og, "wdm_non_return_fee");
    Order("processing", if Empty(fee) then meta else meta["wdm_non_return_fee" := fee], [LineItem(productId, productClass, 1)],
          og.customerId, [], [], 0, 0, 0, 1, 0, [], now, og.shipping, og.billing)
  }

  /** A replacement order starts its label life afresh: nothing generated,
      no marker, no inbound partner, not converted, and one returnable item
      exactly when the product's shipping class is eligible. */
  lemma ReplacementStartsFresh(og: Order, productId: int, productClass: string, machine: string, now: int, cfg: Config)
    ensures var r := Replacement(og, productId, productClass, machine, now);
            Empty(Meta(r, FlagKey("outbound"))) && Empty(Meta(r, FlagKey("inbound"))) && Empty(Meta(r, FlagKey("merged")))
            && MarkerOk(r) && InboundTrackingPartner(r) == ""
            && ReturnableItems(r, cfg.eligibleClasses) == (if productClass in cfg.eligibleClasses then 1 else 0)
  {
    ReplacementUnlabelled(og, productId, productClass, machine, now);
    ReplacementReturnable(og, productId, productClass, machine, now, cfg);
  }

  /** The label half of `ReplacementStartsFresh`. */
  lemma ReplacementUnlabelled(og: Order, productId: int, productClass: string, machine: string, now: int)
    ensures var r := Replacement(og, productId, productClass, machine, now);
            Empty(Meta(r, FlagKey("outbound"))) && Empty(Meta(r, FlagKey("inbound"))) && Empty(Meta(r, FlagKey("merged")))
            && MarkerOk(r) && InboundTrackingPartner(r) == ""
  {
    var r := Replacement(og, productId, productClass, machine, now);
    assert FlagKey("outbound") !in r.meta && FlagKey("inbound") !in r.meta && FlagKey("merged") !in r.meta;
    ReplacementUntracked(og, productId, productClass, machine, now);
  }

  /** A replacement names no inbound partner and has no marker. */
  lemma ReplacementUntracked(og: Order, productId: int, productClass: string, machine: string, now: int)
    ensures var r := Replacement(og, productId, productClass, machine, now);
            MarkerOk(r) && InboundTrackingPartner(r) == ""
  {
    var r := Replacement(og, productId, productClass, machine, now);
    assert PARTNER_KEYS[0] !in r.meta && PARTNER_KEYS[1] !in r.meta && PARTNER_KEYS[2] !in r.meta;
  }

  /** The returnable half of `ReplacementStartsFresh`. */
  lemma ReplacementReturnable(og: Order, productId: int, productClass: string, machine: string, now: int, cfg: Config)
    ensures ReturnableItems(Replacement(og, productId, productClass, machine, now), cfg.eligibleClasses)
            == (if productClass in cfg.eligibleClasses then 1 else 0)
  {
    var r := Replacement(og, productId, productClass, machine, now);
    assert r.items[..0] == [];
    assert EligibleQuantity(r.items, cfg.eligibleClasses) == EligibleQuantity([], cfg.eligibleClasses)
           + (if productClass in cfg.eligibleClasses then 1 else 0);
  }

  /** `wdm_clone_order` for the posted order id, product id and machine
      type, the product's shipping class and the id WooCommerce gives the
      new order: a missing field or address is an error and nothing is
      created; an unknown original order throws. Otherwise exactly one
      order, the replacement, is added. */
  function CloneSpec(db: Store, postedOrder: string, postedProduct: string, postedMachine: string,
                     productClass: string, newId: int, now: int): (r: (Store, Result<string>))
    requires newId !in db.orders
    ensures r.1.Ok? <==> (!Empty(postedOrder) && !Empty(postedProduct) && !Empty(postedMachine)
                          && PostedOrder(db.orders, postedOrder).Some?
                          && !Empty(db.orders[PostedOrder(db.orders, postedOrder).value].shipping)
                          && !Empty(db.orders[PostedOrder(db.orders, postedOrder).value].billing))
    ensures r.1.Err? ==> r.0 == db && r.1.msg in {CLONE_MISSING, INVALID_ORDER, NO_ADDRESS}
    ensures r.1.Ok? ==> r.1.value == ORDER_GENERATED
                        && r.0 == db.(orders := db.orders[newId := Replacement(db.orders[PostedOrder(db.orders, postedOrder).value],
                                         IntVal(postedProduct), productClass, postedMachine, now)])
  {
    if Empty(postedProduct) || Empty(postedOrder) || Empty(postedMachine) then (db, Err(CLONE_MISSING))
    else if PostedOrder(db.orders, postedOrder).None? then (db, Err(INVALID_ORDER))
    else
      var og := db.orders[PostedOrder(db.orders, postedOrder).value];
      if Empty(og.shipping) || Empty(og.billing) then (db, Err(NO_ADDRESS))
      else (db.(orders := db.orders[newId := Replacement(og, IntVal(postedProduct), productClass, postedMachine, now)]),
            Ok(ORDER_GENERATED))
  }

  /** `wdm_clone_order` against the database: the new order is built field
      by field and saved once. */
  method CloneOrder(site: Site, postedOrder: string, postedProduct: string, postedMachine: string,
                    productClass: string, newId: int, now: int) returns (result: Result<string>)
    requires newId !in site.orders
    modifies site`orders
    ensures (site.Snapshot(), result) == CloneSpec(old(site.Snapshot()), postedOrder, postedProduct, postedMachine,
                                                   productClass, newId, now)
  {
    if Empty(postedProduct) || Empty(postedOrder) || Empty(postedMachine) {
      return Err(CLONE_MISSING);
    }
    var pid := PostedOrder(site.orders, postedOrder);
    if pid.None? {
      return Err(INVALID_ORDER);
    }
    var og := site.orders[pid.value];
    if Empty(og.shipping) || Empty(og.billing) {
      return Err(NO_ADDRESS);
    }
    var o := Order("pending", map[], [], og.customerId, [], [], 0, 0, 0, 0, 0, [], now, "", "");
    o := o.(items := o.items + [LineItem(IntVal(postedProduct), productClass, 1)], itemCount := o.itemCount + 1);
    o := o.(total := 0, status := "processing", shipping := og.shipping, billing := og.billing);
    o := SetMeta(o, "wdm_is_replacement_order", "true");
    o := SetMeta(o, "machine_type", postedMachine);
    o := SetMeta(o, "_billing_address_index", og.billing);
    o := SetMeta(o, "_shipping_address_index", og.shipping);
    o := SetMeta(o, "_stripe_customer_id", Meta(og, "_stripe_customer_id"));
    var fee := Meta(og, "wdm_non_return_fee");
    if !Empty(fee) {
      o := SetMeta(o, "wdm_non_return_fee", fee);
    }
    assert o == Replacement(og, IntVal(postedProduct), productClass, postedMachine, now);
    site.CreateOrder(newId, o);
    result := Ok(ORDER_GENERATED);
  }
}
