/** Scheduling a refund instead of making it (class-ss-schedule-refunds.php):
    the admin's refund dialog sets per-order session flags, and the refund
    WooCommerce then creates is appended to the order's list of scheduled
    refunds (`scheduled_refund_obj`), which the inbound tracking events
    process later. The session is the `Session` object; posted values are
    strings, "" when missing. */
module ScheduleRefunds {
  import opened Php
  import opened Wp
  import opened Helpers
  import opened Tracking

  const INVALID_ID := "Please provide valid order id"

  /** The checks the session handlers start with: a non-empty posted id
      whose `absint` is non-zero and names an order. */
  function CheckedOrderId(orders: map<int, Order>, posted: string): (r: Result<int>)
    ensures r.Ok? <==> !Empty(posted) && AbsInt(posted) != 0 && AbsInt(posted) in orders
    ensures r.Ok? ==> r.value == AbsInt(posted)
    ensures r.Err? ==> r.msg == INVALID_ID
  {
    if Empty(posted) || AbsInt(posted) == 0 || AbsInt(posted) !in orders then Err(INVALID_ID) else Ok(AbsInt(posted))
  }

  /** The checkbox counts as ticked when the posted value is set, non-empty
      and exactly "true". */
  function CheckboxValue(posted: string): (checked: bool)
    ensures checked <==> posted == "true"
  {
    !Empty(posted) && posted == "true"
  }

  /** `wdm_set_session_for_checkbox`: for a valid order the session records
      whether the checkbox was ticked; an invalid id ends the request and
      leaves the session alone. */
  method SetSessionForCheckbox(session: Session, orders: map<int, Order>, postedId: string, postedChecked: string)
    returns (error: Option<string>)
    modifies session`checkboxChecked
    ensures var id := CheckedOrderId(orders, postedId);
            (id.Err? ==> error == Some(INVALID_ID) && session.checkboxChecked == old(session.checkboxChecked))
            && (id.Ok? ==> error.None? && session.checkboxChecked == Some(postedChecked == "true"))
  {
    var id := CheckedOrderId(orders, postedId);
    if id.Err? {
      return Some(id.msg);
    }
    session.checkboxChecked := Some(CheckboxValue(postedChecked));
    error := None;
  }

  /** Whether the refund of the non-return fee is wanted: the checkbox was
      ticked (boolean true) and the order has returnable items. */
  predicate RefundRetFee(checkbox: Option<bool>, o: Order, cfg: Config) {
    checkbox == Some(true) && ReturnableItems(o, cfg.eligibleClasses) > 0
  }

  /** `wdm_check_for_session`: for a valid order, its scheduled-refund flag
      is cleared and `refund_ret_fee` records whether the fee is to be
      refunded; an invalid id ends the request and changes nothing. */
  method CheckForSession(session: Session, orders: map<int, Order>, cfg: Config, postedId: string) returns (error: Option<string>)
    modifies session`scheduledRefund, session`refundRetFee
    ensures var id := CheckedOrderId(orders, postedId);
            (id.Err? ==> error == Some(INVALID_ID) && session.scheduledRefund == old(session.scheduledRefund)
                         && session.refundRetFee == old(session.refundRetFee))
            && (id.Ok? ==> error.None? && session.scheduledRefund == old(session.scheduledRefund) - {id.value}
                           && session.refundRetFee == Some(RefundRetFee(session.checkboxChecked, orders[id.value], cfg)))
  {
    var id := CheckedOrderId(orders, postedId);
    if id.Err? {
      return Some(id.msg);
    }
    if id.value in session.scheduledRefund {
      session.scheduledRefund := session.scheduledRefund - {id.value};
    }
    var count := CountReturnableItems(orders[id.value], cfg.eligibleClasses);
    session.refundRetFee := Some(session.checkboxChecked == Some(true) && count > 0);
    error := None;
  }

  /** `wdm_show_refund_status`: "Error" when the refund records a failure,
      "Scheduled" while its payment is not refunded, "Processed" after. */
  function RefundStatusText(r: Refund): (text: string)
    ensures text == "Error" <==> !Empty(r.failure)
    ensures text == "Scheduled" <==> Empty(r.failure) && !r.refundedPayment
    ensures text == "Processed" <==> Empty(r.failure) && r.refundedPayment
  {
    if !Empty(r.failure) then "Error"
    else if !r.refundedPayment then "Scheduled"
    else "Processed"
  }

  /** A scheduled refund shows "Scheduled" until its descriptor is
      processed: once the gateway refunds the payment it shows "Processed",
      and once the gateway declines with a message it shows "Error". */
  lemma RefundStatusAfterProcessing(db: Store, cfg: Config, id: int, req: RefundRequest, pay: int -> PaymentOutcome)
    requires id in db.orders && req.refundId in db.refunds && req.refundPayment
    requires db.refunds[req.refundId] == Refund(false, "")
    ensures RefundStatusText(db.refunds[req.refundId]) == "Scheduled"
    ensures var r := RefundStep(db, cfg, id, req, pay).refunds[req.refundId];
            (pay(req.refundId) == Refunded ==> RefundStatusText(r) == "Processed")
            && (pay(req.refundId).Declined? && !Empty(pay(req.refundId).error) ==> RefundStatusText(r) == "Error")
            && (pay(req.refundId).Threw? ==> RefundStatusText(r) == "Scheduled")
  {
  }

  /** `wdm_add_schedule_refund_btn`: the button is shown for a shipped or
      awaiting-returns order with returnable items that still has an amount
      or items left to refund. */
  predicate ShowScheduleRefundButton(o: Order, cfg: Config): (r: bool)
    ensures r ==> o.status in {"shipped", "awaiting-returns"} && ReturnableItems(o, cfg.eligibleClasses) > 0
    ensures r ==> o.total > o.totalRefunded || o.itemCount != o.itemsRefunded
    ensures (o.status in {"shipped", "awaiting-returns"} && ReturnableItems(o, cfg.eligibleClasses) > 0
             && o.itemCount != o.itemsRefunded) ==> r
  {
    o.status in ["shipped", "awaiting-returns"] && ReturnableItems(o, cfg.eligibleClasses) > 0
    && (0 < o.total - o.totalRefunded || 0 < (var d := o.itemCount - o.itemsRefunded; if d < 0 then -d else d))
  }

  /** The item condition is that the item counts differ, in either
      direction. */
  lemma ScheduleRefundButtonItems(o: Order, cfg: Config)
    requires o.status == "shipped" && ReturnableItems(o, cfg.eligibleClasses) > 0 && o.total <= o.totalRefunded
    ensures ShowScheduleRefundButton(o, cfg) <==> o.itemCount != o.itemsRefunded
  {
  }

  /** `wdm_refund_order`: a non-empty posted id sets the scheduled-refund
      flag of `absint` of it (the order is not looked up); the flag is set
      only if absent, so asking again changes nothing. */
  method RefundOrder(session: Session, postedId: string) returns (error: Option<string>)
    modifies session`scheduledRefund
    ensures Empty(postedId) ==> error == Some(INVALID_ID) && session.scheduledRefund == old(session.scheduledRefund)
    ensures !Empty(postedId) ==> error.None? && session.scheduledRefund == old(session.scheduledRefund) + {AbsInt(postedId)}
  {
    if Empty(postedId) {
      return Some(INVALID_ID);
    }
    var id := AbsInt(postedId);
    if id !in session.scheduledRefund {
      session.scheduledRefund := session.scheduledRefund + {id};
    }
    error := None;
  }

  /** The arguments WooCommerce passes with a refund it creates. */
  datatype RefundArgs = RefundArgs(orderId: int, amount: int, refundPayment: bool, restockItems: bool)

  /** The descriptor stored for a refund. */
  function Descriptor(refundId: int, args: RefundArgs): RefundRequest {
    RefundRequest(refundId, args.refundPayment, args.restockItems, args.amount)
  }

  /** `wdm_modify_args`: for an order whose scheduled-refund flag is set, the
      flag is cleared, the refund is appended to the order's scheduled
      refunds, and the request is answered at once (true), so WooCommerce
      goes no further with the refund. Otherwise nothing happens. */
  method ModifyArgs(session: Session, site: Site, refundId: int, args: RefundArgs) returns (answered: bool)
    modifies session`scheduledRefund, site`orders
    ensures answered <==> args.orderId != 0 && args.orderId in old(session.scheduledRefund)
    ensures !answered ==> session.scheduledRefund == old(session.scheduledRefund) && site.orders == old(site.orders)
    ensures answered ==> session.scheduledRefund == old(session.scheduledRefund) - {args.orderId}
    ensures answered && args.orderId in old(site.orders) ==>
              var o := old(site.orders)[args.orderId];
              site.orders == old(site.orders)[args.orderId := o.(refundRequests := o.refundRequests + [Descriptor(refundId, args)])]
    ensures args.orderId !in old(site.orders) ==> site.orders == old(site.orders)
  {
    var id := args.orderId;
    if id == 0 || id !in session.scheduledRefund {
      return false;
    }
    session.scheduledRefund := session.scheduledRefund - {id};
    if id in site.orders {
      var raised := site.orders[id].refundRequests;
      raised := if raised != [] then raised + [Descriptor(refundId, args)] else [Descriptor(refundId, args)];
      assert raised == site.orders[id].refundRequests + [Descriptor(refundId, args)];
      site.orders := site.orders[id := site.orders[id].(refundRequests := raised)];
    }
    answered := true;
  }

  /** A refund appended by `wdm_modify_args` is processed after every
      refund scheduled before it, which are processed as before. */
  lemma AppendedRefundProcessedLast(db: Store, cfg: Config, id: int, reqs: seq<RefundRequest>, req: RefundRequest,
                                    pay: int -> PaymentOutcome)
    ensures ProcessAll(db, cfg, id, reqs + [req], pay) == RefundStep(ProcessAll(db, cfg, id, reqs, pay), cfg, id, req, pay)
  {
    var all := reqs + [req];
    assert all[..|all| - 1] == reqs;
    ProcessAllUnfold(db, cfg, id, all, pay);
  }
}
