/** The non-return fee (class-ss-additional-fees.php): the scheduled
    reminder mail and the scheduled charge on the customer's saved card, both
    skipped once the return is on its way; the admin's partial charge and
    exchange-to-no-exchange conversion; the EasyPost label refund; and the
    refund of a charged fee. Stripe's and EasyPost's replies are inputs. */
module AdditionalFees {
  import opened Php
  import opened Wp
  import opened Helpers
  import opened Tracking
  import opened Easypost
  import opened LabelGenerator
  import Usps

  const FEE_META := "wdm_non_return_fee_when_order_placed"
  const GUEST := "Guest Orders cannot be charged with non return-fee"
  const NO_TOKEN := "No default payment method present for the customer at WooCommerce end."
  const NO_SYNC := "Unable to sync the payment method with stripe."
  const FETCH_FAILED := "Failed to fetch the non-return fee"

  /** What the lookup of the inbound status needs: the time, the USPS token
      and tracking replies, the EasyPost tracker reply and the payment
      gateway's answer to refunds it triggers. */
  datatype Lookup = Lookup(now: int, auth: Option<Usps.TokenReply>, uspsReply: Usps.TrackReply, epReply: EpTrack,
                           pay: int -> PaymentOutcome)

  ghost function Refreshed(db: Store, cfg: Config, id: int, lk: Lookup): (Store, string)
    requires id in db.orders
  {
    InboundState(db, cfg, id, lk.now, lk.auth, lk.uspsReply, lk.epReply, lk.pay)
  }

  /** The return has not started moving: no inbound status yet, or unknown
      or pre-transit in either letter case. */
  predicate NotYetReturning(state: string) {
    Empty(state) || state in {"unknown", "pre_transit", "UNKNOWN", "PRE_TRANSIT"}
  }

  /** An order the reminder and the charge consider at all. */
  predicate Pending(db: Store, id: int) {
    id != 0 && id in db.orders && db.orders[id].status != "completed"
  }

  // ---------------------------------------------------------------------
  // `wdm_schedule_mail`

  /** `wdm_schedule_mail`: the reminder goes out (true) only for an existing,
      not completed order whose refreshed inbound status shows the return
      has not started; the refresh may record what the carrier reports. */
  ghost function ScheduleMailSpec(db: Store, cfg: Config, id: int, lk: Lookup): (r: (Store, bool))
    ensures r.1 <==> Pending(db, id) && NotYetReturning(Refreshed(db, cfg, id, lk).1)
    ensures !Pending(db, id) ==> r.0 == db
    ensures r.0.orders.Keys == db.orders.Keys
  {
    if !Pending(db, id) then (db, false)
    else
      var (db1, state) := Refreshed(db, cfg, id, lk);
      (db1, NotYetReturning(state))
  }

  /** An order whose return is under way gets no reminder: a stored status
      other than unknown or pre-transit, with no partner to look it up
      again, stops it. */
  lemma NoReminderOnceReturning(db: Store, cfg: Config, id: int, lk: Lookup)
    requires id in db.orders && InboundTrackingPartner(db.orders[id]) !in {"easypost", "usps"}
    requires !NotYetReturning(InboundTrackingStatus(db.orders[id]))
    ensures ScheduleMailSpec(db, cfg, id, lk) == (db, false)
  {
  }

  /** `wdm_schedule_mail` against the database; the result says whether the
      mail is sent. */
  method ScheduleMail(site: Site, cfg: Config, id: int, lk: Lookup) returns (mailed: bool)
    modifies site`orders, site`refunds, site`queue, site`tokens
    ensures (site.Snapshot(), mailed) == ScheduleMailSpec(old(site.Snapshot()), cfg, id, lk)
  {
    if id == 0 || id !in site.orders || site.orders[id].status == "completed" {
      return false;
    }
    var state := RefreshInboundState(site, cfg, id, lk.now, lk.auth, lk.uspsReply, lk.epReply, lk.pay);
    mailed := NotYetReturning(state);
  }

  // ---------------------------------------------------------------------
  // `wdm_add_charges_on_customers_card`

  /** What Stripe answers a payment intent: a transport error, an API error
      (both with code and message), or the intent, whose id and status may
      be missing. */
  datatype StripeReply = WpError(code: string, message: string) | ApiError(code: string, message: string)
                       | Intent(id: Option<string>, status: Option<string>, source: string)

  predicate Succeeded(reply: StripeReply) {
    reply.Intent? && reply.id.Some? && reply.status == Some("succeeded")
  }

  /** The intent id as a string (a missing one reads as ""). */
  function IntentId(reply: StripeReply): string {
    if reply.Intent? && reply.id.Some? then reply.id.value else ""
  }

  /** `sync_stripe_default`: Stripe is asked to make the WooCommerce default
      token the customer's default payment method; it succeeded when the
      reply names that token (None: the reply has no invoice settings). */
  predicate Synced(token: string, reported: Option<string>) {
    reported == Some(token)
  }

  /** The replies a charge gets: the customer's default WooCommerce token
      (None when there is none), the default Stripe reports after the sync,
      the payment intent reply, and whether adding the fee line succeeded. */
  datatype ChargeCall = ChargeCall(defaultToken: Option<string>, reportedDefault: Option<string>, reply: StripeReply,
                                   feeAdded: bool)

  /** The customer can be charged: not a guest, with a default token that
      the sync made the default at Stripe. */
  predicate Chargeable(o: Order, c: ChargeCall) {
    o.customerId != 0 && c.defaultToken.Some? && Synced(c.defaultToken.value, c.reportedDefault)
  }

  /** A payment intent succeeded for a chargeable customer. */
  predicate Charged(o: Order, c: ChargeCall) {
    Chargeable(o, c) && Succeeded(c.reply)
  }

  /** The charge completes the order: the order has a fee recorded when it
      was placed and the fee line is added. */
  predicate Completes(o: Order, c: ChargeCall) {
    Charged(o, c) && !Empty(Meta(o, FEE_META)) && c.feeAdded
  }

  /** The fee line: the amount recorded when the order was placed. */
  function FeeLine(name: string, amount: string): Fee {
    Fee(name, IntVal(amount))
  }

  /** The note each outcome of the scheduled charge leaves on the order. */
  function ChargeNote(o: Order, c: ChargeCall): string {
    if o.customerId == 0 then GUEST
    else if c.defaultToken.None? then NO_TOKEN
    else if !Synced(c.defaultToken.value, c.reportedDefault) then NO_SYNC
    else match c.reply
      case WpError(code, message) => code + " " + message
      case ApiError(code, message) => FETCH_FAILED + code + message
      case Intent(id, status, source) =>
        if Succeeded(c.reply) then
          "Non return fee was charged on the clients default payment method with payment intent" + id.value + " and source " + source
        else "Failed to charge the Non return fee with payment intent " + IntentId(c.reply)
  }

  /** The charge itself, once the guards have passed: every path adds one
      note (a guest's says so); a succeeded intent records its id
      (`wdm_charge_id`), and only then, when the order has a fee recorded
      and the fee line is added, is the order completed (true: the
      confirmation mail goes out). */
  function ChargeOnCard(o: Order, c: ChargeCall): (r: (Order, bool))
    ensures r.0.notes == o.notes + [ChargeNote(o, c)]
    ensures r.0.items == o.items && r.0.customerId == o.customerId && r.0.refundRequests == o.refundRequests
    ensures o.customerId == 0 ==> ChargeNote(o, c) == GUEST
    ensures !Charged(o, c) ==> r.0 == WithNote(o, ChargeNote(o, c)) && !r.1
    ensures r.0.meta != o.meta ==> Charged(o, c) && Meta(r.0, "wdm_charge_id") == c.reply.id.value
    ensures Charged(o, c) && "wdm_charge_id" !in o.meta ==> Meta(r.0, "wdm_charge_id") == c.reply.id.value
    ensures r.1 <==> Completes(o, c)
    ensures r.0.status == if r.1 then "completed" else o.status
    ensures r.0.fees == o.fees + (if r.1 then [FeeLine("Non return fee", Meta(o, FEE_META))] else [])
  {
    var o1 := WithNote(o, ChargeNote(o, c));
    if !Charged(o, c) then (o1, false)
    else
      var o2 := AddMetaOnce(o1, "wdm_charge_id", c.reply.id.value);
      if Completes(o, c) then (WithFee(o2, FeeLine("Non return fee", Meta(o, FEE_META))).(status := "completed"), true)
      else (o2, false)
  }

  /** `wdm_add_charges_on_customers_card`: the same guards as the reminder
      mail, then the charge on the refreshed order. */
  ghost function ChargeSpec(db: Store, cfg: Config, id: int, lk: Lookup, c: ChargeCall): (r: (Store, bool))
    ensures r.0.orders.Keys == db.orders.Keys
    ensures !Pending(db, id) ==> r == (db, false)
    ensures Pending(db, id) && !NotYetReturning(Refreshed(db, cfg, id, lk).1) ==> r == (Refreshed(db, cfg, id, lk).0, false)
  {
    if !Pending(db, id) then (db, false)
    else
      var (db1, state) := Refreshed(db, cfg, id, lk);
      if !NotYetReturning(state) then (db1, false)
      else
        var (o, mailed) := ChargeOnCard(db1.orders[id], c);
        (db1.(orders := db1.orders[id := o]), mailed)
  }

  /** The charge runs exactly when the reminder would be sent: otherwise the
      two leave the same database behind, and when it runs it adds one note
      to what the lookup left. */
  lemma ChargeFollowsReminder(db: Store, cfg: Config, id: int, lk: Lookup, c: ChargeCall)
    ensures var (m, mailed) := ScheduleMailSpec(db, cfg, id, lk);
            var r := ChargeSpec(db, cfg, id, lk, c).0;
            (!mailed ==> r == m)
            && (mailed ==> r.orders[id].notes[..|m.orders[id].notes|] == m.orders[id].notes
                           && |r.orders[id].notes| == |m.orders[id].notes| + 1)
  {
  }

  /** The charge against the database: the note, the charge id, the fee
      line and the status are written on the order. */
  method ChargeOrder(site: Site, id: int, c: ChargeCall) returns (mailed: bool)
    requires id in site.orders
    modifies site`orders
    ensures var (o, m) := ChargeOnCard(old(site.orders)[id], c);
            site.orders == old(site.orders)[id := o] && mailed == m
  {
    var o := site.orders[id];
    site.AddNote(id, ChargeNote(o, c));
    if !Charged(o, c) {
      return false;
    }
    site.AddMeta(id, "wdm_charge_id", c.reply.id.value);
    mailed := Completes(o, c);
    if mailed {
      site.AddFee(id, FeeLine("Non return fee", Meta(o, FEE_META)));
      site.UpdateStatus(id, "completed");
    }
  }

  /** `wdm_add_charges_on_customers_card` against the database; the result
      says whether the confirmation mail is sent. */
  method AddChargesOnCustomersCard(site: Site, cfg: Config, id: int, lk: Lookup, c: ChargeCall) returns (mailed: bool)
    modifies site`orders, site`refunds, site`queue, site`tokens
    ensures (site.Snapshot(), mailed) == ChargeSpec(old(site.Snapshot()), cfg, id, lk, c)
  {
    if id == 0 || id !in site.orders || site.orders[id].status == "completed" {
      return false;
    }
    var state := RefreshInboundState(site, cfg, id, lk.now, lk.auth, lk.uspsReply, lk.epReply, lk.pay);
    if !NotYetReturning(state) {
      return false;
    }
    mailed := ChargeOrder(site, id, c);
  }

  // ---------------------------------------------------------------------
  // `wdm_easypost_refunds`

  /** EasyPost's answer to a refund request: status code and refund status. */
  datatype EpRefundReply = EpRefundReply(code: int, refundStatus: string)

  /** `wdm_easypost_refunds`: null (None) for order id 0 or a missing
      shipment id; true without any request in EasyPost test mode; false
      when the refund is not answered with 200; otherwise true, with the
      refund status and the request time recorded on the order. */
  function EasypostRefund(db: Store, cfg: Config, id: int, now: int, reply: EpRefundReply): (r: (Store, Option<bool>))
    ensures r.1 == Some(true) <==> id != 0 && (cfg.easypostTestMode == "Yes" || (id in db.orders && !Empty(Meta(db.orders[id], "easypost_shipment_id")) && reply.code == 200))
    ensures r.1.None? <==> id == 0 || (cfg.easypostTestMode != "Yes" && (id !in db.orders || Empty(Meta(db.orders[id], "easypost_shipment_id"))))
    ensures r.0.orders.Keys == db.orders.Keys
    ensures r.1 != Some(true) || cfg.easypostTestMode == "Yes" ==> r.0 == db
    ensures r.1 == Some(true) && cfg.easypostTestMode != "Yes" ==>
              id in db.orders
              && r.0 == db.(orders := db.orders[id := r.0.orders[id]])
              && Meta(r.0.orders[id], "wdm_refund_status_inbound") == reply.refundStatus
              && Meta(r.0.orders[id], "wdm_refund_requested_on") == IntToString(now)
              && r.0.orders[id].status == db.orders[id].status
  {
    if id == 0 then (db, None)
    else if cfg.easypostTestMode == "Yes" then (db, Some(true))
    else if id !in db.orders || Empty(Meta(db.orders[id], "easypost_shipment_id")) then (db, None)
    else if reply.code != 200 then (db, Some(false))
    else
      var o := SetMeta(SetMeta(db.orders[id], "wdm_refund_status_inbound", reply.refundStatus),
                       "wdm_refund_requested_on", IntToString(now));
      (db.(orders := db.orders[id := o]), Some(true))
  }

  /** `wdm_easypost_refunds` against the database. */
  method EasypostRefunds(site: Site, cfg: Config, id: int, now: int, reply: EpRefundReply) returns (refunded: Option<bool>)
    modifies site`orders
    ensures (site.Snapshot(), refunded) == EasypostRefund(old(site.Snapshot()), cfg, id, now, reply)
  {
    if id == 0 {
      return None;
    }
    if cfg.easypostTestMode == "Yes" {
      return Some(true);
    }
    if id !in site.orders || Empty(Meta(site.orders[id], "easypost_shipment_id")) {
      return None;
    }
    if reply.code != 200 {
      return Some(false);
    }
    ghost var db := site.Snapshot();
    site.UpdateMeta(id, "wdm_refund_status_inbound", reply.refundStatus);
    site.UpdateMeta(id, "wdm_refund_requested_on", IntToString(now));
    refunded := Some(true);
    assert site.Snapshot() == EasypostRefund(db, cfg, id, now, reply).0;
  }

  // ---------------------------------------------------------------------
  // `wdm_charge_partial_return_fee`

  const MISSING_INPUT := "Order ID or Sub-action not found"
  const NO_FEE_VALUE := "Please set the fee value in settings"
  const INVALID_ORDER := "Invalid order object"
  const STRIPE_OFF := "Stripe is not enabled"
  const NO_STRIPE_CUSTOMER := "Unable to obtain customer id from stripe"
  const EP_REFUND_FAILED := "Unable to request the refund for the easypost label"
  const CONVERTED_BUT := "The order was converted but unable to unschedule the previous email."

  /** The option holding the fee: the partial non-return fee for "charge",
      the conversion fee for anything else. */
  function FeeKey(subAction: string): string {
    if subAction == "charge" then "wdm_partial_return_fee" else "wdm_exchange_to_no_exchange_conversion_fee"
  }

  function FeeType(subAction: string): string {
    if subAction == "charge" then "Partial Non return fee" else "Conversion fee"
  }

  /** The Stripe settings are missing or lack either secret key. */
  predicate StripeOff(cfg: Config) {
    cfg.stripe.None? || Empty(cfg.stripe.value.secretKey) || Empty(cfg.stripe.value.testSecretKey)
  }

  /** The exceptions a conversion tolerates: the mail ones, and the fee one
      only for a shipped order. */
  function NonCritical(status: string): (r: seq<string>)
    ensures CHARGE_NOT_UNSCHEDULED in r <==> status == "shipped"
    ensures MAIL_NOT_FOUND in r && MAIL_NOT_UNSCHEDULED in r && CHARGE_NOT_FOUND !in r
  {
    [MAIL_NOT_FOUND, "Unable to extend the time for scheduled mail", MAIL_NOT_UNSCHEDULED]
      + (if status == "shipped" then [CHARGE_NOT_UNSCHEDULED] else [])
  }

  /** The checks before anything is written; the first that fails ends the
      request with its message. The order id is the posted one (0 when
      missing or empty) and the sub-action "" when missing. */
  function PartialGuard(db: Store, cfg: Config, id: int, subAction: string, c: ChargeCall): (r: Option<string>)
    ensures r.None? ==> id in db.orders && !Empty(Opt(cfg, FeeKey(subAction))) && !StripeOff(cfg)
                        && !Empty(Meta(db.orders[id], "_stripe_customer_id")) && Chargeable(db.orders[id], c)
    ensures r.Some? ==> r.value in {MISSING_INPUT, NO_FEE_VALUE, INVALID_ORDER, STRIPE_OFF, GUEST, NO_STRIPE_CUSTOMER, NO_TOKEN, NO_SYNC}
  {
    if id == 0 || Empty(subAction) then Some(MISSING_INPUT)
    else if Empty(Opt(cfg, FeeKey(subAction))) then Some(NO_FEE_VALUE)
    else if id !in db.orders then Some(INVALID_ORDER)
    else if StripeOff(cfg) then Some(STRIPE_OFF)
    else if db.orders[id].customerId == 0 then Some(GUEST)
    else if Empty(Meta(db.orders[id], "_stripe_customer_id")) then Some(NO_STRIPE_CUSTOMER)
    else if c.defaultToken.None? then Some(NO_TOKEN)
    else if !Synced(c.defaultToken.value, c.reportedDefault) then Some(NO_SYNC)
    else None
  }

  /** The conversion's preparation: the EasyPost label is refunded when
      EasyPost is the inbound partner (anything but true ends the request),
      then the pending fee and mail actions are cancelled. An exception the
      conversion tolerates is returned as Ok(Some(message)); any other ends
      the request. */
  function ConvertPrep(db: Store, cfg: Config, id: int, now: int, ep: EpRefundReply): (r: (Store, Result<Option<string>>))
    requires id in db.orders
    ensures r.0.orders.Keys == db.orders.Keys && r.0.orders[id].status == db.orders[id].status
    ensures r.1.Err? && r.1.msg != EP_REFUND_FAILED ==> r.1.msg !in NonCritical(db.orders[id].status)
    ensures r.1.Ok? && r.1.value.Some? ==> r.1.value.value in NonCritical(db.orders[id].status)
    ensures db.orders[id].status != "shipped" && r.1.Ok? ==> r.1.value != Some(CHARGE_NOT_UNSCHEDULED)
  {
    var o := db.orders[id];
    var refund := if InboundTrackingPartner(o) == "easypost" then EasypostRefund(db, cfg, id, now, ep) else (db, Some(true));
    if refund.1 != Some(true) then (refund.0, Err(EP_REFUND_FAILED))
    else
      var db1 := refund.0;
      var o1 := db1.orders[id];
      var rm := RemoveScheduled(db1.queue, o1.meta, ChargeArgsOf(cfg, id, o1), id, ExtendedTime(cfg), false);
      var db2 := db1.(queue := rm.queue, orders := db1.orders[id := o1.(meta := rm.meta)]);
      if rm.error.Some? && rm.error.value !in NonCritical(o.status) then (db2, Err(rm.error.value))
      else (db2, Ok(rm.error))
  }

  /** The message noted when the intent did not succeed, as written: the fee
      type is read from a variable only the success branch assigns, so it is
      empty here. */
  function FailedChargeNoteAsWritten(subAction: string, intentId: string): string {
    "Failed to charge the" + "" + " with payment intent " + intentId
  }

  /** The message as evidently intended, naming the fee. */
  function FailedChargeNote(subAction: string, intentId: string): string {
    "Failed to charge the" + FeeType(subAction) + " with payment intent " + intentId
  }

  /** As written, a failed partial charge and a failed conversion leave the
      same note, so the note does not say which fee failed. */
  lemma FailedChargeNoteAsWrittenLosesFee(intentId: string)
    ensures FailedChargeNoteAsWritten("charge", intentId) == FailedChargeNoteAsWritten("convert", intentId)
  {
  }

  /** The corrected note tells the two fees apart. */
  lemma FailedChargeNoteNamesFee(intentId: string)
    ensures FailedChargeNote("charge", intentId) != FailedChargeNote("convert", intentId)
  {
    var a := FailedChargeNote("charge", intentId);
    var b := FailedChargeNote("convert", intentId);
    assert a[20] == 'P' && b[20] == 'C';
  }

  /** The note a succeeded intent leaves. */
  function ChargedNote(subAction: string, c: ChargeCall): string {
    FeeType(subAction) + "was charged on the clients default payment method with payment intent"
      + IntentId(c.reply) + " and source " + (if c.reply.Intent? then c.reply.source else "")
  }

  /** What a succeeded intent writes once the fee line is added: the partial
      fee marked charged and the charge id recorded ("charge"), or the order
      marked converted and completed when its outbound parcel was delivered
      (anything else). */
  function Settled(o: Order, subAction: string, intentId: string): (r: Order)
    ensures r.status != o.status ==> r.status == "completed" && subAction != "charge" && Meta(o, SHIPPO_OUT_STATUS) == "DELIVERED"
    ensures subAction == "charge" ==> r.status == o.status && Meta(r, "wdm_partial_return_fee_charged") == "charged"
                                      && ("wdm_charge_id" !in o.meta ==> Meta(r, "wdm_charge_id") == intentId)
                                      && Meta(r, "wdm_order_converted") == Meta(o, "wdm_order_converted")
    ensures subAction != "charge" ==> Meta(r, "wdm_order_converted") == "converted"
                                      && Meta(r, "wdm_charge_id") == Meta(o, "wdm_charge_id")
                                      && (r.status == "completed" <==> o.status == "completed" || Meta(o, SHIPPO_OUT_STATUS) == "DELIVERED")
  {
    if subAction == "charge" then AddMetaOnce(SetMeta(o, "wdm_partial_return_fee_charged", "charged"), "wdm_charge_id", intentId)
    else
      var o1 := SetMeta(o, "wdm_order_converted", "converted");
      if Meta(o, SHIPPO_OUT_STATUS) == "DELIVERED" then o1.(status := "completed") else o1
  }

  /** The order after a succeeded intent: its note, then, when the order has
      a fee recorded and the fee line is added, the fee line and what
      `Settled` writes. */
  function AfterCharge(o: Order, cfg: Config, subAction: string, c: ChargeCall): (r: Order)
    requires Succeeded(c.reply)
  {
    var o1 := WithNote(o, ChargedNote(subAction, c));
    if Empty(Meta(o, FEE_META)) || !c.feeAdded then o1
    else Settled(WithFee(o1, FeeLine(FeeType(subAction), Opt(cfg, FeeKey(subAction)))), subAction, c.reply.id.value)
  }

  /** A failure that is noted on the order and ends the request. */
  function Noted(db: Store, id: int, msg: string): (r: (Store, Result<string>))
    requires id in db.orders
    ensures r.0.orders.Keys == db.orders.Keys && r.0.queue == db.queue
    ensures forall j :: j in db.orders && j != id ==> r.0.orders[j] == db.orders[j]
    ensures r.0.orders[id].meta == db.orders[id].meta && r.0.orders[id].status == db.orders[id].status
    ensures r.0.orders[id].notes == db.orders[id].notes + [msg] && r.1 == Err(msg)
  {
    (db.(orders := db.orders[id := WithNote(db.orders[id], msg)]), Err(msg))
  }

  /** After the guards (and the conversion's preparation, whose tolerated
      exception is `exception`): Stripe's reply. A transport error ends the
      request, an API error or an intent that did not succeed is noted and
      ends it, a succeeded one is applied (`AfterCharge`). The request
      answers "Charged" only when the intent succeeded and nothing was
      tolerated on the way. */
  function StripeOutcome(db: Store, cfg: Config, id: int, subAction: string, c: ChargeCall, exception: Option<string>): (r: (Store, Result<string>))
    requires id in db.orders
    ensures r.0.orders.Keys == db.orders.Keys && r.0.queue == db.queue
    ensures forall j :: j in db.orders && j != id ==> r.0.orders[j] == db.orders[j]
    ensures r.1 == Ok("Charged") <==> Succeeded(c.reply) && exception.None?
    ensures Succeeded(c.reply) && exception.Some? ==> r.1 == Err(CONVERTED_BUT)
    ensures !Succeeded(c.reply) ==> r.0.orders[id].meta == db.orders[id].meta && r.0.orders[id].status == db.orders[id].status && r.1.Err?
    ensures Succeeded(c.reply) ==> r.0.orders[id] == AfterCharge(db.orders[id], cfg, subAction, c)
  {
    var o := db.orders[id];
    match c.reply
    case WpError(code, message) => (db, Err(code + " " + message))
    case ApiError(code, message) => Noted(db, id, FETCH_FAILED + code + message)
    case Intent(intent, status, source) =>
      if !Succeeded(c.reply) then Noted(db, id, FailedChargeNote(subAction, IntentId(c.reply)))
      else
        (db.(orders := db.orders[id := AfterCharge(o, cfg, subAction, c)]), if exception.None? then Ok("Charged") else Err(CONVERTED_BUT))
  }

  /** A partial charge records the charge id only after the fee line is
      added, and a conversion completes the order only when its outbound
      parcel was delivered. */
  lemma AfterChargeRecords(o: Order, cfg: Config, subAction: string, c: ChargeCall)
    requires Succeeded(c.reply)
    ensures var r := AfterCharge(o, cfg, subAction, c);
            (Meta(r, "wdm_charge_id") != Meta(o, "wdm_charge_id") ==> subAction == "charge" && c.feeAdded && !Empty(Meta(o, FEE_META)))
            && (r.status != o.status ==> r.status == "completed" && subAction != "charge" && Meta(o, SHIPPO_OUT_STATUS) == "DELIVERED")
            && (Meta(r, "wdm_order_converted") == "converted" && Meta(o, "wdm_order_converted") != "converted" ==> subAction != "charge" && c.feeAdded)
  {
    var o1 := WithNote(o, ChargedNote(subAction, c));
    assert Meta(o1, "wdm_charge_id") == Meta(o, "wdm_charge_id");
    assert Meta(o1, "wdm_order_converted") == Meta(o, "wdm_order_converted");
    assert Meta(o1, SHIPPO_OUT_STATUS) == Meta(o, SHIPPO_OUT_STATUS);
    if !Empty(Meta(o, FEE_META)) && c.feeAdded {
      var o3 := WithFee(o1, FeeLine(FeeType(subAction), Opt(cfg, FeeKey(subAction))));
      assert o3.meta == o.meta && o3.status == o.status;
    }
  }

  /** `wdm_charge_partial_return_fee`: the guards, the conversion's
      preparation for "convert", then the charge. The result is the JSON
      answer: Ok for success, Err for an error, each ending the request. */
  function ChargePartialSpec(db: Store, cfg: Config, id: int, subAction: string, now: int, c: ChargeCall, ep: EpRefundReply): (r: (Store, Result<string>))
    ensures r.0.orders.Keys == db.orders.Keys
    ensures PartialGuard(db, cfg, id, subAction, c).Some? ==> r == (db, Err(PartialGuard(db, cfg, id, subAction, c).value))
    ensures r.1 == Ok("Charged") ==> PartialGuard(db, cfg, id, subAction, c).None? && Succeeded(c.reply)
  {
    var guard := PartialGuard(db, cfg, id, subAction, c);
    if guard.Some? then (db, Err(guard.value))
    else
      var prep := if subAction == "convert" then ConvertPrep(db, cfg, id, now, ep) else (db, Ok(None));
      if prep.1.Err? then (prep.0, Err(prep.1.msg))
      else StripeOutcome(prep.0, cfg, id, subAction, c, prep.1.value)
  }

  /** Converting an order that is not shipped and has no pending fee action
      stops before Stripe is asked: "Unable to unschedule the previous
      non-return fee." is not tolerated then, and no note is added. */
  lemma ConversionWithoutPendingFeeAborts(db: Store, cfg: Config, id: int, now: int, c: ChargeCall, ep: EpRefundReply)
    requires PartialGuard(db, cfg, id, "convert", c).None?
    requires InboundTrackingPartner(db.orders[id]) != "easypost" && db.orders[id].status != "shipped"
    requires NextScheduled(db.queue, CHARGE_HOOK, ChargeFilter(ChargeArgsOf(cfg, id, db.orders[id]))).None?
    ensures var r := ChargePartialSpec(db, cfg, id, "convert", now, c, ep);
            r.1 == Err(CHARGE_NOT_UNSCHEDULED) && r.0.orders[id].notes == db.orders[id].notes
  {
    var o := db.orders[id];
    var rm := RemoveScheduled(db.queue, o.meta, ChargeArgsOf(cfg, id, o), id, ExtendedTime(cfg), false);
    assert rm.error == Some(CHARGE_NOT_UNSCHEDULED);
    var prep := ConvertPrep(db, cfg, id, now, ep);
    assert prep.1 == Err(CHARGE_NOT_UNSCHEDULED) && prep.0.orders[id].notes == o.notes;
  }

  /** A shipped order is converted even without a pending fee action, but
      the answer is then the "converted but" error, never "Charged". */
  lemma ShippedConversionTolerated(db: Store, cfg: Config, id: int, now: int, c: ChargeCall, ep: EpRefundReply)
    requires PartialGuard(db, cfg, id, "convert", c).None?
    requires InboundTrackingPartner(db.orders[id]) != "easypost" && db.orders[id].status == "shipped"
    requires NextScheduled(db.queue, CHARGE_HOOK, ChargeFilter(ChargeArgsOf(cfg, id, db.orders[id]))).None?
    requires Succeeded(c.reply)
    ensures ChargePartialSpec(db, cfg, id, "convert", now, c, ep).1 == Err(CONVERTED_BUT)
  {
    var prep := ConvertPrep(db, cfg, id, now, ep);
    var o := db.orders[id];
    var rm := RemoveScheduled(db.queue, o.meta, ChargeArgsOf(cfg, id, o), id, ExtendedTime(cfg), false);
    assert rm.error == Some(CHARGE_NOT_UNSCHEDULED);
    assert prep.1 == Ok(Some(CHARGE_NOT_UNSCHEDULED));
  }

  /** The conversion's preparation against the database. */
  method PrepareConversion(site: Site, cfg: Config, id: int, now: int, ep: EpRefundReply) returns (outcome: Result<Option<string>>)
    requires id in site.orders
    modifies site`orders, site`queue
    ensures (site.Snapshot(), outcome) == ConvertPrep(old(site.Snapshot()), cfg, id, now, ep)
  {
    var status := site.orders[id].status;
    if InboundTrackingPartner(site.orders[id]) == "easypost" {
      var refunded := EasypostRefunds(site, cfg, id, now, ep);
      if refunded != Some(true) {
        return Err(EP_REFUND_FAILED);
      }
    }
    var error := RemoveScheduledActions(site, cfg, id, false);
    if error.Some? && error.value !in NonCritical(status) {
      return Err(error.value);
    }
    outcome := Ok(error);
  }

  /** Stripe's reply against the database. */
  method ApplyStripeReply(site: Site, cfg: Config, id: int, subAction: string, c: ChargeCall, exception: Option<string>)
    returns (result: Result<string>)
    requires id in site.orders
    modifies site`orders
    ensures (site.Snapshot(), result) == StripeOutcome(old(site.Snapshot()), cfg, id, subAction, c, exception)
  {
    var o := site.orders[id];
    match c.reply {
      case WpError(code, message) =>
        return Err(code + " " + message);
      case ApiError(code, message) =>
        site.AddNote(id, FETCH_FAILED + code + message);
        return Err(FETCH_FAILED + code + message);
      case Intent(intent, status, source) =>
        if !Succeeded(c.reply) {
          var msg := FailedChargeNote(subAction, IntentId(c.reply));
          site.AddNote(id, msg);
          return Err(msg);
        }
        ApplyCharge(site, cfg, id, subAction, c);
        result := if exception.None? then Ok("Charged") else Err(CONVERTED_BUT);
    }
  }

  /** A succeeded intent against the database. */
  method ApplyCharge(site: Site, cfg: Config, id: int, subAction: string, c: ChargeCall)
    requires id in site.orders && Succeeded(c.reply)
    modifies site`orders
    ensures site.orders == old(site.orders)[id := AfterCharge(old(site.orders)[id], cfg, subAction, c)]
  {
    var o := site.orders[id];
    site.AddNote(id, ChargedNote(subAction, c));
    if !Empty(Meta(o, FEE_META)) && c.feeAdded {
      site.AddFee(id, FeeLine(FeeType(subAction), Opt(cfg, FeeKey(subAction))));
      RecordSettlement(site, id, subAction, c.reply.id.value);
    }
  }

  /** What `Settled` writes, against the database. */
  method RecordSettlement(site: Site, id: int, subAction: string, intentId: string)
    requires id in site.orders
    modifies site`orders
    ensures site.orders == old(site.orders)[id := Settled(old(site.orders)[id], subAction, intentId)]
  {
    var o := site.orders[id];
    if subAction == "charge" {
      site.UpdateMeta(id, "wdm_partial_return_fee_charged", "charged");
      site.AddMeta(id, "wdm_charge_id", intentId);
    } else {
      site.UpdateMeta(id, "wdm_order_converted", "converted");
      if Meta(o, SHIPPO_OUT_STATUS) == "DELIVERED" {
        site.UpdateStatus(id, "completed");
      }
    }
  }

  /** `wdm_charge_partial_return_fee` against the database. */
  method ChargePartialReturnFee(site: Site, cfg: Config, id: int, subAction: string, now: int, c: ChargeCall, ep: EpRefundReply)
    returns (result: Result<string>)
    modifies site`orders, site`queue
    ensures (site.Snapshot(), result) == ChargePartialSpec(old(site.Snapshot()), cfg, id, subAction, now, c, ep)
  {
    var guard := PartialGuard(site.Snapshot(), cfg, id, subAction, c);
    if guard.Some? {
      return Err(guard.value);
    }
    var exception: Option<string> := None;
    if subAction == "convert" {
      var prep := PrepareConversion(site, cfg, id, now, ep);
      if prep.Err? {
        return Err(prep.msg);
      }
      exception := prep.value;
    }
    result := ApplyStripeReply(site, cfg, id, subAction, c, exception);
  }

  // ---------------------------------------------------------------------
  // `stripe_refunds`

  /** Stripe's answer to a refund of the fee: its status (None when absent)
      and id. */
  datatype RefundReply = RefundReply(status: Option<string>, id: string)

  /** `stripe_refunds`: nothing happens unless the session says the fee is to
      be refunded (boolean true), the order exists and it has a charge id;
      missing Stripe settings end the request with an error; the refund's id
      is recorded (`wdm_non_ret_fee_refund_id`) only when it succeeded. */
  function StripeRefundSpec(db: Store, cfg: Config, refundRetFee: Option<bool>, id: int, reply: RefundReply): (r: (Store, Option<string>))
    ensures r.0.orders.Keys == db.orders.Keys
    ensures r.0 != db ==> refundRetFee == Some(true) && id in db.orders && !Empty(Meta(db.orders[id], "wdm_charge_id"))
                          && !StripeOff(cfg) && reply.status == Some("succeeded")
    ensures r.0 != db ==> r.0 == db.(orders := db.orders[id := r.0.orders[id]])
                          && r.0.orders[id] == AddMetaOnce(db.orders[id], "wdm_non_ret_fee_refund_id", reply.id)
    ensures r.1.Some? <==> refundRetFee == Some(true) && id != 0 && id in db.orders
                           && !Empty(Meta(db.orders[id], "wdm_charge_id")) && StripeOff(cfg)
    ensures r.1.Some? ==> r.1.value == STRIPE_OFF
  {
    if refundRetFee != Some(true) || id == 0 || id !in db.orders || Empty(Meta(db.orders[id], "wdm_charge_id")) then (db, None)
    else if StripeOff(cfg) then (db, Some(STRIPE_OFF))
    else if reply.status == Some("succeeded") then
      (db.(orders := db.orders[id := AddMetaOnce(db.orders[id], "wdm_non_ret_fee_refund_id", reply.id)]), None)
    else (db, None)
  }

  /** `stripe_refunds` against the database and the session. */
  method StripeRefunds(session: Session, site: Site, cfg: Config, id: int, reply: RefundReply) returns (error: Option<string>)
    modifies site`orders
    ensures (site.Snapshot(), error) == StripeRefundSpec(old(site.Snapshot()), cfg, session.refundRetFee, id, reply)
  {
    if session.refundRetFee != Some(true) || id == 0 || id !in site.orders || Empty(Meta(site.orders[id], "wdm_charge_id")) {
      return None;
    }
    if StripeOff(cfg) {
      return Some(STRIPE_OFF);
    }
    if reply.status == Some("succeeded") {
      site.AddMeta(id, "wdm_non_ret_fee_refund_id", reply.id);
    }
    error := None;
  }
}
