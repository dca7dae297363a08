/** The order-side rules of the label generator (class-ss-label-generator.php)
    that react to carrier tracking events: processing the refunds scheduled
    on an order, scheduling the non-return fee and the reminder mail, and the
    Shippo, EasyPost and USPS webhook handlers, which all follow one pattern:
    act only on the single order the tracking number identifies, ignore an
    event that repeats the stored status, store the new status, and move the
    order on when the package is delivered or on its way back. */
module Tracking {
  import opened Php
  import opened Wp
  import opened Helpers
  import opened UspsCodes

  const CONFIRM_HOOK := "wdm_confirm_inbound_status"
  const NO_REFUNDS := "No raised refunds found."
  const PROCESSED_BUT := "The scheduled refund was successfully processed but "
  const NO_RETURNED_IN_TRANS := "Order status wc-returned-in-trans does not exist"
  const NO_AWAITING_RETURNS := "Order status wc-awaiting-returns does not exist"

  // ---------------------------------------------------------------------
  // Scheduled refunds (`process_scheduled_refunds`)

  /** What the payment gateway does with a refund request: it refunds, it
      returns an error, or it throws. */
  datatype PaymentOutcome = Refunded | Declined(error: string) | Threw(error: string)

  function NotFoundNote(refundId: int): string {
    "Refund ID " + IntToString(refundId) + " Not Found"
  }

  /** One descriptor of the order's scheduled-refund list. A refund record
      that does not exist is noted; one whose payment was already refunded is
      skipped; a payment refund that fails is recorded on the refund record
      (a throw only logs); otherwise the order becomes "refunded" when nothing
      is left to refund, and its pending fee and mail actions are cancelled,
      a failure to cancel being noted. (The order always exists here; a
      missing one is left alone.) */
  function RefundStep(db: Store, cfg: Config, id: int, req: RefundRequest, pay: int -> PaymentOutcome): (r: Store)
    ensures r.orders.Keys == db.orders.Keys && r.refunds.Keys == db.refunds.Keys
    ensures forall j :: j in db.orders && j != id ==> r.orders[j] == db.orders[j]
    ensures id in db.orders && req.refundId !in db.refunds ==>
              r == db.(orders := db.orders[id := WithNote(db.orders[id], NotFoundNote(req.refundId))])
    ensures req.refundId in db.refunds && db.refunds[req.refundId].refundedPayment ==> r == db
    ensures id in db.orders && req.refundId in db.refunds && req.refundPayment && pay(req.refundId).Declined? ==>
              r.orders == db.orders && r.queue == db.queue
              && (db.refunds[req.refundId].refundedPayment || r.refunds[req.refundId].failure == pay(req.refundId).error)
  {
    if id !in db.orders then db
    else if req.refundId !in db.refunds then
      db.(orders := db.orders[id := WithNote(db.orders[id], NotFoundNote(req.refundId))])
    else
      var refund := db.refunds[req.refundId];
      var outcome := if req.refundPayment then pay(req.refundId) else Refunded;
      if refund.refundedPayment || outcome.Threw? then db
      else if outcome.Declined? then
        db.(refunds := db.refunds[req.refundId := refund.(failure := outcome.error)])
      else
        var refunds := if req.refundPayment then db.refunds[req.refundId := refund.(refundedPayment := true)] else db.refunds;
        Settle(db.(refunds := refunds), cfg, id, req)
  }

  /** A descriptor that went through: the order becomes "refunded" when the
      remaining refundable amount minus the descriptor's amount is not
      positive, and its pending fee and mail actions are cancelled. */
  function Settle(db: Store, cfg: Config, id: int, req: RefundRequest): (r: Store)
    requires id in db.orders
    ensures r.orders.Keys == db.orders.Keys && r.refunds == db.refunds
    ensures forall j :: j in db.orders && j != id ==> r.orders[j] == db.orders[j]
    ensures r.orders[id].meta == db.orders[id].meta && r.orders[id].remainingRefund == db.orders[id].remainingRefund
    ensures r.orders[id].status == if db.orders[id].remainingRefund - req.amount > 0 then db.orders[id].status else "refunded"
  {
    var o := db.orders[id];
    var o1 := if o.remainingRefund - req.amount > 0 then o else o.(status := "refunded");
    CancelPending(db.(orders := db.orders[id := o1]), cfg, id)
  }

  /** The order's pending fee and mail actions cancelled; a failure to
      cancel is noted on the order. */
  function CancelPending(db: Store, cfg: Config, id: int): (r: Store)
    requires id in db.orders
    ensures r.orders.Keys == db.orders.Keys && r.refunds == db.refunds
    ensures forall j :: j in db.orders && j != id ==> r.orders[j] == db.orders[j]
    ensures r.orders[id].meta == db.orders[id].meta && r.orders[id].remainingRefund == db.orders[id].remainingRefund
    ensures r.orders[id].status == db.orders[id].status
  {
    var o1 := db.orders[id];
    var rm := RemoveScheduled(db.queue, o1.meta, ChargeArgsOf(cfg, id, o1), id, ExtendedTime(cfg), false);
    var o2 := if rm.error.Some? then WithNote(o1, PROCESSED_BUT + rm.error.value) else o1;
    db.(orders := db.orders[id := o2], queue := rm.queue)
  }

  /** A step applied to each descriptor in list order. */
  function Fold(db: Store, reqs: seq<RefundRequest>, step: (Store, RefundRequest) -> Store): Store {
    if reqs == [] then db else step(Fold(db, reqs[..|reqs| - 1], step), reqs[|reqs| - 1])
  }

  lemma {:induction false} FoldAppend(db: Store, a: seq<RefundRequest>, b: seq<RefundRequest>, step: (Store, RefundRequest) -> Store)
    ensures Fold(db, a + b, step) == Fold(Fold(db, a, step), b, step)
    decreases |b|
  {
    if b == [] {
      assert a + b == a;
    } else {
      var ab := a + b;
      assert ab[..|ab| - 1] == a + b[..|b| - 1];
      assert ab[|ab| - 1] == b[|b| - 1];
      FoldAppend(db, a, b[..|b| - 1], step);
    }
  }

  /** The descriptors processed in list order. */
  function ProcessAll(db: Store, cfg: Config, id: int, reqs: seq<RefundRequest>, pay: int -> PaymentOutcome): Store {
    Fold(db, reqs, (d, req) => RefundStep(d, cfg, id, req, pay))
  }

  /** `process_scheduled_refunds`: an error when the order holds no
      descriptors, otherwise every descriptor in turn. */
  function RefundsSpec(db: Store, cfg: Config, id: int, pay: int -> PaymentOutcome): (r: (Store, Option<string>))
    requires id in db.orders
    ensures db.orders[id].refundRequests == [] <==> r == (db, Some(NO_REFUNDS))
  {
    var reqs := db.orders[id].refundRequests;
    if reqs == [] then (db, Some(NO_REFUNDS)) else (ProcessAll(db, cfg, id, reqs, pay), None)
  }

  /** A descriptor that changes nothing (its payment refund threw, or it was
      already processed) does not stop the ones after it: they are processed
      exactly as if it were absent. */
  lemma SkippedDescriptorContinues(db: Store, cfg: Config, id: int, req: RefundRequest, rest: seq<RefundRequest>, pay: int -> PaymentOutcome)
    requires id in db.orders
    requires RefundStep(db, cfg, id, req, pay) == db
    ensures ProcessAll(db, cfg, id, [req] + rest, pay) == ProcessAll(db, cfg, id, rest, pay)
  {
    FoldAppend(db, [req], rest, (d, r) => RefundStep(d, cfg, id, r, pay));
    assert [req][..0] == [];
  }

  /** Processing a descriptor whose payment was refunded a second time
      changes nothing: the descriptor is recognised as processed. */
  lemma RefundStepIdempotent(db: Store, cfg: Config, id: int, req: RefundRequest, pay: int -> PaymentOutcome)
    requires id in db.orders && req.refundId in db.refunds
    requires req.refundPayment && pay(req.refundId) == Refunded
    ensures var once := RefundStep(db, cfg, id, req, pay);
            RefundStep(once, cfg, id, req, pay) == once
  {
    var once := RefundStep(db, cfg, id, req, pay);
    assert once.refunds[req.refundId].refundedPayment;
  }

  lemma ProcessAllUnfold(db: Store, cfg: Config, id: int, reqs: seq<RefundRequest>, pay: int -> PaymentOutcome)
    requires reqs != []
    ensures ProcessAll(db, cfg, id, reqs, pay)
            == RefundStep(ProcessAll(db, cfg, id, reqs[..|reqs| - 1], pay), cfg, id, reqs[|reqs| - 1], pay)
  {
  }

  /** A refund record whose payment was refunded stays refunded. */
  lemma {:induction false} ProcessAllKeepsRefunded(db: Store, cfg: Config, id: int, reqs: seq<RefundRequest>, pay: int -> PaymentOutcome, refundId: int)
    requires refundId in db.refunds && db.refunds[refundId].refundedPayment
    ensures var r := ProcessAll(db, cfg, id, reqs, pay);
            refundId in r.refunds && r.refunds[refundId].refundedPayment
  {
    if reqs != [] {
      ProcessAllKeepsRefunded(db, cfg, id, reqs[..|reqs| - 1], pay, refundId);
      ProcessAllUnfold(db, cfg, id, reqs, pay);
    }
  }

  /** The order's status changes only to "refunded", and exactly when a
      processed descriptor leaves nothing to refund; its meta is untouched and
      other orders are unchanged. */
  lemma {:induction false} ProcessAllOrder(db: Store, cfg: Config, id: int, reqs: seq<RefundRequest>, pay: int -> PaymentOutcome)
    requires id in db.orders
    ensures var r := ProcessAll(db, cfg, id, reqs, pay);
            r.orders.Keys == db.orders.Keys && r.refunds.Keys == db.refunds.Keys
            && r.orders[id].meta == db.orders[id].meta
            && r.orders[id].status in {db.orders[id].status, "refunded"}
            && r.orders[id].remainingRefund == db.orders[id].remainingRefund
            && (forall j :: j in db.orders && j != id ==> r.orders[j] == db.orders[j])
  {
    if reqs != [] {
      ProcessAllOrder(db, cfg, id, reqs[..|reqs| - 1], pay);
      ProcessAllUnfold(db, cfg, id, reqs, pay);
    }
  }

  /** A descriptor that goes through makes the order "refunded" exactly when
      the remaining refundable amount minus its amount is not positive. */
  lemma RefundedWhenNothingLeft(db: Store, cfg: Config, id: int, req: RefundRequest, pay: int -> PaymentOutcome)
    requires id in db.orders && req.refundId in db.refunds && !db.refunds[req.refundId].refundedPayment
    requires !req.refundPayment || pay(req.refundId) == Refunded
    requires db.orders[id].status != "refunded"
    ensures var r := RefundStep(db, cfg, id, req, pay);
            (r.orders[id].status == "refunded" <==> db.orders[id].remainingRefund - req.amount <= 0)
            && (req.refundPayment ==> r.refunds[req.refundId].refundedPayment)
  {
  }

  /** One descriptor against the database. */
  method ProcessOne(site: Site, cfg: Config, id: int, req: RefundRequest, pay: int -> PaymentOutcome)
    requires id in site.orders
    modifies site`orders, site`refunds, site`queue
    ensures site.Snapshot() == RefundStep(old(site.Snapshot()), cfg, id, req, pay)
  {
    if req.refundId !in site.refunds {
      site.AddNote(id, NotFoundNote(req.refundId));
      return;
    }
    var refund := site.refunds[req.refundId];
    if refund.refundedPayment {
      return;
    }
    if req.refundPayment {
      var outcome := pay(req.refundId);
      if outcome.Threw? {
        return;
      }
      if outcome.Declined? {
        site.SetRefund(req.refundId, refund.(failure := outcome.error));
        return;
      }
      site.SetRefund(req.refundId, refund.(refundedPayment := true));
    }
    SettleOrder(site, cfg, id, req);
  }

  /** A descriptor that went through, against the database. */
  method SettleOrder(site: Site, cfg: Config, id: int, req: RefundRequest)
    requires id in site.orders
    modifies site`orders, site`queue
    ensures site.Snapshot() == Settle(old(site.Snapshot()), cfg, id, req)
  {
    if site.orders[id].remainingRefund - req.amount <= 0 {
      site.UpdateStatus(id, "refunded");
    }
    CancelPendingActions(site, cfg, id);
  }

  /** `CancelPending` against the database. */
  method CancelPendingActions(site: Site, cfg: Config, id: int)
    requires id in site.orders
    modifies site`orders, site`queue
    ensures site.Snapshot() == CancelPending(old(site.Snapshot()), cfg, id)
  {
    ghost var db := site.Snapshot();
    var error := RemoveScheduledActions(site, cfg, id, false);
    ghost var o1 := db.orders[id];
    assert site.orders == db.orders[id := o1];
    if error.Some? {
      site.AddNote(id, PROCESSED_BUT + error.value);
    }
  }

  /** `process_scheduled_refunds` against the database. */
  method ProcessScheduledRefunds(site: Site, cfg: Config, id: int, pay: int -> PaymentOutcome) returns (error: Option<string>)
    requires id in site.orders
    modifies site`orders, site`refunds, site`queue
    ensures (site.Snapshot(), error) == RefundsSpec(old(site.Snapshot()), cfg, id, pay)
  {
    var reqs := site.orders[id].refundRequests;
    if reqs == [] {
      return Some(NO_REFUNDS);
    }
    var i := 0;
    while i < |reqs|
      invariant 0 <= i <= |reqs|
      invariant id in site.orders
      invariant site.Snapshot() == ProcessAll(old(site.Snapshot()), cfg, id, reqs[..i], pay)
    {
      ProcessOne(site, cfg, id, reqs[i], pay);
      assert reqs[..i + 1][..i] == reqs[..i];
      ProcessAllUnfold(old(site.Snapshot()), cfg, id, reqs[..i + 1], pay);
      i := i + 1;
    }
    assert reqs[..|reqs|] == reqs;
    error := None;
  }

  // ---------------------------------------------------------------------
  // Fee and reminder scheduling (`wdm_schedule_charges`)

  /** Re-arms one pending action for time `t`: scheduled when none is
      pending, moved (cancelled and scheduled again) only when `t` is more
      than a day after the pending one, otherwise kept. The flag says whether
      a new action was scheduled. */
  function Rearm(q: seq<Action>, hook: string, args: Args, t: int): (r: (seq<Action>, bool))
    ensures var prev := NextScheduled(q, hook, Exactly(args));
            r.1 <==> prev.None? || t - prev.value > DAY
    ensures !r.1 ==> r.0 == q
    ensures r.1 ==> Action(t, hook, args) in r.0 && r.0[|r.0| - 1] == Action(t, hook, args)
  {
    var prev := NextScheduled(q, hook, Exactly(args));
    if prev.Some? && t - prev.value > DAY then
      var u := Unschedule(q, hook, Exactly(args));
      if u.1 then (u.0 + [Action(t, hook, args)], true) else (q, false)
    else if prev.None? then (q + [Action(t, hook, args)], true)
    else (q, false)
  }

  /** Re-arming never brings the next run of the action forward, and leaves
      every other pending action where it was. */
  lemma RearmNeverEarlier(q: seq<Action>, hook: string, args: Args, t: int)
    ensures var r := Rearm(q, hook, args, t);
            var prev := NextScheduled(q, hook, Exactly(args));
            var next := NextScheduled(r.0, hook, Exactly(args));
            next.Some?
            && (prev.Some? ==> prev.value <= next.value)
            && Others(r.0, hook, Exactly(args)) == Others(q, hook, Exactly(args))
  {
    var prev := NextScheduled(q, hook, Exactly(args));
    if prev.Some? && t - prev.value > DAY {
      RearmMoved(q, hook, args, t);
    } else if prev.None? {
      RearmFirst(q, hook, args, t);
    }
  }

  /** A pending action more than a day earlier is moved to `t`. */
  lemma RearmMoved(q: seq<Action>, hook: string, args: Args, t: int)
    requires NextScheduled(q, hook, Exactly(args)).Some? && t - NextScheduled(q, hook, Exactly(args)).value > DAY
    ensures var r := Rearm(q, hook, args, t);
            var prev := NextScheduled(q, hook, Exactly(args)).value;
            var next := NextScheduled(r.0, hook, Exactly(args));
            next.Some? && prev <= next.value
            && Others(r.0, hook, Exactly(args)) == Others(q, hook, Exactly(args))
  {
    var f := Exactly(args);
    var a := Action(t, hook, args);
    var prev := NextScheduled(q, hook, f).value;
    var u := Unschedule(q, hook, f).0;
    assert Rearm(q, hook, args, t).0 == u + [a];
    UnscheduleKeepsOthers(q, hook, f);
    OthersAppend(u, [a], hook, f);
    forall b | b in u + [a] && Matches(b, hook, f) ensures prev <= b.time {
      if b != a {
        UnscheduleSubset(q, hook, f, b);
      }
    }
  }

  /** With nothing pending, the action is scheduled for `t`. */
  lemma RearmFirst(q: seq<Action>, hook: string, args: Args, t: int)
    requires NextScheduled(q, hook, Exactly(args)).None?
    ensures var r := Rearm(q, hook, args, t);
            NextScheduled(r.0, hook, Exactly(args)).Some?
            && Others(r.0, hook, Exactly(args)) == Others(q, hook, Exactly(args))
  {
    var f := Exactly(args);
    var a := Action(t, hook, args);
    assert Rearm(q, hook, args, t).0 == q + [a];
    OthersAppend(q, [a], hook, f);
    assert Others([a], hook, f) == [];
  }

  /** When the reminder mail is due: now + `wdm_email_time` days (30 by default). */
  function MailTime(cfg: Config, now: int): int {
    now + DaysOr(cfg, "wdm_email_time", 30) * DAY
  }

  /** When the fee is charged: now + `wdm_charge_fee_time` days (45 by default). */
  function FeeTime(cfg: Config, now: int): int {
    now + DaysOr(cfg, "wdm_charge_fee_time", 45) * DAY
  }

  /** The order with its return-by dates recorded: `feeTime`, and six
      hours earlier for the customer-facing one. */
  function WithReturnBy(o: Order, feeTime: int): Order {
    SetMeta(SetMeta(o, "wdm_return_by", IntToString(feeTime)), "wdm_return_by_ct", IntToString(feeTime - 21600))
  }

  /** The fee half of `wdm_schedule_charges`: the charge is re-armed for
      `feeTime`; when it was scheduled anew, the inbound check is scheduled
      two days before it and the return-by dates are recorded (the
      customer-facing one six hours earlier). */
  function ScheduleFee(db: Store, id: int, args: Args, feeTime: int): (r: Store)
    requires id in db.orders
    ensures var c := Rearm(db.queue, CHARGE_HOOK, args, feeTime);
            r.orders.Keys == db.orders.Keys && r.refunds == db.refunds
            && (forall j :: j in db.orders && j != id ==> r.orders[j] == db.orders[j])
            && r.orders[id].status == db.orders[id].status && r.orders[id].notes == db.orders[id].notes
            && (forall k :: k != "wdm_return_by" && k != "wdm_return_by_ct" ==> Meta(r.orders[id], k) == Meta(db.orders[id], k))
            && (!c.1 ==> r == db)
            && (c.1 ==> r.queue == c.0 + [Action(feeTime - 2 * DAY, CONFIRM_HOOK, OrderArg(id))]
                        && Meta(r.orders[id], "wdm_return_by") == IntToString(feeTime)
                        && Meta(r.orders[id], "wdm_return_by_ct") == IntToString(feeTime - 21600))
  {
    FeeRearmed(db, id, Rearm(db.queue, CHARGE_HOOK, args, feeTime), feeTime)
  }

  /** `ScheduleFee` once the charge was re-armed with outcome `c`. */
  function FeeRearmed(db: Store, id: int, c: (seq<Action>, bool), feeTime: int): Store
    requires id in db.orders
  {
    if !c.1 then db
    else db.(orders := db.orders[id := WithReturnBy(db.orders[id], feeTime)], queue := c.0 + [Action(feeTime - 2 * DAY, CONFIRM_HOOK, OrderArg(id))])
  }

  /** `wdm_schedule_charges`: the reminder mail is re-armed, and the fee
      half follows when the Stripe settings exist. */
  function ScheduleChargesSpec(db: Store, cfg: Config, id: int, now: int): (r: Store)
    requires id in db.orders
    ensures r.orders.Keys == db.orders.Keys && r.refunds == db.refunds
    ensures forall j :: j in db.orders && j != id ==> r.orders[j] == db.orders[j]
    ensures r.orders[id].status == db.orders[id].status && r.orders[id].notes == db.orders[id].notes
    ensures forall k :: k != "wdm_return_by" && k != "wdm_return_by_ct" ==> Meta(r.orders[id], k) == Meta(db.orders[id], k)
    ensures cfg.stripe.None? ==> r == db.(queue := Rearm(db.queue, MAIL_HOOK, OrderIdArg(id), MailTime(cfg, now)).0)
  {
    var db1 := db.(queue := Rearm(db.queue, MAIL_HOOK, OrderIdArg(id), MailTime(cfg, now)).0);
    match ChargeArgsOf(cfg, id, db.orders[id])
    case None => db1
    case Some(args) => ScheduleFee(db1, id, args, FeeTime(cfg, now))
  }

  /** When the fee charge is scheduled anew, the recorded return-by date
      reads back as its run time, the customer-facing one as six hours
      earlier, and the inbound check is the last action queued. */
  lemma ScheduleChargesReturnBy(db: Store, cfg: Config, id: int, now: int)
    requires id in db.orders && cfg.stripe.Some?
    requires var q1 := Rearm(db.queue, MAIL_HOOK, OrderIdArg(id), MailTime(cfg, now)).0;
             Rearm(q1, CHARGE_HOOK, ChargeArgsOf(cfg, id, db.orders[id]).value, FeeTime(cfg, now)).1
    ensures var r := ScheduleChargesSpec(db, cfg, id, now);
            IntVal(Meta(r.orders[id], "wdm_return_by")) == FeeTime(cfg, now)
            && IntVal(Meta(r.orders[id], "wdm_return_by_ct")) == FeeTime(cfg, now) - 21600
            && r.queue != [] && r.queue[|r.queue| - 1] == Action(FeeTime(cfg, now) - 2 * DAY, CONFIRM_HOOK, OrderArg(id))
  {
    var db1 := db.(queue := Rearm(db.queue, MAIL_HOOK, OrderIdArg(id), MailTime(cfg, now)).0);
    var args := ChargeArgsOf(cfg, id, db.orders[id]).value;
    assert ScheduleChargesSpec(db, cfg, id, now) == ScheduleFee(db1, id, args, FeeTime(cfg, now));
    IntValRoundTrip(FeeTime(cfg, now));
    IntValRoundTrip(FeeTime(cfg, now) - 21600);
  }

  /** After the charges are scheduled the mails' return date is the charge
      time less six hours, formatted; PHP's `empty` reads a stored "0" as
      no date. */
  lemma ScheduledReturnDate(db: Store, cfg: Config, id: int, now: int, formatDate: int -> string)
    requires id in db.orders && cfg.stripe.Some?
    requires var q1 := Rearm(db.queue, MAIL_HOOK, OrderIdArg(id), MailTime(cfg, now)).0;
             Rearm(q1, CHARGE_HOOK, ChargeArgsOf(cfg, id, db.orders[id]).value, FeeTime(cfg, now)).1
    ensures var t := FeeTime(cfg, now) - 21600;
            ReturnDateText(ScheduleChargesSpec(db, cfg, id, now).orders[id], formatDate) == if t == 0 then "" else formatDate(t)
  {
    var db1 := db.(queue := Rearm(db.queue, MAIL_HOOK, OrderIdArg(id), MailTime(cfg, now)).0);
    var args := ChargeArgsOf(cfg, id, db.orders[id]).value;
    assert ScheduleChargesSpec(db, cfg, id, now) == ScheduleFee(db1, id, args, FeeTime(cfg, now));
    IntValRoundTrip(FeeTime(cfg, now) - 21600);
  }

  /** Re-arming one action against the database. */
  method RearmAction(site: Site, hook: string, args: Args, t: int) returns (scheduled: bool)
    modifies site`queue
    ensures (site.queue, scheduled) == Rearm(old(site.queue), hook, args, t)
  {
    var prev := NextScheduled(site.queue, hook, Exactly(args));
    if prev.Some? && t - prev.value > DAY {
      var found := site.UnscheduleNext(hook, Exactly(args));
      if found {
        prev := None;
      }
    }
    scheduled := false;
    if prev.None? {
      site.Schedule(t, hook, args);
      scheduled := true;
    }
  }

  /** The fee half against the database. */
  method ScheduleFeeAction(site: Site, id: int, args: Args, feeTime: int)
    requires id in site.orders
    modifies site`queue, site`orders
    ensures site.Snapshot() == ScheduleFee(old(site.Snapshot()), id, args, feeTime)
  {
    ghost var db := site.Snapshot();
    var scheduled := RearmAction(site, CHARGE_HOOK, args, feeTime);
    ghost var c := Rearm(db.queue, CHARGE_HOOK, args, feeTime);
    if scheduled {
      site.Schedule(feeTime - 2 * DAY, CONFIRM_HOOK, OrderArg(id));
      RecordReturnBy(site, id, feeTime);
    }
    assert site.Snapshot() == FeeRearmed(db, id, c, feeTime);
  }

  /** `WithReturnBy` against the database. */
  method RecordReturnBy(site: Site, id: int, feeTime: int)
    requires id in site.orders
    modifies site`orders
    ensures site.orders == old(site.orders)[id := WithReturnBy(old(site.orders)[id], feeTime)]
  {
    site.UpdateMeta(id, "wdm_return_by", IntToString(feeTime));
    site.UpdateMeta(id, "wdm_return_by_ct", IntToString(feeTime - 21600));
  }

  /** `wdm_schedule_charges` against the database. */
  method ScheduleCharges(site: Site, cfg: Config, id: int, now: int)
    requires id in site.orders
    modifies site`queue, site`orders
    ensures site.Snapshot() == ScheduleChargesSpec(old(site.Snapshot()), cfg, id, now)
  {
    var _ := RearmAction(site, MAIL_HOOK, OrderIdArg(id), MailTime(cfg, now));
    var charge := ChargeArgsOf(cfg, id, site.orders[id]);
    if charge.Some? {
      ScheduleFeeAction(site, id, charge.value, FeeTime(cfg, now));
    }
  }

  // ---------------------------------------------------------------------
  // Webhook handlers

  /** The inbound half shared by the three handlers, for the one matching
      order: an event repeating the stored status (under `key`) writes
      nothing; otherwise the status is stored, a delivered return completes
      the order, a return in transit moves it to "returned-in-trans" and
      processes its scheduled refunds (noting their error), and any other
      status is only stored. */
  function InboundUpdate(db: Store, cfg: Config, id: int, key: string, status: string,
                         transit: string, delivered: string, pay: int -> PaymentOutcome): (r: Store)
    requires id in db.orders
    ensures r.orders.Keys == db.orders.Keys
    ensures Meta(db.orders[id], key) == status ==> r == db
    ensures Meta(db.orders[id], key) != status ==> Meta(r.orders[id], key) == status
    ensures Meta(db.orders[id], key) != status && status == delivered ==>
              r == db.(orders := db.orders[id := SetMeta(db.orders[id], key, status).(status := "completed")])
    ensures Meta(db.orders[id], key) != status && status != delivered && status != transit ==>
              r == db.(orders := db.orders[id := SetMeta(db.orders[id], key, status)])
  {
    var o := db.orders[id];
    if Meta(o, key) == status then db
    else
      var o1 := SetMeta(o, key, status);
      if status != transit && status != delivered then db.(orders := db.orders[id := o1])
      else if status == delivered then db.(orders := db.orders[id := o1.(status := "completed")])
      else ReturnInTransit(db.(orders := db.orders[id := o1]), cfg, id, pay)
  }

  /** A return in transit: the order moves to "returned-in-trans" and its
      scheduled refunds are processed, their error noted; without that
      status registered only a note is added. */
  function ReturnInTransit(db: Store, cfg: Config, id: int, pay: int -> PaymentOutcome): (r: Store)
    requires id in db.orders
    ensures r.orders.Keys == db.orders.Keys
    ensures r.orders[id].meta == db.orders[id].meta
  {
    if !StatusExists(cfg, "wc-returned-in-trans") then
      db.(orders := db.orders[id := WithNote(db.orders[id], NO_RETURNED_IN_TRANS)])
    else
      var db1 := db.(orders := db.orders[id := db.orders[id].(status := "returned-in-trans")]);
      ProcessAllOrder(db1, cfg, id, db1.orders[id].refundRequests, pay);
      var rs := RefundsSpec(db1, cfg, id, pay);
      if rs.1.Some? then rs.0.(orders := rs.0.orders[id := WithNote(rs.0.orders[id], rs.1.value)]) else rs.0
  }

  /** Without "wc-returned-in-trans" registered, a return in transit only
      adds the missing-status note: the status stays and no scheduled refund
      is processed. */
  lemma UnregisteredTransitOnlyNotes(db: Store, cfg: Config, id: int, pay: int -> PaymentOutcome)
    requires id in db.orders && "wc-returned-in-trans" !in cfg.registered
    ensures var r := ReturnInTransit(db, cfg, id, pay);
            r.orders[id].status == db.orders[id].status
            && r.orders[id].notes == db.orders[id].notes + [NO_RETURNED_IN_TRANS]
            && r.refunds == db.refunds
            && (forall j :: j in db.orders && j != id ==> r.orders[j] == db.orders[j])
  {
    assert !StatusExists(cfg, "wc-returned-in-trans");
  }

  /** A return in transit (with the status registered) ends "returned-in-trans",
      or "refunded" when a scheduled refund leaves nothing to refund; other
      orders are unchanged. */
  lemma InboundTransit(db: Store, cfg: Config, id: int, key: string, status: string,
                       transit: string, delivered: string, pay: int -> PaymentOutcome)
    requires id in db.orders && Meta(db.orders[id], key) != status
    requires status == transit && transit != delivered && StatusExists(cfg, "wc-returned-in-trans")
    ensures var r := InboundUpdate(db, cfg, id, key, status, transit, delivered, pay);
            r.orders[id].status in {"returned-in-trans", "refunded"}
            && (db.orders[id].refundRequests == [] ==> r.orders[id].status == "returned-in-trans")
            && (forall j :: j in db.orders && j != id ==> r.orders[j] == db.orders[j])
  {
    var db0 := db.(orders := db.orders[id := SetMeta(db.orders[id], key, status)]);
    var db1 := db0.(orders := db0.orders[id := db0.orders[id].(status := "returned-in-trans")]);
    ProcessAllOrder(db1, cfg, id, db1.orders[id].refundRequests, pay);
    assert InboundUpdate(db, cfg, id, key, status, transit, delivered, pay) == ReturnInTransit(db0, cfg, id, pay);
  }

  const SHIPPO_OUT_NUMBER := "wdm_shippo_outbound_tracking_number"
  const SHIPPO_IN_NUMBER := "wdm_shippo_inbound_tracking_number"
  const SHIPPO_OUT_STATUS := "wdm_shippo_outbound_tracking_status"
  const SHIPPO_IN_STATUS := "wdm_shippo_inbound_tracking_status"
  const INBOUND_FLAG := "inbound-shipping-label-generated"

  /** The outbound half of the Shippo handler: a repeated status writes
      nothing; a first PRE_TRANSIT records when it was seen; a delivery moves
      an order with a return label to "awaiting-returns" (scheduling the fee,
      the reminder and an inbound check in 15 days) unless it was converted,
      and completes every other order. */
  function ShippoOutbound(db: Store, cfg: Config, id: int, status: string, now: int): (r: Store)
    requires id in db.orders
    ensures r.orders.Keys == db.orders.Keys
    ensures Meta(db.orders[id], SHIPPO_OUT_STATUS) == status ==> r == db
    ensures Meta(db.orders[id], SHIPPO_OUT_STATUS) != status ==> Meta(r.orders[id], SHIPPO_OUT_STATUS) == status
    ensures status != "DELIVERED" ==> r.queue == db.queue && r.orders[id].status == db.orders[id].status
  {
    var o := db.orders[id];
    if Meta(o, SHIPPO_OUT_STATUS) == status then db
    else
      var o1 := SetMeta(o, SHIPPO_OUT_STATUS, status);
      var o2 := if status == "PRE_TRANSIT" then AddMetaOnce(o1, "pre_transit_time", IntToString(now)) else o1;
      var db1 := db.(orders := db.orders[id := o2]);
      if status != "DELIVERED" then db1 else OutboundDelivery(db1, cfg, id, now)
  }

  /** An outbound delivery: an order with a return label moves to
      "awaiting-returns" (scheduling the fee, the reminder and an inbound
      check in 15 days) unless it was converted; every other order is
      completed. */
  function OutboundDelivery(db: Store, cfg: Config, id: int, now: int): (r: Store)
    requires id in db.orders
    ensures r.orders.Keys == db.orders.Keys
    ensures forall k :: k != "wdm_return_by" && k != "wdm_return_by_ct" ==> Meta(r.orders[id], k) == Meta(db.orders[id], k)
  {
    var o := db.orders[id];
    if Meta(o, INBOUND_FLAG) == TRUE_FLAG && StatusExists(cfg, "wc-awaiting-returns") then
      if Meta(o, "wdm_order_converted") != "converted" then AwaitingReturn(db, cfg, id, now)
      else db.(orders := db.orders[id := o.(status := "completed")])
    else if Meta(o, INBOUND_FLAG) == TRUE_FLAG then
      db.(orders := db.orders[id := WithNote(o, NO_AWAITING_RETURNS).(status := "completed")])
    else db.(orders := db.orders[id := o.(status := "completed")])
  }

  /** A delivered order with a return label and not converted: the fee and
      reminder are scheduled, the order awaits its return, and an inbound
      check is queued 15 days out. */
  function AwaitingReturn(db: Store, cfg: Config, id: int, now: int): (r: Store)
    requires id in db.orders
    ensures r.orders.Keys == db.orders.Keys
    ensures forall k :: k != "wdm_return_by" && k != "wdm_return_by_ct" ==> Meta(r.orders[id], k) == Meta(db.orders[id], k)
  {
    var db2 := ScheduleChargesSpec(db, cfg, id, now);
    db2.(orders := db2.orders[id := db2.orders[id].(status := "awaiting-returns")],
         queue := db2.queue + [Action(now + DAY * 15, CONFIRM_HOOK, OrderArg(id))])
  }

  /** Outbound delivery has three outcomes: with a return label and not
      converted the order awaits its return (and an inbound check is queued
      15 days out); with a return label and converted, or without a return
      label, it is completed. */
  lemma OutboundDelivered(db: Store, cfg: Config, id: int, now: int)
    requires id in db.orders && Meta(db.orders[id], SHIPPO_OUT_STATUS) != "DELIVERED"
    requires StatusExists(cfg, "wc-awaiting-returns")
    ensures var r := ShippoOutbound(db, cfg, id, "DELIVERED", now);
            var o := db.orders[id];
            (Meta(o, INBOUND_FLAG) == TRUE_FLAG && Meta(o, "wdm_order_converted") != "converted" ==>
               r.orders[id].status == "awaiting-returns"
               && r.queue[|r.queue| - 1] == Action(now + DAY * 15, CONFIRM_HOOK, OrderArg(id)))
            && (Meta(o, INBOUND_FLAG) == TRUE_FLAG && Meta(o, "wdm_order_converted") == "converted" ==>
                  r.orders[id].status == "completed" && r.queue == db.queue)
            && (Meta(o, INBOUND_FLAG) != TRUE_FLAG ==> r.orders[id].status == "completed" && r.queue == db.queue)
  {
    var o1 := SetMeta(db.orders[id], SHIPPO_OUT_STATUS, "DELIVERED");
    assert Meta(o1, INBOUND_FLAG) == Meta(db.orders[id], INBOUND_FLAG);
    assert Meta(o1, "wdm_order_converted") == Meta(db.orders[id], "wdm_order_converted");
  }

  /** `wdm_add_tracking_info_to_orders` (Shippo): acts only when both inputs
      are non-empty and exactly one order carries the number as its outbound
      or inbound tracking number; the inbound number takes the inbound half. */
  ghost function ShippoTrackingSpec(db: Store, cfg: Config, number: string, status: string, now: int,
                                    pay: int -> PaymentOutcome): (r: Store)
    ensures r.orders.Keys == db.orders.Keys
    ensures Empty(number) || Empty(status) ==> r == db
    ensures !IsSingleton(OrdersWithMeta(db.orders, SHIPPO_OUT_NUMBER, number) + OrdersWithMeta(db.orders, SHIPPO_IN_NUMBER, number)) ==> r == db
  {
    if Empty(number) || Empty(status) then db
    else
      var ids := OrdersWithMeta(db.orders, SHIPPO_OUT_NUMBER, number) + OrdersWithMeta(db.orders, SHIPPO_IN_NUMBER, number);
      if !IsSingleton(ids) then db
      else
        var id := Only(ids);
        if Meta(db.orders[id], SHIPPO_IN_NUMBER) == number then
          InboundUpdate(db, cfg, id, SHIPPO_IN_STATUS, status, "TRANSIT", "DELIVERED", pay)
        else ShippoOutbound(db, cfg, id, status, now)
  }

  /** The EasyPost events the handler reads. */
  datatype EasypostEvent =
    | RefundSuccessful(shipmentId: string, refundStatus: string)
    | TrackerUpdated(trackerId: string, trackingStatus: string)
    | OtherEvent

  /** `wdm_add_tracking_info_to_orders_easypost`: a refund event records its
      status on the one order with that shipment; a tracker event runs the
      inbound half for the one order with that tracker unless the order was
      converted. */
  ghost function EasypostWebhookSpec(db: Store, cfg: Config, e: EasypostEvent, pay: int -> PaymentOutcome): (r: Store)
    ensures r.orders.Keys == db.orders.Keys
    ensures e.OtherEvent? ==> r == db
    ensures e.TrackerUpdated? && !IsSingleton(OrdersWithMeta(db.orders, "easypost_tracking_id", e.trackerId)) ==> r == db
    ensures e.RefundSuccessful? && IsSingleton(OrdersWithMeta(db.orders, "easypost_shipment_id", e.shipmentId)) ==>
              var id := Only(OrdersWithMeta(db.orders, "easypost_shipment_id", e.shipmentId));
              Meta(r.orders[id], "wdm_refund_status_inbound") == e.refundStatus
  {
    match e
    case OtherEvent => db
    case RefundSuccessful(shipment, status) =>
      var ids := OrdersWithMeta(db.orders, "easypost_shipment_id", shipment);
      if !IsSingleton(ids) then db
      else
        var id := Only(ids);
        db.(orders := db.orders[id := SetMeta(db.orders[id], "wdm_refund_status_inbound", status)])
    case TrackerUpdated(tracker, status) =>
      var ids := OrdersWithMeta(db.orders, "easypost_tracking_id", tracker);
      if !IsSingleton(ids) then db
      else
        var id := Only(ids);
        if Meta(db.orders[id], "wdm_order_converted") == "converted" then db
        else InboundUpdate(db, cfg, id, "wdm_tracking_status_inbound", status, "in_transit", "delivered", pay)
  }

  /** `wdm_add_tracking_info_to_orders_usps`: with a tracking id and an event
      code (both non-empty), the translated code runs the inbound half for
      the one order with that id unless the order was converted. */
  ghost function UspsWebhookSpec(db: Store, cfg: Config, trackingId: string, eventCode: string,
                                 pay: int -> PaymentOutcome): (r: Store)
    ensures r.orders.Keys == db.orders.Keys
    ensures Empty(trackingId) || Empty(eventCode) ==> r == db
    ensures !IsSingleton(OrdersWithMeta(db.orders, "usps_tracking_id", trackingId)) ==> r == db
  {
    if Empty(trackingId) || Empty(eventCode) then db
    else
      var ids := OrdersWithMeta(db.orders, "usps_tracking_id", trackingId);
      if !IsSingleton(ids) then db
      else
        var id := Only(ids);
        if Meta(db.orders[id], "wdm_order_converted") == "converted" then db
        else InboundUpdate(db, cfg, id, "wdm_usps_inbound_tracking_status", TranslateUsps(eventCode), "in_transit", "delivered", pay)
  }

  /** A USPS delivery event completes the one matching, unconverted order
      and records "delivered"; a repeated delivery event changes nothing. */
  lemma UspsDeliveredCompletes(db: Store, cfg: Config, trackingId: string, eventCode: string, pay: int -> PaymentOutcome)
    requires !Empty(trackingId) && !Empty(eventCode) && TranslateUsps(eventCode) == "delivered"
    requires IsSingleton(OrdersWithMeta(db.orders, "usps_tracking_id", trackingId))
    ensures var id := Only(OrdersWithMeta(db.orders, "usps_tracking_id", trackingId));
            var r := UspsWebhookSpec(db, cfg, trackingId, eventCode, pay);
            var stored := Meta(db.orders[id], "wdm_usps_inbound_tracking_status");
            (Meta(db.orders[id], "wdm_order_converted") != "converted" && stored != "delivered" ==>
               r.orders[id].status == "completed" && Meta(r.orders[id], "wdm_usps_inbound_tracking_status") == "delivered")
            && (stored == "delivered" ==> r == db)
  {
    var id := Only(OrdersWithMeta(db.orders, "usps_tracking_id", trackingId));
    assert id in db.orders;
  }

  /** The inbound half against the database. */
  method InboundEvent(site: Site, cfg: Config, id: int, key: string, status: string,
                      transit: string, delivered: string, pay: int -> PaymentOutcome)
    requires id in site.orders
    modifies site`orders, site`refunds, site`queue
    ensures site.Snapshot() == InboundUpdate(old(site.Snapshot()), cfg, id, key, status, transit, delivered, pay)
  {
    if Meta(site.orders[id], key) == status {
      return;
    }
    site.UpdateMeta(id, key, status);
    if status != transit && status != delivered {
      return;
    }
    if status == delivered {
      site.UpdateStatus(id, "completed");
      return;
    }
    ReturnInTransitEvent(site, cfg, id, pay);
  }

  /** A return in transit against the database. */
  method ReturnInTransitEvent(site: Site, cfg: Config, id: int, pay: int -> PaymentOutcome)
    requires id in site.orders
    modifies site`orders, site`refunds, site`queue
    ensures site.Snapshot() == ReturnInTransit(old(site.Snapshot()), cfg, id, pay)
  {
    if StatusExists(cfg, "wc-returned-in-trans") {
      site.UpdateStatus(id, "returned-in-trans");
      ghost var db1 := site.Snapshot();
      ProcessAllOrder(db1, cfg, id, db1.orders[id].refundRequests, pay);
      var error := ProcessScheduledRefunds(site, cfg, id, pay);
      assert (site.Snapshot(), error) == RefundsSpec(db1, cfg, id, pay);
      if error.Some? {
        site.AddNote(id, error.value);
      }
      return;
    }
    site.AddNote(id, NO_RETURNED_IN_TRANS);
  }

  /** The outbound half against the database. */
  method OutboundEvent(site: Site, cfg: Config, id: int, status: string, now: int)
    requires id in site.orders
    modifies site`orders, site`queue
    ensures site.Snapshot() == ShippoOutbound(old(site.Snapshot()), cfg, id, status, now)
  {
    if Meta(site.orders[id], SHIPPO_OUT_STATUS) == status {
      return;
    }
    site.UpdateMeta(id, SHIPPO_OUT_STATUS, status);
    if status == "PRE_TRANSIT" {
      site.AddMeta(id, "pre_transit_time", IntToString(now));
    }
    if status != "DELIVERED" {
      return;
    }
    DeliverOutbound(site, cfg, id, now);
  }

  /** An outbound delivery against the database. */
  method DeliverOutbound(site: Site, cfg: Config, id: int, now: int)
    requires id in site.orders
    modifies site`orders, site`queue
    ensures site.Snapshot() == OutboundDelivery(old(site.Snapshot()), cfg, id, now)
  {
    if Meta(site.orders[id], INBOUND_FLAG) == TRUE_FLAG {
      if StatusExists(cfg, "wc-awaiting-returns") {
        if Meta(site.orders[id], "wdm_order_converted") != "converted" {
          AwaitReturn(site, cfg, id, now);
        } else {
          site.UpdateStatus(id, "completed");
        }
        return;
      }
      site.AddNote(id, NO_AWAITING_RETURNS);
    }
    site.UpdateStatus(id, "completed");
  }

  /** `AwaitingReturn` against the database. */
  method AwaitReturn(site: Site, cfg: Config, id: int, now: int)
    requires id in site.orders
    modifies site`orders, site`queue
    ensures site.Snapshot() == AwaitingReturn(old(site.Snapshot()), cfg, id, now)
  {
    ScheduleCharges(site, cfg, id, now);
    site.UpdateStatus(id, "awaiting-returns");
    site.Schedule(now + DAY * 15, CONFIRM_HOOK, OrderArg(id));
  }

  /** `wdm_add_tracking_info_to_orders` against the database. */
  method ShippoTracking(site: Site, cfg: Config, number: string, status: string, now: int, pay: int -> PaymentOutcome)
    modifies site`orders, site`refunds, site`queue
    ensures site.Snapshot() == ShippoTrackingSpec(old(site.Snapshot()), cfg, number, status, now, pay)
  {
    if Empty(number) || Empty(status) {
      return;
    }
    var ids := OrdersWithMeta(site.orders, SHIPPO_OUT_NUMBER, number) + OrdersWithMeta(site.orders, SHIPPO_IN_NUMBER, number);
    if !IsSingleton(ids) {
      return;
    }
    var id :| id in ids && ids == {id};
    assert id == Only(ids);
    if Meta(site.orders[id], SHIPPO_IN_NUMBER) == number {
      InboundEvent(site, cfg, id, SHIPPO_IN_STATUS, status, "TRANSIT", "DELIVERED", pay);
    } else {
      OutboundEvent(site, cfg, id, status, now);
    }
  }

  /** `wdm_add_tracking_info_to_orders_easypost` against the database. */
  method EasypostWebhook(site: Site, cfg: Config, e: EasypostEvent, pay: int -> PaymentOutcome)
    modifies site`orders, site`refunds, site`queue
    ensures site.Snapshot() == EasypostWebhookSpec(old(site.Snapshot()), cfg, e, pay)
  {
    match e
    case OtherEvent =>
    case RefundSuccessful(shipment, status) =>
      var ids := OrdersWithMeta(site.orders, "easypost_shipment_id", shipment);
      if IsSingleton(ids) {
        var id :| id in ids && ids == {id};
        assert id == Only(ids);
        site.UpdateMeta(id, "wdm_refund_status_inbound", status);
      }
    case TrackerUpdated(tracker, status) =>
      var ids := OrdersWithMeta(site.orders, "easypost_tracking_id", tracker);
      if IsSingleton(ids) {
        var id :| id in ids && ids == {id};
        assert id == Only(ids);
        if Meta(site.orders[id], "wdm_order_converted") != "converted" {
          InboundEvent(site, cfg, id, "wdm_tracking_status_inbound", status, "in_transit", "delivered", pay);
        }
      }
  }

  /** `wdm_add_tracking_info_to_orders_usps` against the database. */
  method UspsWebhook(site: Site, cfg: Config, trackingId: string, eventCode: string, pay: int -> PaymentOutcome)
    modifies site`orders, site`refunds, site`queue
    ensures site.Snapshot() == UspsWebhookSpec(old(site.Snapshot()), cfg, trackingId, eventCode, pay)
  {
    if Empty(trackingId) || Empty(eventCode) {
      return;
    }
    var status := TranslateUsps(eventCode);
    var ids := OrdersWithMeta(site.orders, "usps_tracking_id", trackingId);
    if IsSingleton(ids) {
      var id :| id in ids && ids == {id};
      assert id == Only(ids);
      if Meta(site.orders[id], "wdm_order_converted") != "converted" {
        InboundEvent(site, cfg, id, "wdm_usps_inbound_tracking_status", status, "in_transit", "delivered", pay);
      }
    }
  }

  // ---------------------------------------------------------------------
  // Shippo webhook intake (`wdm_async_status_update`)

  /** A Shippo webhook body as far as the handler reads it, or the internal
      call that passes the number and status directly. */
  datatype ShippoRequest =
    | Webhook(event: string, number: Option<string>, status: Option<string>)
    | Internal(internalNumber: string, internalStatus: string)

  const ASYNC_HOOK := "wdm_async_shippo_updates"

  /** The tracking number and status the request carries, if it is a
      `track_updated` event with both fields, or an internal call. */
  function RequestFields(req: ShippoRequest): (r: Option<(string, string)>)
    ensures req.Internal? ==> r == Some((req.internalNumber, req.internalStatus))
    ensures req.Webhook? && req.event != "track_updated" ==> r.None?
  {
    match req
    case Internal(n, s) => Some((n, s))
    case Webhook(event, n, s) =>
      if event != "track_updated" || n.None? || s.None? then None else Some((n.value, s.value))
  }

  /** `wdm_async_status_update`: a usable update is queued for ten seconds
      later; anything else is dropped. */
  method AsyncStatusUpdate(site: Site, req: ShippoRequest, now: int)
    modifies site`queue
    ensures var f := RequestFields(req);
            if f.Some? && !Empty(f.value.0) && !Empty(f.value.1)
            then site.queue == old(site.queue) + [Action(now + 10, ASYNC_HOOK, TrackingArgs(f.value.0, f.value.1))]
            else site.queue == old(site.queue)
  {
    var f := RequestFields(req);
    if f.None? {
      return;
    }
    var (number, status) := f.value;
    if Empty(number) || Empty(status) {
      return;
    }
    site.Schedule(now + 10, ASYNC_HOOK, TrackingArgs(number, status));
  }
}
