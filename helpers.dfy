/** The free functions of helper-functions.php: the returnable-item count,
    the registered-status check, the cancellation / extension of an order's
    pending fee and reminder actions, the inbound tracking lookups and the
    e-mail placeholder substitution. */
module Helpers {
  import opened Php
  import opened Wp

  // ---------------------------------------------------------------------
  // Returnable items

  /** Sum of the quantities of the line items whose shipping class is
      eligible (the strict `in_array`). */
  function EligibleQuantity(items: seq<LineItem>, eligible: seq<string>): int {
    if items == [] then 0
    else (if items[0].shippingClass in eligible then items[0].quantity else 0)
         + EligibleQuantity(items[1..], eligible)
  }

  /** `wdm_get_returnable_items_for_order`: nothing is returnable once the
      order has been converted. */
  function ReturnableItems(o: Order, eligible: seq<string>): int {
    if Meta(o, "wdm_order_converted") == "converted" then 0 else EligibleQuantity(o.items, eligible)
  }

  lemma {:induction false} EligibleQuantityAppend(items: seq<LineItem>, it: LineItem, eligible: seq<string>)
    ensures EligibleQuantity(items + [it], eligible)
         == EligibleQuantity(items, eligible) + (if it.shippingClass in eligible then it.quantity else 0)
  {
    if items != [] {
      assert (items + [it])[1..] == items[1..] + [it];
      EligibleQuantityAppend(items[1..], it, eligible);
    } else {
      assert (items + [it])[1..] == [];
    }
  }

  /** The `foreach` accumulator of the source, proved to compute the count. */
  method CountReturnableItems(o: Order, eligible: seq<string>) returns (quantity: int)
    ensures quantity == ReturnableItems(o, eligible)
    ensures Meta(o, "wdm_order_converted") == "converted" ==> quantity == 0
  {
    if Meta(o, "wdm_order_converted") == "converted" {
      return 0;
    }
    quantity := 0;
    var i := 0;
    while i < |o.items|
      invariant 0 <= i <= |o.items|
      invariant quantity == EligibleQuantity(o.items[..i], eligible)
    {
      EligibleQuantityAppend(o.items[..i], o.items[i], eligible);
      assert o.items[..i + 1] == o.items[..i] + [o.items[i]];
      if o.items[i].shippingClass in eligible {
        quantity := quantity + o.items[i].quantity;
      }
      i := i + 1;
    }
    assert o.items[..i] == o.items;
  }

  /** Total quantity of all line items. */
  function TotalQuantity(items: seq<LineItem>): int {
    if items == [] then 0 else items[0].quantity + TotalQuantity(items[1..])
  }

  /** Items of ineligible classes contribute nothing; with non-negative
      quantities the count lies between 0 and the total quantity. */
  lemma {:induction false} EligibleQuantityBounds(items: seq<LineItem>, eligible: seq<string>)
    requires forall i :: 0 <= i < |items| ==> items[i].quantity >= 0
    ensures 0 <= EligibleQuantity(items, eligible) <= TotalQuantity(items)
    ensures (forall i :: 0 <= i < |items| ==> items[i].shippingClass !in eligible) ==> EligibleQuantity(items, eligible) == 0
    ensures (forall i :: 0 <= i < |items| ==> items[i].shippingClass in eligible) ==> EligibleQuantity(items, eligible) == TotalQuantity(items)
  {
    if items != [] {
      EligibleQuantityBounds(items[1..], eligible);
    }
  }

  /** `wdm_check_order_statuses`: the status key is registered. */
  predicate StatusExists(cfg: Config, status: string) {
    status in cfg.registered
  }

  // ---------------------------------------------------------------------
  // Inbound tracking lookups

  /** Index of the first key present in the meta, if any. */
  function FirstPresent(meta: map<string, string>, keys: seq<string>): (r: Option<nat>)
    ensures r.None? <==> forall i :: 0 <= i < |keys| ==> keys[i] !in meta
    ensures r.Some? ==> r.value < |keys| && keys[r.value] in meta
    ensures r.Some? ==> forall i :: 0 <= i < r.value ==> keys[i] !in meta
  {
    if keys == [] then None
    else if keys[0] in meta then Some(0)
    else
      var r := FirstPresent(meta, keys[1..]);
      if r.None? then None else Some(r.value + 1)
  }

  const STATUS_KEYS: seq<string> := ["wdm_tracking_status_inbound", "wdm_usps_inbound_tracking_status", "wdm_shippo_inbound_tracking_status"]
  const PARTNER_KEYS: seq<string> := ["easypost_tracking_id", "usps_tracking_id", "wdm_shippo_inbound_tracking_number"]
  const PARTNERS: seq<string> := ["easypost", "usps", "shippo"]

  /** `wdm_get_inbound_tracking_status`: the value under the first of the
      three status keys that exists, "" when none does. */
  function InboundTrackingStatus(o: Order): (s: string)
    ensures (forall i :: 0 <= i < 3 ==> STATUS_KEYS[i] !in o.meta) ==> s == ""
    ensures forall i :: 0 <= i < 3 && STATUS_KEYS[i] in o.meta && (forall j :: 0 <= j < i ==> STATUS_KEYS[j] !in o.meta)
              ==> s == o.meta[STATUS_KEYS[i]]
  {
    var r := FirstPresent(o.meta, STATUS_KEYS);
    if r.None? then "" else o.meta[STATUS_KEYS[r.value]]
  }

  /** `wdm_get_inbound_tracking_partner`: the partner named by the first of
      the three tracking-id keys that exists, "" when none does. */
  function InboundTrackingPartner(o: Order): (p: string)
    ensures p in {"easypost", "usps", "shippo", ""}
    ensures p == "" <==> forall i :: 0 <= i < 3 ==> PARTNER_KEYS[i] !in o.meta
    ensures forall i :: 0 <= i < 3 && PARTNER_KEYS[i] in o.meta && (forall j :: 0 <= j < i ==> PARTNER_KEYS[j] !in o.meta)
              ==> p == PARTNERS[i]
  {
    var r := FirstPresent(o.meta, PARTNER_KEYS);
    if r.None? then "" else PARTNERS[r.value]
  }

  // ---------------------------------------------------------------------
  // Removing / extending the scheduled fee charge and reminder mail

  const CHARGE_HOOK := "wdm_charge_non_return_fee"
  const MAIL_HOOK := "wdm_schedule_mail"

  const CHARGE_NOT_FOUND := "The charge action not found or it is already in process"
  const CHARGE_NOT_UNSCHEDULED := "Unable to unschedule the previous non-return fee."
  const MAIL_NOT_FOUND := "The mail action not found or it is already in process"
  const MAIL_NOT_UNSCHEDULED := "Unable to unschedule the previous non-return mail."

  /** The argument list of an order's fee-charge action, or `None` when the
      Stripe settings are empty and the source's argument variable is left
      undefined (`null`). The secret key follows the order's test-mode meta. */
  function ChargeArgsOf(cfg: Config, id: int, o: Order): Option<Args> {
    match cfg.stripe
    case None => None
    case Some(k) =>
      Some(ChargeArgs(id, Meta(o, "_stripe_customer_id"),
                      if Meta(o, "wdm_is_test_mode") == "no" then k.secretKey else k.testSecretKey))
  }

  /** Lookup filter for the charge action: exact arguments, or any when they are `null`. */
  function ChargeFilter(a: Option<Args>): ArgsFilter {
    if a.Some? then Exactly(a.value) else AnyArgs
  }

  /** The argument list a `null` argument variable is scheduled with. */
  function ChargeSchedArgs(a: Option<Args>): Args {
    if a.Some? then a.value else NoArgs
  }

  /** Extension of the return period in seconds (30 days by default). */
  function ExtendedTime(cfg: Config): int {
    DaysOr(cfg, "wdm_extend_returns_time", 30) * DAY
  }

  /** Final queue, final order meta and the exception raised, if any, of
      `wdm_remove_scheduled_actions`. */
  datatype RemoveOutcome = RemoveOutcome(queue: seq<Action>, meta: map<string, string>, error: Option<string>)

  /** The fee-charge half: optionally re-schedule the charge `ext` seconds
      after its next run (recording the new return-by dates), then cancel the
      next run. */
  function ChargeStep(q: seq<Action>, meta: map<string, string>, charge: Option<Args>, ext: int, reschedule: bool): (r: RemoveOutcome)
    ensures reschedule && NextScheduled(q, CHARGE_HOOK, ChargeFilter(charge)).None? ==>
              r == RemoveOutcome(q, meta, Some(CHARGE_NOT_FOUND))
    ensures reschedule && NextScheduled(q, CHARGE_HOOK, ChargeFilter(charge)).Some? ==>
              var t := NextScheduled(q, CHARGE_HOOK, ChargeFilter(charge)).value + ext;
              r.meta == meta["wdm_return_by" := IntToString(t)]["wdm_return_by_ct" := IntToString(t - 21600)]
    ensures !reschedule ==> r.meta == meta
    ensures !reschedule ==> (r.error == Some(CHARGE_NOT_UNSCHEDULED) <==> NextScheduled(q, CHARGE_HOOK, ChargeFilter(charge)).None?)
    ensures r.error.Some? ==> r.error.value in {CHARGE_NOT_FOUND, CHARGE_NOT_UNSCHEDULED}
  {
    var f := ChargeFilter(charge);
    var next := NextScheduled(q, CHARGE_HOOK, f);
    if reschedule && next.None? then RemoveOutcome(q, meta, Some(CHARGE_NOT_FOUND))
    else
      var t := if reschedule then next.value + ext else 0;
      var q1 := if reschedule then q + [Action(t, CHARGE_HOOK, ChargeSchedArgs(charge))] else q;
      var m1 := if reschedule then meta["wdm_return_by" := IntToString(t)]["wdm_return_by_ct" := IntToString(t - 21600)] else meta;
      var u := Unschedule(q1, CHARGE_HOOK, f);
      RemoveOutcome(u.0, m1, if u.1 then None else Some(CHARGE_NOT_UNSCHEDULED))
  }

  /** The reminder-mail half: optionally re-schedule the mail `ext` seconds
      after its next run, then cancel the next run. */
  function MailStep(q: seq<Action>, id: int, ext: int, reschedule: bool): (r: (seq<Action>, Option<string>))
    ensures reschedule && NextScheduled(q, MAIL_HOOK, Exactly(OrderIdArg(id))).None? ==> r == (q, Some(MAIL_NOT_FOUND))
    ensures !reschedule ==> (r.1 == Some(MAIL_NOT_UNSCHEDULED) <==> NextScheduled(q, MAIL_HOOK, Exactly(OrderIdArg(id))).None?)
    ensures r.1.Some? ==> r.1.value in {MAIL_NOT_FOUND, MAIL_NOT_UNSCHEDULED}
  {
    var mail := Exactly(OrderIdArg(id));
    var next := NextScheduled(q, MAIL_HOOK, mail);
    if reschedule && next.None? then (q, Some(MAIL_NOT_FOUND))
    else
      var q1 := if reschedule then q + [Action(next.value + ext, MAIL_HOOK, OrderIdArg(id))] else q;
      var u := Unschedule(q1, MAIL_HOOK, mail);
      (u.0, if u.1 then None else Some(MAIL_NOT_UNSCHEDULED))
  }

  /** Specification of `wdm_remove_scheduled_actions`: the charge half, and
      the mail half only if the charge half raised nothing. */
  function RemoveScheduled(q: seq<Action>, meta: map<string, string>, charge: Option<Args>, id: int, ext: int, reschedule: bool): (r: RemoveOutcome)
    ensures r.error.Some? ==> r.error.value in {CHARGE_NOT_FOUND, CHARGE_NOT_UNSCHEDULED, MAIL_NOT_FOUND, MAIL_NOT_UNSCHEDULED}
    ensures !reschedule && r.error.None? ==> |r.queue| + 2 == |q|
    ensures !reschedule ==> r.meta == meta
  {
    var c := ChargeStep(q, meta, charge, ext, reschedule);
    if c.error.Some? then c
    else
      var m := MailStep(c.queue, id, ext, reschedule);
      RemoveOutcome(m.0, c.meta, m.1)
  }

  /** With reschedule on and no pending charge, nothing is scheduled and
      nothing is written before "The charge action not found ..." is raised. */
  lemma NoPendingChargeNothingChanges(q: seq<Action>, meta: map<string, string>, charge: Option<Args>, id: int, ext: int)
    requires NextScheduled(q, CHARGE_HOOK, ChargeFilter(charge)).None?
    ensures RemoveScheduled(q, meta, charge, id, ext, true) == RemoveOutcome(q, meta, Some(CHARGE_NOT_FOUND))
  {
  }

  /** The stored return-by dates read back (`intval`) as the new charge time
      and that time less six hours. */
  lemma ReturnByReadsBack(q: seq<Action>, meta: map<string, string>, charge: Option<Args>, id: int, ext: int)
    requires NextScheduled(q, CHARGE_HOOK, ChargeFilter(charge)).Some?
    ensures var r := RemoveScheduled(q, meta, charge, id, ext, true);
            var t := NextScheduled(q, CHARGE_HOOK, ChargeFilter(charge)).value + ext;
            IntVal(r.meta["wdm_return_by"]) == t && IntVal(r.meta["wdm_return_by_ct"]) == t - 21600
            && r.meta["wdm_return_by_ct"] == IntToString(t - 21600)
  {
    var t := NextScheduled(q, CHARGE_HOOK, ChargeFilter(charge)).value + ext;
    var c := ChargeStep(q, meta, charge, ext, true);
    assert RemoveScheduled(q, meta, charge, id, ext, true).meta == c.meta;
    assert c.meta["wdm_return_by"] == IntToString(t);
    assert c.meta["wdm_return_by_ct"] == IntToString(t - 21600);
    IntValRoundTrip(t);
    IntValRoundTrip(t - 21600);
  }

  /** Appending an action later than the earliest matching one does not
      change which action is cancelled, so the new one survives. */
  lemma {:induction false} UnscheduleKeepsLater(q: seq<Action>, a: Action, hook: string, f: ArgsFilter)
    requires NextScheduled(q, hook, f).Some? && a.time > NextScheduled(q, hook, f).value
    ensures var r := Unschedule(q + [a], hook, f);
            r.1 && a in r.0 && |r.0| == |q|
  {
    var q' := q + [a];
    assert q'[..|q'| - 1] == q;
    var k := EarliestIndex(q, hook, f).value;
    assert EarliestIndex(q', hook, f) == Some(k);
    var r0 := q'[..k] + q'[k + 1..];
    assert r0[|q| - 1] == q'[|q|];
  }

  /** Cancelling the next action of a queue that has just had a later one
      appended keeps the queue's length and every unmatched action. */
  lemma UnscheduleLaterKeeps(q: seq<Action>, m: Action, a: Action, hook: string, f: ArgsFilter)
    requires NextScheduled(q, hook, f).Some? && m.time > NextScheduled(q, hook, f).value
    requires a in q && !Matches(a, hook, f)
    ensures var r := Unschedule(q + [m], hook, f).0;
            |r| == |q| && a in r
  {
    UnscheduleKeepsLater(q, m, hook, f);
    UnscheduleKeepsUnmatched(q + [m], a, hook, f);
  }

  /** Cancelling never removes an action of another hook or argument list. */
  lemma UnscheduleKeepsUnmatched(q: seq<Action>, a: Action, hook: string, f: ArgsFilter)
    requires a in q && !Matches(a, hook, f)
    ensures a in Unschedule(q, hook, f).0
  {
    var i := EarliestIndex(q, hook, f);
    if i.Some? {
      var k := i.value;
      var j :| 0 <= j < |q| && q[j] == a;
      assert j != k;
      if j < k { assert q[..k][j] == a; } else { assert q[k + 1..][j - k - 1] == a; }
    }
  }

  /** With a positive extension and no failure, extending keeps one pending
      action for every one there was, and the fee charge now runs `ext`
      seconds after its previous next run. */
  lemma RescheduleExtends(q: seq<Action>, meta: map<string, string>, charge: Option<Args>, id: int, ext: int)
    requires ext > 0
    requires RemoveScheduled(q, meta, charge, id, ext, true).error.None?
    ensures var r := RemoveScheduled(q, meta, charge, id, ext, true);
            var t := NextScheduled(q, CHARGE_HOOK, ChargeFilter(charge)).value;
            |r.queue| == |q| && Action(t + ext, CHARGE_HOOK, ChargeSchedArgs(charge)) in r.queue
  {
    RemoveScheduledQueue(q, meta, charge, id, ext);
    ChargeHalfExtends(q, meta, charge, ext);
    var c := ChargeStep(q, meta, charge, ext, true);
    var t := NextScheduled(q, CHARGE_HOOK, ChargeFilter(charge)).value;
    assert MailStep(c.queue, id, ext, true).1.None?;
    MailHalfKeeps(c.queue, id, ext, Action(t + ext, CHARGE_HOOK, ChargeSchedArgs(charge)));
  }

  /** The charge half with a pending charge and a positive extension keeps
      the queue's length and leaves the re-scheduled charge pending. */
  lemma ChargeHalfExtends(q: seq<Action>, meta: map<string, string>, charge: Option<Args>, ext: int)
    requires ext > 0
    requires ChargeStep(q, meta, charge, ext, true).error.None?
    ensures var c := ChargeStep(q, meta, charge, ext, true);
            var t := NextScheduled(q, CHARGE_HOOK, ChargeFilter(charge)).value;
            |c.queue| == |q| && Action(t + ext, CHARGE_HOOK, ChargeSchedArgs(charge)) in c.queue
  {
    var f := ChargeFilter(charge);
    var t := NextScheduled(q, CHARGE_HOOK, f).value;
    UnscheduleKeepsLater(q, Action(t + ext, CHARGE_HOOK, ChargeSchedArgs(charge)), CHARGE_HOOK, f);
    ChargeRescheduled(q, meta, charge, ext);
  }

  /** The mail half with a pending mail and a positive extension keeps the
      queue's length and every action of another hook. */
  lemma MailHalfKeeps(q: seq<Action>, id: int, ext: int, a: Action)
    requires ext > 0 && a in q && a.hook != MAIL_HOOK
    requires NextScheduled(q, MAIL_HOOK, Exactly(OrderIdArg(id))).Some?
    ensures |MailStep(q, id, ext, true).0| == |q| && a in MailStep(q, id, ext, true).0
  {
    var mail := Exactly(OrderIdArg(id));
    var m := Action(NextScheduled(q, MAIL_HOOK, mail).value + ext, MAIL_HOOK, OrderIdArg(id));
    MailRescheduled(q, id, ext);
    UnscheduleLaterKeeps(q, m, a, MAIL_HOOK, mail);
  }

  /** The charge half with a pending charge: the re-scheduled action is
      appended, then the earliest matching one is cancelled. */
  lemma ChargeRescheduled(q: seq<Action>, meta: map<string, string>, charge: Option<Args>, ext: int)
    requires NextScheduled(q, CHARGE_HOOK, ChargeFilter(charge)).Some?
    ensures var t := NextScheduled(q, CHARGE_HOOK, ChargeFilter(charge)).value;
            var u := Unschedule(q + [Action(t + ext, CHARGE_HOOK, ChargeSchedArgs(charge))], CHARGE_HOOK, ChargeFilter(charge));
            var c := ChargeStep(q, meta, charge, ext, true);
            c.queue == u.0 && (c.error.None? <==> u.1)
  {
  }

  /** The mail half with a pending mail: likewise. */
  lemma MailRescheduled(q: seq<Action>, id: int, ext: int)
    requires NextScheduled(q, MAIL_HOOK, Exactly(OrderIdArg(id))).Some?
    ensures var t := NextScheduled(q, MAIL_HOOK, Exactly(OrderIdArg(id))).value;
            MailStep(q, id, ext, true).0 == Unschedule(q + [Action(t + ext, MAIL_HOOK, OrderIdArg(id))], MAIL_HOOK, Exactly(OrderIdArg(id))).0
  {
  }

  /** When the charge half raises nothing, the mail half runs on its queue. */
  lemma RemoveScheduledQueue(q: seq<Action>, meta: map<string, string>, charge: Option<Args>, id: int, ext: int)
    ensures var c := ChargeStep(q, meta, charge, ext, true);
            c.error.None? ==> RemoveScheduled(q, meta, charge, id, ext, true) == RemoveOutcome(MailStep(c.queue, id, ext, true).0, c.meta, MailStep(c.queue, id, ext, true).1)
  {
  }

  /** The fee-charge half against the database. */
  method ChargeHalf(site: Site, id: int, charge: Option<Args>, ext: int, reschedule: bool) returns (error: Option<string>)
    requires id in site.orders
    modifies site`queue, site`orders
    ensures var c := ChargeStep(old(site.queue), old(site.orders)[id].meta, charge, ext, reschedule);
            site.queue == c.queue && error == c.error
            && site.orders == old(site.orders)[id := old(site.orders)[id].(meta := c.meta)]
  {
    var f := ChargeFilter(charge);
    ghost var c := ChargeStep(site.queue, site.orders[id].meta, charge, ext, reschedule);
    ghost var o := site.orders[id];
    if reschedule {
      var next := NextScheduled(site.queue, CHARGE_HOOK, f);
      if next.None? {
        return Some(CHARGE_NOT_FOUND);
      }
      var t := next.value + ext;
      site.Schedule(t, CHARGE_HOOK, ChargeSchedArgs(charge));
      site.UpdateMeta(id, "wdm_return_by", IntToString(t));
      site.UpdateMeta(id, "wdm_return_by_ct", IntToString(t - 21600));
      assert site.orders[id] == o.(meta := c.meta);
    }
    assert site.orders == old(site.orders)[id := o.(meta := c.meta)];
    var found := site.UnscheduleNext(CHARGE_HOOK, f);
    error := if found then None else Some(CHARGE_NOT_UNSCHEDULED);
  }

  /** The reminder-mail half against the database. */
  method MailHalf(site: Site, id: int, ext: int, reschedule: bool) returns (error: Option<string>)
    modifies site`queue
    ensures (site.queue, error) == MailStep(old(site.queue), id, ext, reschedule)
  {
    var mail := Exactly(OrderIdArg(id));
    ghost var q := site.queue;
    ghost var q1 := q;
    if reschedule {
      var next := NextScheduled(site.queue, MAIL_HOOK, mail);
      if next.None? {
        return Some(MAIL_NOT_FOUND);
      }
      site.Schedule(next.value + ext, MAIL_HOOK, OrderIdArg(id));
      q1 := q + [Action(next.value + ext, MAIL_HOOK, OrderIdArg(id))];
    }
    assert site.queue == q1;
    var found := site.UnscheduleNext(MAIL_HOOK, mail);
    error := if found then None else Some(MAIL_NOT_UNSCHEDULED);
    assert MailStep(q, id, ext, reschedule) == (Unschedule(q1, MAIL_HOOK, mail).0, error);
  }

  /** `wdm_remove_scheduled_actions` against the database. */
  method RemoveScheduledActions(site: Site, cfg: Config, id: int, reschedule: bool) returns (error: Option<string>)
    requires id in site.orders
    modifies site`queue, site`orders
    ensures var r := RemoveScheduled(old(site.queue), old(site.orders)[id].meta,
                                     ChargeArgsOf(cfg, id, old(site.orders)[id]), id, ExtendedTime(cfg), reschedule);
            site.queue == r.queue && error == r.error
            && site.orders == old(site.orders)[id := old(site.orders)[id].(meta := r.meta)]
  {
    var charge := ChargeArgsOf(cfg, id, site.orders[id]);
    error := ChargeHalf(site, id, charge, ExtendedTime(cfg), reschedule);
    if error.None? {
      error := MailHalf(site, id, ExtendedTime(cfg), reschedule);
    }
  }

  // ---------------------------------------------------------------------
  // Placeholder substitution

  const PLACEHOLDERS: seq<string> := ["%customer_first_name%", "%customer_last_name%", "%customer_email%",
                                      "%customer_order_id%", "%new_return_date%", "%days_extended_by%"]

  /** `str_replace` with arrays: each needle in turn, over the previous result. */
  function ReplaceEach(s: string, needles: seq<string>, values: seq<string>): string
    requires |needles| == |values|
    requires forall i :: 0 <= i < |needles| ==> needles[i] != []
    decreases needles
  {
    if needles == [] then s else ReplaceEach(ReplaceAll(s, needles[0], values[0]), needles[1..], values[1..])
  }

  /** The text `%new_return_date%` stands for: "" when the order has no
      (non-empty) `wdm_return_by_ct`, else that timestamp formatted. */
  function ReturnDateText(o: Order, formatDate: int -> string): string {
    if Empty(Meta(o, "wdm_return_by_ct")) then "" else formatDate(IntVal(Meta(o, "wdm_return_by_ct")))
  }

  /** A stored `wdm_return_by_ct` of `t` reads back as `t` formatted, or as
      no date when `t` is 0 (PHP's `empty("0")`). */
  lemma {:induction false} ReturnDateOf(o: Order, t: int, formatDate: int -> string)
    requires Meta(o, "wdm_return_by_ct") == IntToString(t)
    ensures ReturnDateText(o, formatDate) == if t == 0 then "" else formatDate(t)
  {
    IntValRoundTrip(t);
  }

  /** The six replacement values, in the order of `PLACEHOLDERS`: billing
      first name, last name and e-mail, a link to the order, the return date
      and the configured extension in days. */
  function PlaceholderValues(cfg: Config, id: int, o: Order, firstName: string, lastName: string, email: string,
                             viewUrl: string, formatDate: int -> string): (v: seq<string>)
    ensures |v| == 6
    ensures v[0] == firstName && v[1] == lastName && v[2] == email
    ensures v[3] == "<a href=\"" + viewUrl + "\">" + IntToString(id) + "</a>"
    ensures v[4] == ReturnDateText(o, formatDate) && v[5] == Opt(cfg, "wdm_extend_returns_time")
  {
    [firstName, lastName, email, "<a href=\"" + viewUrl + "\">" + IntToString(id) + "</a>",
     ReturnDateText(o, formatDate), Opt(cfg, "wdm_extend_returns_time")]
  }

  /** `wdm_replace_placeholders` before the final `wpautop` formatting. */
  function ReplacePlaceholders(subject: string, values: seq<string>): string
    requires |values| == 6
  {
    ReplaceEach(subject, PLACEHOLDERS, values)
  }

  /** A placeholder is `%name%` with a name free of '%'. */
  predicate IsPlaceholder(k: string) {
    k != [] && |k| >= 3 && k[0] == '%' && k[|k| - 1] == '%' && '%' !in k[1..|k| - 1]
  }

  /** A '%' followed by '%'-free text holds no placeholder. */
  lemma PercentThenFree(b: string, k: string, with: string)
    requires IsPlaceholder(k) && '%' !in b
    ensures ReplaceAll("%" + b, k, with) == "%" + b
  {
    var s := "%" + b;
    if |s| >= |k| {
      assert s[..|k|][|k| - 1] == b[|k| - 2];
      assert s[..|k|] != k;
      assert s[1..] == b;
      ReplaceAllAbsent(b, k, with);
    }
  }

  /** Text before a needle that is free of the needle's first character is
      copied through. */
  lemma {:induction false} ReplaceAllPrefix(a: string, k: string, with: string, rest: string)
    requires k != [] && k[0] !in a
    ensures ReplaceAll(a + rest, k, with) == a + ReplaceAll(rest, k, with)
  {
    var s := a + rest;
    if a == [] {
      assert s == rest;
    } else if |s| < |k| {
      assert ReplaceAll(s, k, with) == s;
      assert ReplaceAll(rest, k, with) == rest;
    } else {
      assert s[..|k|][0] == a[0];
      assert s[..|k|] != k;
      assert ReplaceAll(s, k, with) == [s[0]] + ReplaceAll(s[1..], k, with);
      assert s[1..] == a[1..] + rest;
      ReplaceAllPrefix(a[1..], k, with, rest);
    }
  }

  /** One placeholder does not occur in another followed by '%'-free text. */
  lemma OtherPlaceholderAbsent(ki: string, kj: string, b: string, with: string)
    requires IsPlaceholder(ki) && IsPlaceholder(kj) && ki != kj && '%' !in b
    ensures ReplaceAll(ki + b, kj, with) == ki + b
  {
    var s := ki + b;
    var mid := ki[1..|ki| - 1];
    if |s| >= |kj| {
      if |kj| < |ki| {
        assert mid[|kj| - 2] == ki[|kj| - 1];
        assert s[..|kj|][|kj| - 1] != kj[|kj| - 1];
      } else if |kj| > |ki| {
        assert kj[1..|kj| - 1][|ki| - 2] == kj[|ki| - 1];
        assert s[..|kj|][|ki| - 1] != kj[|ki| - 1];
      } else {
        assert s[..|kj|] == ki;
      }
      assert s[..|kj|] != kj;
      assert ReplaceAll(s, kj, with) == [s[0]] + ReplaceAll(s[1..], kj, with);
      assert s[1..] == mid + ("%" + b);
      ReplaceAllPrefix(mid, kj, with, "%" + b);
      PercentThenFree(b, kj, with);
      assert s == [s[0]] + mid + ("%" + b);
    } else {
      assert ReplaceAll(s, kj, with) == s;
    }
  }

  /** Placeholder substitution: a text holding one placeholder between
      '%'-free text becomes that text around the placeholder's value. */
  lemma {:induction false} ReplaceEachOne(a: string, b: string, needles: seq<string>, values: seq<string>, i: nat)
    requires |needles| == |values| && i < |needles|
    requires forall j :: 0 <= j < |needles| ==> needles[j] != [] && IsPlaceholder(needles[j])
    requires forall j :: 0 <= j < |needles| && j != i ==> needles[j] != needles[i]
    requires forall j :: 0 <= j < |values| ==> '%' !in values[j]
    requires '%' !in a && '%' !in b
    ensures ReplaceEach(a + needles[i] + b, needles, values) == a + values[i] + b
  {
    var k := needles[0];
    if i == 0 {
      ReplaceAllAfter(a, k, values[0], b);
      ReplaceAllAbsent(b, k, values[0]);
      ReplaceEachAbsent(a + values[0] + b, needles[1..], values[1..]);
    } else {
      assert a + needles[i] + b == a + (needles[i] + b);
      ReplaceAllPrefix(a, k, values[0], needles[i] + b);
      OtherPlaceholderAbsent(needles[i], k, b, values[0]);
      ReplaceEachOne(a, b, needles[1..], values[1..], i - 1);
    }
  }

  /** Text without '%' goes through every replacement unchanged. */
  lemma {:induction false} ReplaceEachAbsent(s: string, needles: seq<string>, values: seq<string>)
    requires |needles| == |values|
    requires forall j :: 0 <= j < |needles| ==> needles[j] != [] && IsPlaceholder(needles[j])
    requires '%' !in s
    ensures ReplaceEach(s, needles, values) == s
  {
    if needles != [] {
      ReplaceAllAbsent(s, needles[0], values[0]);
      ReplaceEachAbsent(s, needles[1..], values[1..]);
    }
  }

  /** The six keys are distinct placeholders. */
  lemma PlaceholdersWellFormed()
    ensures forall j :: 0 <= j < 6 ==> IsPlaceholder(PLACEHOLDERS[j])
    ensures forall i, j :: 0 <= i < j < 6 ==> PLACEHOLDERS[i] != PLACEHOLDERS[j]
  {
    assert IsPlaceholder(PLACEHOLDERS[0]) && IsPlaceholder(PLACEHOLDERS[1]) && IsPlaceholder(PLACEHOLDERS[2]);
    assert IsPlaceholder(PLACEHOLDERS[3]) && IsPlaceholder(PLACEHOLDERS[4]) && IsPlaceholder(PLACEHOLDERS[5]);
    forall i, j | 0 <= i < j < 6 ensures PLACEHOLDERS[i] != PLACEHOLDERS[j] {
      assert |PLACEHOLDERS[i]| != |PLACEHOLDERS[j]|;
    }
  }

  /** Each of the six placeholders, between text free of '%', is replaced by
      its value (name, surname, e-mail, order link, return date, days). */
  lemma PlaceholderReplaced(subjectBefore: string, subjectAfter: string, values: seq<string>, i: nat)
    requires |values| == 6 && i < 6
    requires forall j :: 0 <= j < 6 ==> '%' !in values[j]
    requires '%' !in subjectBefore && '%' !in subjectAfter
    ensures ReplacePlaceholders(subjectBefore + PLACEHOLDERS[i] + subjectAfter, values)
         == subjectBefore + values[i] + subjectAfter
  {
    PlaceholdersWellFormed();
    ReplaceEachOne(subjectBefore, subjectAfter, PLACEHOLDERS, values, i);
  }

  // A whole mail text: '%'-free text, then a sequence of uses, each a
  // placeholder (by its index) followed by '%'-free text.

  /** The uses written out with `keys[j]` for placeholder `j`. */
  function Fill(uses: seq<(nat, string)>, keys: seq<string>): string
    requires forall p :: 0 <= p < |uses| ==> uses[p].0 < |keys|
  {
    if uses == [] then [] else keys[uses[0].0] + uses[0].1 + Fill(uses[1..], keys)
  }

  /** The text after each use is free of '%', is non-empty unless it ends
      the subject, and does not start with a character that follows the '%'
      of a key, so that no key can be matched from the closing '%' of the
      placeholder before it. */
  predicate Spaced(uses: seq<(nat, string)>, keys: seq<string>) {
    forall p :: 0 <= p < |uses| ==>
      '%' !in uses[p].1
      && (p + 1 < |uses| ==> uses[p].1 != [])
      && (uses[p].1 != [] ==> forall j :: 0 <= j < |keys| && |keys[j]| > 1 ==> uses[p].1[0] != keys[j][1])
  }

  /** '%' followed by text that cannot continue a key is copied through. */
  lemma PercentNotKeyStart(b: string, k: string, with: string)
    requires IsPlaceholder(k) && (b != [] ==> b[0] != k[1])
    ensures ReplaceAll("%" + b, k, with) == "%" + ReplaceAll(b, k, with)
  {
    var s := "%" + b;
    if |s| >= |k| {
      assert s[..|k|][1] == b[0];
      assert s[..|k|] != k;
      assert s[1..] == b;
    }
  }

  /** A placeholder other than the needle does not start a match. */
  lemma KeyNotAtOther(ki: string, k: string, b: string)
    requires IsPlaceholder(ki) && IsPlaceholder(k) && ki != k && |ki + b| >= |k|
    ensures (ki + b)[..|k|] != k
  {
    var s := ki + b;
    if |k| < |ki| {
      assert ki[1..|ki| - 1][|k| - 2] == ki[|k| - 1];
      assert s[..|k|][|k| - 1] != k[|k| - 1];
    } else if |k| > |ki| {
      assert k[1..|k| - 1][|ki| - 2] == k[|ki| - 1];
      assert s[..|k|][|ki| - 1] != k[|ki| - 1];
    } else {
      assert s[..|k|] == ki;
    }
  }

  /** A placeholder other than the needle, followed by text that cannot
      continue a key, is copied through. */
  lemma PlaceholderThenText(ki: string, k: string, b: string, with: string)
    requires IsPlaceholder(ki) && IsPlaceholder(k) && ki != k
    requires b != [] ==> b[0] != k[1]
    ensures ReplaceAll(ki + b, k, with) == ki + ReplaceAll(b, k, with)
  {
    var s := ki + b;
    var mid := ki[1..|ki| - 1];
    if |s| >= |k| {
      calc {
        ReplaceAll(s, k, with);
        { KeyNotAtOther(ki, k, b); }
        [s[0]] + ReplaceAll(s[1..], k, with);
        { assert s[1..] == mid + ("%" + b); }
        [s[0]] + ReplaceAll(mid + ("%" + b), k, with);
        { ReplaceAllPrefix(mid, k, with, "%" + b); }
        [s[0]] + (mid + ReplaceAll("%" + b, k, with));
        { PercentNotKeyStart(b, k, with); }
        [s[0]] + (mid + ("%" + ReplaceAll(b, k, with)));
        { assert ki == [s[0]] + mid + "%"; }
        ki + ReplaceAll(b, k, with);
      }
    } else {
      assert ReplaceAll(s, k, with) == s;
      assert ReplaceAll(b, k, with) == b;
    }
  }

  /** One use, `ki` then '%'-free text `s0`, under one pass: replaced when
      it is the needle, copied otherwise. */
  lemma ReplaceAllUse(ki: string, s0: string, rest: string, k: string, with: string)
    requires IsPlaceholder(k) && '%' !in s0
    requires IsPlaceholder(ki) || '%' !in ki
    requires ki != k && IsPlaceholder(ki) ==> (s0 == [] && rest == []) || (s0 != [] && s0[0] != k[1])
    ensures ReplaceAll(ki + s0 + rest, k, with) == (if ki == k then with else ki) + s0 + ReplaceAll(rest, k, with)
  {
    if ki == k {
      UseMatched(s0, rest, k, with);
    } else if '%' !in ki {
      ReplaceAllPrefix(ki + s0, k, with, rest);
    } else {
      UseOtherPlaceholder(ki, s0, rest, k, with);
    }
  }

  lemma UseMatched(s0: string, rest: string, k: string, with: string)
    requires IsPlaceholder(k) && '%' !in s0
    ensures ReplaceAll(k + s0 + rest, k, with) == with + s0 + ReplaceAll(rest, k, with)
  {
    ReplaceAllAfter([], k, with, s0 + rest);
    assert [] + k + (s0 + rest) == k + s0 + rest;
    ReplaceAllPrefix(s0, k, with, rest);
  }

  lemma UseOtherPlaceholder(ki: string, s0: string, rest: string, k: string, with: string)
    requires IsPlaceholder(k) && IsPlaceholder(ki) && ki != k && '%' !in s0
    requires (s0 == [] && rest == []) || (s0 != [] && s0[0] != k[1])
    ensures ReplaceAll(ki + s0 + rest, k, with) == ki + s0 + ReplaceAll(rest, k, with)
  {
    var b := s0 + rest;
    assert b == [] || b[0] == s0[0];
    calc {
      ReplaceAll(ki + s0 + rest, k, with);
      { assert ki + s0 + rest == ki + b; }
      ReplaceAll(ki + b, k, with);
      { PlaceholderThenText(ki, k, b, with); }
      ki + ReplaceAll(b, k, with);
      { ReplaceAllPrefix(s0, k, with, rest); }
      ki + (s0 + ReplaceAll(rest, k, with));
      ki + s0 + ReplaceAll(rest, k, with);
    }
  }

  /** One `str_replace` pass over written-out uses replaces exactly the uses
      whose current text is the needle; the others hold a value free of '%'
      or another placeholder. */
  lemma {:induction false} ReplaceAllFill(uses: seq<(nat, string)>, cur: seq<string>, next: seq<string>,
                                          needles: seq<string>, m: nat, with: string)
    requires m < |needles| && IsPlaceholder(needles[m]) && '%' !in with
    requires |next| == |cur|
    requires forall p :: 0 <= p < |uses| ==> uses[p].0 < |cur|
    requires Spaced(uses, needles)
    requires forall j :: 0 <= j < |cur| ==> IsPlaceholder(cur[j]) || '%' !in cur[j]
    requires forall j :: 0 <= j < |cur| ==> next[j] == if cur[j] == needles[m] then with else cur[j]
    ensures ReplaceAll(Fill(uses, cur), needles[m], with) == Fill(uses, next)
    decreases uses
  {
    if uses != [] {
      var k := needles[m];
      var ki := cur[uses[0].0];
      var s0 := uses[0].1;
      var rest := Fill(uses[1..], cur);
      assert Spaced(uses[1..], needles) by {
        forall p | 0 <= p < |uses[1..]| ensures uses[1..][p] == uses[p + 1] { }
      }
      ReplaceAllFill(uses[1..], cur, next, needles, m, with);
      assert |uses| == 1 ==> rest == [];
      ReplaceAllUse(ki, s0, rest, k, with);
    }
  }

  /** The passes from the `m`-th needle on, over a text whose first `m`
      placeholders are already replaced, leave every use replaced. */
  lemma {:induction false} ReplaceEachFill(head: string, uses: seq<(nat, string)>, needles: seq<string>,
                                           values: seq<string>, m: nat)
    requires |needles| == |values| && m <= |needles|
    requires forall j :: 0 <= j < |needles| ==> needles[j] != [] && IsPlaceholder(needles[j])
    requires forall i, j :: 0 <= i < j < |needles| ==> needles[i] != needles[j]
    requires forall j :: 0 <= j < |values| ==> '%' !in values[j]
    requires '%' !in head
    requires forall p :: 0 <= p < |uses| ==> uses[p].0 < |needles|
    requires Spaced(uses, needles)
    ensures ReplaceEach(head + Fill(uses, values[..m] + needles[m..]), needles[m..], values[m..]) == head + Fill(uses, values)
    decreases |needles| - m
  {
    var cur := values[..m] + needles[m..];
    if m == |needles| {
      assert cur == values;
    } else {
      var k := needles[m];
      var next := values[..m + 1] + needles[m + 1..];
      forall j | 0 <= j < |cur|
        ensures IsPlaceholder(cur[j]) || '%' !in cur[j]
        ensures next[j] == if cur[j] == k then values[m] else cur[j]
      {
        if j < m {
          assert cur[j] == values[j] && next[j] == values[j];
          assert k[0] == '%';
        } else if j == m {
          assert cur[j] == k && next[j] == values[m];
        } else {
          assert cur[j] == needles[j] && next[j] == needles[j];
        }
      }
      ReplaceAllFill(uses, cur, next, needles, m, values[m]);
      ReplaceAllPrefix(head, k, values[m], Fill(uses, cur));
      assert needles[m..][0] == k && needles[m..][1..] == needles[m + 1..];
      assert values[m..][0] == values[m] && values[m..][1..] == values[m + 1..];
      ReplaceEachFill(head, uses, needles, values, m + 1);
    }
  }

  /** Placeholder substitution on a whole mail text: '%'-free text and any
      number of placeholder uses, each followed by text that cannot continue
      a key; with values free of '%', every use becomes its value. */
  lemma PlaceholdersReplaced(head: string, uses: seq<(nat, string)>, values: seq<string>)
    requires |values| == 6 && forall j :: 0 <= j < 6 ==> '%' !in values[j]
    requires '%' !in head
    requires forall p :: 0 <= p < |uses| ==> uses[p].0 < 6
    requires Spaced(uses, PLACEHOLDERS)
    ensures ReplacePlaceholders(head + Fill(uses, PLACEHOLDERS), values) == head + Fill(uses, values)
  {
    PlaceholdersWellFormed();
    assert values[..0] + PLACEHOLDERS[0..] == PLACEHOLDERS;
    ReplaceEachFill(head, uses, PLACEHOLDERS, values, 0);
    assert PLACEHOLDERS[0..] == PLACEHOLDERS && values[0..] == values;
  }
}
