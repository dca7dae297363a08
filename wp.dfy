/** The WordPress / WooCommerce / Action Scheduler state the plugin reads
    and writes, seen as one database (`Site`): orders with their meta, notes
    and scheduled-refund descriptors, refund records, the queue of pending
    scheduled actions, the cached carrier tokens, user meta and the plugin's
    saved options. Meta values are the strings the database stores: `true`
    is stored as "1" and integers in their decimal form. */
module Wp {
  import opened Php

  /** Meta value `update_post_meta(..., true)` leaves behind. */
  const TRUE_FLAG := "1"

  datatype LineItem = LineItem(productId: int, shippingClass: string, quantity: int)

  /** One entry of the `scheduled_refund_obj` order meta: the refund record it
      belongs to and the arguments WooCommerce built for it. Amounts are in
      cents. */
  datatype RefundRequest = RefundRequest(refundId: int, refundPayment: bool, restockItems: bool, amount: int)

  /** A fee line added to an order (name, amount in cents). */
  datatype Fee = Fee(name: string, amount: int)

  datatype Order = Order(
    status: string,                       // without the "wc-" prefix
    meta: map<string, string>,
    items: seq<LineItem>,
    customerId: int,                      // 0 for a guest
    notes: seq<string>,
    refundRequests: seq<RefundRequest>,   // meta scheduled_refund_obj
    remainingRefund: int,                 // total minus what is already refunded
    total: int,
    totalRefunded: int,
    itemCount: int,
    itemsRefunded: int,
    fees: seq<Fee>,
    created: int,
    shipping: string,                     // formatted shipping address, "" when absent
    billing: string)

  /** `get_meta($key, true)`: a missing key reads as "". */
  function Meta(o: Order, key: string): (v: string)
    ensures key !in o.meta ==> v == ""
    ensures key in o.meta ==> v == o.meta[key]
  {
    if key in o.meta then o.meta[key] else ""
  }

  /** The order with meta `key` set to `value`. */
  function SetMeta(o: Order, key: string, value: string): Order {
    o.(meta := o.meta[key := value])
  }

  /** `add_post_meta($id, $key, $value, true)`: only a missing key is added. */
  function AddMetaOnce(o: Order, key: string, value: string): Order {
    if key in o.meta then o else SetMeta(o, key, value)
  }

  /** `add_item` of a non-taxable fee line followed by `calculate_totals`:
      the fee is listed and counted in the total. */
  function WithFee(o: Order, fee: Fee): Order {
    o.(fees := o.fees + [fee], total := o.total + fee.amount)
  }

  /** The order with one more note. */
  function WithNote(o: Order, note: string): Order {
    o.(notes := o.notes + [note])
  }

  /** A WooCommerce refund record (its own post) and the meta the plugin reads. */
  datatype Refund = Refund(refundedPayment: bool, failure: string)

  /** A scalar argument as it is serialised by the scheduler: an integer and
      its decimal string are different arguments. */
  datatype Scalar = IntArg(n: int) | StrArg(s: string)

  /** The argument arrays the plugin passes to Action Scheduler. */
  datatype Args =
    | NoArgs                                              // array() or null
    | OrderIdArg(orderId: int)                            // array('order_id' => id)
    | ChargeArgs(orderId: int, customerId: string, secretKey: string)
    | OrderArg(id: int)                                   // array(id)
    | LabelFileArgs(order: Scalar, file: string)          // array('order' => .., 'file' => ..)
    | TrackingArgs(number: string, status: string)        // array(number, status)

  /** How an action is looked up: with exactly these arguments, or (when the
      source passes `null`) with any arguments. */
  datatype ArgsFilter = Exactly(args: Args) | AnyArgs

  datatype Action = Action(time: int, hook: string, args: Args)

  predicate Matches(a: Action, hook: string, f: ArgsFilter) {
    a.hook == hook && (f.AnyArgs? || a.args == f.args)
  }

  /** The pending action `as_next_scheduled_action` / `as_unschedule_action`
      pick: the earliest matching one, the first queued among equal times. */
  function EarliestIndex(q: seq<Action>, hook: string, f: ArgsFilter): (r: Option<nat>)
    ensures r.None? <==> forall j :: 0 <= j < |q| ==> !Matches(q[j], hook, f)
    ensures r.Some? ==> r.value < |q| && Matches(q[r.value], hook, f)
    ensures r.Some? ==> forall j :: 0 <= j < |q| && Matches(q[j], hook, f) ==> q[r.value].time <= q[j].time
    ensures r.Some? ==> forall j :: 0 <= j < r.value && Matches(q[j], hook, f) ==> q[r.value].time < q[j].time
  {
    if q == [] then None
    else
      var r := EarliestIndex(q[..|q| - 1], hook, f);
      assert forall j :: 0 <= j < |q| - 1 ==> q[..|q| - 1][j] == q[j];
      var last := q[|q| - 1];
      if !Matches(last, hook, f) then r
      else if r.None? || last.time < q[r.value].time then Some(|q| - 1)
      else r
  }

  /** `as_next_scheduled_action`: the time of the next pending matching
      action; `None` stands for the `false` the source receives when there is
      none. The queue holds pending actions only: an action that is already
      running, for which the source receives `true`, is not modelled. The two
      readings agree where the caller tests `is_bool`, as
      `wdm_remove_scheduled_actions` does. */
  function NextScheduled(q: seq<Action>, hook: string, f: ArgsFilter): (t: Option<int>)
    ensures t.None? <==> forall a :: a in q ==> !Matches(a, hook, f)
    ensures t.Some? ==> exists a :: a in q && Matches(a, hook, f) && a.time == t.value
    ensures t.Some? ==> forall a :: a in q && Matches(a, hook, f) ==> t.value <= a.time
  {
    var i := EarliestIndex(q, hook, f);
    if i.None? then None else Some(q[i.value].time)
  }

  /** `as_unschedule_action`: cancels the next matching action; `found` is
      false where the source receives `null`. */
  function Unschedule(q: seq<Action>, hook: string, f: ArgsFilter): (r: (seq<Action>, bool))
    ensures !r.1 <==> r.0 == q && forall a :: a in q ==> !Matches(a, hook, f)
    ensures r.1 ==> |r.0| + 1 == |q|
  {
    var i := EarliestIndex(q, hook, f);
    if i.None? then (q, false) else (q[..i.value] + q[i.value + 1..], true)
  }

  /** `as_unschedule_all_actions`: drops every matching pending action. */
  function UnscheduleAll(q: seq<Action>, hook: string, f: ArgsFilter): (r: seq<Action>)
    ensures forall a :: a in r <==> a in q && !Matches(a, hook, f)
    ensures |r| <= |q|
  {
    if q == [] then []
    else
      var rest := UnscheduleAll(q[1..], hook, f);
      assert forall a :: a in q <==> a == q[0] || a in q[1..];
      if Matches(q[0], hook, f) then rest else [q[0]] + rest
  }

  /** The pending actions a lookup does not touch. */
  function Others(q: seq<Action>, hook: string, f: ArgsFilter): seq<Action> {
    if q == [] then []
    else if Matches(q[0], hook, f) then Others(q[1..], hook, f)
    else [q[0]] + Others(q[1..], hook, f)
  }

  lemma {:induction false} OthersAppend(a: seq<Action>, b: seq<Action>, hook: string, f: ArgsFilter)
    ensures Others(a + b, hook, f) == Others(a, hook, f) + Others(b, hook, f)
  {
    if a == [] {
      assert a + b == b;
    } else {
      assert (a + b)[1..] == a[1..] + b;
      OthersAppend(a[1..], b, hook, f);
    }
  }

  /** Cancelling the next action of one hook and argument list leaves every
      other pending action, in order, where it was. */
  lemma UnscheduleKeepsOthers(q: seq<Action>, hook: string, f: ArgsFilter)
    ensures Others(Unschedule(q, hook, f).0, hook, f) == Others(q, hook, f)
  {
    var i := EarliestIndex(q, hook, f);
    if i.Some? {
      var k := i.value;
      assert q == q[..k] + ([q[k]] + q[k + 1..]);
      OthersAppend(q[..k], [q[k]] + q[k + 1..], hook, f);
      OthersAppend([q[k]], q[k + 1..], hook, f);
      OthersAppend(q[..k], q[k + 1..], hook, f);
    }
  }

  /** Cancelling only removes. */
  lemma UnscheduleSubset(q: seq<Action>, hook: string, f: ArgsFilter, b: Action)
    requires b in Unschedule(q, hook, f).0
    ensures b in q
  {
    var i := EarliestIndex(q, hook, f);
    if i.Some? {
      var k := i.value;
      var r := q[..k] + q[k + 1..];
      var j :| 0 <= j < |r| && r[j] == b;
      if j < k { assert q[j] == b; } else { assert q[j + 1] == b; }
    }
  }

  /** Cancelling removes exactly the action the scheduler reports as next. */
  lemma UnscheduleRemovesNext(q: seq<Action>, hook: string, f: ArgsFilter)
    requires NextScheduled(q, hook, f).Some?
    ensures var r := Unschedule(q, hook, f);
      r.1 && (exists a :: Matches(a, hook, f) && a.time == NextScheduled(q, hook, f).value
                          && multiset(r.0) + multiset{a} == multiset(q))
  {
    var k := EarliestIndex(q, hook, f).value;
    var rest := q[..k] + q[k + 1..];
    assert Unschedule(q, hook, f) == (rest, true);
    assert q == q[..k] + [q[k]] + q[k + 1..];
    assert multiset(rest) + multiset{q[k]} == multiset(q);
    assert Matches(q[k], hook, f) && q[k].time == NextScheduled(q, hook, f).value;
  }

  /** An action just scheduled is found again unless an earlier one with the
      same hook and arguments is pending. */
  lemma NextAfterSchedule(q: seq<Action>, t: int, hook: string, args: Args)
    ensures var n := NextScheduled(q + [Action(t, hook, args)], hook, Exactly(args));
      var old_n := NextScheduled(q, hook, Exactly(args));
      n == Some(if old_n.Some? && old_n.value <= t then old_n.value else t)
  {
    var q' := q + [Action(t, hook, args)];
    assert q'[..|q'| - 1] == q;
  }

  /** The Stripe gateway settings the plugin reads (`woocommerce_stripe_settings`). */
  datatype StripeKeys = StripeKeys(secretKey: string, testSecretKey: string, testMode: string)

  /** Read-only configuration: the plugin option array `custom_plugin_options`,
      the separate options the plugin reads, the order statuses WooCommerce
      has registered (keys such as "wc-shipped"), and whether the request is
      an AJAX request (`wp_doing_ajax`). */
  datatype Config = Config(
    options: map<string, string>,
    shippingPartner: string,              // wdm_shipping_partner_selector
    stripe: Option<StripeKeys>,           // None when the settings are empty
    registered: set<string>,
    eligibleClasses: seq<string>,         // wdm_eligible_shipping_classes
    eligibleStatuses: seq<string>,        // wdm_eligible_order_status
    shippoTestMode: string,               // wdm_shippo_test_mode, default "Yes"
    easypostTestMode: string,             // wdm_easypost_test_mode, default "Yes"
    labelDir: string,                     // upload base directory
    ajax: bool)

  /** `$options[$key]`, "" when unset. */
  function Opt(cfg: Config, key: string): string {
    if key in cfg.options then cfg.options[key] else ""
  }

  /** `! empty($options[$key]) ? intval($options[$key]) : $default`, the
      pattern every configurable day count uses. */
  function DaysOr(cfg: Config, key: string, default: int): int {
    if Empty(Opt(cfg, key)) then default else IntVal(Opt(cfg, key))
  }

  const DAY := 86400

  /** Cached API token stored as an option: the token and its expiry time. */
  datatype Token = Token(accessToken: string, expiresAt: int)

  /** The part of the database the plugin's operations change: orders,
      refund records, the scheduler queue, the label files under the upload
      directory (path to contents) and the cached API tokens (option name to
      token). */
  datatype Store = Store(orders: map<int, Order>, refunds: map<int, Refund>, queue: seq<Action>,
                         files: map<string, string>, tokens: map<string, Token>)

  /** A query that found exactly one post (`post_count === 1`). */
  predicate IsSingleton(s: set<int>) {
    exists x :: x in s && s == {x}
  }

  /** The only member of a one-element set. */
  ghost function Only(s: set<int>): (x: int)
    requires IsSingleton(s)
    ensures x in s && s == {x}
  {
    var e :| e in s && s == {e};
    e
  }

  /** A user's meta, empty for a user without any. */
  function UserMetaOf(userMeta: map<int, map<string, string>>, user: int): map<string, string> {
    if user in userMeta then userMeta[user] else map[]
  }

  /** A saved WordPress option: a string or a list of strings. */
  datatype OptionValue = Text(text: string) | List(items: seq<string>)

  /** The database. Every operation of the plugin reads and writes it through
      the primitives below, which mirror the WordPress functions they are
      named after. */
  class Site {
    var orders: map<int, Order>
    var refunds: map<int, Refund>
    var queue: seq<Action>
    var files: map<string, string>
    var tokens: map<string, Token>
    var userMeta: map<int, map<string, string>>
    var options: map<string, OptionValue>  // options saved by the settings page

    constructor (orders: map<int, Order>)
      ensures this.orders == orders && refunds == map[] && queue == []
      ensures files == map[] && tokens == map[]
      ensures userMeta == map[] && options == map[]
    {
      this.orders := orders;
      refunds := map[];
      queue := [];
      files := map[];
      tokens := map[];
      userMeta := map[];
      options := map[];
    }

    function Snapshot(): Store
      reads this
    {
      Store(orders, refunds, queue, files, tokens)
    }

    /** Sets one meta value of an order, replacing any earlier value
        (`update_post_meta`, or `update_meta_data` and a save). */
    method UpdateMeta(id: int, key: string, value: string)
      requires id in orders
      modifies this`orders
      ensures orders == old(orders)[id := SetMeta(old(orders)[id], key, value)]
    {
      orders := orders[id := SetMeta(orders[id], key, value)];
    }

    /** `add_post_meta` / `add_meta_data`: a single-valued read keeps seeing
        the first value, so a key already present reads unchanged. */
    method AddMeta(id: int, key: string, value: string)
      requires id in orders
      modifies this`orders
      ensures key in old(orders)[id].meta ==> orders == old(orders)
      ensures orders == old(orders)[id := AddMetaOnce(old(orders)[id], key, value)]
    {
      orders := orders[id := AddMetaOnce(orders[id], key, value)];
    }

    /** Removes one meta key of an order (`delete_post_meta`). */
    method DeleteMeta(id: int, key: string)
      requires id in orders
      modifies this`orders
      ensures orders == old(orders)[id := old(orders)[id].(meta := old(orders)[id].meta - {key})]
    {
      orders := orders[id := orders[id].(meta := orders[id].meta - {key})];
    }

    /** Moves the order to another status. WooCommerce's own
        "status changed" note that comes with it is not modelled. */
    method UpdateStatus(id: int, status: string)
      requires id in orders
      modifies this`orders
      ensures orders == old(orders)[id := old(orders)[id].(status := status)]
    {
      orders := orders[id := orders[id].(status := status)];
    }

    /** Appends a note to the order's notes. */
    method AddNote(id: int, note: string)
      requires id in orders
      modifies this`orders
      ensures orders == old(orders)[id := WithNote(old(orders)[id], note)]
    {
      orders := orders[id := WithNote(orders[id], note)];
    }

    /** A fee line added to the order and the totals recalculated. */
    method AddFee(id: int, fee: Fee)
      requires id in orders
      modifies this`orders
      ensures orders == old(orders)[id := WithFee(old(orders)[id], fee)]
    {
      orders := orders[id := WithFee(orders[id], fee)];
    }

    /** Sets one meta value of a user (`update_user_meta`). */
    method UpdateUserMeta(user: int, key: string, value: string)
      modifies this`userMeta
      ensures userMeta == old(userMeta)[user := UserMetaOf(old(userMeta), user)[key := value]]
    { userMeta := userMeta[user := UserMetaOf(userMeta, user)[key := value]]; }

    /** Sets one site option (`update_option`). */
    method UpdateOption(name: string, value: OptionValue)
      modifies this`options
      ensures options == old(options)[name := value]
    { options := options[name := value]; }

    /** A new order, built in memory, saved under the id WooCommerce gave it. */
    method CreateOrder(id: int, o: Order)
      requires id !in orders
      modifies this`orders
      ensures orders == old(orders)[id := o]
    {
      orders := orders[id := o];
    }

    /** A refund record's fields, saved. */
    method SetRefund(refundId: int, r: Refund)
      modifies this`refunds
      ensures refunds == old(refunds)[refundId := r]
    {
      refunds := refunds[refundId := r];
    }

    /** `put_contents` that succeeded. */
    method WriteFile(path: string, data: string)
      modifies this`files
      ensures files == old(files)[path := data]
    {
      files := files[path := data];
    }

    /** `wp_delete_file`. */
    method DeleteFile(path: string)
      modifies this`files
      ensures files == old(files) - {path}
    {
      files := files - {path};
    }

    /** `update_option` of a cached token. */
    method SetToken(key: string, t: Token)
      modifies this`tokens
      ensures tokens == old(tokens)[key := t]
    {
      tokens := tokens[key := t];
    }

    /** `as_schedule_single_action`. */
    method Schedule(time: int, hook: string, args: Args)
      modifies this`queue
      ensures queue == old(queue) + [Action(time, hook, args)]
    {
      queue := queue + [Action(time, hook, args)];
    }

    /** `as_unschedule_action`. */
    method UnscheduleNext(hook: string, f: ArgsFilter) returns (found: bool)
      modifies this`queue
      ensures (queue, found) == Unschedule(old(queue), hook, f)
    {
      var r := Unschedule(queue, hook, f);
      queue, found := r.0, r.1;
    }

    /** `as_unschedule_all_actions`. */
    method UnscheduleEvery(hook: string, f: ArgsFilter)
      modifies this`queue
      ensures queue == UnscheduleAll(old(queue), hook, f)
    {
      queue := UnscheduleAll(queue, hook, f);
    }
  }

  /** The PHP session (`$_SESSION`) of the admin user: the refund-dialog
      checkbox (`wdm_checkbox_checked`), whether the non-return fee is to be
      refunded (`refund_ret_fee`), and the orders whose
      `scheduled_refund_<id>` flag is set (it is only ever set to true). */
  class Session {
    var checkboxChecked: Option<bool>
    var refundRetFee: Option<bool>
    var scheduledRefund: set<int>

    constructor ()
      ensures checkboxChecked == None && refundRetFee == None && scheduledRefund == {}
    {
      checkboxChecked := None;
      refundRetFee := None;
      scheduledRefund := {};
    }
  }

  /** Orders whose meta `key` equals `value` (a `meta_query` with '='). */
  function OrdersWithMeta(orders: map<int, Order>, key: string, value: string): (ids: set<int>)
    ensures forall id :: id in ids <==> id in orders && key in orders[id].meta && orders[id].meta[key] == value
  {
    set id | id in orders && key in orders[id].meta && orders[id].meta[key] == value
  }
}
