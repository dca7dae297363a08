/** The store-facing and order-list rules of class-ss-wc.php: the tracking
    status badges, the "Shipping Label" and "Reset Order" columns of the
    order list, the cart's shipping-class check and the checkout meta saved
    for a logged-in customer. */
module WcAdmin {
  import opened Php
  import opened Wp
  import opened Helpers
  import opened LabelFiles
  import opened Tracking
  import UspsCodes
  import Shippo
  import Orders
  import LabelGenerator

  // ---------------------------------------------------------------------
  // Tracking status badges

  /** The look of a tracking status: the "processing" badge, the "failed"
      badge or a plain one. */
  datatype Badge = Processing | Failed | Plain

  /** The `switch` over the status text. */
  function BadgeFor(status: string): (b: Badge)
    ensures b == Processing <==>
              status in {"PRE_TRANSIT", "TRANSIT", "DELIVERED", "pre_transit", "in_transit", "out_for_delivery", "delivered"}
    ensures b == Failed <==> status in {"RETURNED", "FAILURE", "failure", "cancelled", "error"}
  {
    match status
    case "PRE_TRANSIT" => Processing
    case "TRANSIT" => Processing
    case "DELIVERED" => Processing
    case "pre_transit" => Processing
    case "in_transit" => Processing
    case "out_for_delivery" => Processing
    case "delivered" => Processing
    case "RETURNED" => Failed
    case "FAILURE" => Failed
    case "failure" => Failed
    case "cancelled" => Failed
    case "error" => Failed
    case _ => Plain
  }

  const INBOUND_COLUMN := "wdm_tracking_status_inbound"
  const OUTBOUND_COLUMN := "wdm_shippo_outbound_tracking_status"

  /** The two status columns: the inbound one shows the order's inbound
      tracking status, the outbound one the stored Shippo outbound status;
      any other column shows no badge. */
  function StatusBadge(column: string, o: Order): (r: Option<(Badge, string)>)
    ensures r.Some? <==> column == INBOUND_COLUMN || column == OUTBOUND_COLUMN
    ensures column == INBOUND_COLUMN ==> r == Some((BadgeFor(InboundTrackingStatus(o)), InboundTrackingStatus(o)))
    ensures column == OUTBOUND_COLUMN ==> r == Some((BadgeFor(Meta(o, column)), Meta(o, column)))
  {
    if column == INBOUND_COLUMN then
      var s := InboundTrackingStatus(o);
      Some((BadgeFor(s), s))
    else if column == OUTBOUND_COLUMN then
      var s := Meta(o, column);
      Some((BadgeFor(s), s))
    else None
  }

  /** Every state the USPS code translation and the FedEx status map produce
      gets a coloured badge, except the unknown state, which stays plain. */
  lemma TranslatedStatesHaveBadges(code: string, fedex: string)
    ensures UspsCodes.TranslateUsps(code) != "unknown" <==> BadgeFor(UspsCodes.TranslateUsps(code)) != Plain
    ensures Shippo.FedexStatus(fedex) != "UNKNOWN" <==> BadgeFor(Shippo.FedexStatus(fedex)) != Plain
    ensures BadgeFor(UspsCodes.TranslateUsps(code)) == Failed <==> UspsCodes.TranslateUsps(code) == "failure"
    ensures BadgeFor(Shippo.FedexStatus(fedex)) == Failed <==> Shippo.FedexStatus(fedex) == "FAILURE"
  {
    var u := UspsCodes.TranslateUsps(code);
    assert u in {"delivered", "failure", "pre_transit", "in_transit", "unknown"};
    var f := Shippo.FedexStatus(fedex);
    assert f in {"PRE_TRANSIT", "TRANSIT", "DELIVERED", "FAILURE", "UNKNOWN"};
  }

  // ---------------------------------------------------------------------
  // The "Shipping Label" column

  const LABELS_DELETED := "wdm_labels_deleted"

  /** What the column shows: the merged label's link, the outbound and
      inbound links, the note that the labels were removed, the "Generate
      Label" button, or a dash. */
  datatype LabelCell = MergedLink(url: string) | Links(urls: seq<string>) | LabelsRemoved | GenerateButton | Dash

  /** The public address of a stored label: under the upload base URL, the
      same `/shipping/...` path the label file has under the upload
      directory. */
  function LabelUrl(baseUrl: string, id: int, kind: string): string {
    baseUrl + "/shipping/" + IntToString(id) + " " + kind + ".pdf"
  }

  function MergedUrl(baseUrl: string, id: int): string {
    baseUrl + "/shipping/" + IntToString(id) + ".pdf"
  }

  /** `wdm_add_custom_column_data` for the label column. The statuses are
      the saved `wdm_eligible_order_status` option. */
  function LabelColumn(baseUrl: string, id: int, o: Order, eligibleStatuses: seq<string>): (r: LabelCell)
    ensures r.MergedLink? <==> !Empty(Meta(o, FlagKey("merged"))) && Empty(Meta(o, LABELS_DELETED))
    ensures Meta(o, LABELS_DELETED) == "yes" ==> !r.MergedLink? && !r.Links?
    ensures r.LabelsRemoved? ==> Meta(o, LABELS_DELETED) == "yes"
    ensures r.GenerateButton? <==>
              !r.MergedLink? && Empty(Meta(o, FlagKey("outbound"))) && Empty(Meta(o, FlagKey("inbound")))
              && o.status in eligibleStatuses && |o.items| == 1
    ensures r.Links? ==> 1 <= |r.urls| <= 2
                         && (forall u :: u in r.urls ==> u == LabelUrl(baseUrl, id, "outbound") || u == LabelUrl(baseUrl, id, "inbound"))
    ensures r.Links? ==> (LabelUrl(baseUrl, id, "outbound") in r.urls <==> !Empty(Meta(o, FlagKey("outbound"))))
                         && (LabelUrl(baseUrl, id, "inbound") in r.urls <==> !Empty(Meta(o, FlagKey("inbound"))))
                         && r.urls[0] == (if !Empty(Meta(o, FlagKey("outbound"))) then LabelUrl(baseUrl, id, "outbound")
                                          else LabelUrl(baseUrl, id, "inbound"))
    ensures (!r.MergedLink? && Meta(o, LABELS_DELETED) != "yes"
             && (!Empty(Meta(o, FlagKey("outbound"))) || !Empty(Meta(o, FlagKey("inbound")))))
            ==> r.Links?
  {
    if !Empty(Meta(o, FlagKey("merged"))) && Empty(Meta(o, LABELS_DELETED)) then MergedLink(MergedUrl(baseUrl, id))
    else
      var urls := (if !Empty(Meta(o, FlagKey("outbound"))) then [LabelUrl(baseUrl, id, "outbound")] else [])
                  + (if !Empty(Meta(o, FlagKey("inbound"))) then [LabelUrl(baseUrl, id, "inbound")] else []);
      if urls != [] then
        if Meta(o, LABELS_DELETED) == "yes" then LabelsRemoved else Links(urls)
      else if o.status in eligibleStatuses && |o.items| == 1 then GenerateButton
      else Dash
  }

  /** The links point at the files label generation writes: the same path
      below the upload base URL as the file has below the upload
      directory. */
  lemma LinksNameStoredFiles(cfg: Config, baseUrl: string, id: int, kind: string)
    ensures LabelUrl(baseUrl, id, kind)[|baseUrl|..] == LabelFile(cfg, IntToString(id), kind)[|cfg.labelDir|..]
    ensures MergedUrl(baseUrl, id)[|baseUrl|..] == LabelGenerator.MergedFile(cfg, IntToString(id))[|cfg.labelDir|..]
  {
    var tail := "/shipping/" + IntToString(id) + " " + kind + ".pdf";
    assert LabelUrl(baseUrl, id, kind) == baseUrl + tail;
    assert LabelFile(cfg, IntToString(id), kind) == cfg.labelDir + tail;
    TailAfter(baseUrl, tail);
    TailAfter(cfg.labelDir, tail);
    MergedLinkNamesStoredFile(cfg, baseUrl, id);
  }

  /** The merged half of `LinksNameStoredFiles`. */
  lemma MergedLinkNamesStoredFile(cfg: Config, baseUrl: string, id: int)
    ensures MergedUrl(baseUrl, id)[|baseUrl|..] == LabelGenerator.MergedFile(cfg, IntToString(id))[|cfg.labelDir|..]
  {
    var mtail := "/shipping/" + IntToString(id) + ".pdf";
    assert MergedUrl(baseUrl, id) == baseUrl + mtail;
    assert LabelGenerator.MergedFile(cfg, IntToString(id)) == cfg.labelDir + mtail;
    TailAfter(baseUrl, mtail);
    TailAfter(cfg.labelDir, mtail);
  }

  /** What follows a prefix is the rest. */
  lemma TailAfter(head: string, tail: string)
    ensures (head + tail)[|head|..] == tail
  {
  }

  // ---------------------------------------------------------------------
  // The "Reset Order" column

  /** The reset button is enabled for a shipped order, and for a processing
      order whose outbound label exists (an outbound tracking number is
      stored) but whose return label failed: it still has returnable items
      and no inbound partner. */
  predicate ResetEnabled(cfg: Config, o: Order): (r: bool)
    ensures o.status == "shipped" ==> r
    ensures r ==> o.status in {"shipped", "processing"}
    ensures o.status != "shipped" && (Empty(Meta(o, SHIPPO_OUT_NUMBER)) || InboundTrackingPartner(o) != "") ==> !r
  {
    o.status == "shipped"
    || (o.status == "processing" && !Empty(Meta(o, SHIPPO_OUT_NUMBER))
        && ReturnableItems(o, cfg.eligibleClasses) > 0 && InboundTrackingPartner(o) == "")
  }

  /** A label reset takes the order back to processing without its outbound
      tracking number, so the button is disabled afterwards, and the label
      column offers "Generate Label" again exactly when processing orders are
      eligible and the order has one item. */
  lemma ResetOrderLeavesFreshRow(cfg: Config, baseUrl: string, id: int, o: Order)
    requires o.status in {"shipped", "processing"}
    ensures !ResetEnabled(cfg, Orders.ClearLabels(o))
    ensures LabelColumn(baseUrl, id, Orders.ClearLabels(o), cfg.eligibleStatuses) ==
              if "processing" in cfg.eligibleStatuses && |o.items| == 1 then GenerateButton else Dash
  {
    var c := Orders.ClearLabels(o);
    Orders.ClearedOrderFresh(o);
    assert c.status == "processing" && c.items == o.items;
    ClearedOrderUntracked(o);
  }

  /** A cleared order has no outbound tracking number. */
  lemma ClearedOrderUntracked(o: Order)
    requires o.status in {"shipped", "processing"}
    ensures Meta(Orders.ClearLabels(o), SHIPPO_OUT_NUMBER) == ""
  {
    assert Orders.RESET_KEYS[8] == SHIPPO_OUT_NUMBER;
  }

  // ---------------------------------------------------------------------
  // The cart's shipping-class check

  /** `in_array` without `strict`: loose equality against some element. */
  predicate LooseIn(s: string, xs: seq<string>) {
    exists j :: 0 <= j < |xs| && LooseEq(s, xs[j])
  }

  /** The cart (the shipping class of each item) qualifies when it is not
      empty and every item's class is, loosely, an eligible class. */
  predicate CartEligible(cart: seq<string>, eligible: seq<string>) {
    cart != [] && forall i :: 0 <= i < |cart| ==> LooseIn(cart[i], eligible)
  }

  /** `wdm_check_shipping_class`: the loop stops at the first item whose
      class is not eligible. */
  method CheckShippingClass(cart: seq<string>, eligible: seq<string>) returns (r: bool)
    ensures r <==> CartEligible(cart, eligible)
  {
    if cart == [] {
      return false;
    }
    r := true;
    var i := 0;
    while i < |cart|
      invariant 0 <= i <= |cart|
      invariant r
      invariant forall k :: 0 <= k < i ==> LooseIn(cart[k], eligible)
    {
      var found := false;
      var j := 0;
      while j < |eligible| && !found
        invariant 0 <= j <= |eligible|
        invariant found ==> LooseIn(cart[i], eligible)
        invariant !found ==> forall m :: 0 <= m < j ==> !LooseEq(cart[i], eligible[m])
      {
        found := LooseEq(cart[i], eligible[j]);
        j := j + 1;
      }
      if !found {
        r := false;
        break;
      }
      i := i + 1;
    }
  }

  /** Loose comparison lets a class slug written with a leading zero match
      the eligible one: a cart of "0" + s items qualifies when s does. */
  lemma LeadingZeroClassQualifies(s: string, eligible: seq<string>)
    requires IsDigits(s)
    ensures CartEligible(["0" + s], eligible) <==> CartEligible([s], eligible)
  {
    forall j | 0 <= j < |eligible|
      ensures LooseEq("0" + s, eligible[j]) <==> LooseEq(s, eligible[j])
    {
      LooseEqLeadingZero(s, eligible[j]);
    }
    assert CartEligible(["0" + s], eligible) <==> LooseIn("0" + s, eligible) by {
      assert ["0" + s][0] == "0" + s;
    }
    assert CartEligible([s], eligible) <==> LooseIn(s, eligible) by {
      assert [s][0] == s;
    }
  }

  // ---------------------------------------------------------------------
  // Checkout meta

  const MACHINE_KEY := "machine_type"
  const DEFAULT_MACHINE_KEY := "wdm_default_machine_type"
  const USER_PARTNER_KEY := "wdm_return_partner"

  /** `get_user_meta($user, $key, true)`: "" when unset. */
  function UserMetaValue(userMeta: map<int, map<string, string>>, user: int, key: string): string {
    var m := UserMetaOf(userMeta, user);
    if key in m then m[key] else ""
  }

  /** `save_custom_field_in_order_meta`: nothing for a guest (user 0);
      otherwise the posted machine type, when non-empty, is stored on the
      order and remembered as the customer's default, and a missing one is
      replaced by that default; a cart that passes the shipping-class check
      sets the return partner to "usps" on the order and the customer. */
  function CheckoutMetaSpec(orders: map<int, Order>, userMeta: map<int, map<string, string>>, user: int,
                            id: int, machine: Option<string>, cartOk: bool): (r: (map<int, Order>, map<int, map<string, string>>))
    requires id in orders
    ensures r.0.Keys == orders.Keys
    ensures user == 0 ==> r == (orders, userMeta)
    ensures forall k :: k in orders && k != id ==> r.0[k] == orders[k]
    ensures forall u :: u in userMeta && u != user ==> u in r.1 && r.1[u] == userMeta[u]
  {
    if user == 0 then (orders, userMeta)
    else
      var given := machine.Some? && !Empty(machine.value);
      var value := if given then machine.value else UserMetaValue(userMeta, user, DEFAULT_MACHINE_KEY);
      var um1 := if given then userMeta[user := UserMetaOf(userMeta, user)[DEFAULT_MACHINE_KEY := value]] else userMeta;
      var o1 := SetMeta(orders[id], MACHINE_KEY, value);
      if cartOk then
        (orders[id := SetMeta(o1, "return_partner", "usps")],
         um1[user := UserMetaOf(um1, user)[USER_PARTNER_KEY := "usps"]])
      else (orders[id := o1], um1)
  }

  /** What a logged-in customer's checkout leaves on the order: the machine
      type given, or the remembered default ("" when none); the return
      partner "usps" when the cart qualifies and otherwise whatever was
      there. */
  lemma CheckoutMetaStored(orders: map<int, Order>, userMeta: map<int, map<string, string>>, user: int,
                           id: int, machine: Option<string>, cartOk: bool)
    requires id in orders && user != 0
    ensures var r := CheckoutMetaSpec(orders, userMeta, user, id, machine, cartOk);
            Meta(r.0[id], MACHINE_KEY) ==
              (if machine.Some? && !Empty(machine.value) then machine.value else UserMetaValue(userMeta, user, DEFAULT_MACHINE_KEY))
            && Meta(r.0[id], "return_partner") == (if cartOk then "usps" else Meta(orders[id], "return_partner"))
            && (cartOk ==> UserMetaValue(r.1, user, USER_PARTNER_KEY) == "usps")
  {
  }

  /** A machine type given at one checkout is the one a later checkout of the
      same customer without a machine type stores on its order. */
  lemma MachineTypeRemembered(orders: map<int, Order>, userMeta: map<int, map<string, string>>, user: int,
                              first: int, second: int, machine: string, cartOk1: bool, cartOk2: bool)
    requires first in orders && second in orders && user != 0 && !Empty(machine)
    ensures var r1 := CheckoutMetaSpec(orders, userMeta, user, first, Some(machine), cartOk1);
            var r2 := CheckoutMetaSpec(r1.0, r1.1, user, second, None, cartOk2);
            Meta(r2.0[second], MACHINE_KEY) == machine
  {
    var r1 := CheckoutMetaSpec(orders, userMeta, user, first, Some(machine), cartOk1);
    assert UserMetaValue(r1.1, user, DEFAULT_MACHINE_KEY) == machine;
    CheckoutMetaStored(r1.0, r1.1, user, second, None, cartOk2);
  }

  /** The checkout hook, writing through the database primitives. */
  method SaveCustomFieldInOrderMeta(site: Site, user: int, id: int, machine: Option<string>,
                                    cart: seq<string>, eligible: seq<string>)
    requires id in site.orders
    modifies site`orders, site`userMeta
    ensures (site.orders, site.userMeta) ==
              CheckoutMetaSpec(old(site.orders), old(site.userMeta), user, id, machine, CartEligible(cart, eligible))
  {
    if user == 0 {
      return;
    }
    ghost var o0 := site.orders[id];
    ghost var um0 := site.userMeta;
    if machine.Some? && !Empty(machine.value) {
      site.UpdateMeta(id, MACHINE_KEY, machine.value);
      site.UpdateUserMeta(user, DEFAULT_MACHINE_KEY, machine.value);
    } else {
      var value := UserMetaValue(site.userMeta, user, DEFAULT_MACHINE_KEY);
      site.UpdateMeta(id, MACHINE_KEY, value);
    }
    ghost var value := if machine.Some? && !Empty(machine.value) then machine.value else UserMetaValue(um0, user, DEFAULT_MACHINE_KEY);
    assert site.orders == old(site.orders)[id := SetMeta(o0, MACHINE_KEY, value)];
    ghost var um1 := site.userMeta;
    ghost var spec := CheckoutMetaSpec(old(site.orders), um0, user, id, machine, CartEligible(cart, eligible));
    var ok := CheckShippingClass(cart, eligible);
    if ok {
      site.UpdateMeta(id, "return_partner", "usps");
      site.UpdateUserMeta(user, USER_PARTNER_KEY, "usps");
      assert site.orders == old(site.orders)[id := SetMeta(SetMeta(o0, MACHINE_KEY, value), "return_partner", "usps")];
      assert site.orders == spec.0;
      assert site.userMeta == spec.1;
    }
  }
}
