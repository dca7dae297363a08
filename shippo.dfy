/** The Shippo integration (trait-shippo.php): choosing a rate from the
    paginated rate list, buying a label (outbound, then at most one nested
    return label guarded by the `generating_return_label` marker), FedEx
    tracking through Shippo-style states with its cached FedEx token, and the
    delivery-failed check. Every HTTP reply is an input. */
module Shippo {
  import opened Php
  import opened Wp
  import opened Helpers
  import opened LabelFiles
  import opened Tracking

  // ---------------------------------------------------------------------
  // Rates (`get_rates`)

  /** One entry of a rate page's `results`: a rate object, or something that
      is not an object and is skipped. */
  datatype RateEntry = Rate(carrierAccount: string, serviceLevel: string, objectId: string) | NotAnObject

  predicate RateMatches(e: RateEntry, account: string, level: string) {
    e.Rate? && e.carrierAccount == account && e.serviceLevel == level
  }

  /** The pages' results concatenated in the order they were fetched. */
  function Flatten(pages: seq<seq<RateEntry>>): (r: seq<RateEntry>)
    ensures pages == [] ==> r == []
  {
    if pages == [] then [] else Flatten(pages[..|pages| - 1]) + pages[|pages| - 1]
  }

  /** The object id of the first entry with the carrier account and service
      level, if any. */
  function FirstMatch(rates: seq<RateEntry>, account: string, level: string): (r: Option<string>)
    ensures r.None? <==> forall i :: 0 <= i < |rates| ==> !RateMatches(rates[i], account, level)
    ensures r.Some? ==> exists i :: 0 <= i < |rates| && RateMatches(rates[i], account, level) && rates[i].objectId == r.value
                                    && forall j :: 0 <= j < i ==> !RateMatches(rates[j], account, level)
  {
    if rates == [] then None
    else if RateMatches(rates[0], account, level) then Some(rates[0].objectId)
    else
      var r := FirstMatch(rates[1..], account, level);
      assert forall i :: 1 <= i < |rates| ==> rates[i] == rates[1..][i - 1];
      if r.Some? then
        var k :| 0 <= k < |rates[1..]| && RateMatches(rates[1..][k], account, level) && rates[1..][k].objectId == r.value
                 && forall j :: 0 <= j < k ==> !RateMatches(rates[1..][j], account, level);
        assert RateMatches(rates[k + 1], account, level);
        r
      else r
  }

  /** A match on an earlier page wins over any later page. */
  lemma {:induction false} FirstMatchAppend(a: seq<RateEntry>, b: seq<RateEntry>, account: string, level: string)
    ensures FirstMatch(a + b, account, level) ==
              if FirstMatch(a, account, level).Some? then FirstMatch(a, account, level) else FirstMatch(b, account, level)
  {
    if a != [] {
      assert (a + b)[1..] == a[1..] + b;
      FirstMatchAppend(a[1..], b, account, level);
    } else {
      assert a + b == b;
    }
  }

  /** `get_rates`: nothing unless the first page came back with 200;
      otherwise the first matching rate's object id, and nothing when none
      matches or its id is empty. */
  function RatesSpec(code: int, pages: seq<seq<RateEntry>>, account: string, level: string): (r: Option<string>)
    ensures r.Some? ==> !Empty(r.value) && code == 200
    ensures code == 200 && (forall i :: 0 <= i < |Flatten(pages)| ==> !RateMatches(Flatten(pages)[i], account, level)) ==> r.None?
  {
    if code != 200 then None
    else
      var m := FirstMatch(Flatten(pages), account, level);
      if m.Some? && !Empty(m.value) then m else None
  }

  /** `get_rates` as the source runs it: the pages are accumulated one after
      the other, then scanned until the first match. */
  method GetRates(code: int, pages: seq<seq<RateEntry>>, account: string, level: string) returns (rate: Option<string>)
    ensures rate == RatesSpec(code, pages, account, level)
  {
    if code != 200 {
      return None;
    }
    var rates: seq<RateEntry> := [];
    var p := 0;
    while p < |pages|
      invariant 0 <= p <= |pages|
      invariant rates == Flatten(pages[..p])
    {
      assert pages[..p + 1][..p] == pages[..p];
      rates := rates + pages[p];
      p := p + 1;
    }
    assert pages[..|pages|] == pages;
    var found := FindRate(rates, account, level);
    rate := if found.Some? && !Empty(found.value) then found else None;
  }

  /** The rate loop: the entries are scanned in order and the scan stops at
      the first one with the carrier account and service level. */
  method FindRate(rates: seq<RateEntry>, account: string, level: string) returns (found: Option<string>)
    ensures found == FirstMatch(rates, account, level)
  {
    found := None;
    var i := 0;
    while i < |rates|
      invariant 0 <= i <= |rates|
      invariant found.None? ==> forall j :: 0 <= j < i ==> !RateMatches(rates[j], account, level)
      invariant found.Some? ==> found == FirstMatch(rates, account, level)
      decreases |rates| - i, if found.None? then 1 else 0
    {
      if found.Some? {
        break;
      }
      if rates[i].NotAnObject? {
        i := i + 1;
        continue;
      }
      if rates[i].carrierAccount == account && rates[i].serviceLevel == level {
        found := Some(rates[i].objectId);
        FirstMatchAt(rates, i, account, level);
      }
      i := i + 1;
    }
    if found.None? {
      assert FirstMatch(rates, account, level).None?;
    }
  }

  /** The first match is the one at the first matching index. */
  lemma {:induction false} FirstMatchAt(rates: seq<RateEntry>, i: int, account: string, level: string)
    requires 0 <= i < |rates| && RateMatches(rates[i], account, level)
    requires forall j :: 0 <= j < i ==> !RateMatches(rates[j], account, level)
    ensures FirstMatch(rates, account, level) == Some(rates[i].objectId)
  {
    if i > 0 {
      assert forall j :: 0 <= j < i - 1 ==> rates[1..][j] == rates[j + 1];
      FirstMatchAt(rates[1..], i - 1, account, level);
    }
  }

  // ---------------------------------------------------------------------
  // Labels (`wdm_generate_shipping_label_shippo`)

  const MARKER := "generating_return_label"
  const CHECK_HOOK := "wdm_check_tracking_updates"
  const FAILED_HOOK := "wdm_delivery_failed_notification"
  const NO_SHIPMENT := "Unable to create shipment"
  const NO_RATE := "Unable to get the desired rate"
  const NO_LABEL := "Unable to create the shipping label"

  /** The transaction reply as far as it is read. */
  datatype Transaction = Transaction(status: string, labelUrl: string, trackingUrl: string, trackingNumber: string,
                                     trackingStatus: string, objectId: string)

  /** The replies one label purchase gets: the created shipment's id ("" when
      creating it failed), the rate pages, the transaction (None for an empty
      response), the label file fetched from its URL and whether writing it
      succeeded. */
  datatype ShippoCall = ShippoCall(shipmentId: string, ratesCode: int, pages: seq<seq<RateEntry>>,
                                   transaction: Option<Transaction>, labelData: string, written: bool)

  /** How one purchase ended: an error (thrown, or sent as a JSON error,
      which ends the request), an empty transaction reply (the function just
      returns), or a stored label. */
  datatype Step = Failed(msg: string) | Stopped | Labelled

  /** The recursion guard is absent or holds a non-empty value (a present
      empty value would let the nested call recurse again). */
  predicate MarkerOk(o: Order) {
    MARKER !in o.meta || !Empty(o.meta[MARKER])
  }

  /** Carrier account and service level: outbound ones for the outbound label,
      inbound ones for the return label. */
  function Account(cfg: Config, ret: bool): string {
    if ret then Opt(cfg, "wdm_shippo_inbound_carrier_account") else Opt(cfg, "wdm_shippo_outbound_carrier_account")
  }

  function ServiceLevel(cfg: Config, ret: bool): string {
    if ret then Opt(cfg, "wdm_shippo_inbound_service_level") else Opt(cfg, "wdm_shippo_outbound_service_level")
  }

  /** The meta keys a bought label writes: the outbound or the inbound
      tracking keys; the outbound label also records its carrier token and
      when it entered pre-transit. */
  function TxnKeys(ret: bool): set<string> {
    if ret then {"wdm_shippo_inbound_tracking_url", SHIPPO_IN_NUMBER, SHIPPO_IN_STATUS, "wdm_shippo_inbound_transaction_id"}
    else {"wdm_shippo_outbound_tracking_url", SHIPPO_OUT_NUMBER, SHIPPO_OUT_STATUS, "wdm_shippo_outbound_transaction_id",
          "wdm_shippo_outbound_carrier_token", "pre_transit_time"}
  }

  /** The tracking meta a bought label records. The pre-transit time is
      added only if the order has none yet. */
  function RecordTransaction(o: Order, cfg: Config, ret: bool, t: Transaction, now: int): (r: Order)
    ensures r == o.(meta := r.meta)
    ensures forall k :: k !in TxnKeys(ret) ==> (k in r.meta <==> k in o.meta) && Meta(r, k) == Meta(o, k)
    ensures Meta(r, if ret then SHIPPO_IN_NUMBER else SHIPPO_OUT_NUMBER) == t.trackingNumber
    ensures Meta(r, if ret then SHIPPO_IN_STATUS else SHIPPO_OUT_STATUS) == t.trackingStatus
    ensures !ret ==> Meta(r, "pre_transit_time") == if "pre_transit_time" in o.meta then o.meta["pre_transit_time"] else IntToString(now)
  {
    if !ret then OutboundTransaction(o, cfg, t, now) else InboundTransaction(o, t)
  }

  /** The outbound half of `RecordTransaction`: the tracking keys, then the
      transaction keys. */
  function OutboundTransaction(o: Order, cfg: Config, t: Transaction, now: int): Order {
    OutboundIds(OutboundTracking(o, t), cfg, t, now)
  }

  /** Tracking URL, number and status of the outbound label. */
  function OutboundTracking(o: Order, t: Transaction): Order {
    var o1 := SetMeta(o, "wdm_shippo_outbound_tracking_url", t.trackingUrl);
    SetMeta(SetMeta(o1, SHIPPO_OUT_NUMBER, t.trackingNumber), SHIPPO_OUT_STATUS, t.trackingStatus)
  }

  /** Transaction id, carrier token and first pre-transit time. */
  function OutboundIds(o: Order, cfg: Config, t: Transaction, now: int): Order {
    var o1 := SetMeta(o, "wdm_shippo_outbound_transaction_id", t.objectId);
    var o2 := SetMeta(o1, "wdm_shippo_outbound_carrier_token", Opt(cfg, "wdm_shippo_outbound_carrier_token"));
    AddMetaOnce(o2, "pre_transit_time", IntToString(now))
  }

  /** The inbound half of `RecordTransaction`. */
  function InboundTransaction(o: Order, t: Transaction): Order {
    var o1 := SetMeta(SetMeta(o, "wdm_shippo_inbound_tracking_url", t.trackingUrl), SHIPPO_IN_NUMBER, t.trackingNumber);
    SetMeta(SetMeta(o1, SHIPPO_IN_STATUS, t.trackingStatus), "wdm_shippo_inbound_transaction_id", t.objectId)
  }

  /** An outbound label schedules a tracking check in 7 days and a
      delivery-failed check in 15. */
  function BoughtQueue(q: seq<Action>, id: int, ret: bool, now: int): seq<Action> {
    if ret then q else q + [Action(now + DAY * 7, CHECK_HOOK, OrderArg(id)), Action(now + DAY * 15, FAILED_HOOK, OrderArg(id))]
  }

  /** A successful transaction: the tracking meta is recorded, the checks
      of an outbound label are scheduled, and the label fetched from its URL
      is stored. The recursion guard is left as it was. */
  function Bought(db: Store, cfg: Config, id: int, ret: bool, c: ShippoCall, t: Transaction, now: int): (r: Store)
    requires id in db.orders
    ensures r.orders.Keys == db.orders.Keys && r.refunds == db.refunds && r.tokens == db.tokens
    ensures MARKER in r.orders[id].meta <==> MARKER in db.orders[id].meta
    ensures Meta(r.orders[id], MARKER) == Meta(db.orders[id], MARKER)
  {
    var kind := if ret then "inbound" else "outbound";
    assert MARKER[0] != FlagKey(kind)[0] && MARKER !in TxnKeys(ret);
    var o1 := RecordTransaction(db.orders[id], cfg, ret, t, now);
    var db1 := db.(orders := db.orders[id := o1], queue := BoughtQueue(db.queue, id, ret, now));
    StoreLabelKeys(db1, cfg, id, if ret then "inbound" else "outbound", c.labelData, c.written, now);
    StoreLabel(db1, cfg, id, if ret then "inbound" else "outbound", c.labelData, c.written, now)
  }

  /** What a bought label leaves behind: the tracking number on the
      outbound or inbound key, the label flag set exactly when the file was
      written (or already set), the outbound checks queued, and the status
      and every other meta key untouched. */
  lemma BoughtRecords(db: Store, cfg: Config, id: int, ret: bool, c: ShippoCall, t: Transaction, now: int)
    requires id in db.orders
    ensures var r := Bought(db, cfg, id, ret, c, t, now);
            var kind := if ret then "inbound" else "outbound";
            r.orders[id].status == db.orders[id].status
            && Meta(r.orders[id], if ret then SHIPPO_IN_NUMBER else SHIPPO_OUT_NUMBER) == t.trackingNumber
            && (Meta(r.orders[id], FlagKey(kind)) == TRUE_FLAG <==> c.written || Meta(db.orders[id], FlagKey(kind)) == TRUE_FLAG)
            && (forall k :: k !in TxnKeys(ret) && k != FlagKey(kind) ==> Meta(r.orders[id], k) == Meta(db.orders[id], k))
            && (!ret ==> r.queue[..|db.queue| + 2] == db.queue + [Action(now + DAY * 7, CHECK_HOOK, OrderArg(id)),
                                                                  Action(now + DAY * 15, FAILED_HOOK, OrderArg(id))])
  {
    BoughtMeta(db, cfg, id, ret, c, t, now);
    BoughtChecks(db, cfg, id, ret, c, t, now);
  }

  /** The meta half of `BoughtRecords`. */
  lemma BoughtMeta(db: Store, cfg: Config, id: int, ret: bool, c: ShippoCall, t: Transaction, now: int)
    requires id in db.orders
    ensures var r := Bought(db, cfg, id, ret, c, t, now);
            var kind := if ret then "inbound" else "outbound";
            r.orders[id].status == db.orders[id].status
            && Meta(r.orders[id], if ret then SHIPPO_IN_NUMBER else SHIPPO_OUT_NUMBER) == t.trackingNumber
            && (Meta(r.orders[id], FlagKey(kind)) == TRUE_FLAG <==> c.written || Meta(db.orders[id], FlagKey(kind)) == TRUE_FLAG)
            && (forall k :: k !in TxnKeys(ret) && k != FlagKey(kind) ==> Meta(r.orders[id], k) == Meta(db.orders[id], k))
  {
    var kind := if ret then "inbound" else "outbound";
    var o1 := RecordTransaction(db.orders[id], cfg, ret, t, now);
    assert FlagKey(kind)[0] == kind[0];
    assert FlagKey(kind) !in TxnKeys(ret);
    assert Meta(o1, FlagKey(kind)) == Meta(db.orders[id], FlagKey(kind));
  }

  /** The queue half of `BoughtRecords`. */
  lemma BoughtChecks(db: Store, cfg: Config, id: int, ret: bool, c: ShippoCall, t: Transaction, now: int)
    requires id in db.orders
    ensures var r := Bought(db, cfg, id, ret, c, t, now);
            !ret ==> r.queue[..|db.queue| + 2] == db.queue + [Action(now + DAY * 7, CHECK_HOOK, OrderArg(id)),
                                                              Action(now + DAY * 15, FAILED_HOOK, OrderArg(id))]
  {
    var q1 := BoughtQueue(db.queue, id, ret, now);
    var r := Bought(db, cfg, id, ret, c, t, now);
    assert r.queue[..|q1|] == q1;
  }

  /** The purchase goes through: a shipment was created, a rate matched and
      the transaction succeeded with a label URL. */
  predicate Purchasable(cfg: Config, ret: bool, c: ShippoCall) {
    !Empty(c.shipmentId) && RatesSpec(c.ratesCode, c.pages, Account(cfg, ret), ServiceLevel(cfg, ret)).Some?
    && c.transaction.Some? && c.transaction.value.status == "SUCCESS" && !Empty(c.transaction.value.labelUrl)
  }

  /** One purchase: an empty shipment id, no usable rate or an unsuccessful
      transaction is an error that writes nothing; an empty transaction reply
      ends the call quietly. */
  function LabelOnce(db: Store, cfg: Config, id: int, ret: bool, c: ShippoCall, now: int): (r: (Store, Step))
    requires id in db.orders
    ensures r.1.Labelled? <==> Purchasable(cfg, ret, c)
    ensures !r.1.Labelled? ==> r.0 == db
    ensures r.1.Failed? ==> r.1.msg in {NO_SHIPMENT, NO_RATE, NO_LABEL}
    ensures r.1.Labelled? ==> r.0 == Bought(db, cfg, id, ret, c, c.transaction.value, now)
  {
    if Empty(c.shipmentId) then (db, Failed(NO_SHIPMENT))
    else if RatesSpec(c.ratesCode, c.pages, Account(cfg, ret), ServiceLevel(cfg, ret)).None? then (db, Failed(NO_RATE))
    else if c.transaction.None? then (db, Stopped)
    else
      var t := c.transaction.value;
      if Empty(t.status) || t.status != "SUCCESS" || Empty(t.labelUrl) then (db, Failed(NO_LABEL))
      else (Bought(db, cfg, id, ret, c, t, now), Labelled)
  }

  /** The order's stored count of returnable items, read as PHP's `intval`
      reads it, is positive. */
  predicate HasReturnable(o: Order) {
    IntVal(Meta(o, "wdm_returnable_item")) > 0
  }

  /** The return label follows when the partner is Shippo (the setting or
      the order's `return_partner`), the order's stored returnable count is
      positive, the guard is empty and the return partner is neither FedEx
      nor USPS. */
  predicate ReturnWanted(cfg: Config, o: Order) {
    (cfg.shippingPartner == "Shippo" || Meta(o, "return_partner") == "shippo")
    && HasReturnable(o)
    && Empty(Meta(o, MARKER))
    && Meta(o, "return_partner") != "fedex" && Meta(o, "return_partner") != "usps"
  }

  /** `wdm_generate_shipping_label_shippo(order, extra)`: one purchase, and
      after a stored label the guard is set and the function calls itself for
      the return label. `c` answers this call, `next` the nested ones. The
      result is the error, if any; a guard already set is never changed. */
  function ShippoLabel(db: Store, cfg: Config, id: int, ret: bool, c: ShippoCall, next: ShippoCall, now: int): (r: (Store, Option<string>))
    requires id in db.orders && MarkerOk(db.orders[id])
    ensures r.0.orders.Keys == db.orders.Keys
    ensures r.1.Some? ==> r.1.value in {NO_SHIPMENT, NO_RATE, NO_LABEL}
    ensures !Empty(Meta(db.orders[id], MARKER)) ==> Meta(r.0.orders[id], MARKER) == Meta(db.orders[id], MARKER)
    decreases if Empty(Meta(db.orders[id], MARKER)) then 1 else 0, 1
  {
    var s := LabelOnce(db, cfg, id, ret, c, now);
    if s.1.Failed? then (s.0, Some(s.1.msg))
    else if s.1.Stopped? then (s.0, None)
    else AfterLabel(s.0, cfg, id, next, now)
  }

  /** After a stored label: the return label when one is wanted, with the
      guard set first. */
  function AfterLabel(db: Store, cfg: Config, id: int, next: ShippoCall, now: int): (r: (Store, Option<string>))
    requires id in db.orders && MarkerOk(db.orders[id])
    ensures r.0.orders.Keys == db.orders.Keys
    ensures r.1.Some? ==> r.1.value in {NO_SHIPMENT, NO_RATE, NO_LABEL}
    ensures !Empty(Meta(db.orders[id], MARKER)) ==> r == (db, None)
    decreases if Empty(Meta(db.orders[id], MARKER)) then 1 else 0, 0
  {
    var o := db.orders[id];
    if !ReturnWanted(cfg, o) then (db, None)
    else
      assert MARKER !in o.meta;
      var o2 := AddMetaOnce(o, MARKER, "generating");
      assert o2.meta[MARKER] == "generating";
      ShippoLabel(db.(orders := db.orders[id := o2]), cfg, id, true, next, next, now)
  }

  /** With the guard set, the function never calls itself: the replies meant
      for a nested call are never used. So an outbound label is followed by
      at most one return label. */
  lemma NoRecursionOnceGuarded(db: Store, cfg: Config, id: int, ret: bool, c: ShippoCall, a: ShippoCall, b: ShippoCall, now: int)
    requires id in db.orders && MarkerOk(db.orders[id]) && !Empty(Meta(db.orders[id], MARKER))
    ensures ShippoLabel(db, cfg, id, ret, c, a, now) == ShippoLabel(db, cfg, id, ret, c, b, now)
  {
    var s := LabelOnce(db, cfg, id, ret, c, now);
    if s.1.Labelled? {
      assert ShippoLabel(db, cfg, id, ret, c, a, now) == AfterLabel(s.0, cfg, id, a, now);
      assert ShippoLabel(db, cfg, id, ret, c, b, now) == AfterLabel(s.0, cfg, id, b, now);
    }
  }

  /** Once the outbound label is stored and a return label is wanted, the
      guard ends up set to "generating" whatever the return purchase does;
      nothing in label generation clears it again. */
  lemma GuardLeftSet(db: Store, cfg: Config, id: int, c: ShippoCall, next: ShippoCall, now: int)
    requires id in db.orders && MarkerOk(db.orders[id])
    requires var s := LabelOnce(db, cfg, id, false, c, now); s.1.Labelled? && ReturnWanted(cfg, s.0.orders[id])
    ensures Meta(ShippoLabel(db, cfg, id, false, c, next, now).0.orders[id], MARKER) == "generating"
  {
    var s := LabelOnce(db, cfg, id, false, c, now);
    var db2 := s.0.(orders := s.0.orders[id := AddMetaOnce(s.0.orders[id], MARKER, "generating")]);
    assert Meta(db2.orders[id], MARKER) == "generating";
  }

  /** `get_rates` and the transaction, one purchase, against the database. */
  method BuyLabel(site: Site, cfg: Config, id: int, ret: bool, c: ShippoCall, now: int) returns (step: Step)
    requires id in site.orders
    modifies site`orders, site`queue, site`files
    ensures (site.Snapshot(), step) == LabelOnce(old(site.Snapshot()), cfg, id, ret, c, now)
  {
    if Empty(c.shipmentId) {
      return Failed(NO_SHIPMENT);
    }
    var rate := GetRates(c.ratesCode, c.pages, Account(cfg, ret), ServiceLevel(cfg, ret));
    if rate.None? {
      return Failed(NO_RATE);
    }
    if c.transaction.None? {
      return Stopped;
    }
    var t := c.transaction.value;
    if Empty(t.status) || t.status != "SUCCESS" || Empty(t.labelUrl) {
      return Failed(NO_LABEL);
    }
    RecordBought(site, cfg, id, ret, c, t, now);
    step := Labelled;
  }

  /** The tracking meta of a bought label, written key by key. */
  method RecordTransactionMeta(site: Site, cfg: Config, id: int, ret: bool, t: Transaction, now: int)
    requires id in site.orders
    modifies site`orders
    ensures site.orders == old(site.orders)[id := RecordTransaction(old(site.orders)[id], cfg, ret, t, now)]
  {
    if !ret {
      RecordOutbound(site, cfg, id, t, now);
    } else {
      RecordInbound(site, id, t);
    }
  }

  /** The outbound tracking meta, written key by key. */
  method RecordOutbound(site: Site, cfg: Config, id: int, t: Transaction, now: int)
    requires id in site.orders
    modifies site`orders
    ensures site.orders == old(site.orders)[id := OutboundTransaction(old(site.orders)[id], cfg, t, now)]
  {
    RecordOutboundTracking(site, id, t);
    RecordOutboundIds(site, cfg, id, t, now);
  }

  /** `OutboundTracking`, written key by key. */
  method RecordOutboundTracking(site: Site, id: int, t: Transaction)
    requires id in site.orders
    modifies site`orders
    ensures site.orders == old(site.orders)[id := OutboundTracking(old(site.orders)[id], t)]
  {
    site.UpdateMeta(id, "wdm_shippo_outbound_tracking_url", t.trackingUrl);
    site.UpdateMeta(id, SHIPPO_OUT_NUMBER, t.trackingNumber);
    site.UpdateMeta(id, SHIPPO_OUT_STATUS, t.trackingStatus);
  }

  /** `OutboundIds`, written key by key. */
  method RecordOutboundIds(site: Site, cfg: Config, id: int, t: Transaction, now: int)
    requires id in site.orders
    modifies site`orders
    ensures site.orders == old(site.orders)[id := OutboundIds(old(site.orders)[id], cfg, t, now)]
  {
    site.UpdateMeta(id, "wdm_shippo_outbound_transaction_id", t.objectId);
    site.UpdateMeta(id, "wdm_shippo_outbound_carrier_token", Opt(cfg, "wdm_shippo_outbound_carrier_token"));
    site.AddMeta(id, "pre_transit_time", IntToString(now));
  }

  /** The inbound tracking meta, written key by key. */
  method RecordInbound(site: Site, id: int, t: Transaction)
    requires id in site.orders
    modifies site`orders
    ensures site.orders == old(site.orders)[id := InboundTransaction(old(site.orders)[id], t)]
  {
    site.UpdateMeta(id, "wdm_shippo_inbound_tracking_url", t.trackingUrl);
    site.UpdateMeta(id, SHIPPO_IN_NUMBER, t.trackingNumber);
    site.UpdateMeta(id, SHIPPO_IN_STATUS, t.trackingStatus);
    site.UpdateMeta(id, "wdm_shippo_inbound_transaction_id", t.objectId);
  }

  /** The tracking checks of an outbound label, queued. */
  method ScheduleChecks(site: Site, id: int, ret: bool, now: int)
    modifies site`queue
    ensures site.queue == BoughtQueue(old(site.queue), id, ret, now)
  {
    if !ret {
      site.Schedule(now + DAY * 7, CHECK_HOOK, OrderArg(id));
      site.Schedule(now + DAY * 15, FAILED_HOOK, OrderArg(id));
    }
  }

  /** A successful transaction against the database. */
  method RecordBought(site: Site, cfg: Config, id: int, ret: bool, c: ShippoCall, t: Transaction, now: int)
    requires id in site.orders
    modifies site`orders, site`queue, site`files
    ensures site.Snapshot() == Bought(old(site.Snapshot()), cfg, id, ret, c, t, now)
  {
    ghost var db := site.Snapshot();
    RecordTransactionMeta(site, cfg, id, ret, t, now);
    ScheduleChecks(site, id, ret, now);
    assert site.Snapshot() == db.(orders := db.orders[id := RecordTransaction(db.orders[id], cfg, ret, t, now)],
                                  queue := BoughtQueue(db.queue, id, ret, now));
    StoreGeneratedLabel(site, cfg, id, if ret then "inbound" else "outbound", c.labelData, c.written, now);
  }

  /** `wdm_generate_shipping_label_shippo` against the database. */
  method GenerateShippoLabel(site: Site, cfg: Config, id: int, ret: bool, c: ShippoCall, next: ShippoCall, now: int)
    returns (error: Option<string>)
    requires id in site.orders && MarkerOk(site.orders[id])
    modifies site`orders, site`queue, site`files
    ensures (site.Snapshot(), error) == ShippoLabel(old(site.Snapshot()), cfg, id, ret, c, next, now)
    decreases if Empty(Meta(site.orders[id], MARKER)) then 1 else 0, 1
  {
    var step := BuyLabel(site, cfg, id, ret, c, now);
    if step.Failed? {
      return Some(step.msg);
    }
    if step.Stopped? {
      return None;
    }
    error := ReturnLabelAfter(site, cfg, id, next, now);
  }

  /** The return label after a stored label, against the database: the
      guard is set, then the purchase is made again for the return label. */
  method ReturnLabelAfter(site: Site, cfg: Config, id: int, next: ShippoCall, now: int) returns (error: Option<string>)
    requires id in site.orders && MarkerOk(site.orders[id])
    modifies site`orders, site`queue, site`files
    ensures (site.Snapshot(), error) == AfterLabel(old(site.Snapshot()), cfg, id, next, now)
    decreases if Empty(Meta(site.orders[id], MARKER)) then 1 else 0, 0
  {
    if ReturnWanted(cfg, site.orders[id]) {
      site.AddMeta(id, MARKER, "generating");
      error := GenerateShippoLabel(site, cfg, id, true, next, next, now);
    } else {
      error := None;
    }
  }

  // ---------------------------------------------------------------------
  // FedEx tracking (`track_fedex_shipment`, `get_fedex_auth_token`)

  const FEDEX_KEY := "wdm_fedex_access_token"
  const FEDEX_TOKEN_FAILED := "Something went wrong while getting the authentication token for fedex."
  /** Seconds before its expiry a cached FedEx token stops being used. */
  const FEDEX_MARGIN := 500

  /** FedEx `statusByLocale` texts and the Shippo state each becomes. */
  const FEDEX_STATES: map<string, string> := map[
    "Initiated" := "PRE_TRANSIT",
    "In transit" := "TRANSIT",
    "Picked up" := "TRANSIT",
    "Delivered" := "DELIVERED",
    "Delivery exception" := "FAILURE",
    "Clearance Delay" := "FAILURE",
    "Ready for pickup" := "FAILURE",
    "Cancelled" := "FAILURE"]

  /** A FedEx status in Shippo's terms, "UNKNOWN" for any other text. */
  function FedexStatus(s: string): (r: string)
    ensures r in {"PRE_TRANSIT", "TRANSIT", "DELIVERED", "FAILURE", "UNKNOWN"}
  {
    if s in FEDEX_STATES then FEDEX_STATES[s] else "UNKNOWN"
  }

  /** Each Shippo state comes from exactly the FedEx texts listed for it. */
  lemma FedexStatusPreimages(s: string)
    ensures FedexStatus(s) == "PRE_TRANSIT" <==> s == "Initiated"
    ensures FedexStatus(s) == "TRANSIT" <==> s == "In transit" || s == "Picked up"
    ensures FedexStatus(s) == "DELIVERED" <==> s == "Delivered"
    ensures FedexStatus(s) == "FAILURE" <==> s in {"Delivery exception", "Clearance Delay", "Ready for pickup", "Cancelled"}
    ensures FedexStatus(s) == "UNKNOWN" <==> s !in FEDEX_STATES
  {
  }

  /** The FedEx OAuth reply: status code, `access_token`, `expires_in`. */
  datatype FedexReply = FedexReply(code: int, accessToken: string, expiresIn: int)

  /** The cached FedEx token is present, non-empty and has more than 500
      seconds left. */
  predicate FedexUsable(tokens: map<string, Token>, now: int) {
    FEDEX_KEY in tokens && !Empty(tokens[FEDEX_KEY].accessToken) && tokens[FEDEX_KEY].expiresAt - FEDEX_MARGIN > now
  }

  /** `get_fedex_auth_token`: the cached token while it has more than 500
      seconds left; otherwise a non-200 reply throws, and any 200 reply's
      token is cached with the lifetime FedEx gives. The result carries the
      "Bearer " prefix. */
  function FedexToken(tokens: map<string, Token>, now: int, reply: FedexReply): (r: (Result<string>, map<string, Token>))
    ensures r.0.Err? <==> !FedexUsable(tokens, now) && reply.code != 200
    ensures r.0.Err? ==> r.1 == tokens && r.0.msg == FEDEX_TOKEN_FAILED
    ensures r.0.Ok? ==> FEDEX_KEY in r.1 && r.0.value == "Bearer " + r.1[FEDEX_KEY].accessToken
  {
    if FedexUsable(tokens, now) then
      (Ok("Bearer " + tokens[FEDEX_KEY].accessToken), tokens)
    else if reply.code != 200 then (Err(FEDEX_TOKEN_FAILED), tokens)
    else (Ok("Bearer " + reply.accessToken), tokens[FEDEX_KEY := Token(reply.accessToken, now + reply.expiresIn)])
  }

  /** A non-empty token fetched at `now` is reused, whatever FedEx would
      answer, until 500 seconds before it expires. */
  lemma FedexTokenReused(tokens: map<string, Token>, now: int, reply: FedexReply, later: int, laterReply: FedexReply)
    requires !FedexUsable(tokens, now) && reply.code == 200 && !Empty(reply.accessToken)
    requires now <= later < now + reply.expiresIn - FEDEX_MARGIN
    ensures var first := FedexToken(tokens, now, reply);
            FedexToken(first.1, later, laterReply) == first
  {
  }

  /** `get_fedex_auth_token` against the options table. */
  method GetFedexToken(site: Site, now: int, reply: FedexReply) returns (token: Result<string>)
    modifies site`tokens
    ensures (token, site.tokens) == FedexToken(old(site.tokens), now, reply)
  {
    if FedexUsable(site.tokens, now) {
      return Ok("Bearer " + site.tokens[FEDEX_KEY].accessToken);
    }
    if reply.code != 200 {
      return Err(FEDEX_TOKEN_FAILED);
    }
    site.SetToken(FEDEX_KEY, Token(reply.accessToken, now + reply.expiresIn));
    token := Ok("Bearer " + reply.accessToken);
  }

  /** The FedEx tracking reply: status code and the latest
      `statusByLocale`, if present. */
  datatype FedexTrack = FedexTrack(code: int, statusByLocale: Option<string>)

  /** `track_fedex_shipment`: for an existing order whose outbound carrier is
      FedEx and that has an outbound tracking number, with a token and a 200
      reply carrying a status, the translated status is queued as an internal
      Shippo update, and the tracking check re-polls in 5 days unless the shipment is
      delivered. Anything missing ends it quietly. */
  function TrackFedexSpec(db: Store, id: int, now: int, auth: FedexReply, reply: FedexTrack): (r: Store)
    ensures r.orders == db.orders && r.refunds == db.refunds && r.files == db.files
  {
    if id == 0 || id !in db.orders || Meta(db.orders[id], "wdm_shippo_outbound_carrier_token") != "FedEx"
       || Empty(Meta(db.orders[id], SHIPPO_OUT_NUMBER)) then db
    else
      var t := FedexToken(db.tokens, now, auth);
      if t.0.Err? then db
      else
        var db1 := db.(tokens := t.1);
        if reply.code != 200 || reply.statusByLocale.None? then db1
        else
          var status := FedexStatus(reply.statusByLocale.value);
          var q := db1.queue + [Action(now + 10, ASYNC_HOOK, TrackingArgs(Meta(db.orders[id], SHIPPO_OUT_NUMBER), status))];
          db1.(queue := if status != "DELIVERED" then q + [Action(now + DAY * 5, CHECK_HOOK, OrderArg(id))] else q)
  }

  /** A completed lookup queues the update and re-polls exactly when the
      shipment is not delivered. */
  lemma TrackFedexRepoll(db: Store, id: int, now: int, auth: FedexReply, reply: FedexTrack)
    requires id != 0 && id in db.orders && Meta(db.orders[id], "wdm_shippo_outbound_carrier_token") == "FedEx"
    requires !Empty(Meta(db.orders[id], SHIPPO_OUT_NUMBER)) && FedexToken(db.tokens, now, auth).0.Ok?
    requires reply.code == 200 && reply.statusByLocale.Some?
    ensures var r := TrackFedexSpec(db, id, now, auth, reply);
            var status := FedexStatus(reply.statusByLocale.value);
            r.queue[..|db.queue| + 1] == db.queue + [Action(now + 10, ASYNC_HOOK, TrackingArgs(Meta(db.orders[id], SHIPPO_OUT_NUMBER), status))]
            && (|r.queue| == |db.queue| + 2 <==> reply.statusByLocale.value != "Delivered")
            && (|r.queue| == |db.queue| + 2 ==> r.queue[|db.queue| + 1] == Action(now + DAY * 5, CHECK_HOOK, OrderArg(id)))
  {
    FedexStatusPreimages(reply.statusByLocale.value);
    var r := TrackFedexSpec(db, id, now, auth, reply);
    var status := FedexStatus(reply.statusByLocale.value);
    var q := db.queue + [Action(now + 10, ASYNC_HOOK, TrackingArgs(Meta(db.orders[id], SHIPPO_OUT_NUMBER), status))];
    assert r.queue[..|db.queue| + 1] == q;
  }

  /** `track_fedex_shipment` against the database. */
  method TrackFedexShipment(site: Site, id: int, now: int, auth: FedexReply, reply: FedexTrack)
    modifies site`queue, site`tokens
    ensures site.Snapshot() == TrackFedexSpec(old(site.Snapshot()), id, now, auth, reply)
  {
    if id == 0 || id !in site.orders || Meta(site.orders[id], "wdm_shippo_outbound_carrier_token") != "FedEx"
       || Empty(Meta(site.orders[id], SHIPPO_OUT_NUMBER)) {
      return;
    }
    var number := Meta(site.orders[id], SHIPPO_OUT_NUMBER);
    var token := GetFedexToken(site, now, auth);
    if token.Err? || reply.code != 200 || reply.statusByLocale.None? {
      return;
    }
    var status := FedexStatus(reply.statusByLocale.value);
    AsyncStatusUpdate(site, Internal(number, status), now);
    if status != "DELIVERED" {
      site.Schedule(now + DAY * 5, CHECK_HOOK, OrderArg(id));
    }
  }

  /** `wdm_delivery_failed_notification`: the team is mailed about an
      existing order unless it is completed, awaiting its return or on its
      way back. */
  function DeliveryFailedNotifies(db: Store, id: int): (r: bool)
    ensures r ==> id in db.orders
  {
    id != 0 && id in db.orders && db.orders[id].status !in {"completed", "awaiting-returns", "returned-in-trans"}
  }

  /** A delivered order (completed by the outbound DELIVERED event) never
      triggers the delivery-failed mail. */
  lemma DeliveredOrderNotNotified(db: Store, cfg: Config, id: int, now: int)
    requires id in db.orders && Meta(db.orders[id], SHIPPO_OUT_STATUS) != "DELIVERED"
    requires StatusExists(cfg, "wc-awaiting-returns")
    ensures !DeliveryFailedNotifies(ShippoOutbound(db, cfg, id, "DELIVERED", now), id)
  {
    OutboundDelivered(db, cfg, id, now);
  }
}
