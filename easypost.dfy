/** The EasyPost integration (trait-easypost.php): buying the return label
    (the rate is chosen by the inbound carrier account and service, or the
    FedEx ones when the order's return partner is FedEx) and looking a
    tracker up. Every HTTP reply is an input. */
module Easypost {
  import opened Php
  import opened Wp
  import opened LabelFiles
  import opened Tracking
  import opened Shippo

  const EP_FAILED := "Unable to create shipment using easypost"

  /** The replies one purchase gets: the status code and body of the
      shipment creation (its id and rates), the status code of the purchase
      and what it returns (tracker id, carrier of the selected rate), the
      label file fetched from the postage label URL and whether writing it
      succeeded. A rate entry that is not an object matches nothing. */
  datatype EpCall = EpCall(createCode: int, shipmentId: string, rates: seq<RateEntry>, buyCode: int,
                           trackerId: string, carrier: string, labelData: string, written: bool)

  /** The return partner is FedEx: the FedEx account and service of EasyPost
      are used instead of the inbound ones. */
  predicate FedexReturn(o: Order) {
    Meta(o, "return_partner") == "fedex"
  }

  function EpAccount(cfg: Config, o: Order): string {
    if FedexReturn(o) then Opt(cfg, "wdm_ep_inbound_fedex_carrier_account") else Opt(cfg, "wdm_easypost_inbound_carrier_account")
  }

  function EpService(cfg: Config, o: Order): string {
    if FedexReturn(o) then Opt(cfg, "wdm_ep_inbound_fedex_service_level") else Opt(cfg, "wdm_easypost_inbound_service_level")
  }

  /** The shipment, tracker and carrier recorded for a bought label. */
  function RecordPurchase(o: Order, c: EpCall): (r: Order)
    ensures r == o.(meta := r.meta)
    ensures Meta(r, "easypost_tracking_id") == c.trackerId && Meta(r, "easypost_inbound_carrier") == c.carrier
    ensures Meta(r, "easypost_shipment_id") == c.shipmentId
    ensures forall k :: k !in {"easypost_tracking_id", "easypost_inbound_carrier", "easypost_shipment_id"} ==>
              (k in r.meta <==> k in o.meta) && Meta(r, k) == Meta(o, k)
  {
    SetMeta(SetMeta(SetMeta(o, "easypost_tracking_id", c.trackerId), "easypost_inbound_carrier", c.carrier),
            "easypost_shipment_id", c.shipmentId)
  }

  /** `wdm_create_shipment_easypost`: false (and nothing written) when the
      shipment is not created with 201 or the purchase is not answered with
      200; an error when no rate matches or its id is empty; otherwise true,
      with the purchase recorded and the inbound label stored. */
  function CreateShipment(db: Store, cfg: Config, id: int, now: int, c: EpCall): (r: (Store, Result<bool>))
    requires id in db.orders
    ensures r.1.Err? <==> c.createCode == 201 && !HasRate(cfg, db.orders[id], c)
    ensures r.1.Err? ==> r.1.msg == NO_RATE
    ensures r.1 == Ok(true) <==> c.createCode == 201 && HasRate(cfg, db.orders[id], c) && c.buyCode == 200
    ensures r.1 != Ok(true) ==> r.0 == db
    ensures r.0.orders.Keys == db.orders.Keys
  {
    if c.createCode != 201 then (db, Ok(false))
    else
      var rate := FirstMatch(c.rates, EpAccount(cfg, db.orders[id]), EpService(cfg, db.orders[id]));
      if rate.None? || Empty(rate.value) then (db, Err(NO_RATE))
      else if c.buyCode != 200 then (db, Ok(false))
      else
        var db1 := db.(orders := db.orders[id := RecordPurchase(db.orders[id], c)]);
        assert db1.orders.Keys == db.orders.Keys;
        (StoreLabel(db1, cfg, id, "inbound", c.labelData, c.written, now), Ok(true))
  }

  /** A rate with the chosen account and service is listed, and the first
      such has a non-empty id. */
  predicate HasRate(cfg: Config, o: Order, c: EpCall) {
    var rate := FirstMatch(c.rates, EpAccount(cfg, o), EpService(cfg, o));
    rate.Some? && !Empty(rate.value)
  }

  /** `generate_return_label_easypost`: anything but a bought label is an
      error (thrown, or sent as a JSON error, which ends the request). */
  function ReturnLabelEasypost(db: Store, cfg: Config, id: int, now: int, c: EpCall): (r: (Store, Option<string>))
    requires id in db.orders
    ensures r.1.None? <==> c.createCode == 201 && HasRate(cfg, db.orders[id], c) && c.buyCode == 200
    ensures r.1.Some? ==> r.0 == db && r.1.value in {NO_RATE, EP_FAILED}
    ensures r.0.orders.Keys == db.orders.Keys
  {
    var s := CreateShipment(db, cfg, id, now, c);
    if s.1.Err? then (s.0, Some(s.1.msg))
    else if !s.1.value then (s.0, Some(EP_FAILED))
    else (s.0, None)
  }

  /** A bought return label records the shipment and tracker on the order,
      sets the inbound label flag exactly when the file was written, and
      leaves the order's status and every other order alone. */
  lemma ReturnLabelEasypostRecords(db: Store, cfg: Config, id: int, now: int, c: EpCall)
    requires id in db.orders
    requires c.createCode == 201 && HasRate(cfg, db.orders[id], c) && c.buyCode == 200
    ensures var r := ReturnLabelEasypost(db, cfg, id, now, c).0;
            var path := LabelFile(cfg, IntToString(id), "inbound");
            Meta(r.orders[id], "easypost_tracking_id") == c.trackerId
            && Meta(r.orders[id], "easypost_shipment_id") == c.shipmentId
            && Meta(r.orders[id], "easypost_inbound_carrier") == c.carrier
            && (Meta(r.orders[id], FlagKey("inbound")) == TRUE_FLAG <==> c.written || Meta(db.orders[id], FlagKey("inbound")) == TRUE_FLAG)
            && (c.written <==> path in r.files && r.files[path] == c.labelData)
            && r.orders[id].status == db.orders[id].status
            && (forall j :: j in db.orders && j != id ==> r.orders[j] == db.orders[j])
  {
    var o1 := RecordPurchase(db.orders[id], c);
    var db1 := db.(orders := db.orders[id := o1]);
    ReturnLabelEasypostBought(db, cfg, id, now, c);
    PurchaseStoredMeta(db1, cfg, id, now, c);
    assert Meta(o1, FlagKey("inbound")) == Meta(db.orders[id], FlagKey("inbound"));
  }

  /** A bought return label is the purchase recorded, then the label stored. */
  lemma ReturnLabelEasypostBought(db: Store, cfg: Config, id: int, now: int, c: EpCall)
    requires id in db.orders
    requires c.createCode == 201 && HasRate(cfg, db.orders[id], c) && c.buyCode == 200
    ensures ReturnLabelEasypost(db, cfg, id, now, c).0
            == StoreLabel(db.(orders := db.orders[id := RecordPurchase(db.orders[id], c)]), cfg, id, "inbound", c.labelData, c.written, now)
  {
  }

  /** Storing the label keeps the three purchase keys. */
  lemma PurchaseStoredMeta(db1: Store, cfg: Config, id: int, now: int, c: EpCall)
    requires id in db1.orders
    ensures var r := StoreLabel(db1, cfg, id, "inbound", c.labelData, c.written, now);
            Meta(r.orders[id], "easypost_tracking_id") == Meta(db1.orders[id], "easypost_tracking_id")
            && Meta(r.orders[id], "easypost_shipment_id") == Meta(db1.orders[id], "easypost_shipment_id")
            && Meta(r.orders[id], "easypost_inbound_carrier") == Meta(db1.orders[id], "easypost_inbound_carrier")
  {
    assert FlagKey("inbound") !in {"easypost_tracking_id", "easypost_inbound_carrier", "easypost_shipment_id"};
  }

  /** The rate bought is the first listed one with the account and service
      chosen for the order's return partner. */
  lemma EasypostRateChoice(db: Store, cfg: Config, id: int, c: EpCall)
    requires id in db.orders && HasRate(cfg, db.orders[id], c)
    ensures var o := db.orders[id];
            var acc := if FedexReturn(o) then Opt(cfg, "wdm_ep_inbound_fedex_carrier_account") else Opt(cfg, "wdm_easypost_inbound_carrier_account");
            var svc := if FedexReturn(o) then Opt(cfg, "wdm_ep_inbound_fedex_service_level") else Opt(cfg, "wdm_easypost_inbound_service_level");
            exists i :: 0 <= i < |c.rates| && RateMatches(c.rates[i], acc, svc)
                        && (forall j :: 0 <= j < i ==> !RateMatches(c.rates[j], acc, svc))
  {
    var o := db.orders[id];
    var rate := FirstMatch(c.rates, EpAccount(cfg, o), EpService(cfg, o));
    assert rate.Some?;
  }

  /** `wdm_create_shipment_easypost` against the database. */
  method CreateShipmentEasypost(site: Site, cfg: Config, id: int, now: int, c: EpCall) returns (result: Result<bool>)
    requires id in site.orders
    modifies site`orders, site`queue, site`files
    ensures (site.Snapshot(), result) == CreateShipment(old(site.Snapshot()), cfg, id, now, c)
  {
    if c.createCode != 201 {
      return Ok(false);
    }
    var rate := FindRate(c.rates, EpAccount(cfg, site.orders[id]), EpService(cfg, site.orders[id]));
    if rate.None? || Empty(rate.value) {
      return Err(NO_RATE);
    }
    if c.buyCode != 200 {
      return Ok(false);
    }
    StorePurchase(site, cfg, id, now, c);
    result := Ok(true);
  }

  /** `RecordPurchase`, written key by key. */
  method RecordPurchaseMeta(site: Site, id: int, c: EpCall)
    requires id in site.orders
    modifies site`orders
    ensures site.orders == old(site.orders)[id := RecordPurchase(old(site.orders)[id], c)]
  {
    site.UpdateMeta(id, "easypost_tracking_id", c.trackerId);
    site.UpdateMeta(id, "easypost_inbound_carrier", c.carrier);
    site.UpdateMeta(id, "easypost_shipment_id", c.shipmentId);
  }

  /** A bought label against the database: the purchase is recorded and the
      label stored. */
  method StorePurchase(site: Site, cfg: Config, id: int, now: int, c: EpCall)
    requires id in site.orders
    modifies site`orders, site`queue, site`files
    ensures site.Snapshot() == StoreLabel(old(site.Snapshot()).(orders := old(site.orders)[id := RecordPurchase(old(site.orders)[id], c)]),
                                          cfg, id, "inbound", c.labelData, c.written, now)
  {
    RecordPurchaseMeta(site, id, c);
    StoreGeneratedLabel(site, cfg, id, "inbound", c.labelData, c.written, now);
  }

  /** `generate_return_label_easypost` against the database. */
  method GenerateReturnLabelEasypost(site: Site, cfg: Config, id: int, now: int, c: EpCall) returns (error: Option<string>)
    requires id in site.orders
    modifies site`orders, site`queue, site`files
    ensures (site.Snapshot(), error) == ReturnLabelEasypost(old(site.Snapshot()), cfg, id, now, c)
  {
    var created := CreateShipmentEasypost(site, cfg, id, now, c);
    if created.Err? {
      return Some(created.msg);
    }
    error := if created.value then None else Some(EP_FAILED);
  }

  // ---------------------------------------------------------------------
  // Tracking lookup (`easypost_api_tracking`)

  /** The tracker reply: status code, tracker id and status. */
  datatype EpTrack = EpTrack(code: int, trackerId: string, status: string)

  /** `easypost_api_tracking`: the caller's state comes back unchanged when
      the order id is 0, the order or its tracker id is missing or the reply
      is not 200; otherwise the reply is handled as an internal
      `tracker.updated` event and its status returned. */
  ghost function EpApiTrackingSpec(db: Store, cfg: Config, state: string, id: int, reply: EpTrack,
                                   pay: int -> PaymentOutcome): (r: (Store, string))
    ensures r.0.orders.Keys == db.orders.Keys
    ensures r.1 == state || r.1 == reply.status
    ensures r.1 == state && r.1 != reply.status ==> r.0 == db
  {
    if id == 0 || id !in db.orders || Empty(Meta(db.orders[id], "easypost_tracking_id")) || reply.code != 200 then (db, state)
    else (EasypostWebhookSpec(db, cfg, TrackerUpdated(reply.trackerId, reply.status), pay), reply.status)
  }

  /** A lookup that reaches EasyPost records the same inbound status the
      webhook would, on the one order with that tracker. */
  lemma EpApiTrackingMatchesWebhook(db: Store, cfg: Config, state: string, id: int, reply: EpTrack,
                                    pay: int -> PaymentOutcome)
    requires id != 0 && id in db.orders && !Empty(Meta(db.orders[id], "easypost_tracking_id")) && reply.code == 200
    requires IsSingleton(OrdersWithMeta(db.orders, "easypost_tracking_id", reply.trackerId))
    ensures var r := EpApiTrackingSpec(db, cfg, state, id, reply, pay);
            var j := Only(OrdersWithMeta(db.orders, "easypost_tracking_id", reply.trackerId));
            r.1 == reply.status
            && (Meta(db.orders[j], "wdm_order_converted") != "converted" ==>
                  Meta(r.0.orders[j], "wdm_tracking_status_inbound") == reply.status)
            && (Meta(db.orders[j], "wdm_order_converted") == "converted" ==> r.0 == db)
  {
  }

  /** `easypost_api_tracking` against the database. */
  method EpApiTracking(site: Site, cfg: Config, state: string, id: int, reply: EpTrack, pay: int -> PaymentOutcome)
    returns (result: string)
    modifies site`orders, site`refunds, site`queue
    ensures (site.Snapshot(), result) == EpApiTrackingSpec(old(site.Snapshot()), cfg, state, id, reply, pay)
  {
    if id == 0 || id !in site.orders || Empty(Meta(site.orders[id], "easypost_tracking_id")) || reply.code != 200 {
      return state;
    }
    EasypostWebhook(site, cfg, TrackerUpdated(reply.trackerId, reply.status), pay);
    result := reply.status;
  }
}
