/** Label generation for one order (`wdm_order_created`,
    `wdm_merge_labels`) and the scheduled inbound-status check
    (`wdm_confirm_inbound_status`) of class-ss-label-generator.php. The
    outbound label always comes from Shippo; the return label comes from
    Shippo's own nested call, EasyPost or USPS; a fully labelled order is
    marked shipped and, with a return label, its two labels are merged. */
module LabelGenerator {
  import opened Php
  import opened Wp
  import opened Helpers
  import opened LabelFiles
  import opened Tracking
  import opened Shippo
  import opened Easypost
  import Usps
  import UspsCodes

  const NO_ORDER_ID := "Order ID not found"
  const ALREADY_GENERATED := "Outbound Shipping label already generated"
  const MERGE_FAILED := "Error merging pdf"
  const MERGE_FAILED_AJAX := "Unable to create the merged label"

  /** Every reply label generation for one order may get: the outbound Shippo
      purchase and the nested Shippo return purchase, the EasyPost purchase,
      the USPS replies (`decode` standing for `base64_decode`, `uspsWritten`
      for the label write), and the merged PDF (None when merging throws). */
  datatype CreateReplies = CreateReplies(outbound: ShippoCall, shippoReturn: ShippoCall, easypost: EpCall,
                                         usps: Usps.LabelReplies, decode: string -> string, uspsWritten: bool,
                                         merged: Option<string>)

  /** The merged label of an order: `<dir><order id>.pdf`. */
  function MergedFile(cfg: Config, orderId: string): string {
    LabelDir(cfg) + orderId + ".pdf"
  }

  // ---------------------------------------------------------------------
  // Merging (`wdm_merge_labels`)

  /** `wdm_merge_labels`: a merge that throws is an error ("Error merging
      pdf" outside AJAX) and changes nothing; otherwise the merged file is
      written, the merged flag set and its deletion scheduled with the order
      id as posted (a string). The id is never empty here: the caller has
      already rejected an empty one. */
  function MergeLabels(db: Store, cfg: Config, id: int, merged: Option<string>, now: int): (r: (Store, Option<string>))
    requires id in db.orders
    ensures r.0.orders.Keys == db.orders.Keys && r.0.refunds == db.refunds && r.0.tokens == db.tokens
    ensures merged.None? ==> r == (db, Some(if cfg.ajax then MERGE_FAILED_AJAX else MERGE_FAILED))
    ensures merged.Some? ==>
              var path := MergedFile(cfg, IntToString(id));
              r.1.None?
              && Meta(r.0.orders[id], FlagKey("merged")) == TRUE_FLAG
              && r.0.orders[id].status == db.orders[id].status
              && (forall j :: j in db.orders && j != id ==> r.0.orders[j] == db.orders[j])
              && r.0.files == db.files[path := merged.value]
              && r.0.queue == db.queue + [Action(DeleteTime(cfg, now), DELETE_HOOK, LabelFileArgs(StrArg(IntToString(id)), path))]
  {
    if merged.None? then (db, Some(if cfg.ajax then MERGE_FAILED_AJAX else MERGE_FAILED))
    else
      var path := MergedFile(cfg, IntToString(id));
      (db.(files := db.files[path := merged.value],
           orders := db.orders[id := SetMeta(db.orders[id], FlagKey("merged"), TRUE_FLAG)],
           queue := db.queue + [Action(DeleteTime(cfg, now), DELETE_HOOK, LabelFileArgs(StrArg(IntToString(id)), path))]),
       None)
  }

  /** The merged flag only ever comes from a successful merge, and the
      merged file it points to then exists. */
  lemma MergedFlagMeansMerged(db: Store, cfg: Config, id: int, merged: Option<string>, now: int)
    requires id in db.orders && Meta(db.orders[id], FlagKey("merged")) != TRUE_FLAG
    ensures var r := MergeLabels(db, cfg, id, merged, now).0;
            (Meta(r.orders[id], FlagKey("merged")) == TRUE_FLAG <==> merged.Some?)
            && (merged.Some? ==> MergedFile(cfg, IntToString(id)) in r.files)
  {
  }

  /** `wdm_merge_labels` against the database. */
  method MergeOrderLabels(site: Site, cfg: Config, id: int, merged: Option<string>, now: int) returns (error: Option<string>)
    requires id in site.orders
    modifies site`files, site`orders, site`queue
    ensures (site.Snapshot(), error) == MergeLabels(old(site.Snapshot()), cfg, id, merged, now)
  {
    if merged.None? {
      return Some(if cfg.ajax then MERGE_FAILED_AJAX else MERGE_FAILED);
    }
    var path := MergedFile(cfg, IntToString(id));
    site.WriteFile(path, merged.value);
    site.UpdateMeta(id, FlagKey("merged"), TRUE_FLAG);
    site.Schedule(DeleteTime(cfg, now), DELETE_HOOK, LabelFileArgs(StrArg(IntToString(id)), path));
    error := None;
  }

  // ---------------------------------------------------------------------
  // Marking shipped

  /** The plugin's own statuses are set only once they are registered:
      without "wc-shipped" a labelled order keeps its status, without
      "wc-awaiting-returns" a delivered outbound parcel completes the order,
      and without "wc-returned-in-trans" a return in transit keeps it. */
  lemma UnregisteredStatusesNeverWritten(db: Store, cfg: Config, id: int, count: int, merged: Option<string>,
                                         now: int, pay: int -> PaymentOutcome)
    requires id in db.orders
    ensures !StatusExists(cfg, "wc-shipped") ==>
              ShippedStep(db, cfg, id, count, merged, now).0.orders[id].status == db.orders[id].status
    ensures !StatusExists(cfg, "wc-awaiting-returns") ==> OutboundDelivery(db, cfg, id, now).orders[id].status == "completed"
    ensures !StatusExists(cfg, "wc-returned-in-trans") ==>
              ReturnInTransit(db, cfg, id, pay).orders[id].status == db.orders[id].status
  {
    if !StatusExists(cfg, "wc-returned-in-trans") {
      UnregisteredTransitOnlyNotes(db, cfg, id, pay);
    }
  }

  /** The order counts as fully labelled for shipping: the outbound flag is
      "1", the shipped status is registered, and either nothing is
      returnable or the inbound flag is "1" too. */
  predicate ShipsAlone(cfg: Config, o: Order, count: int) {
    Meta(o, FlagKey("outbound")) == TRUE_FLAG && StatusExists(cfg, "wc-shipped") && count == 0
  }

  predicate ShipsWithReturn(cfg: Config, o: Order, count: int) {
    Meta(o, FlagKey("outbound")) == TRUE_FLAG && Meta(o, FlagKey("inbound")) == TRUE_FLAG
    && StatusExists(cfg, "wc-shipped") && count > 0
  }

  /** The end of `wdm_order_created`: `count` is the order's returnable
      count. A labelled order becomes shipped; with a return label its
      labels are then merged (the status stays shipped if merging fails). */
  function ShippedStep(db: Store, cfg: Config, id: int, count: int, merged: Option<string>, now: int): (r: (Store, Option<string>))
    requires id in db.orders
    ensures r.0.orders.Keys == db.orders.Keys && r.0.refunds == db.refunds && r.0.tokens == db.tokens
    ensures var o := db.orders[id];
            r.0.orders[id].status == if ShipsAlone(cfg, o, count) || ShipsWithReturn(cfg, o, count) then "shipped" else o.status
    ensures var o := db.orders[id];
            Meta(r.0.orders[id], FlagKey("merged")) == TRUE_FLAG
            <==> (ShipsWithReturn(cfg, o, count) && merged.Some?) || Meta(o, FlagKey("merged")) == TRUE_FLAG
    ensures r.1.Some? <==> ShipsWithReturn(cfg, db.orders[id], count) && merged.None?
    ensures !ShipsAlone(cfg, db.orders[id], count) && !ShipsWithReturn(cfg, db.orders[id], count) ==> r == (db, None)
  {
    var o := db.orders[id];
    if ShipsAlone(cfg, o, count) then (db.(orders := db.orders[id := o.(status := "shipped")]), None)
    else if ShipsWithReturn(cfg, o, count) then
      var db1 := db.(orders := db.orders[id := o.(status := "shipped")]);
      assert Meta(db1.orders[id], FlagKey("merged")) == Meta(o, FlagKey("merged"));
      MergeLabels(db1, cfg, id, merged, now)
    else (db, None)
  }

  /** The end of `wdm_order_created` against the database. */
  method MarkShipped(site: Site, cfg: Config, id: int, count: int, merged: Option<string>, now: int) returns (error: Option<string>)
    requires id in site.orders
    modifies site`files, site`orders, site`queue
    ensures (site.Snapshot(), error) == ShippedStep(old(site.Snapshot()), cfg, id, count, merged, now)
  {
    var o := site.orders[id];
    if ShipsAlone(cfg, o, count) {
      site.UpdateStatus(id, "shipped");
      return None;
    }
    if ShipsWithReturn(cfg, o, count) {
      site.UpdateStatus(id, "shipped");
      error := MergeOrderLabels(site, cfg, id, merged, now);
      return;
    }
    error := None;
  }

  // ---------------------------------------------------------------------
  // The return label

  /** EasyPost makes the return label when it is the configured partner or
      the order's return partner is FedEx, something is returnable and the
      return partner is not USPS. */
  predicate EasypostReturn(cfg: Config, o: Order) {
    (cfg.shippingPartner == "Easypost" || Meta(o, "return_partner") == "fedex")
    && ReturnableItems(o, cfg.eligibleClasses) > 0 && Meta(o, "return_partner") != "usps"
  }

  /** Otherwise USPS makes it when it is the configured partner or the
      order's return partner is USPS or unset, and something is returnable. */
  predicate UspsReturn(cfg: Config, o: Order) {
    (cfg.shippingPartner == "USPS" || Meta(o, "return_partner") == "usps" || Meta(o, "return_partner") == "")
    && ReturnableItems(o, cfg.eligibleClasses) > 0
  }

  /** Which carrier makes the return label: none when nothing is returnable,
      never EasyPost for a USPS return partner, always EasyPost for a FedEx
      one. */
  lemma ReturnCarrierChoice(cfg: Config, o: Order)
    ensures ReturnableItems(o, cfg.eligibleClasses) <= 0 ==> !EasypostReturn(cfg, o) && !UspsReturn(cfg, o)
    ensures Meta(o, "return_partner") == "usps" && ReturnableItems(o, cfg.eligibleClasses) > 0 ==>
              !EasypostReturn(cfg, o) && UspsReturn(cfg, o)
    ensures Meta(o, "return_partner") == "fedex" && ReturnableItems(o, cfg.eligibleClasses) > 0 ==> EasypostReturn(cfg, o)
  {
  }

  /** The middle of `wdm_order_created`: unless the inbound flag is already
      set (the Shippo nested call made the return label), the return label
      is made by EasyPost or USPS. `o0` is the order as it was loaded. */
  function ReturnLabelStep(db: Store, cfg: Config, id: int, o0: Order, now: int, rs: CreateReplies): (r: (Store, Option<string>))
    requires id in db.orders
    ensures r.0.orders.Keys == db.orders.Keys
    ensures !Empty(Meta(db.orders[id], FlagKey("inbound"))) ==> r == (db, None)
    ensures !EasypostReturn(cfg, o0) && !UspsReturn(cfg, o0) ==> r == (db, None)
  {
    if !Empty(Meta(db.orders[id], FlagKey("inbound"))) then (db, None)
    else if EasypostReturn(cfg, o0) then ReturnLabelEasypost(db, cfg, id, now, rs.easypost)
    else if UspsReturn(cfg, o0) then Usps.ReturnLabelSpec(db, cfg, id, now, rs.usps, rs.decode, rs.uspsWritten)
    else (db, None)
  }

  /** The middle of `wdm_order_created` against the database. */
  method MakeReturnLabel(site: Site, cfg: Config, id: int, o0: Order, now: int, rs: CreateReplies) returns (error: Option<string>)
    requires id in site.orders
    modifies site`files, site`orders, site`queue, site`tokens
    ensures (site.Snapshot(), error) == ReturnLabelStep(old(site.Snapshot()), cfg, id, o0, now, rs)
  {
    if !Empty(Meta(site.orders[id], FlagKey("inbound"))) {
      return None;
    }
    if EasypostReturn(cfg, o0) {
      error := GenerateReturnLabelEasypost(site, cfg, id, now, rs.easypost);
    } else if UspsReturn(cfg, o0) {
      error := Usps.GenerateReturnLabel(site, cfg, id, now, rs.usps, rs.decode, rs.uspsWritten);
    } else {
      error := None;
    }
  }

  // ---------------------------------------------------------------------
  // `wdm_order_created`

  /** `wdm_order_created` for the posted order id (0 when missing or
      empty): the outbound Shippo label (with Shippo's own return label), the
      EasyPost or USPS return label, then the shipped status and the merge.
      Every error ends the request, with what was written before it kept. */
  function OrderCreatedSpec(db: Store, cfg: Config, posted: int, now: int, rs: CreateReplies): (r: (Store, Option<string>))
    requires posted != 0 ==> posted in db.orders && MarkerOk(db.orders[posted])
    ensures r.0.orders.Keys == db.orders.Keys
    ensures posted == 0 ==> r == (db, Some(NO_ORDER_ID))
  {
    if posted == 0 then (db, Some(NO_ORDER_ID))
    else
      var id := posted;
      var o0 := db.orders[id];
      if !Empty(Meta(o0, FlagKey("outbound"))) then (db, Some(ALREADY_GENERATED))
      else
        var s := ShippoLabel(db, cfg, id, false, rs.outbound, rs.shippoReturn, now);
        if s.1.Some? then s
        else
          var t := ReturnLabelStep(s.0, cfg, id, o0, now, rs);
          if t.1.Some? then t
          else ShippedStep(t.0, cfg, id, ReturnableItems(o0, cfg.eligibleClasses), rs.merged, now)
  }

  /** A second request for an order whose outbound label exists is refused
      and changes nothing: no order gets two outbound labels. */
  lemma SecondOutboundRefused(db: Store, cfg: Config, id: int, now: int, rs: CreateReplies)
    requires id != 0 && id in db.orders && MarkerOk(db.orders[id]) && !Empty(Meta(db.orders[id], FlagKey("outbound")))
    ensures OrderCreatedSpec(db, cfg, id, now, rs) == (db, Some(ALREADY_GENERATED))
  {
  }

  /** After a successful run, an order whose outbound label is stored and
      whose shipped status is registered is shipped when nothing is
      returnable, and shipped and merged when its return label is stored
      too. */
  lemma OrderCreatedShips(db: Store, cfg: Config, id: int, now: int, rs: CreateReplies)
    requires id != 0 && id in db.orders && MarkerOk(db.orders[id])
    requires Empty(Meta(db.orders[id], FlagKey("outbound")))
    ensures var s := ShippoLabel(db, cfg, id, false, rs.outbound, rs.shippoReturn, now);
            var count := ReturnableItems(db.orders[id], cfg.eligibleClasses);
            s.1.None? ==>
              var t := ReturnLabelStep(s.0, cfg, id, db.orders[id], now, rs);
              var r := OrderCreatedSpec(db, cfg, id, now, rs);
              t.1.None? ==>
                var o := t.0.orders[id];
                (ShipsAlone(cfg, o, count) ==> r.1.None? && r.0.orders[id].status == "shipped")
                && (ShipsWithReturn(cfg, o, count) ==>
                      r.0.orders[id].status == "shipped"
                      && (rs.merged.Some? <==> r.1.None?)
                      && (rs.merged.Some? ==> Meta(r.0.orders[id], FlagKey("merged")) == TRUE_FLAG))
  {
  }

  /** `wdm_order_created` against the database. */
  method OrderCreated(site: Site, cfg: Config, posted: int, now: int, rs: CreateReplies) returns (error: Option<string>)
    requires posted != 0 ==> posted in site.orders && MarkerOk(site.orders[posted])
    modifies site`files, site`orders, site`queue, site`tokens
    ensures (site.Snapshot(), error) == OrderCreatedSpec(old(site.Snapshot()), cfg, posted, now, rs)
  {
    if posted == 0 {
      return Some(NO_ORDER_ID);
    }
    var id := posted;
    var o0 := site.orders[id];
    if !Empty(Meta(o0, FlagKey("outbound"))) {
      return Some(ALREADY_GENERATED);
    }
    error := GenerateShippoLabel(site, cfg, id, false, rs.outbound, rs.shippoReturn, now);
    if error.Some? {
      return;
    }
    error := MakeReturnLabel(site, cfg, id, o0, now, rs);
    if error.Some? {
      return;
    }
    error := MarkShipped(site, cfg, id, ReturnableItems(o0, cfg.eligibleClasses), rs.merged, now);
  }

  // ---------------------------------------------------------------------
  // `wdm_confirm_inbound_status`

  /** The order's inbound status as the `wdm_internal_easypost_state` and
      `wdm_internal_usps_state` filters refresh it: the stored status, looked
      up again at EasyPost or USPS when that is the order's inbound partner
      (the lookup may record what it finds). */
  ghost function InboundState(db: Store, cfg: Config, id: int, now: int, auth: Option<Usps.TokenReply>,
                              uspsReply: Usps.TrackReply, epReply: EpTrack, pay: int -> PaymentOutcome): (r: (Store, string))
    requires id in db.orders
    ensures r.0.orders.Keys == db.orders.Keys
    ensures var o := db.orders[id];
            InboundTrackingPartner(o) !in {"easypost", "usps"} ==> r == (db, InboundTrackingStatus(o))
    ensures var o := db.orders[id];
            r.1 == InboundTrackingStatus(o)
            || (InboundTrackingPartner(o) == "easypost" && r.1 == epReply.status)
            || (InboundTrackingPartner(o) == "usps" && r.1 == UspsCodes.TranslateUsps(uspsReply.eventCode))
  {
    var o := db.orders[id];
    var partner := InboundTrackingPartner(o);
    if partner == "easypost" then EpApiTrackingSpec(db, cfg, InboundTrackingStatus(o), id, epReply, pay)
    else if partner == "usps" then Usps.ApiTrackingSpec(db, cfg, InboundTrackingStatus(o), id, now, auth, uspsReply, pay)
    else (db, InboundTrackingStatus(o))
  }

  /** The refreshed inbound status against the database. */
  method RefreshInboundState(site: Site, cfg: Config, id: int, now: int, auth: Option<Usps.TokenReply>,
                             uspsReply: Usps.TrackReply, epReply: EpTrack, pay: int -> PaymentOutcome)
    returns (state: string)
    requires id in site.orders
    modifies site`orders, site`refunds, site`queue, site`tokens
    ensures (site.Snapshot(), state) == InboundState(old(site.Snapshot()), cfg, id, now, auth, uspsReply, epReply, pay)
  {
    var o := site.orders[id];
    var partner := InboundTrackingPartner(o);
    state := InboundTrackingStatus(o);
    if partner == "easypost" {
      state := EpApiTracking(site, cfg, state, id, epReply, pay);
    } else if partner == "usps" {
      state := Usps.ApiTracking(site, cfg, state, id, now, auth, uspsReply, pay);
    }
  }

  /** `wdm_confirm_inbound_status`: for an existing order, the lookup of its
      inbound partner (EasyPost or USPS) runs with the stored inbound status;
      Shippo's lookup does nothing, and no partner means no lookup. */
  ghost function ConfirmInboundSpec(db: Store, cfg: Config, id: int, now: int, auth: Option<Usps.TokenReply>,
                                    uspsReply: Usps.TrackReply, epReply: EpTrack, pay: int -> PaymentOutcome): (r: Store)
    ensures r.orders.Keys == db.orders.Keys
    ensures id == 0 || id !in db.orders ==> r == db
    ensures id in db.orders && InboundTrackingPartner(db.orders[id]) in {"shippo", ""} ==> r == db
  {
    if id == 0 || id !in db.orders then db
    else InboundState(db, cfg, id, now, auth, uspsReply, epReply, pay).0
  }

  /** The inbound-status check goes to EasyPost exactly for an order whose first inbound key
      is its EasyPost tracker, and then stores what the tracker reports. */
  lemma ConfirmInboundEasypost(db: Store, cfg: Config, id: int, now: int, auth: Option<Usps.TokenReply>,
                               uspsReply: Usps.TrackReply, epReply: EpTrack, pay: int -> PaymentOutcome)
    requires id != 0 && id in db.orders && "easypost_tracking_id" in db.orders[id].meta
    requires !Empty(Meta(db.orders[id], "easypost_tracking_id")) && epReply.code == 200
    requires IsSingleton(OrdersWithMeta(db.orders, "easypost_tracking_id", epReply.trackerId))
    ensures var j := Only(OrdersWithMeta(db.orders, "easypost_tracking_id", epReply.trackerId));
            var r := ConfirmInboundSpec(db, cfg, id, now, auth, uspsReply, epReply, pay);
            Meta(db.orders[j], "wdm_order_converted") != "converted" ==>
              Meta(r.orders[j], "wdm_tracking_status_inbound") == epReply.status
  {
    assert PARTNER_KEYS[0] in db.orders[id].meta;
    EpApiTrackingMatchesWebhook(db, cfg, InboundTrackingStatus(db.orders[id]), id, epReply, pay);
  }

  /** `wdm_confirm_inbound_status` against the database. */
  method ConfirmInboundStatus(site: Site, cfg: Config, id: int, now: int, auth: Option<Usps.TokenReply>,
                              uspsReply: Usps.TrackReply, epReply: EpTrack, pay: int -> PaymentOutcome)
    modifies site`orders, site`refunds, site`queue, site`tokens
    ensures site.Snapshot() == ConfirmInboundSpec(old(site.Snapshot()), cfg, id, now, auth, uspsReply, epReply, pay)
  {
    if id == 0 || id !in site.orders {
      return;
    }
    var _ := RefreshInboundState(site, cfg, id, now, auth, uspsReply, epReply, pay);
  }
}
