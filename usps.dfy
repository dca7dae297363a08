/** The stateful parts of the USPS integration (trait-usps.php): the cached
    OAuth token and payment token, generating the return label, and the
    tracking lookup that feeds the USPS webhook handler. Every HTTP reply is
    an input. */
module Usps {
  import opened Php
  import opened Wp
  import opened UspsCodes
  import opened LabelFiles
  import opened Tracking

  const AUTH_KEY := "wdm_usps_auth_token"
  const PAYMENT_KEY := "wdm_usps_payment_token"
  const NO_CREDENTIALS := "Client ID and Client Secret are required to generate authentication token."
  const AUTH_FAILED := "Failed to generate authentication token."
  const PAYMENT_FAILED := "Failed to generate payment token."
  const LABEL_FAILED := "Failed to generate return label from USPS."

  /** Seconds a fresh auth token is trusted less than the lifetime USPS gives. */
  const AUTH_MARGIN := 120
  /** Lifetime the plugin gives a payment token: eight hours. */
  const PAYMENT_LIFETIME := 60 * 60 * 8

  /** The OAuth reply as far as it is read: `access_token` and `expires_in`
      (None when `access_token` is missing). */
  datatype TokenReply = TokenReply(accessToken: string, expiresIn: int)

  /** A token cached under `key` that may be used at `now`: non-empty, with a
      non-empty expiry that is still ahead. */
  predicate Usable(tokens: map<string, Token>, key: string, now: int) {
    key in tokens && !Empty(tokens[key].accessToken) && tokens[key].expiresAt != 0 && tokens[key].expiresAt > now
  }

  /** `generate_authentication_token`: the cached token while usable;
      otherwise, with both credentials set, the token of a reply that has
      one, cached to expire `AUTH_MARGIN` seconds before USPS says. A failure
      caches nothing. */
  function AuthToken(tokens: map<string, Token>, cfg: Config, now: int, reply: Option<TokenReply>): (r: (Result<string>, map<string, Token>))
    ensures r.0.Ok? ==> !Empty(r.0.value)
    ensures r.0.Err? ==> r.1 == tokens && r.0.msg in {NO_CREDENTIALS, AUTH_FAILED}
    ensures Usable(tokens, AUTH_KEY, now) ==> r == (Ok(tokens[AUTH_KEY].accessToken), tokens)
    ensures !Usable(tokens, AUTH_KEY, now) ==>
              (r.0.Ok? <==> !Empty(Opt(cfg, "wdm_usps_consumer_id")) && !Empty(Opt(cfg, "wdm_usps_consumer_secret"))
                            && reply.Some? && !Empty(reply.value.accessToken))
    ensures !Usable(tokens, AUTH_KEY, now) && r.0.Ok? ==>
              r.0.value == reply.value.accessToken
              && r.1 == tokens[AUTH_KEY := Token(reply.value.accessToken, now + (reply.value.expiresIn - AUTH_MARGIN))]
  {
    if Usable(tokens, AUTH_KEY, now) then (Ok(tokens[AUTH_KEY].accessToken), tokens)
    else if Empty(Opt(cfg, "wdm_usps_consumer_id")) || Empty(Opt(cfg, "wdm_usps_consumer_secret")) then
      (Err(NO_CREDENTIALS), tokens)
    else if reply.None? || Empty(reply.value.accessToken) then (Err(AUTH_FAILED), tokens)
    else (Ok(reply.value.accessToken),
          tokens[AUTH_KEY := Token(reply.value.accessToken, now + (reply.value.expiresIn - AUTH_MARGIN))])
  }

  /** A token fetched (not taken from the cache) at `now` is reused, whatever USPS would answer, by any
      later call before its cached expiry. */
  lemma AuthTokenReused(tokens: map<string, Token>, cfg: Config, now: int, reply: TokenReply,
                        later: int, laterReply: Option<TokenReply>)
    requires 0 <= now <= later < now + (reply.expiresIn - AUTH_MARGIN)
    requires !Usable(tokens, AUTH_KEY, now) && AuthToken(tokens, cfg, now, Some(reply)).0.Ok?
    ensures var first := AuthToken(tokens, cfg, now, Some(reply));
            AuthToken(first.1, cfg, later, laterReply) == first
  {
    var first := AuthToken(tokens, cfg, now, Some(reply));
    assert Usable(first.1, AUTH_KEY, later);
  }

  /** `generate_payment_token`: the cached token while usable; otherwise an
      empty access token or a reply without a token fails, and a token from
      the reply is cached for eight hours. */
  function PaymentToken(tokens: map<string, Token>, now: int, access: string, reply: Option<string>): (r: (Result<string>, map<string, Token>))
    ensures r.0.Ok? ==> !Empty(r.0.value)
    ensures r.0.Err? ==> r.1 == tokens && r.0.msg == PAYMENT_FAILED
    ensures Usable(tokens, PAYMENT_KEY, now) ==> r == (Ok(tokens[PAYMENT_KEY].accessToken), tokens)
    ensures !Usable(tokens, PAYMENT_KEY, now) ==>
              (r.0.Ok? <==> !Empty(access) && reply.Some? && !Empty(reply.value))
    ensures !Usable(tokens, PAYMENT_KEY, now) && r.0.Ok? ==>
              r.0.value == reply.value && r.1 == tokens[PAYMENT_KEY := Token(reply.value, now + PAYMENT_LIFETIME)]
  {
    if Usable(tokens, PAYMENT_KEY, now) then (Ok(tokens[PAYMENT_KEY].accessToken), tokens)
    else if Empty(access) then (Err(PAYMENT_FAILED), tokens)
    else if reply.None? || Empty(reply.value) then (Err(PAYMENT_FAILED), tokens)
    else (Ok(reply.value), tokens[PAYMENT_KEY := Token(reply.value, now + PAYMENT_LIFETIME)])
  }

  /** A payment token fetched (not taken from the cache) at a non-negative
      time is reused, whatever the later inputs, for eight hours. */
  lemma PaymentTokenReused(tokens: map<string, Token>, now: int, access: string, reply: string,
                           later: int, laterAccess: string, laterReply: Option<string>)
    requires 0 <= now <= later < now + PAYMENT_LIFETIME
    requires !Usable(tokens, PAYMENT_KEY, now) && PaymentToken(tokens, now, access, Some(reply)).0.Ok?
    ensures var first := PaymentToken(tokens, now, access, Some(reply));
            PaymentToken(first.1, later, laterAccess, laterReply) == first
  {
    var first := PaymentToken(tokens, now, access, Some(reply));
    assert Usable(first.1, PAYMENT_KEY, later);
  }

  /** `generate_authentication_token` against the options table. */
  method GenerateAuthToken(site: Site, cfg: Config, now: int, reply: Option<TokenReply>) returns (token: Result<string>)
    modifies site`tokens
    ensures (token, site.tokens) == AuthToken(old(site.tokens), cfg, now, reply)
  {
    if Usable(site.tokens, AUTH_KEY, now) {
      return Ok(site.tokens[AUTH_KEY].accessToken);
    }
    if Empty(Opt(cfg, "wdm_usps_consumer_id")) || Empty(Opt(cfg, "wdm_usps_consumer_secret")) {
      return Err(NO_CREDENTIALS);
    }
    if reply.None? || Empty(reply.value.accessToken) {
      return Err(AUTH_FAILED);
    }
    site.SetToken(AUTH_KEY, Token(reply.value.accessToken, now + (reply.value.expiresIn - AUTH_MARGIN)));
    token := Ok(reply.value.accessToken);
  }

  /** `generate_payment_token` against the options table. */
  method GeneratePaymentToken(site: Site, now: int, access: string, reply: Option<string>) returns (token: Result<string>)
    modifies site`tokens
    ensures (token, site.tokens) == PaymentToken(old(site.tokens), now, access, reply)
  {
    if Usable(site.tokens, PAYMENT_KEY, now) {
      return Ok(site.tokens[PAYMENT_KEY].accessToken);
    }
    if Empty(access) || reply.None? || Empty(reply.value) {
      return Err(PAYMENT_FAILED);
    }
    site.SetToken(PAYMENT_KEY, Token(reply.value, now + PAYMENT_LIFETIME));
    token := Ok(reply.value);
  }

  // ---------------------------------------------------------------------
  // Return label (`generate_return_label_usps`)

  /** The label reply as far as it is read: the status code, the fields of
      the metadata part, and the second part of the multipart body, which
      carries the base64 label. */
  datatype LabelReply = LabelReply(code: int, trackingNumber: string, trackingUrl: string, routing: string, labelSection: string)

  /** The replies of the three requests a return label makes. */
  datatype LabelReplies = LabelReplies(auth: Option<TokenReply>, payment: Option<string>, labelReply: LabelReply)

  /** Both tokens, in order; a failure is rethrown outside AJAX and swallowed
      (the function returns) inside it. The first component is the access
      and payment token pair, or the outcome to return with. */
  function Tokens(db: Store, cfg: Config, now: int, replies: LabelReplies): (r: (Result<(string, string)>, Store))
    ensures r.1 == db.(tokens := r.1.tokens)
    ensures r.0.Ok? ==> !Empty(r.0.value.0) && !Empty(r.0.value.1)
    ensures r.0.Err? ==> r.0.msg in {NO_CREDENTIALS, AUTH_FAILED, PAYMENT_FAILED}
  {
    var a := AuthToken(db.tokens, cfg, now, replies.auth);
    if a.0.Err? then (Err(a.0.msg), db.(tokens := a.1))
    else
      var p := PaymentToken(a.1, now, a.0.value, replies.payment);
      if p.0.Err? then (Err(p.0.msg), db.(tokens := p.1))
      else (Ok((a.0.value, p.0.value)), db.(tokens := p.1))
  }

  /** The label request once both tokens exist: a non-200 reply throws and
      writes nothing; otherwise the tracking id, tracking URL and routing
      number are recorded and the decoded label is stored as the order's
      inbound label. `decode` stands for `base64_decode`. */
  function LabelRequest(db: Store, cfg: Config, id: int, now: int, reply: LabelReply,
                        decode: string -> string, written: bool): (r: (Store, Option<string>))
    requires id in db.orders
    ensures r.0.orders.Keys == db.orders.Keys && r.0.tokens == db.tokens && r.0.refunds == db.refunds
    ensures reply.code != 200 ==> r == (db, Some(LABEL_FAILED))
    ensures reply.code == 200 ==> r.1.None?
  {
    if reply.code != 200 then (db, Some(LABEL_FAILED))
    else
      var o := db.orders[id];
      var o1 := SetMeta(SetMeta(SetMeta(o, "usps_tracking_id", reply.trackingNumber), "usps_tracking_url", reply.trackingUrl),
                        "usps_routing_number", reply.routing);
      (StoreLabel(db.(orders := db.orders[id := o1]), cfg, id, "inbound", decode(LabelPart(reply.labelSection)), written, now), None)
  }

  /** A 200 reply records the tracking number, tracking URL and routing
      number, and stores the decoded label as the inbound label, whose flag
      is set once the file is written. */
  lemma LabelRequestRecords(db: Store, cfg: Config, id: int, now: int, reply: LabelReply,
                            decode: string -> string, written: bool)
    requires id in db.orders && reply.code == 200
    ensures var r := LabelRequest(db, cfg, id, now, reply, decode, written);
            var o := r.0.orders[id];
            Meta(o, "usps_tracking_id") == reply.trackingNumber
            && Meta(o, "usps_tracking_url") == reply.trackingUrl
            && Meta(o, "usps_routing_number") == reply.routing
            && (Meta(o, FlagKey("inbound")) == TRUE_FLAG <==> written || Meta(db.orders[id], FlagKey("inbound")) == TRUE_FLAG)
            && (written ==>
                  LabelFile(cfg, IntToString(id), "inbound") in r.0.files
                  && r.0.files[LabelFile(cfg, IntToString(id), "inbound")] == decode(LabelPart(reply.labelSection)))
  {
    var o := db.orders[id];
    var o1 := SetMeta(SetMeta(SetMeta(o, "usps_tracking_id", reply.trackingNumber), "usps_tracking_url", reply.trackingUrl),
                      "usps_routing_number", reply.routing);
    var db1 := db.(orders := db.orders[id := o1]);
    assert LabelRequest(db, cfg, id, now, reply, decode, written).0 == StoreLabel(db1, cfg, id, "inbound", decode(LabelPart(reply.labelSection)), written, now);
    assert Meta(o1, FlagKey("inbound")) == Meta(o, FlagKey("inbound"));
  }

  /** `generate_return_label_usps`: the tokens, then the label request. The
      result is the message of the exception it throws, None when it returns.
      (Its check for empty tokens cannot fire: a token routine that returns
      returns a non-empty token.) */
  function ReturnLabelSpec(db: Store, cfg: Config, id: int, now: int, replies: LabelReplies,
                           decode: string -> string, written: bool): (r: (Store, Option<string>))
    requires id in db.orders
    ensures r.0.orders.Keys == db.orders.Keys
  {
    var t := Tokens(db, cfg, now, replies);
    if t.0.Err? then (t.1, if cfg.ajax then None else Some(t.0.msg))
    else LabelRequest(t.1, cfg, id, now, replies.labelReply, decode, written)
  }

  /** A failed return label writes no order meta, no file and no scheduled
      action: at most a token is cached. */
  lemma ReturnLabelFailureWritesNothing(db: Store, cfg: Config, id: int, now: int, replies: LabelReplies,
                                        decode: string -> string, written: bool)
    requires id in db.orders
    ensures var r := ReturnLabelSpec(db, cfg, id, now, replies, decode, written);
            (r.1.Some? || Tokens(db, cfg, now, replies).0.Err?) ==>
              r.0.orders == db.orders && r.0.files == db.files && r.0.queue == db.queue && r.0.refunds == db.refunds
  {
  }

  /** The return label succeeds exactly when both tokens are obtained and
      the label reply is 200; then the inbound label file holds the decoded
      label part of the reply whenever it was written. */
  lemma ReturnLabelSuccess(db: Store, cfg: Config, id: int, now: int, replies: LabelReplies,
                           decode: string -> string, written: bool)
    requires id in db.orders
    ensures var r := ReturnLabelSpec(db, cfg, id, now, replies, decode, written);
            var t := Tokens(db, cfg, now, replies);
            (t.0.Ok? && replies.labelReply.code == 200 ==>
               r.1.None? && Meta(r.0.orders[id], "usps_tracking_id") == replies.labelReply.trackingNumber
               && (written ==> r.0.files[LabelFile(cfg, IntToString(id), "inbound")] == decode(LabelPart(replies.labelReply.labelSection))))
            && (t.0.Ok? && replies.labelReply.code != 200 ==> r.1 == Some(LABEL_FAILED))
            && (t.0.Err? ==> (r.1.None? <==> cfg.ajax))
  {
    var t := Tokens(db, cfg, now, replies);
    if t.0.Ok? && replies.labelReply.code == 200 {
      LabelRequestRecords(t.1, cfg, id, now, replies.labelReply, decode, written);
    }
  }

  /** Both tokens against the options table. */
  method ObtainTokens(site: Site, cfg: Config, now: int, replies: LabelReplies) returns (tokens: Result<(string, string)>)
    modifies site`tokens
    ensures (tokens, site.Snapshot()) == Tokens(old(site.Snapshot()), cfg, now, replies)
  {
    var access := GenerateAuthToken(site, cfg, now, replies.auth);
    if access.Err? {
      return Err(access.msg);
    }
    var payment := GeneratePaymentToken(site, now, access.value, replies.payment);
    if payment.Err? {
      return Err(payment.msg);
    }
    tokens := Ok((access.value, payment.value));
  }

  /** The label request against the database. */
  method RequestLabel(site: Site, cfg: Config, id: int, now: int, reply: LabelReply,
                      decode: string -> string, written: bool) returns (error: Option<string>)
    requires id in site.orders
    modifies site`orders, site`files, site`queue
    ensures (site.Snapshot(), error) == LabelRequest(old(site.Snapshot()), cfg, id, now, reply, decode, written)
  {
    if reply.code != 200 {
      return Some(LABEL_FAILED);
    }
    ghost var db := site.Snapshot();
    site.UpdateMeta(id, "usps_tracking_id", reply.trackingNumber);
    site.UpdateMeta(id, "usps_tracking_url", reply.trackingUrl);
    site.UpdateMeta(id, "usps_routing_number", reply.routing);
    ghost var o1 := SetMeta(SetMeta(SetMeta(db.orders[id], "usps_tracking_id", reply.trackingNumber), "usps_tracking_url", reply.trackingUrl),
                            "usps_routing_number", reply.routing);
    assert site.Snapshot() == db.(orders := db.orders[id := o1]);
    StoreGeneratedLabel(site, cfg, id, "inbound", decode(LabelPart(reply.labelSection)), written, now);
    error := None;
  }

  /** `generate_return_label_usps` against the database. */
  method GenerateReturnLabel(site: Site, cfg: Config, id: int, now: int, replies: LabelReplies,
                             decode: string -> string, written: bool) returns (error: Option<string>)
    requires id in site.orders
    modifies site`orders, site`files, site`queue, site`tokens
    ensures (site.Snapshot(), error) == ReturnLabelSpec(old(site.Snapshot()), cfg, id, now, replies, decode, written)
  {
    var tokens := ObtainTokens(site, cfg, now, replies);
    if tokens.Err? {
      return if cfg.ajax then None else Some(tokens.msg);
    }
    error := RequestLabel(site, cfg, id, now, replies.labelReply, decode, written);
  }

  // ---------------------------------------------------------------------
  // Tracking lookup (`usps_api_tracking`)

  /** The tracking reply as far as it is read: the status code, the tracking
      number and the first event's code ("" when missing). */
  datatype TrackReply = TrackReply(code: int, trackingNumber: string, eventCode: string)

  /** `usps_api_tracking`: the caller's state is returned unchanged when the
      order id is 0, the order or its USPS tracking id is missing, no auth
      token can be had, the reply is not 200, or it lacks the number or the
      event code. Otherwise the event is handed to the USPS webhook handler
      and its translation is returned. */
  ghost function ApiTrackingSpec(db: Store, cfg: Config, state: string, id: int, now: int, auth: Option<TokenReply>,
                                 reply: TrackReply, pay: int -> PaymentOutcome): (r: (Store, string))
    ensures r.0.orders.Keys == db.orders.Keys
    ensures r.1 == state || r.1 == TranslateUsps(reply.eventCode)
    ensures r.1 != state ==> IsUspsState(r.1)
  {
    if id == 0 || id !in db.orders || Empty(Meta(db.orders[id], "usps_tracking_id")) then (db, state)
    else
      var a := AuthToken(db.tokens, cfg, now, auth);
      var db1 := db.(tokens := a.1);
      if a.0.Err? || reply.code != 200 || Empty(reply.trackingNumber) || Empty(reply.eventCode) then (db1, state)
      else (UspsWebhookSpec(db1, cfg, reply.trackingNumber, reply.eventCode, pay), TranslateUsps(reply.eventCode))
  }

  /** A lookup that reaches USPS stores the same status the webhook would:
      the translated event code, on the one order with that tracking id. */
  lemma ApiTrackingMatchesWebhook(db: Store, cfg: Config, state: string, id: int, now: int, auth: Option<TokenReply>,
                                  reply: TrackReply, pay: int -> PaymentOutcome)
    requires id != 0 && id in db.orders && !Empty(Meta(db.orders[id], "usps_tracking_id"))
    requires AuthToken(db.tokens, cfg, now, auth).0.Ok? && reply.code == 200
    requires !Empty(reply.trackingNumber) && !Empty(reply.eventCode)
    requires IsSingleton(OrdersWithMeta(db.orders, "usps_tracking_id", reply.trackingNumber))
    ensures var r := ApiTrackingSpec(db, cfg, state, id, now, auth, reply, pay);
            var j := Only(OrdersWithMeta(db.orders, "usps_tracking_id", reply.trackingNumber));
            r.1 == TranslateUsps(reply.eventCode)
            && (Meta(db.orders[j], "wdm_order_converted") != "converted" ==>
                  Meta(r.0.orders[j], "wdm_usps_inbound_tracking_status") == TranslateUsps(reply.eventCode))
  {
    var db1 := db.(tokens := AuthToken(db.tokens, cfg, now, auth).1);
    assert OrdersWithMeta(db1.orders, "usps_tracking_id", reply.trackingNumber)
        == OrdersWithMeta(db.orders, "usps_tracking_id", reply.trackingNumber);
  }

  /** `usps_api_tracking` against the database. */
  method ApiTracking(site: Site, cfg: Config, state: string, id: int, now: int, auth: Option<TokenReply>,
                     reply: TrackReply, pay: int -> PaymentOutcome) returns (result: string)
    modifies site`orders, site`refunds, site`queue, site`tokens
    ensures (site.Snapshot(), result) == ApiTrackingSpec(old(site.Snapshot()), cfg, state, id, now, auth, reply, pay)
  {
    if id == 0 || id !in site.orders || Empty(Meta(site.orders[id], "usps_tracking_id")) {
      return state;
    }
    var access := GenerateAuthToken(site, cfg, now, auth);
    if access.Err? || reply.code != 200 || Empty(reply.trackingNumber) || Empty(reply.eventCode) {
      return state;
    }
    UspsWebhook(site, cfg, reply.trackingNumber, reply.eventCode, pay);
    result := TranslateUsps(reply.eventCode);
  }
}
