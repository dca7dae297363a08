# A verified model of the WooCommerce return-label plugin

The plugin (`custom-plugin`) runs a store that sells with a returns programme. When an order is paid, the plugin buys the outbound shipping label from Shippo. It also buys a prepaid return label for the returnable items, from Shippo, EasyPost or USPS, and merges the two labels into one PDF. It follows both parcels through the carriers' tracking webhooks and moves the order along its statuses (`shipped`, `awaiting-returns`, `returned-in-trans`, `completed`). If the customer does not return the items in time, it charges a non-return fee on the customer's saved card. Refunds the admin raises are held back until the return is on its way.

This Dafny project models the plugin's business rules and proves what they promise. It has one module per source file, or per part of a file:

- `Php`: the PHP value semantics the rules depend on. This covers `empty()` on strings, `intval()`, loose `==` between numeric strings, `trim()`, `str_replace()` and the first piece of `explode()`.
- `Wp`: the WordPress / WooCommerce / Action Scheduler state, seen as one database.
  - The class `Site` holds orders with their meta, refund records, the queue of pending scheduled actions, label files, cached carrier tokens, user meta and saved options.
  - `Site.Snapshot()` is the order-related part of that state (orders, refunds, queue, files, tokens) as a value, `Store`.
  - `Session` holds the admin's session flags.
- `Helpers`: the free functions of `helper-functions.php`.
- Carrier integrations:
  - `UspsCodes` and `Usps` for `trait-usps.php`;
  - `Shippo` for `trait-shippo.php`;
  - `Easypost` for `trait-easypost.php`.
- `class-ss-label-generator.php`, in four modules:
  - `LabelFiles`: label storage;
  - `Tracking`: the tracking webhooks, fee scheduling and scheduled refunds;
  - `LabelGenerator`: per-order label generation and merging;
  - `Batch`: the scheduled batch run.
- `AdditionalFees`, `Orders`, `ScheduleRefunds`, `Settings` and `WcAdmin`, one per class file of the same name (`class-ss-wc.php` for `WcAdmin`).

**How operations are modelled**

- Each operation that changes the store is a method on `Site`. Its postcondition ties the new state and its result to a specification function of the old state: `(site.Snapshot(), r) == Spec(old(site.Snapshot()), ...)`.
- What the source promises is proved about those functions as lemmas.
- The outside world enters as parameters: every HTTP reply, the clock (`now`), decoders and the payment gateway's answers.
- Meta values are the strings the database stores:
  - a missing key reads as `""`;
  - `true` is stored as `"1"`;
  - integers are stored in decimal.
- Amounts are integers in cents.

## Model

| member | source | states |
|---|---|---|
| Php.IntValRoundTrip | custom-plugin/classes/class-ss-orders.php:124-125 | an integer the plugin stores in meta reads back as the same integer through PHP's `intval` |
| Php.LooseEqLeadingZero | custom-plugin/classes/class-ss-wc.php:382 | under PHP 8's loose `==`, a numeric string with a leading zero compares like the same digits without it |
| Php.ReplaceAllAfter | custom-plugin/helper-functions.php:240 | `str_replace` replaces an occurrence that follows needle-free text and carries on in the rest |
| Php.ReplaceAllAbsent | custom-plugin/helper-functions.php:240 | `str_replace` leaves a text unchanged when it does not contain the needle's first character |
| Php.Trim | custom-plugin/shipping-partners/trait-usps.php:146-151 | `trim` yields a contiguous piece of the text such that everything around it is a character `trim` removes and the piece neither starts nor ends with one; an already trimmed text is left alone |
| Php.BeforeFirst | custom-plugin/shipping-partners/trait-usps.php:151-153 | the first piece of `explode` is a prefix of the text that is the whole text or is followed by the separator |
| Wp.NextScheduled | custom-plugin/helper-functions.php:102 | `as_next_scheduled_action` gives nothing exactly when no pending action matches the hook and arguments, and otherwise the earliest matching time |
| Wp.EarliestIndex | custom-plugin/helper-functions.php:102 | the position of a matching action no later than any other matching one and strictly earlier than the matching ones before it |
| Wp.Unschedule | custom-plugin/helper-functions.php:121 | `as_unschedule_action` removes exactly one action when one matches and otherwise reports failure with the queue unchanged |
| Wp.UnscheduleKeepsOthers | custom-plugin/helper-functions.php:121 | unscheduling never touches actions of other hooks or arguments |
| Wp.UnscheduleRemovesNext | custom-plugin/helper-functions.php:121 | the action removed is one whose time is the next scheduled time; the queue keeps everything else |
| Wp.UnscheduleAll | custom-plugin/classes/class-ss-orders.php:187 | `as_unschedule_all_actions` keeps exactly the actions that do not match |
| Wp.NextAfterSchedule | custom-plugin/helper-functions.php:102-108 | after `as_schedule_single_action` the next scheduled time for those arguments is the earlier of the old next time and the new one |
| Wp.OthersAppend | custom-plugin/helper-functions.php:121 | the non-matching actions of a joined queue are those of each part, in order |
| Helpers.EligibleQuantityAppend | custom-plugin/helper-functions.php:46-51 | one more line item adds its quantity exactly when its shipping class is eligible (strict `in_array`) |
| Helpers.CountReturnableItems | custom-plugin/helper-functions.php:31-54 | the `foreach` accumulator computes the returnable count; a converted order has none |
| Helpers.EligibleQuantityBounds | custom-plugin/helper-functions.php:40-53 | the count lies between 0 and the total quantity; it is 0 when no class is eligible and the total when all are |
| Helpers.FirstPresent | custom-plugin/helper-functions.php:168-173 | the index of the first key present in the meta, or none when no key is present |
| Helpers.InboundTrackingStatus | custom-plugin/helper-functions.php:162-174 | the value under the first of `wdm_tracking_status_inbound`, `wdm_usps_inbound_tracking_status`, `wdm_shippo_inbound_tracking_status` that exists; "" when none does |
| Helpers.InboundTrackingPartner | custom-plugin/helper-functions.php:191-203 | easypost, usps or shippo after the first tracking-id key present, in that priority; "" exactly when none is present |
| Helpers.ChargeStep | custom-plugin/helper-functions.php:101-124 | with rescheduling, a missing charge raises "not found" and changes nothing; otherwise the return-by dates become next run + extension and that less 21600 s; without rescheduling the error is "unable to unschedule" exactly when no charge is pending |
| Helpers.MailStep | custom-plugin/helper-functions.php:125-144 | the same for the reminder mail, with its own two messages |
| Helpers.RemoveScheduled | custom-plugin/helper-functions.php:87-145 | only the four messages can be raised; a plain removal that succeeds removes exactly two actions and writes no meta |
| Helpers.NoPendingChargeNothingChanges | custom-plugin/helper-functions.php:101-105 | extending with no pending charge raises "The charge action not found ..." before anything is written |
| Helpers.ReturnByReadsBack | custom-plugin/helper-functions.php:106-113 | the stored `wdm_return_by` / `wdm_return_by_ct` read back with `intval` as the new charge time and that time less six hours |
| Helpers.UnscheduleKeepsLater | custom-plugin/helper-functions.php:108-121 | the action just scheduled later than the pending one survives the unschedule that follows it |
| Helpers.UnscheduleKeepsUnmatched | custom-plugin/helper-functions.php:121-141 | unscheduling never removes an action of another hook or argument list |
| Helpers.RescheduleExtends | custom-plugin/helper-functions.php:101-140 | a successful extension keeps the number of pending actions and moves the fee charge `ext` seconds past its previous next run |
| Helpers.ChargeHalf | custom-plugin/helper-functions.php:101-124 | the database after the charge half is the one `ChargeStep` describes |
| Helpers.MailHalf | custom-plugin/helper-functions.php:125-144 | the queue and error after the mail half are the ones `MailStep` describes |
| Helpers.RemoveScheduledActions | custom-plugin/helper-functions.php:87-145 | `wdm_remove_scheduled_actions` changes queue and meta as `RemoveScheduled` describes, with the order's charge arguments and the configured extension |
| Helpers.ReturnDateOf | custom-plugin/helper-functions.php:214-219 | a stored `wdm_return_by_ct` written as the text of a time `t` gives the return date `t` formatted, and no date when `t` is 0, which PHP's `empty` treats as missing |
| Helpers.PlaceholderValues | custom-plugin/helper-functions.php:214-238 | the six values in the order of the keys: billing first name, last name and e-mail, the order link, the return date read from `wdm_return_by_ct`, and the configured extension days |
| Helpers.PercentThenFree | custom-plugin/helper-functions.php:220-240 | a '%' followed by '%'-free text contains no placeholder, so replacement leaves it alone |
| Helpers.ReplaceAllPrefix | custom-plugin/helper-functions.php:240 | text before a needle that lacks the needle's first character passes through `str_replace` unchanged |
| Helpers.OtherPlaceholderAbsent | custom-plugin/helper-functions.php:220-227 | one placeholder does not occur inside another placeholder followed by '%'-free text |
| Helpers.ReplaceEachOne | custom-plugin/helper-functions.php:240 | a text holding one placeholder between '%'-free text becomes that text around the placeholder's value |
| Helpers.ReplaceEachAbsent | custom-plugin/helper-functions.php:240 | text without '%' goes through every replacement unchanged |
| Helpers.PlaceholdersWellFormed | custom-plugin/helper-functions.php:220-227 | the six search keys are distinct `%name%` placeholders |
| Helpers.PlaceholderReplaced | custom-plugin/helper-functions.php:212-242 | each of the six placeholders is replaced by its value (first name, last name, e-mail, order link, new return date, days extended) |
| Helpers.PlaceholdersReplaced | custom-plugin/helper-functions.php:220-240 | in a whole mail text holding any number of placeholders, each one followed by text that cannot continue a key, the sequential `str_replace` turns every placeholder into its own value |
| UspsCodes.InLooseMember | custom-plugin/shipping-partners/trait-usps.php:422-535 | a code written exactly as a case label matches that label under the `switch`'s loose comparison |
| UspsCodes.TranslateUsps | custom-plugin/shipping-partners/trait-usps.php:421-539 | the result is one of delivered, failure, pre_transit, in_transit, unknown, and it is unknown exactly when no case label of the four buckets matches |
| UspsCodes.InLooseLeadingZero | custom-plugin/shipping-partners/trait-usps.php:422 | under loose comparison a numeral with an extra leading zero matches the same labels |
| UspsCodes.TranslateLeadingZero | custom-plugin/shipping-partners/trait-usps.php:421-539 | an event code padded with a leading zero ("001") translates like the code itself |
| UspsCodes.DeliveredCodes | custom-plugin/shipping-partners/trait-usps.php:423-427 | the codes 01, 41, 43 and 63 are delivered |
| UspsCodes.InLooseText | custom-plugin/shipping-partners/trait-usps.php:422 | a code that is not a numeral matches exactly the labels equal to it |
| UspsCodes.InLooseDigits | custom-plugin/shipping-partners/trait-usps.php:422 | a numeral code matches exactly the numeral labels of the same value |
| UspsCodes.TranslateText | custom-plugin/shipping-partners/trait-usps.php:421-539 | a non-numeral code falls in the first bucket that lists it, and is unknown when none does |
| UspsCodes.TruncateZip | custom-plugin/shipping-partners/trait-usps.php:311-313 | a ZIP code whose trimmed form is longer than five characters is cut to its first five trimmed characters; a shorter one is kept untrimmed |
| UspsCodes.TruncateZipIdempotent | custom-plugin/shipping-partners/trait-usps.php:311-313 | truncating a ZIP code twice is truncating it once |
| UspsCodes.ZipPlusFour | custom-plugin/shipping-partners/trait-usps.php:311-313 | a ZIP+4 code keeps its five-digit ZIP |
| UspsCodes.BeforeFirstFree | custom-plugin/shipping-partners/trait-usps.php:152-153 | the text before the first "--" holds no "--" |
| UspsCodes.LabelPartSpec | custom-plugin/shipping-partners/trait-usps.php:151-153 | the extracted label data is a prefix of the trimmed second part, holds no "--", and is followed by "--" unless it is the whole part |
| LabelFiles.StoreLabel | custom-plugin/classes/class-ss-label-generator.php:311-337 | a stored label replaces any file of that name; when the write succeeds the file holds the data, a deletion is scheduled `wdm_delete_shipping_labels` days later (100 by default) and the `<type>-shipping-label-generated` flag is set; a failed write changes nothing but the removed file; no other order, meta key or file changes |
| LabelFiles.StoreLabelKeys | custom-plugin/classes/class-ss-label-generator.php:311-337 | storing a label adds or removes no meta key other than its flag |
| LabelFiles.StoreLabelTwice | custom-plugin/classes/class-ss-label-generator.php:319-336 | storing the same label twice leaves one file and the flag, with one deletion scheduled per store |
| LabelFiles.StoreGeneratedLabel | custom-plugin/classes/class-ss-label-generator.php:311-337 | `wdm_store_generated_label` changes the database as `StoreLabel` describes |
| Tracking.RefundStep | custom-plugin/classes/class-ss-label-generator.php:1072-1127 | one scheduled-refund descriptor: a missing refund record adds the "Refund ID ... Not Found" note and nothing else; an already refunded payment is skipped; a declined payment refund leaves the order and queue alone and records the failure on the refund record; no other order changes |
| Tracking.Settle | custom-plugin/classes/class-ss-label-generator.php:1101-1118 | a descriptor that went through makes the order "refunded" exactly when the remaining refundable amount minus its amount is not positive, and touches no meta and no other order |
| Tracking.FoldAppend | custom-plugin/classes/class-ss-label-generator.php:1072-1127 | processing a list of descriptors is processing its first part and then the rest |
| Tracking.RefundsSpec | custom-plugin/classes/class-ss-label-generator.php:1064-1128 | "No raised refunds found." with nothing changed exactly when the order holds no descriptors |
| Tracking.SkippedDescriptorContinues | custom-plugin/classes/class-ss-label-generator.php:1077-1093 | a descriptor that changes nothing (`continue`) does not affect how the following ones are processed |
| Tracking.RefundStepIdempotent | custom-plugin/classes/class-ss-label-generator.php:1081-1083 | processing a descriptor whose payment was refunded a second time changes nothing |
| Tracking.ProcessAllUnfold | custom-plugin/classes/class-ss-label-generator.php:1072 | descriptors are processed in list order, the last one after all the others |
| Tracking.ProcessAllKeepsRefunded | custom-plugin/classes/class-ss-label-generator.php:1081-1096 | a refund record whose payment was refunded stays refunded |
| Tracking.ProcessAllOrder | custom-plugin/classes/class-ss-label-generator.php:1064-1128 | processing refunds leaves the order's meta and other orders alone and can only change the order's status to "refunded" |
| Tracking.RefundedWhenNothingLeft | custom-plugin/classes/class-ss-label-generator.php:1084-1118 | a descriptor that goes through marks its payment refunded and makes the order "refunded" exactly when nothing is left to refund |
| Tracking.ProcessOne | custom-plugin/classes/class-ss-label-generator.php:1072-1127 | one descriptor against the database, as `RefundStep` |
| Tracking.SettleOrder | custom-plugin/classes/class-ss-label-generator.php:1101-1118 | a settled descriptor against the database, as `Settle` |
| Tracking.ProcessScheduledRefunds | custom-plugin/classes/class-ss-label-generator.php:1064-1128 | `process_scheduled_refunds` against the database, as `RefundsSpec` |
| Tracking.Rearm | custom-plugin/classes/class-ss-label-generator.php:805-814 | an action is scheduled anew exactly when none is pending (an action in progress is not modelled) or the new time is more than a day after the pending one; otherwise the queue is unchanged; a new action is queued last |
| Tracking.RearmNeverEarlier | custom-plugin/classes/class-ss-label-generator.php:805-814 | after re-arming an action is pending, its next run is never earlier than before, and other actions stay as they were |
| Tracking.ScheduleFee | custom-plugin/classes/class-ss-label-generator.php:826-838 | when the charge is scheduled anew, the inbound check is queued two days earlier and the return-by dates are the charge time and that less 21600 s; otherwise nothing changes; no other meta, status or note changes |
| Tracking.ScheduleChargesSpec | custom-plugin/classes/class-ss-label-generator.php:797-840 | `wdm_schedule_charges` re-arms the reminder mail and, only when the Stripe settings exist, the fee charge; only the return-by dates of the order change |
| Tracking.ScheduleChargesReturnBy | custom-plugin/classes/class-ss-label-generator.php:833-838 | a newly scheduled charge's return-by dates read back as its run time and six hours earlier, and the inbound check is the last action queued |
| Tracking.ScheduledReturnDate | custom-plugin/helper-functions.php:214-219 | once the charges are scheduled, the mails' `%new_return_date%` is the charge time less 21600 s, formatted ("" only when that is 0, which `empty` reads as no date) |
| Tracking.RearmAction | custom-plugin/classes/class-ss-label-generator.php:805-814 | re-arming against the queue, as `Rearm` |
| Tracking.ScheduleFeeAction | custom-plugin/classes/class-ss-label-generator.php:826-838 | the fee half against the database, as `ScheduleFee` |
| Tracking.ScheduleCharges | custom-plugin/classes/class-ss-label-generator.php:797-840 | `wdm_schedule_charges` against the database, as `ScheduleChargesSpec` |
| Tracking.InboundUpdate | custom-plugin/classes/class-ss-label-generator.php:662-698 | a repeated inbound status writes nothing; a new one is stored; a delivered return completes the order; any status other than transit or delivered only stores the status |
| Tracking.ReturnInTransit | custom-plugin/classes/class-ss-label-generator.php:688-698 | a return in transit keeps the order's meta (only status, notes and refunds change) |
| Tracking.UnregisteredTransitOnlyNotes | custom-plugin/classes/class-ss-label-generator.php:688-698 | without "wc-returned-in-trans" registered, a return in transit only adds the missing-status note: the status, the refund records and the other orders stay as they were |
| Tracking.InboundTransit | custom-plugin/classes/class-ss-label-generator.php:688-697 | with "wc-returned-in-trans" registered, a return in transit ends "returned-in-trans", or "refunded" when a scheduled refund leaves nothing to refund; without descriptors it ends "returned-in-trans" |
| Tracking.ShippoOutbound | custom-plugin/classes/class-ss-label-generator.php:558-588 | a repeated outbound status writes nothing; a new one is stored; a status other than DELIVERED changes neither queue nor order status |
| Tracking.OutboundDelivery | custom-plugin/classes/class-ss-label-generator.php:569-587 | an outbound delivery changes no meta of the order except the return-by dates |
| Tracking.OutboundDelivered | custom-plugin/classes/class-ss-label-generator.php:573-587 | with a return label and not converted the order awaits its return and an inbound check is queued 15 days out; converted or without a return label it is completed and nothing is queued |
| Tracking.ShippoTrackingSpec | custom-plugin/classes/class-ss-label-generator.php:486-589 | nothing changes when the number or status is empty or when not exactly one order carries the number as outbound or inbound tracking number |
| Tracking.EasypostWebhookSpec | custom-plugin/classes/class-ss-label-generator.php:598-701 | other events change nothing; a tracker event acts only on exactly one order with that tracker; a refund event stores its status on the one order with that shipment |
| Tracking.UspsWebhookSpec | custom-plugin/classes/class-ss-label-generator.php:710-790 | nothing changes without a tracking id and event code or unless exactly one order has that id |
| Tracking.UspsDeliveredCompletes | custom-plugin/classes/class-ss-label-generator.php:746-777 | a delivery event completes the one matching unconverted order and stores "delivered"; a repeated delivery event changes nothing |
| Tracking.InboundEvent | custom-plugin/classes/class-ss-label-generator.php:662-698 | the inbound half against the database, as `InboundUpdate` |
| Tracking.ReturnInTransitEvent | custom-plugin/classes/class-ss-label-generator.php:688-698 | a return in transit against the database, as `ReturnInTransit` |
| Tracking.OutboundEvent | custom-plugin/classes/class-ss-label-generator.php:558-588 | the outbound half against the database, as `ShippoOutbound` |
| Tracking.DeliverOutbound | custom-plugin/classes/class-ss-label-generator.php:569-587 | an outbound delivery against the database, as `OutboundDelivery` |
| Tracking.ShippoTracking | custom-plugin/classes/class-ss-label-generator.php:486-589 | `wdm_add_tracking_info_to_orders` against the database, as `ShippoTrackingSpec` |
| Tracking.EasypostWebhook | custom-plugin/classes/class-ss-label-generator.php:598-701 | the EasyPost webhook against the database, as `EasypostWebhookSpec` |
| Tracking.UspsWebhook | custom-plugin/classes/class-ss-label-generator.php:710-790 | the USPS webhook against the database, as `UspsWebhookSpec` |
| Tracking.RequestFields | custom-plugin/classes/class-ss-label-generator.php:439-465 | an internal call carries its own number and status; a webhook of another event than `track_updated` carries none |
| Tracking.AsyncStatusUpdate | custom-plugin/classes/class-ss-label-generator.php:438-478 | a usable update with non-empty number and status is queued ten seconds later; anything else leaves the queue as it was |
| Usps.AuthToken | custom-plugin/shipping-partners/trait-usps.php:164-199 | a cached token that is non-empty and not yet expired is returned and nothing changes; otherwise the token is issued exactly when the client id, the client secret and the returned access token are all non-empty, is cached to expire 120 seconds before the reported lifetime, and every failure ("Client ID and Client Secret are required…" or "Failed to generate authentication token.") leaves the cache alone |
| Usps.AuthTokenReused | custom-plugin/shipping-partners/trait-usps.php:165-168 | a freshly issued access token is returned again, with the cache unchanged, at any later time before its recorded expiry, whatever the server would answer then |
| Usps.PaymentToken | custom-plugin/shipping-partners/trait-usps.php:208-266 | a usable cached payment token is returned unchanged; otherwise one is issued exactly when the access token and the server's paymentAuthorizationToken are non-empty, cached for eight hours; failures say "Failed to generate payment token." and leave the cache alone |
| Usps.PaymentTokenReused | custom-plugin/shipping-partners/trait-usps.php:209-212 | a freshly issued payment token is reused, with the cache unchanged, for any call before its eight-hour expiry |
| Usps.GenerateAuthToken | custom-plugin/shipping-partners/trait-usps.php:164-199 | the option update performed in place yields exactly the token cache and result of `AuthToken` |
| Usps.GeneratePaymentToken | custom-plugin/shipping-partners/trait-usps.php:208-266 | the option update performed in place yields exactly the token cache and result of `PaymentToken` |
| Usps.Tokens | custom-plugin/shipping-partners/trait-usps.php:64-79 | obtaining both tokens changes only the token cache; on success both tokens are non-empty, on failure the error is one of the three token messages |
| Usps.ObtainTokens | custom-plugin/shipping-partners/trait-usps.php:64-79 | the two in-place token steps produce exactly the store and result of `Tokens` |
| Usps.LabelRequest | custom-plugin/shipping-partners/trait-usps.php:122-155 | a reply other than HTTP 200 changes nothing and fails with "Failed to generate return label from USPS."; a 200 reply raises nothing; the set of orders, the refunds and the token cache are unchanged |
| Usps.LabelRequestRecords | custom-plugin/shipping-partners/trait-usps.php:142-155 | a 200 reply records usps_tracking_id, usps_tracking_url and usps_routing_number from the reply, stores the decoded label part (the label section trimmed and cut at its first `--`) as the inbound label file, and the inbound flag is set exactly when the file was written or it was already set |
| Usps.RequestLabel | custom-plugin/shipping-partners/trait-usps.php:122-155 | the in-place request yields exactly the store and error of `LabelRequest` |
| Usps.ReturnLabelSpec | custom-plugin/shipping-partners/trait-usps.php:63-155 | generating a USPS return label keeps the set of orders; what it writes and when it fails are stated by the two lemmas below |
| Usps.ReturnLabelFailureWritesNothing | custom-plugin/shipping-partners/trait-usps.php:63-140 | a token failure or a failed label request leaves orders, label files, the action queue and refund records as they were |
| Usps.ReturnLabelSuccess | custom-plugin/shipping-partners/trait-usps.php:63-155 | with both tokens, a 200 reply stores the tracking number and the decoded label and a non-200 reply fails with the label error; a token failure is swallowed (no error) exactly when the request is an AJAX request and rethrown otherwise |
| Usps.GenerateReturnLabel | custom-plugin/shipping-partners/trait-usps.php:63-155 | the in-place label generation yields exactly the store and error of `ReturnLabelSpec`, whose properties the two lemmas above state |
| Usps.ApiTrackingSpec | custom-plugin/shipping-partners/trait-usps.php:365-412 | polling keeps the set of orders and returns either the state it was given or the translation of the reported event code, and any new value is one of the five USPS states |
| Usps.ApiTrackingMatchesWebhook | custom-plugin/shipping-partners/trait-usps.php:373-411 | when the order has a tracking id, the token is obtained, the reply is 200 with a tracking number and an event code, and that number names exactly one order, polling returns the translated code and records it as that order's inbound status unless the order is already converted, just as the tracking webhook does |
| Usps.ApiTracking | custom-plugin/shipping-partners/trait-usps.php:365-412 | the in-place poll yields exactly the store and result of `ApiTrackingSpec` |
| Shippo.Flatten | custom-plugin/shipping-partners/trait-shippo.php:296-306 | the rate pages merged in order; no pages give no rates |
| Shippo.FirstMatch | custom-plugin/shipping-partners/trait-shippo.php:307-315 | no rate is chosen exactly when no rate has both the carrier account and the service-level token; otherwise the chosen id belongs to the first rate that has both |
| Shippo.FirstMatchAppend | custom-plugin/shipping-partners/trait-shippo.php:307-315 | searching the merged pages finds the first page's match if there is one, and otherwise the later pages' match |
| Shippo.FirstMatchAt | custom-plugin/shipping-partners/trait-shippo.php:311-313 | a matching rate preceded by no matching rate is the one chosen |
| Shippo.FindRate | custom-plugin/shipping-partners/trait-shippo.php:307-315 | the `foreach … break` loop returns exactly `FirstMatch` |
| Shippo.RatesSpec | custom-plugin/shipping-partners/trait-shippo.php:279-321 | a rate id is returned only for an HTTP 200 reply and is never empty; a 200 reply with no matching rate among all pages returns nothing |
| Shippo.GetRates | custom-plugin/shipping-partners/trait-shippo.php:279-321 | the request and the paging loop return exactly `RatesSpec` |
| Shippo.RecordTransaction | custom-plugin/shipping-partners/trait-shippo.php:202-216 | the transaction's tracking number and status go to the outbound or inbound keys of the label's direction, the outbound label adds `pre_transit_time` only if it is absent, and every meta key outside the written ones is untouched |
| Shippo.Bought | custom-plugin/shipping-partners/trait-shippo.php:202-218 | storing a purchased label keeps the set of orders, the refund records, the token cache and the return-label guard |
| Shippo.BoughtRecords | custom-plugin/shipping-partners/trait-shippo.php:202-218 | after a purchase the order's status is unchanged, its tracking number is the transaction's, the label flag is set exactly when the file was written (or was set before), no other meta key changes, and an outbound label queues the 7-day tracking check and the 15-day delivery-failed notice |
| Shippo.LabelOnce | custom-plugin/shipping-partners/trait-shippo.php:134-218 | a label is stored exactly when a shipment was created, a rate matched and the transaction reports SUCCESS with a label URL; every other outcome changes nothing, and an error is one of the three Shippo messages |
| Shippo.ShippoLabel | custom-plugin/shipping-partners/trait-shippo.php:125-225 | the whole call keeps the set of orders, fails only with a Shippo label message, and never changes a return-label guard that was already set |
| Shippo.AfterLabel | custom-plugin/shipping-partners/trait-shippo.php:219-224 | with the guard already set nothing further happens; otherwise the return label is attempted only when the partner is Shippo, the order has returnable items and the return partner is neither FedEx nor USPS |
| Shippo.NoRecursionOnceGuarded | custom-plugin/shipping-partners/trait-shippo.php:219-224 | once the guard is set the nested replies are never consulted, so an outbound label is followed by at most one return label |
| Shippo.GuardLeftSet | custom-plugin/shipping-partners/trait-shippo.php:219-223 | when an outbound label was bought and a return label is wanted, the order ends with `generating_return_label` set to "generating" |
| Shippo.BuyLabel | custom-plugin/shipping-partners/trait-shippo.php:134-218 | one in-place purchase yields exactly the store and outcome of `LabelOnce` |
| Shippo.RecordTransactionMeta | custom-plugin/shipping-partners/trait-shippo.php:202-216 | the in-place meta writes change only this order, to `RecordTransaction` of it |
| Shippo.RecordBought | custom-plugin/shipping-partners/trait-shippo.php:202-218 | the in-place writes, schedules and label storage yield exactly `Bought` |
| Shippo.GenerateShippoLabel | custom-plugin/shipping-partners/trait-shippo.php:125-225 | the recursive method yields exactly the store and error of `ShippoLabel` |
| Shippo.ReturnLabelAfter | custom-plugin/shipping-partners/trait-shippo.php:219-224 | setting the guard and making the nested call in place yields exactly the store and error of `AfterLabel` |
| Shippo.FedexStatus | custom-plugin/shipping-partners/trait-shippo.php:436-448 | a FedEx status always maps to one of the five Shippo-compatible states |
| Shippo.FedexStatusPreimages | custom-plugin/shipping-partners/trait-shippo.php:437-448 | each Shippo state comes exactly from its listed FedEx labels ("Initiated"; "In transit" or "Picked up"; "Delivered"; the four failure labels), and UNKNOWN exactly from any other label |
| Shippo.FedexToken | custom-plugin/shipping-partners/trait-shippo.php:497-533 | the call fails exactly when there is no token valid for 500 more seconds and the server answers other than 200, failing leaves the cache alone, and a success returns "Bearer " followed by the cached token |
| Shippo.FedexTokenReused | custom-plugin/shipping-partners/trait-shippo.php:499-508 | a fresh FedEx token is reused, with the cache unchanged, until 500 seconds before its expiry |
| Shippo.GetFedexToken | custom-plugin/shipping-partners/trait-shippo.php:497-533 | the in-place option update yields exactly the cache and result of `FedexToken` |
| Shippo.TrackFedexSpec | custom-plugin/shipping-partners/trait-shippo.php:390-457 | polling FedEx changes no order, refund record or label file directly (only the queue and the token cache) |
| Shippo.TrackFedexRepoll | custom-plugin/shipping-partners/trait-shippo.php:436-456 | for a FedEx outbound shipment with a 200 reply, an asynchronous status update with the mapped status is queued 10 seconds ahead, and a new check five days ahead is queued exactly when the status is not "Delivered" |
| Shippo.TrackFedexShipment | custom-plugin/shipping-partners/trait-shippo.php:390-457 | the in-place poll yields exactly `TrackFedexSpec` |
| Shippo.DeliveryFailedNotifies | custom-plugin/shipping-partners/trait-shippo.php:468-485 | the failure mail is sent only about an existing order whose status is not completed, awaiting-returns or returned-in-trans |
| Shippo.DeliveredOrderNotNotified | custom-plugin/shipping-partners/trait-shippo.php:468-485 | an order whose outbound status becomes DELIVERED never triggers the delivery-failed mail afterwards |
| Easypost.RecordPurchase | custom-plugin/shipping-partners/trait-easypost.php:206-208 | the bought shipment's tracker id, carrier and shipment id are stored under their three keys and every other meta key is untouched |
| Easypost.CreateShipment | custom-plugin/shipping-partners/trait-easypost.php:122-211 | the "Unable to get the desired rate" error arises exactly when the shipment was created (201) but no rate matches; success exactly when the shipment was created, a rate matched and the purchase answered 200; anything short of success changes nothing |
| Easypost.ReturnLabelEasypost | custom-plugin/shipping-partners/trait-easypost.php:100-112 | no error exactly when creation, rate choice and purchase all succeed; on an error nothing changes and the message is the rate error or "Unable to create shipment using easypost" |
| Easypost.ReturnLabelEasypostRecords | custom-plugin/shipping-partners/trait-easypost.php:200-210 | after a purchase the order holds the tracker id, shipment id and carrier, the inbound label file holds the label exactly when it was written, the inbound flag follows the write, and the order's status and all other orders are unchanged |
| Easypost.EasypostRateChoice | custom-plugin/shipping-partners/trait-easypost.php:162-170 | a FedEx return uses the FedEx carrier account and service level, any other return the inbound ones, and the chosen rate is the first with both |
| Easypost.CreateShipmentEasypost | custom-plugin/shipping-partners/trait-easypost.php:122-211 | the in-place shipment creation yields exactly the store and result of `CreateShipment` |
| Easypost.StorePurchase | custom-plugin/shipping-partners/trait-easypost.php:206-209 | the in-place meta writes followed by the label storage yield exactly `StoreLabel` applied to the order with `RecordPurchase` |
| Easypost.GenerateReturnLabelEasypost | custom-plugin/shipping-partners/trait-easypost.php:100-112 | the in-place call yields exactly the store and error of `ReturnLabelEasypost` |
| Easypost.EpApiTrackingSpec | custom-plugin/shipping-partners/trait-easypost.php:259-293 | polling keeps the set of orders and returns either the given state or the tracker's reported status; returning the given state when it differs from the reply means nothing changed |
| Easypost.EpApiTrackingMatchesWebhook | custom-plugin/shipping-partners/trait-easypost.php:267-292 | for an order with a tracker id and a 200 reply whose tracker names exactly one order, polling returns the reported status and records it as that order's inbound status as the webhook does, and changes nothing when that order is already converted |
| Easypost.EpApiTracking | custom-plugin/shipping-partners/trait-easypost.php:259-293 | the in-place poll yields exactly the store and result of `EpApiTrackingSpec` |
| LabelGenerator.MergeLabels | custom-plugin/classes/class-ss-label-generator.php:264-299 | a failed merge changes nothing and fails ("Error merging pdf", or the JSON error in an AJAX request); a merge writes the merged file at `<order id>.pdf`, sets the merged flag on this order only, keeps its status, and queues the file's deletion at the configured time |
| LabelGenerator.MergedFlagMeansMerged | custom-plugin/classes/class-ss-label-generator.php:276-288 | starting from an unmerged order, the merged flag ends set exactly when the merge happened, and then the merged file exists |
| LabelGenerator.MergeOrderLabels | custom-plugin/classes/class-ss-label-generator.php:264-299 | the in-place merge yields exactly the store and error of `MergeLabels` |
| LabelGenerator.ShippedStep | custom-plugin/classes/class-ss-label-generator.php:248-256 | the order becomes "shipped" exactly when it is fully labelled (outbound alone with nothing returnable, or both labels with something returnable) and the shipped status exists; it is merged exactly in the second case when the merge succeeds, an error comes only from that merge, and an order not fully labelled is left alone |
| LabelGenerator.UnregisteredStatusesNeverWritten | custom-plugin/helper-functions.php:61-68 | the guard keeps unregistered statuses off orders: without "wc-shipped" a labelled order keeps its status, without "wc-awaiting-returns" a delivered outbound parcel completes the order, and without "wc-returned-in-trans" a return in transit keeps its status |
| LabelGenerator.MarkShipped | custom-plugin/classes/class-ss-label-generator.php:248-256 | the in-place status update and merge yield exactly `ShippedStep` |
| LabelGenerator.ReturnCarrierChoice | custom-plugin/classes/class-ss-label-generator.php:234-239 | with nothing returnable no return label is made; a USPS return partner never goes to EasyPost but to USPS; a FedEx return partner always goes to EasyPost |
| LabelGenerator.ReturnLabelStep | custom-plugin/classes/class-ss-label-generator.php:233-240 | a return label already flagged, or an order for which neither EasyPost nor USPS applies, is left alone |
| LabelGenerator.MakeReturnLabel | custom-plugin/classes/class-ss-label-generator.php:233-240 | the in-place dispatch yields exactly `ReturnLabelStep` |
| LabelGenerator.OrderCreatedSpec | custom-plugin/classes/class-ss-label-generator.php:214-257 | the handler keeps the set of orders and fails with "Order ID not found", changing nothing, when no order id is posted |
| LabelGenerator.SecondOutboundRefused | custom-plugin/classes/class-ss-label-generator.php:223-229 | an order whose outbound label is already flagged is refused with "Outbound Shipping label already generated" and nothing changes |
| LabelGenerator.OrderCreatedShips | custom-plugin/classes/class-ss-label-generator.php:230-256 | when both labels succeed, an order fully labelled for shipping alone ends shipped without error; one labelled with its return ends shipped, and without error and merged exactly when the merge succeeds |
| LabelGenerator.OrderCreated | custom-plugin/classes/class-ss-label-generator.php:214-257 | the in-place handler yields exactly the store and error of `OrderCreatedSpec` |
| LabelGenerator.InboundState | custom-plugin/classes/class-ss-additional-fees.php:98-104 | an order whose inbound partner is neither EasyPost nor USPS keeps its stored status and nothing changes; otherwise the state is the stored one or what that partner reports |
| LabelGenerator.RefreshInboundState | custom-plugin/classes/class-ss-additional-fees.php:98-104 | the in-place refresh yields exactly `InboundState` |
| LabelGenerator.ConfirmInboundSpec | custom-plugin/classes/class-ss-label-generator.php:1137-1151 | the set of orders is kept; an id that names no order, or an order tracked by Shippo or by no partner, changes nothing (the Shippo lookup is a stub) |
| LabelGenerator.ConfirmInboundEasypost | custom-plugin/classes/class-ss-label-generator.php:1145-1150 | for an EasyPost-tracked order with a 200 reply naming exactly one order, that order's inbound status becomes the reported one unless it is converted |
| LabelGenerator.ConfirmInboundStatus | custom-plugin/classes/class-ss-label-generator.php:1137-1151 | the in-place confirmation yields exactly `ConfirmInboundSpec` |
| Batch.AddPdf | custom-plugin/classes/class-ss-label-generator.php:968 | after `addPDF` the merger holds at least one file and the added label is the last one |
| Batch.RemoveLast | custom-plugin/classes/class-ss-label-generator.php:859-878 | the answer is true exactly when the merger's list is an array; the last file is dropped, and a list left empty (or a null one) becomes null |
| Batch.RemoveLastUndoesAdd | custom-plugin/classes/class-ss-label-generator.php:968-973 | taking out the label just added restores the merger, except that a merger without files ends null |
| Batch.AddToGroup | custom-plugin/classes/class-ss-label-generator.php:958-973 | the order's group gets a merger if it had none and no other group changes; after a successful trial merge the label is the group's last file, after a failed one the group's files are as before |
| Batch.AddToGroupInPlace | custom-plugin/classes/class-ss-label-generator.php:958-973 | creating the group, adding the label and removing it after a failed trial yields exactly `AddToGroup` |
| Batch.BatchStep | custom-plugin/classes/class-ss-label-generator.php:932-973 | only an order whose label generation succeeded adds its group to the run's mergers |
| Batch.OrderType | custom-plugin/classes/class-ss-label-generator.php:954-957 | an order is grouped "Exchange" or "No-Exchange"; "No-Exchange" exactly when its stored returnable meta is PHP-empty and its returnable count is not positive |
| Batch.BatchBuckets | custom-plugin/classes/class-ss-label-generator.php:928-974 | after a page, the failed list grows by exactly the ids whose generation threw something other than "Error merging pdf", the successful list by the ids whose generation returned, and the merge-failed list by the merge-error ids and the ids whose trial merge failed, each in page order |
| Batch.BucketMembers | custom-plugin/classes/class-ss-label-generator.php:936-941 | an id in the failed bucket belongs to an order whose exception was not the merge error; an id in the merge-failed bucket belongs to an order that threw the merge error or succeeded |
| Batch.BucketsDisjoint | custom-plugin/classes/class-ss-label-generator.php:923-941 | with distinct ids on the page and none of them already listed, no order ends up in both the failed and the merge-failed list |
| Batch.AutoGeneratePage | custom-plugin/classes/class-ss-label-generator.php:928-974 | the loop over one page's orders yields exactly the bookkeeping `BatchSpec` describes |
| AdditionalFees.ScheduleMailSpec | custom-plugin/classes/class-ss-additional-fees.php:51-78 | the reminder goes out exactly when the order exists, is not completed and its refreshed inbound state is empty, unknown or pre-transit (either case); a missing or completed order changes nothing |
| AdditionalFees.NoReminderOnceReturning | custom-plugin/classes/class-ss-additional-fees.php:62-71 | an order not tracked by EasyPost or USPS whose stored inbound state shows the parcel moving gets no reminder and nothing changes |
| AdditionalFees.ScheduleMail | custom-plugin/classes/class-ss-additional-fees.php:51-78 | the in-place handler yields exactly the store and outcome of `ScheduleMailSpec` |
| AdditionalFees.ChargeOnCard | custom-plugin/classes/class-ss-additional-fees.php:108-161 | every path adds exactly one order note (the guest note for a guest order); only a succeeded intent changes meta, recording its id as `wdm_charge_id`; the order is completed, and the "Non return fee" line added with the stored amount, exactly when the intent succeeded and a non-return fee was stored at checkout; items, customer and refund requests never change |
| AdditionalFees.ChargeSpec | custom-plugin/classes/class-ss-additional-fees.php:88-162 | an order that is missing or completed is left alone; one already on its way back after the tracking refresh is not charged, and only the refresh's writes remain; the set of orders is kept |
| AdditionalFees.ChargeFollowsReminder | custom-plugin/classes/class-ss-additional-fees.php:59-107 | the charge runs in exactly the situations the reminder mail does: where no reminder goes out nothing is charged, and where one goes out the charge adds exactly one note |
| AdditionalFees.ChargeOrder | custom-plugin/classes/class-ss-additional-fees.php:108-161 | the in-place charge changes only this order, to `ChargeOnCard` of it |
| AdditionalFees.AddChargesOnCustomersCard | custom-plugin/classes/class-ss-additional-fees.php:88-162 | the in-place handler yields exactly the store and outcome of `ChargeSpec` |
| AdditionalFees.EasypostRefund | custom-plugin/classes/class-ss-additional-fees.php:329-361 | true exactly for a non-zero id in test mode, or for an order with a shipment id whose refund answered 200; nothing (null) for id 0 or, outside test mode, for an order without a shipment id; only a real refund writes, storing the refund status and the request time on that order and nothing else |
| AdditionalFees.EasypostRefunds | custom-plugin/classes/class-ss-additional-fees.php:329-361 | the in-place refund yields exactly the store and result of `EasypostRefund` |
| AdditionalFees.NonCritical | custom-plugin/classes/class-ss-additional-fees.php:230-237 | the mail exceptions are always tolerated, the fee-unscheduling one only for a shipped order, and "not found" for the fee never |
| AdditionalFees.PartialGuard | custom-plugin/classes/class-ss-additional-fees.php:183-225 | the request passes the checks only with an existing order, a set fee value, both Stripe keys, a Stripe customer id, a default payment token and a synchronised default; otherwise it fails with one of the eight listed messages |
| AdditionalFees.ConvertPrep | custom-plugin/classes/class-ss-additional-fees.php:229-249 | the preparation keeps the order's status; an exception that ends the request is never a tolerated one (apart from the EasyPost refund failure); a tolerated one is passed on; a non-shipped order never tolerates the fee-unscheduling exception |
| AdditionalFees.FailedChargeNoteAsWrittenLosesFee | custom-plugin/classes/class-ss-additional-fees.php:288 | as written, a failed partial charge and a failed conversion leave the same note |
| AdditionalFees.FailedChargeNoteNamesFee | custom-plugin/classes/class-ss-additional-fees.php:264-288 | the corrected note distinguishes the partial non-return fee from the conversion fee |
| AdditionalFees.Settled | custom-plugin/classes/class-ss-additional-fees.php:269-283 | "charge" marks the partial fee charged, records the charge id if none was stored and keeps status and conversion; any other sub-action marks the order converted, keeps the charge id and completes the order exactly when it was completed or its outbound parcel was delivered |
| AdditionalFees.StripeOutcome | custom-plugin/classes/class-ss-additional-fees.php:250-290 | only this order changes and the queue is kept; "Charged" exactly when the intent succeeded and no tolerated exception occurred, the "converted but unable to unschedule" error when one did; a failed intent changes no meta and no status and ends in an error, noting the corrected `FailedChargeNote` that names the fee (see Findings) |
| AdditionalFees.AfterChargeRecords | custom-plugin/classes/class-ss-additional-fees.php:262-286 | after a succeeded intent the charge id changes only for "charge" with the fee line added and a stored checkout fee; the status changes only to completed on a conversion of a delivered order; an order becomes converted only through a conversion with the fee line added |
| AdditionalFees.ChargePartialSpec | custom-plugin/classes/class-ss-additional-fees.php:181-291 | a failed check ends the request with its message and changes nothing; "Charged" implies the checks passed and the intent succeeded; a failed intent carries the corrected `FailedChargeNote` (see Findings) |
| AdditionalFees.ConversionWithoutPendingFeeAborts | custom-plugin/classes/class-ss-additional-fees.php:235-246 | converting a non-shipped order with no pending non-return fee action ends with "Unable to unschedule the previous non-return fee." before any charge and adds no note |
| AdditionalFees.ShippedConversionTolerated | custom-plugin/classes/class-ss-additional-fees.php:235-286 | for a shipped order the same missing action is tolerated: the charge goes ahead, and a succeeded intent is answered with the "converted but unable to unschedule" error |
| AdditionalFees.PrepareConversion | custom-plugin/classes/class-ss-additional-fees.php:229-249 | the in-place preparation yields exactly `ConvertPrep` |
| AdditionalFees.ApplyStripeReply | custom-plugin/classes/class-ss-additional-fees.php:250-290 | the in-place handling of the Stripe reply yields exactly `StripeOutcome`, so a failed intent notes the corrected `FailedChargeNote` (see Findings) |
| AdditionalFees.RecordSettlement | custom-plugin/classes/class-ss-additional-fees.php:269-283 | the in-place meta and status writes change only this order, to `Settled` of it |
| AdditionalFees.ChargePartialReturnFee | custom-plugin/classes/class-ss-additional-fees.php:181-291 | the in-place handler yields exactly `ChargePartialSpec`, with its corrected failed-charge note (see Findings) |
| AdditionalFees.StripeRefundSpec | custom-plugin/classes/class-ss-additional-fees.php:448-484 | the store changes only when the session asks for the fee refund, the order has a charge id, Stripe is on and the refund succeeded, and then only by adding the refund id once to that order; "Stripe is not enabled" is reported exactly when everything else holds but Stripe is off |
| AdditionalFees.StripeRefunds | custom-plugin/classes/class-ss-additional-fees.php:448-484 | the in-place handler yields exactly `StripeRefundSpec` |
| ScheduleRefunds.CheckedOrderId | custom-plugin/classes/class-ss-schedule-refunds.php:61-71 | the posted id is accepted exactly when it is non-empty, its `absint` is non-zero and names an order, and then the id is that `absint`; otherwise "Please provide valid order id" |
| ScheduleRefunds.CheckboxValue | custom-plugin/classes/class-ss-schedule-refunds.php:72-76 | the checkbox counts as checked exactly when the posted value is the string "true" |
| ScheduleRefunds.SetSessionForCheckbox | custom-plugin/classes/class-ss-schedule-refunds.php:59-77 | an invalid id is refused and the session is unchanged; a valid one stores whether the posted value was "true" |
| ScheduleRefunds.CheckForSession | custom-plugin/classes/class-ss-schedule-refunds.php:84-106 | an invalid id is refused and the session is unchanged; a valid one clears the order's pending-refund mark and sets the fee-refund flag to whether the checkbox was checked and the order has returnable items |
| ScheduleRefunds.RefundStatusText | custom-plugin/classes/class-ss-schedule-refunds.php:114-126 | "Error" exactly when a failure is recorded, otherwise "Scheduled" while the payment is not refunded and "Processed" once it is |
| ScheduleRefunds.RefundStatusAfterProcessing | custom-plugin/classes/class-ss-schedule-refunds.php:114-126 | a fresh refund shows "Scheduled"; after the scheduled processing it shows "Processed" if the payment was refunded, "Error" if the gateway declined with a message, and still "Scheduled" if the gateway threw |
| ScheduleRefunds.ScheduleRefundButtonItems | custom-plugin/classes/class-ss-schedule-refunds.php:132-139 | for a shipped order with returnable items whose amount is fully refunded, the button still shows exactly when some items are not yet refunded |
| ScheduleRefunds.ShowScheduleRefundButton | custom-plugin/classes/class-ss-schedule-refunds.php:132-139 | the button shows only for a shipped or awaiting-returns order with returnable items that has an amount or items left to refund, and always when such an order has items left |
| ScheduleRefunds.RefundOrder | custom-plugin/classes/class-ss-schedule-refunds.php:147-157 | an empty posted id is refused and nothing changes; otherwise the `absint` of the posted id is marked for a scheduled refund |
| ScheduleRefunds.ModifyArgs | custom-plugin/classes/class-ss-schedule-refunds.php:166-188 | the request is answered exactly when the refund's order id is non-zero and marked; a marked order loses its mark and, when it exists, gains the refund's descriptor at the end of its queued requests; nothing else changes |
| ScheduleRefunds.AppendedRefundProcessedLast | custom-plugin/classes/class-ss-schedule-refunds.php:180-186 | a descriptor appended by `ModifyArgs` is processed after all earlier ones, on the state they leave |
| Orders.PostedOrder | custom-plugin/classes/class-ss-orders.php:111-114 | a posted id names an order only when it is a string of decimal digits for an existing order |
| Orders.PostedIdNamesOrder | custom-plugin/classes/class-ss-orders.php:111-115 | every existing positive order id, posted in decimal, names that order |
| Orders.PlacedMeta | custom-plugin/classes/class-ss-orders.php:66-84 | placing an order writes exactly the Stripe test-mode flag (the setting's `testmode`, "" when unset), the returnable count and the checkout fee, and no other meta key changes |
| Orders.PlacedFeeReadsBack | custom-plugin/classes/class-ss-orders.php:69-81 | the stored returnable count reads back as the order's returnable items, the stored fee as the configured per-item fee (2500 cents when unset) times that count, and a converted order stores a zero fee |
| Orders.AddMeta | custom-plugin/classes/class-ss-orders.php:66-84 | the in-place meta writes change only this order, to `PlacedMeta` of it |
| Orders.ExtendSpec | custom-plugin/classes/class-ss-orders.php:100-129 | a missing id or one naming no order fails with "Invalid request" and changes nothing; a success answers "Extended"; orders and refund records keep their keys |
| Orders.Extend | custom-plugin/classes/class-ss-orders.php:115-128 | for an existing order the request never fails as invalid, and a success answers "Extended" |
| Orders.ExtendCountsOnce | custom-plugin/classes/class-ss-orders.php:116-128 | the answer is "Extended", the "mail cannot be extended" error, or one of the two fee-action errors; a fee-action error leaves the extension count alone and reports the unscheduling error; otherwise the count goes from empty to 1 or up by one; "Extended" exactly when the unscheduling raised nothing |
| Orders.ExtendWithoutChargeChangesNothing | custom-plugin/classes/class-ss-orders.php:116-121 | with no pending non-return fee action the request fails with "The charge action not found or it is already in process" and nothing changes |
| Orders.ExtendMovesCharge | custom-plugin/classes/class-ss-orders.php:116-128 | a successful extension re-queues the fee charge at its old time plus the configured extension, keeps the queue's length, and records the new time as `wdm_return_by` |
| Orders.ExtendedReturnDate | custom-plugin/helper-functions.php:214-219 | after an extension, the mails' `%new_return_date%` is the moved charge time less 21600 s, formatted ("" only when that is 0) |
| Orders.ExtendReturnPeriod | custom-plugin/classes/class-ss-orders.php:100-129 | the in-place handler yields exactly the store and result of `ExtendSpec` |
| Orders.ExtendOrder | custom-plugin/classes/class-ss-orders.php:115-128 | the in-place extension of an existing order yields exactly `Extend` |
| Orders.TrackQueryFor | custom-plugin/classes/class-ss-orders.php:291-355 | no lookup without an outbound tracking number; in live mode the order's number and carrier (defaulting to "usps"), in test mode "SHIPPO_DELIVERED" with "shippo"; both fields are never empty |
| Orders.RefundTransaction | custom-plugin/classes/class-ss-orders.php:283-298 | a stored outbound transaction id is used as is; without one and without a tracking number there is none; otherwise it is Shippo's looked-up transaction, when non-empty |
| Orders.OutboundRefundId | custom-plugin/classes/class-ss-orders.php:280-322 | no transaction means no refund id; a non-empty refund id is Shippo's answer for the order's transaction |
| Orders.RefundIdAsWrittenErases | custom-plugin/classes/class-ss-orders.php:141-145 | as written, a refund request that returns no id overwrites a stored non-empty refund id with "" |
| Orders.RecordRefundId | custom-plugin/classes/class-ss-orders.php:141-145 | recording keeps the stored ids as a prefix, ends with the new id, joins the two with ";" when both exist, and leaves the stored value alone when no new id came back |
| Orders.RecordRefundIdAgrees | custom-plugin/classes/class-ss-orders.php:141-145 | whenever the refund returns an id, the corrected recording writes exactly what the source writes |
| Orders.CancelEach | custom-plugin/classes/class-ss-orders.php:179-188 | cancelling the label deletions only removes actions, and removes every deletion action with any of the given arguments |
| Orders.WithoutKeys | custom-plugin/classes/class-ss-orders.php:218-220 | deleting the listed meta keys keeps exactly the other keys with their values |
| Orders.ClearLabels | custom-plugin/classes/class-ss-orders.php:190-223 | a shipped or processing order loses exactly the 25 listed meta keys and becomes processing; any other order is unchanged |
| Orders.LabelResetSpec | custom-plugin/classes/class-ss-orders.php:132-224 | an empty posted id does nothing; a failed refund request ends with "Unable to raise refund request" without touching the queue; refund records and label files never change; refund ids are recorded with the corrected `RecordRefundId`, so a reply without an id keeps the stored ids (see Findings) |
| Orders.Reset | custom-plugin/classes/class-ss-orders.php:153-223 | the reset proper keeps the set of orders, the refund records and the label files |
| Orders.FailedResetKeepsOrder | custom-plugin/classes/class-ss-orders.php:140-152 | (corrected behaviour) when Shippo returns no refund id, the order, its stored refund ids and the queue stay as they were |
| Orders.FlagsAmongResetKeys | custom-plugin/classes/class-ss-orders.php:195-197 | the three label flags are among the deleted keys |
| Orders.PartnerKeysAmongResetKeys | custom-plugin/classes/class-ss-orders.php:192-216 | the recursion guard, the conversion mark and the three keys that name an inbound partner are among the deleted keys |
| Orders.RefundKeyKept | custom-plugin/classes/class-ss-orders.php:191-217 | the stored Shippo refund ids are not among the deleted keys |
| Orders.ClearedOrderFresh | custom-plugin/classes/class-ss-orders.php:190-223 | a cleared order is processing, has no label flags, no guard, no inbound partner, is not converted and keeps its refund ids |
| Orders.ResetReadiesRegeneration | custom-plugin/classes/class-ss-orders.php:132-224 | after a successful reset of a shipped or processing order, it is processing with no label flags, guard or inbound partner, ready for labels to be generated again, and its refund ids hold the new id appended |
| Orders.ResetCancelsDeletions | custom-plugin/classes/class-ss-orders.php:172-188 | after a successful reset no deletion of the order's outbound, inbound or merged label (with the merged label's id as a string) remains queued |
| Orders.CancelPending | custom-plugin/classes/class-ss-orders.php:153-170 | the in-place cancellation removes the next fee charge and then the next reminder mail |
| Orders.CancelDeletions | custom-plugin/classes/class-ss-orders.php:179-188 | the loop over the three file names yields exactly `CancelEach` |
| Orders.DeleteKeys | custom-plugin/classes/class-ss-orders.php:218-220 | the deletion loop changes only this order's meta, to `WithoutKeys` of the listed keys |
| Orders.ClearOrderLabels | custom-plugin/classes/class-ss-orders.php:190-223 | the in-place clearing changes only this order, to `ClearLabels` of it |
| Orders.ResetOrder | custom-plugin/classes/class-ss-orders.php:153-223 | the in-place reset yields exactly `Reset` |
| Orders.LabelReset | custom-plugin/classes/class-ss-orders.php:132-224 | the in-place handler yields exactly the store and error of `LabelResetSpec`, with its corrected refund-id recording (see Findings) |
| Orders.Replacement | custom-plugin/classes/class-ss-orders.php:250-272 | the replacement is a processing, zero-total order holding one unit of the chosen product, with the original's customer and addresses, no notes, fees or refunds, marked as a replacement with the chosen machine type, carrying the original's Stripe customer id and its non-return fee only when one was set, and no meta beyond those six keys |
| Orders.ReplacementStartsFresh | custom-plugin/classes/class-ss-orders.php:250-272 | a replacement has no label flags, no guard and no inbound partner, and has one returnable item exactly when the product's shipping class is eligible |
| Orders.CloneSpec | custom-plugin/classes/class-ss-orders.php:231-274 | the clone succeeds exactly when the three fields are posted, the id names an order and that order has shipping and billing addresses; errors change nothing; a success adds the `Replacement` under the new id and answers "Order Generated" |
| Orders.CloneOrder | custom-plugin/classes/class-ss-orders.php:231-274 | the in-place clone yields exactly the store and result of `CloneSpec` |
| Settings.TextField | custom-plugin/classes/class-ss-settings.php:143-148 | a posted text field reads as "" exactly when it is missing or empty in PHP's sense ("" or "0"), and otherwise as posted |
| Settings.ListField | custom-plugin/classes/class-ss-settings.php:141-142 | a posted list reads as posted, a missing one as the empty list |
| Settings.LineIds | custom-plugin/classes/class-ss-settings.php:150-169 | one id per printing-line term, in order: the term id as a decimal string, or "-1" for an entry without one |
| Settings.Slugs | custom-plugin/classes/class-ss-settings.php:178-187 | one slug per shipping class, in order, "-1" for an entry without a slug |
| Settings.ClassSlugs | custom-plugin/classes/class-ss-settings.php:171-189 | no shipping classes when WooCommerce's shipping is unavailable, otherwise one slug per class |
| Settings.LineAccepted | custom-plugin/classes/class-ss-settings.php:161-169 | a printing line is accepted exactly when some term yields it: its id written in decimal, or "-1" from an entry without an id |
| Settings.FirstError | custom-plugin/classes/class-ss-settings.php:200-229 | no error exactly when every field is acceptable; "Invalid Order Status" exactly when some selected status is not a registered one; the partner error only for a partner other than Easypost, Shippo or USPS after the statuses and classes passed; the EasyPost-mode error only after the USPS and Shippo modes passed |
| Settings.Validate | custom-plugin/classes/class-ss-settings.php:200-229 | the checking loops report exactly `FirstError` |
| Settings.SavedOptions | custom-plugin/classes/class-ss-settings.php:231-238 | saving adds exactly the eight settings options to the existing ones |
| Settings.SaveSpec | custom-plugin/classes/class-ss-settings.php:139-240 | the save answers "Saved" exactly when the defaulted fields are all acceptable; otherwise nothing is written and the error is the first failed check's message |
| Settings.MissingFieldsRejected | custom-plugin/classes/class-ss-settings.php:143-229 | a missing or empty partner, or any missing test mode, is always rejected; with the partner missing or empty, the partner error is the one reported exactly when the statuses and shipping classes are valid |
| Settings.SavedSettingsAreWhitelisted | custom-plugin/classes/class-ss-settings.php:200-238 | after a successful save the partner, PDF size and three test modes hold allowed values and the saved statuses and classes are all registered ones |
| Settings.NothingOfferedOnlyEmptySelection | custom-plugin/classes/class-ss-settings.php:171-210 | when no shipping classes or no order statuses are available, only an empty selection of them is accepted |
| Settings.SaveEligibleOrderStatus | custom-plugin/classes/class-ss-settings.php:139-240 | the in-place option updates yield exactly the options and answer of `SaveSpec` |
| WcAdmin.BadgeFor | custom-plugin/classes/class-ss-wc.php:296-316 | a status gets the processing badge exactly when it is one of the seven in-progress or delivered states, the failed badge exactly when it is one of the five failure states, and a plain badge otherwise |
| WcAdmin.StatusBadge | custom-plugin/classes/class-ss-wc.php:288-317 | only the two tracking columns show a badge: the inbound column shows the order's inbound status, the outbound column its stored Shippo outbound status, each with the badge `BadgeFor` gives it |
| WcAdmin.TranslatedStatesHaveBadges | custom-plugin/classes/class-ss-wc.php:296-316 | every state the USPS translation or the FedEx mapping produces gets a coloured badge unless it is the unknown state, and the failed badge exactly for the failure state |
| WcAdmin.LabelColumn | custom-plugin/classes/class-ss-wc.php:246-286 | the merged download link shows exactly when the merged flag is set and the labels were not deleted; deleted labels ("yes") never show links and are the only case that says the labels were removed; the "Generate Label" button shows exactly when there is no merged link, neither label flag is set, the status is an eligible one and the order has one item; otherwise, with a label flag set, the links are shown: the outbound label URL exactly when the outbound flag is set and the inbound one exactly when the inbound flag is set, outbound first |
| WcAdmin.LinksNameStoredFiles | custom-plugin/classes/class-ss-wc.php:253-264 | each download link ends with the same file name as the label file stored for that order and kind, and the merged link with the merged file's name |
| WcAdmin.ResetOrderLeavesFreshRow | custom-plugin/classes/class-ss-wc.php:246-328 | after the label reset clears a shipped or processing order, its reset button is disabled and its label column shows the generate button (when processing is eligible and it has one item) or "-" |
| WcAdmin.ResetEnabled | custom-plugin/classes/class-ss-wc.php:321-327 | the reset button is enabled for every shipped order and only for shipped or processing ones; a processing order needs an outbound tracking number and no inbound partner |
| WcAdmin.CheckShippingClass | custom-plugin/classes/class-ss-wc.php:370-389 | the loop answers true exactly when the cart is non-empty and every item's shipping class loosely equals one of the eligible classes |
| WcAdmin.LeadingZeroClassQualifies | custom-plugin/classes/class-ss-wc.php:382 | because the class test uses PHP's loose `in_array`, a numeric class with a leading zero qualifies exactly when the class without it does |
| WcAdmin.CheckoutMetaSpec | custom-plugin/classes/class-ss-wc.php:145-177 | a guest checkout writes nothing; otherwise only this order and this user's meta change, and no order disappears |
| WcAdmin.CheckoutMetaStored | custom-plugin/classes/class-ss-wc.php:150-176 | the order's machine type is the posted one when non-empty, else the user's remembered default ("" if none); an eligible cart sets the order's return partner and the user's remembered partner to "usps", otherwise the order's return partner is kept |
| WcAdmin.MachineTypeRemembered | custom-plugin/classes/class-ss-wc.php:150-160 | a machine type chosen at one checkout is stored on a later order of the same customer that posts none |
| WcAdmin.SaveCustomFieldInOrderMeta | custom-plugin/classes/class-ss-wc.php:145-177 | the in-place meta writes yield exactly the orders and user meta of `CheckoutMetaSpec` for the cart's eligibility |

## Left out

- HTTP, JSON and encodings.
  - Requests, status codes and `json_decode` are not modelled: each call's outcome is a parameter.
  - The USPS multipart response is reduced to two fields, its label section and its metadata section. The regular expressions and `base64_decode` become a `decode` parameter.
  - Exception texts that embed `print_r` dumps are reduced to their fixed part. For example, the non-AJAX "Unable to get the desired rate" exception of the EasyPost return label (`Easypost.NO_RATE`) also carries the fetched rates and the selected carrier and service level.
- HMAC-SHA256 signatures are not modelled.
  - This covers the batch page signatures, the webhook signatures and `wdm_verify_signature`.
  - The always-true `validate_usps_hmac` / `validate_shippo_hmac` stubs are not modelled either.
- Nonces are not modelled (`check_ajax_referer`, `check_admin_referer`).
- PDFs and files.
  - A merge is modelled only as success or failure, and a file only as its name and its contents as a string. `PDFMerger` and its reflection hack are not modelled, and neither are `sleep(2)` or file deletion.
  - A batch run's final merge, its e-mail with the merged PDF and the persistence of the page state between scheduled runs are left out. Each order's label generation outcome is an input (`Batch.BatchOrder`).
- Floating point.
  - Fee amounts are integers in cents, so the cents/100 conversion and the `weight/16` conversion are not modelled.
  - `WC_Order::calculate_totals` is modelled as adding a non-taxable fee line's amount to the total (`Wp.WithFee`).
- Formatting.
  - Dates (`date('jS F Y')`, `gmdate`) are not rendered.
  - `wpautop` is not modelled.
  - Addresses are formatted strings.
  - `sanitize_text_field` and `wp_unslash` are taken as the identity.
- E-mail (`wp_mail`) is not sent: the mail's text is computed where the rules need it.
- Logging (`wdm_error_log`, `wc_get_logger`) and admin notices are not modelled.
- HTML is left out.
  - Rendering is reduced to `WcAdmin.LabelCell` and `WcAdmin.Badge`.
  - Also left out:
    - the meta boxes;
    - `send_email_with_pdf`;
    - the order-details label button;
    - the settings fields and the soda-machine forms;
    - the status dropdown;
    - the registration of columns, taxonomies, hooks and endpoints (`wdm_handle_custom_query_var`).
- Requests end with `wp_send_json_*` / `wp_die`. The model returns a `Result` instead of terminating.
- AdditionalFees.ChargeOnCard: its "exactly one order note" counts the plugin's own notes. When it moves the order to another status, `update_status` also appends WooCommerce's own "Order status changed from … to …" note, which `Wp.Site.UpdateStatus` does not model.
- AdditionalFees.ChargeFollowsReminder: the one extra note it states is likewise the plugin's own note. WooCommerce's status-change note is not counted.
- Wp.OrdersWithMeta: the tracking lookups by meta value match exactly. The `meta_query` they model compares under the database's collation, which by default ignores letter case and trailing spaces.
- Stale `$order` objects are not modelled. The source sometimes writes meta through `update_post_meta` and then saves an order object loaded earlier. The model applies every write to the one stored order.
- Posted ids that are not strings of decimal digits are taken to name no order.
- Action Scheduler details.
  - `as_schedule_single_action` is taken to succeed: its 0 return is not modelled.
  - Action ordering uses the scheduled time, with the earlier-queued action first among ties. MySQL collation and the store's internal ids are not modelled.
- Tracking.Rearm: Action Scheduler actions that are already in progress are not modelled; the queue holds pending actions only. For a running mail or charge action, `as_next_scheduled_action` returns `true`. `wdm_schedule_charges` (class-ss-label-generator.php:811 and :833) re-arms only on a strict `false`, so the source schedules nothing for such an action. For a running charge it also skips the `wdm_confirm_inbound_status` check and the `wdm_return_by` writes. The model sees no pending action there, so `Rearm` schedules a second one, and `ScheduleFee` rewrites the return-by dates and queues another confirm check. `Wp.NextScheduled` matches the source only where the caller tests `is_bool`, as `wdm_remove_scheduled_actions` (helper-functions.php:102) does.
- Stock is not modelled: `restock_items` is carried in a scheduled refund but not applied.
- Refund records: `wc_create_refund`'s creation of the record is not modelled. The model starts from the refund id WooCommerce hands to `wdm_modify_args`.
- `set_date_modified` is not modelled.
- `wc_create_order` is taken to succeed.
  - The replacement product's shipping class is a parameter of `Orders.CloneOrder`.
  - `add_meta_data` on the new order is modelled as setting the key, since the new order has no meta yet.
- Php.LooseEq: PHP 8's loose `==` between strings is modelled only for plain decimal numerals and exact text. Other numeric forms (signs, decimals, exponents, surrounding white space) compare as text.
- The USPS return label's "Failed to generate required tokens." branch cannot be reached. Both token routines either throw or return a non-empty token (`Usps.AuthToken`, `Usps.PaymentToken` ensure this), so the model has no such branch.
- Token edge cases.
  - A USPS reply's `expires_in` is an integer, and a missing `access_token` is `None`.
  - The FedEx token reply is reduced to its status code, access token and lifetime.
- Shippo.MarkerOk: label generation requires that `generating_return_label` is absent or holds a non-empty value.
  - A present empty value would let the nested Shippo call recurse again, without bound.
  - The plugin only ever writes a non-empty marker, so the model makes this assumption.
- `shippo_api_tracking` is a stub in the source with no behaviour. It is not modelled.
- The Authorization header of the Shippo refund and tracking requests is not modelled. Only the replies are inputs.
- Settings.
  - Order statuses are modelled as the set of status keys. The admin loader's own formatting of the list is not modelled.
  - A posted field that is a scalar where a list is expected, or a list where a scalar is expected, is not modelled.
- WcAdmin.
  - User meta holds strings only, so `machine_type`'s "not a string" default applies only to a missing value.
  - The cart is the list of its items' shipping classes. A cart that is not an array is not modelled.
  - The commented-out `return_partner` code is not modelled.
  - The badge `switch` uses loose comparison. For these non-numeric labels that is text equality.
- The files of the plugin outside these classes and traits are not part of this model:
  - `class-ss-main.php`;
  - `class-ss-parcels.php`, whose option reads are parameters;
  - `class-ss-taxonomies.php`;
  - `custom-plugin.php`;
  - the JavaScript assets.
- The session is a `Session` object. `$_SESSION` persistence across requests is not modelled.
- AdditionalFees.StripeOutcome: a failed payment intent is noted and answered with the corrected `FailedChargeNote`, which names the fee. The handler as written builds the text from an unassigned `$fee_type` and writes "Failed to charge the with payment intent …". That text is modelled by `FailedChargeNoteAsWritten` (see Findings).
- AdditionalFees.ApplyStripeReply: writes the corrected failed-charge note, as `StripeOutcome` does.
- AdditionalFees.ChargePartialSpec: inherits the corrected failed-charge note from `StripeOutcome`.
- AdditionalFees.ChargePartialReturnFee: inherits the corrected failed-charge note from `ChargePartialSpec`.
- Orders.LabelResetSpec: the outbound refund id is recorded with the corrected `RecordRefundId`, so a refund reply without an id keeps the stored id. The handler as written overwrites it with "" before aborting. That erasure is modelled by `RefundIdAsWritten` (see Findings). `FailedResetKeepsOrder` states the corrected behaviour.
- Orders.LabelReset: records refund ids as `LabelResetSpec` does.
- LabelGenerator.OrderCreatedSpec: requires the posted id to name an existing order. The handler does not check this. For another id, `wc_get_order` returns false and the request ends in a PHP error, which is not modelled. Both callers, the order-list button and the batch run, pass existing orders.
- Orders.CloneSpec: refuses with "Please make sure that order contains valid shipping and billing address" an order whose shipping or billing address, a formatted string here, is empty. In WooCommerce `get_address` returns the keyed address array, which is never `empty`, so the plugin clones such an order. Orders.CloneOrder does the same as `CloneSpec`.
- Helpers.PlaceholdersReplaced: stated for mail texts in which the text after each placeholder is free of '%', non-empty unless it ends the text, and does not start with a character that follows the '%' of a key. Otherwise `str_replace` can match a key that starts at the closing '%' of the placeholder before it, and the model, which follows `str_replace`, then differs from a placeholder-by-placeholder reading. The lemma also requires the six values and the text before the first placeholder to be free of '%'. The values include the customer's billing first name, last name and e-mail, which the customer enters, so a '%' typed there is outside what the lemma states.

## Findings

| source | as written | input that shows it | evidently intended | confidence | as-written member | corrected member |
|---|---|---|---|---|---|---|
| custom-plugin/classes/class-ss-additional-fees.php:288 | the note for a failed partial-fee charge is built from `$fee_type`, which only the success branch assigns, so it reads "Failed to charge the with payment intent …" | a `charge` or `convert` request whose payment intent does not come back `succeeded` | the note names the fee that failed: the partial return fee or the non-return fee | not executed (medium) | AdditionalFees.FailedChargeNoteAsWrittenLosesFee | AdditionalFees.FailedChargeNoteNamesFee |
| custom-plugin/classes/class-ss-orders.php:141-145 | on label reset, the Shippo refund id is written back even when the refund request returned none, so an empty id overwrites the stored ids | stored `wdm_shippo_outbound_refund_id` = "r1", then a refund reply without an `object_id` | a failed refund request keeps the earlier refund ids; the reset still aborts with "Unable to raise refund request" | not executed (medium) | Orders.RefundIdAsWrittenErases | Orders.RecordRefundId |
