/** Storing a generated shipping label under the upload directory
    (`wdm_store_generated_label` in class-ss-label-generator.php): the file
    is replaced, and only when the write succeeds is its deletion scheduled
    and the order's `<type>-shipping-label-generated` flag set. */
module LabelFiles {
  import opened Php
  import opened Wp

  const DELETE_HOOK := "wdm_delete_shipping_labels"

  /** The directory labels are kept in: `<upload basedir>/shipping/`. */
  function LabelDir(cfg: Config): string {
    cfg.labelDir + "/shipping/"
  }

  /** `<dir><order id> <type>.pdf`, where `orderId` is the id as the caller
      spells it. */
  function LabelFile(cfg: Config, orderId: string, kind: string): string {
    LabelDir(cfg) + orderId + " " + kind + ".pdf"
  }

  /** The meta flag recording that a label of this kind exists,
      `<kind>-shipping-label-generated`; the three kinds the plugin stores
      are spelled out. */
  function FlagKey(kind: string): string {
    if kind == "outbound" then "outbound-shipping-label-generated"
    else if kind == "inbound" then "inbound-shipping-label-generated"
    else if kind == "merged" then "merged-shipping-label-generated"
    else kind + "-shipping-label-generated"
  }

  /** When a stored label is deleted: now + `wdm_delete_shipping_labels`
      days, 100 by default. */
  function DeleteTime(cfg: Config, now: int): int {
    now + DaysOr(cfg, "wdm_delete_shipping_labels", 100) * DAY
  }

  /** `wdm_store_generated_label(data, id, kind, true)`: an existing file of
      that name is deleted, then the data is written; `written` is whether
      the write succeeded. */
  function StoreLabel(db: Store, cfg: Config, id: int, kind: string, data: string, written: bool, now: int): (r: Store)
    requires id in db.orders
    ensures var path := LabelFile(cfg, IntToString(id), kind);
            r.refunds == db.refunds && r.tokens == db.tokens && r.orders.Keys == db.orders.Keys
            && (forall j :: j in db.orders && j != id ==> r.orders[j] == db.orders[j])
            && (forall k :: k != FlagKey(kind) ==> Meta(r.orders[id], k) == Meta(db.orders[id], k))
            && r.orders[id].status == db.orders[id].status
            && (path in r.files <==> written)
            && (written ==> r.files[path] == data)
            && r.files - {path} == db.files - {path}
            && (Meta(r.orders[id], FlagKey(kind)) == TRUE_FLAG <==> written || Meta(db.orders[id], FlagKey(kind)) == TRUE_FLAG)
            && (!written ==> r.queue == db.queue && r.orders == db.orders)
            && (written ==> r.queue == db.queue + [Action(DeleteTime(cfg, now), DELETE_HOOK, LabelFileArgs(IntArg(id), path))])
  {
    var path := LabelFile(cfg, IntToString(id), kind);
    var db1 := db.(files := db.files - {path});
    if !written then db1
    else
      db1.(files := db1.files[path := data],
           queue := db1.queue + [Action(DeleteTime(cfg, now), DELETE_HOOK, LabelFileArgs(IntArg(id), path))],
           orders := db1.orders[id := SetMeta(db1.orders[id], FlagKey(kind), TRUE_FLAG)])
  }

  /** Storing a label adds no meta key other than its flag and removes none. */
  lemma StoreLabelKeys(db: Store, cfg: Config, id: int, kind: string, data: string, written: bool, now: int)
    requires id in db.orders
    ensures var r := StoreLabel(db, cfg, id, kind, data, written, now);
            forall k :: k != FlagKey(kind) ==> (k in r.orders[id].meta <==> k in db.orders[id].meta)
  {
  }

  /** Storing the same label twice leaves one file and the flag set, with a
      deletion scheduled for each store. */
  lemma StoreLabelTwice(db: Store, cfg: Config, id: int, kind: string, data: string, now: int, later: int)
    requires id in db.orders
    ensures var once := StoreLabel(db, cfg, id, kind, data, true, now);
            var twice := StoreLabel(once, cfg, id, kind, data, true, later);
            var path := LabelFile(cfg, IntToString(id), kind);
            twice.files == once.files && twice.orders == once.orders
            && twice.queue == once.queue + [Action(DeleteTime(cfg, later), DELETE_HOOK, LabelFileArgs(IntArg(id), path))]
  {
    var once := StoreLabel(db, cfg, id, kind, data, true, now);
    var path := LabelFile(cfg, IntToString(id), kind);
    assert (once.files - {path})[path := data] == once.files;
    assert SetMeta(once.orders[id], FlagKey(kind), TRUE_FLAG) == once.orders[id];
  }

  /** `wdm_store_generated_label` against the database. */
  method StoreGeneratedLabel(site: Site, cfg: Config, id: int, kind: string, data: string, written: bool, now: int)
    requires id in site.orders
    modifies site`files, site`queue, site`orders
    ensures site.Snapshot() == StoreLabel(old(site.Snapshot()), cfg, id, kind, data, written, now)
  {
    var path := LabelFile(cfg, IntToString(id), kind);
    if path in site.files {
      site.DeleteFile(path);
    }
    if !written {
      return;
    }
    site.WriteFile(path, data);
    site.Schedule(DeleteTime(cfg, now), DELETE_HOOK, LabelFileArgs(IntArg(id), path));
    site.UpdateMeta(id, FlagKey(kind), TRUE_FLAG);
  }
}
