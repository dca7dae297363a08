/** The settings page's save action (`wdm_save_eligible_order_status` in
    class-ss-settings.php): eight posted fields are defaulted, checked
    against whitelists one after the other, and written as options only
    when every check passes. The first failing check's message is the JSON
    error the request ends with. */
module Settings {
  import opened Php
  import opened Wp

  /** The posted fields; None is a field the request does not carry. */
  datatype Posted = Posted(
    statuses: Option<seq<string>>,     // wdm_selected_order_status
    classes: Option<seq<string>>,      // wdm_eligible_shipping_classes
    partner: Option<string>,           // wdm_shipping_partner_select
    pdfSize: Option<string>,           // wdm_easypost_pdf_size
    line: Option<string>,              // wdm_default_printing_line
    uspsMode: Option<string>,          // wdm_usps_test_mode
    shippoMode: Option<string>,        // wdm_shippo_test_mode
    easypostMode: Option<string>)      // wdm_easypost_test_mode

  /** The fields after defaulting. */
  datatype Form = Form(statuses: seq<string>, classes: seq<string>, partner: string, pdfSize: string,
                       line: string, uspsMode: string, shippoMode: string, easypostMode: string)

  /** What the site offers: the keys of the order statuses WooCommerce lists
      (none when its admin loader is missing), the shipping classes
      (None when WooCommerce's shipping class is missing; an entry without a
      slug is None) and the printing-line terms (an entry without a term id
      is None). */
  datatype Available = Available(statusKeys: set<string>, shipping: Option<seq<Option<string>>>,
                                 terms: seq<Option<int>>)

  const INVALID_STATUS := "Invalid Order Status"
  const INVALID_CLASS := "Invalid Shipping Class"
  const INVALID_PARTNER := "Invalid Shipping Partner"
  const INVALID_PDF_SIZE := "Invalid Easypost PDF Size"
  const INVALID_LINE := "Invalid Printing Line"
  const INVALID_USPS_MODE := "Invalid USPS Mode"
  const INVALID_SHIPPO_MODE := "Invalid Shippo Mode"
  const INVALID_EASYPOST_MODE := "Invalid Easypost Mode"
  const SAVED := "Saved"

  /** The placeholder for an entry the site returns malformed. */
  const PLACEHOLDER := "-1"

  /** A missing or `empty` text field is ''. */
  function TextField(p: Option<string>): (r: string)
    ensures r == "" <==> p.None? || Empty(p.value)
    ensures r != "" ==> r == p.value
  {
    if p.None? || Empty(p.value) then "" else p.value
  }

  /** A missing or empty list field is the empty list. */
  function ListField(p: Option<seq<string>>): (r: seq<string>)
    ensures p.Some? ==> r == p.value
    ensures p.None? ==> r == []
  {
    if p.None? || p.value == [] then [] else p.value
  }

  function Defaulted(p: Posted): Form {
    Form(ListField(p.statuses), ListField(p.classes), TextField(p.partner), TextField(p.pdfSize),
         TextField(p.line), TextField(p.uspsMode), TextField(p.shippoMode), TextField(p.easypostMode))
  }

  /** The printing lines offered: each term's id as a string, the
      placeholder for a term without one. */
  function LineIds(terms: seq<Option<int>>): (r: seq<string>)
    ensures |r| == |terms|
    ensures forall i :: 0 <= i < |terms| ==> r[i] == (if terms[i].None? then PLACEHOLDER else IntToString(terms[i].value))
  {
    if terms == [] then []
    else LineIds(terms[..|terms| - 1])
         + [if terms[|terms| - 1].None? then PLACEHOLDER else IntToString(terms[|terms| - 1].value)]
  }

  /** The shipping-class slugs offered: none without WooCommerce's shipping
      class, the placeholder for an entry without a slug. */
  function ClassSlugs(shipping: Option<seq<Option<string>>>): (r: seq<string>)
    ensures shipping.None? ==> r == []
    ensures shipping.Some? ==> |r| == |shipping.value|
    ensures shipping.Some? ==> forall i :: 0 <= i < |r| ==>
              r[i] == (if shipping.value[i].None? then PLACEHOLDER else shipping.value[i].value)
  {
    if shipping.None? then [] else Slugs(shipping.value)
  }

  function Slugs(entries: seq<Option<string>>): (r: seq<string>)
    ensures |r| == |entries|
    ensures forall i :: 0 <= i < |r| ==> r[i] == (if entries[i].None? then PLACEHOLDER else entries[i].value)
  {
    if entries == [] then []
    else Slugs(entries[..|entries| - 1])
         + [if entries[|entries| - 1].None? then PLACEHOLDER else entries[|entries| - 1].value]
  }

  /** Every element of `xs` is one of `allowed` (strict `in_array` over a
      `foreach`). */
  predicate AllIn(xs: seq<string>, allowed: seq<string>) {
    forall i :: 0 <= i < |xs| ==> xs[i] in allowed
  }

  predicate IsMode(s: string) {
    s == "Yes" || s == "No"
  }

  /** The accepted forms, stated as the settings they allow. */
  predicate Acceptable(f: Form, a: Available) {
    (forall i :: 0 <= i < |f.statuses| ==> f.statuses[i] in a.statusKeys)
    && AllIn(f.classes, ClassSlugs(a.shipping))
    && (f.partner == "Easypost" || f.partner == "Shippo" || f.partner == "USPS")
    && (f.pdfSize == "4X4" || f.pdfSize == "4X6" || f.pdfSize == "8.5X11")
    && f.line in LineIds(a.terms)
    && IsMode(f.uspsMode) && IsMode(f.shippoMode) && IsMode(f.easypostMode)
  }

  /** The checks in the order the source runs them: the message of the first
      that fails, None when all pass. */
  function FirstError(f: Form, a: Available): (r: Option<string>)
    ensures r.None? <==> Acceptable(f, a)
    ensures r == Some(INVALID_STATUS) <==> exists i :: 0 <= i < |f.statuses| && f.statuses[i] !in a.statusKeys
    ensures r == Some(INVALID_PARTNER) ==>
              f.partner != "Easypost" && f.partner != "Shippo" && f.partner != "USPS"
              && AllIn(f.classes, ClassSlugs(a.shipping))
    ensures r == Some(INVALID_EASYPOST_MODE) ==> !IsMode(f.easypostMode) && IsMode(f.uspsMode) && IsMode(f.shippoMode)
  {
    if exists i :: 0 <= i < |f.statuses| && f.statuses[i] !in a.statusKeys then Some(INVALID_STATUS)
    else if !AllIn(f.classes, ClassSlugs(a.shipping)) then Some(INVALID_CLASS)
    else if !(f.partner == "Easypost" || f.partner == "Shippo" || f.partner == "USPS") then Some(INVALID_PARTNER)
    else if !(f.pdfSize == "4X4" || f.pdfSize == "4X6" || f.pdfSize == "8.5X11") then Some(INVALID_PDF_SIZE)
    else if f.line !in LineIds(a.terms) then Some(INVALID_LINE)
    else if !IsMode(f.uspsMode) then Some(INVALID_USPS_MODE)
    else if !IsMode(f.shippoMode) then Some(INVALID_SHIPPO_MODE)
    else if !IsMode(f.easypostMode) then Some(INVALID_EASYPOST_MODE)
    else None
  }

  /** The eight options a successful save writes. */
  function SavedOptions(options: map<string, OptionValue>, f: Form): (r: map<string, OptionValue>)
    ensures r.Keys == options.Keys + {"wdm_eligible_order_status", "wdm_eligible_shipping_classes",
                                      "wdm_shipping_partner_selector", "wdm_easypost_pdf_size",
                                      "default_printing-line", "wdm_usps_test_mode",
                                      "wdm_shippo_test_mode", "wdm_easypost_test_mode"}
  {
    options["wdm_eligible_order_status" := List(f.statuses)]
           ["wdm_eligible_shipping_classes" := List(f.classes)]
           ["wdm_shipping_partner_selector" := Text(f.partner)]
           ["wdm_easypost_pdf_size" := Text(f.pdfSize)]
           ["default_printing-line" := Text(f.line)]
           ["wdm_usps_test_mode" := Text(f.uspsMode)]
           ["wdm_shippo_test_mode" := Text(f.shippoMode)]
           ["wdm_easypost_test_mode" := Text(f.easypostMode)]
  }

  /** The whole request: the options after it and its JSON answer. Nothing
      is written unless the answer is "Saved", and it is "Saved" exactly
      when the defaulted form is acceptable. */
  function SaveSpec(options: map<string, OptionValue>, p: Posted, a: Available): (r: (map<string, OptionValue>, Result<string>))
    ensures r.1.Ok? <==> Acceptable(Defaulted(p), a)
    ensures r.1.Err? ==> r.0 == options && r.1.msg == FirstError(Defaulted(p), a).value
    ensures r.1.Ok? ==> r.1.value == SAVED
  {
    var f := Defaulted(p);
    var e := FirstError(f, a);
    if e.Some? then (options, Err(e.value)) else (SavedOptions(options, f), Ok(SAVED))
  }

  /** A missing or empty partner, `"0"` included, is refused, and so is a
      missing test mode; with the partner missing, the refusal names the
      partner unless a status or class check fails first. */
  lemma MissingFieldsRejected(p: Posted, a: Available)
    ensures p.partner.None? || Empty(p.partner.value) || p.uspsMode.None? || p.shippoMode.None? || p.easypostMode.None?
            ==> SaveSpec(map[], p, a).1.Err?
    ensures p.partner.None? || Empty(p.partner.value) ==>
              var f := Defaulted(p);
              (FirstError(f, a) == Some(INVALID_PARTNER) <==>
                 (forall i :: 0 <= i < |f.statuses| ==> f.statuses[i] in a.statusKeys)
                 && AllIn(f.classes, ClassSlugs(a.shipping)))
  {
    var f := Defaulted(p);
    if p.partner.None? || Empty(p.partner.value) || p.uspsMode.None? || p.shippoMode.None? || p.easypostMode.None? {
      assert f.partner == "" || f.uspsMode == "" || f.shippoMode == "" || f.easypostMode == "";
    }
  }

  /** Whatever is saved is a combination the rest of the plugin
      understands: one of the three partners, a known label size, test modes
      of "Yes" or "No", and statuses and classes the site offers. */
  lemma SavedSettingsAreWhitelisted(options: map<string, OptionValue>, p: Posted, a: Available)
    requires SaveSpec(options, p, a).1.Ok?
    ensures var o := SaveSpec(options, p, a).0;
            o["wdm_shipping_partner_selector"] in {Text("Easypost"), Text("Shippo"), Text("USPS")}
            && o["wdm_easypost_pdf_size"] in {Text("4X4"), Text("4X6"), Text("8.5X11")}
            && o["wdm_usps_test_mode"] in {Text("Yes"), Text("No")}
            && o["wdm_shippo_test_mode"] in {Text("Yes"), Text("No")}
            && o["wdm_easypost_test_mode"] in {Text("Yes"), Text("No")}
            && o["wdm_eligible_order_status"].List?
            && (forall s :: s in o["wdm_eligible_order_status"].items ==> s in a.statusKeys)
            && o["wdm_eligible_shipping_classes"].List?
            && (forall s :: s in o["wdm_eligible_shipping_classes"].items ==> s in ClassSlugs(a.shipping))
  {
    var f := Defaulted(p);
    assert Acceptable(f, a);
    var o := SaveSpec(options, p, a).0;
    assert o == SavedOptions(options, f);
    forall s | s in o["wdm_eligible_order_status"].items
      ensures s in a.statusKeys
    {
      var i :| 0 <= i < |f.statuses| && f.statuses[i] == s;
    }
    forall s | s in o["wdm_eligible_shipping_classes"].items
      ensures s in ClassSlugs(a.shipping)
    {
      var i :| 0 <= i < |f.classes| && f.classes[i] == s;
    }
  }

  /** Without WooCommerce's shipping class no class is offered, so only an
      empty class selection can be saved; without the admin loader, only an
      empty status selection. */
  lemma NothingOfferedOnlyEmptySelection(p: Posted, a: Available)
    requires Acceptable(Defaulted(p), a)
    ensures a.shipping.None? ==> Defaulted(p).classes == []
    ensures a.statusKeys == {} ==> Defaulted(p).statuses == []
  {
    var f := Defaulted(p);
    if f.classes != [] {
      assert f.classes[0] in ClassSlugs(a.shipping);
    }
    if f.statuses != [] {
      assert f.statuses[0] in a.statusKeys;
    }
  }

  /** A printing line is accepted exactly when a term carries that id, or it
      is the placeholder and some term has no id. */
  lemma {:induction false} LineAccepted(terms: seq<Option<int>>, line: string)
    ensures line in LineIds(terms) <==>
              exists i :: 0 <= i < |terms| && (if terms[i].None? then line == PLACEHOLDER else line == IntToString(terms[i].value))
  {
    var ids := LineIds(terms);
    if line in ids {
      var i :| 0 <= i < |ids| && ids[i] == line;
      assert 0 <= i < |terms|;
    }
    if exists i :: 0 <= i < |terms| && (if terms[i].None? then line == PLACEHOLDER else line == IntToString(terms[i].value)) {
      var i :| 0 <= i < |terms| && (if terms[i].None? then line == PLACEHOLDER else line == IntToString(terms[i].value));
      assert ids[i] == line;
    }
  }

  /** The checks, run as the source runs them: each `foreach` stops at the
      first value it refuses. */
  method Validate(f: Form, a: Available) returns (r: Option<string>)
    ensures r == FirstError(f, a)
  {
    var i := 0;
    while i < |f.statuses|
      invariant 0 <= i <= |f.statuses|
      invariant forall j :: 0 <= j < i ==> f.statuses[j] in a.statusKeys
    {
      if f.statuses[i] !in a.statusKeys {
        return Some(INVALID_STATUS);
      }
      i := i + 1;
    }
    var slugs := ClassSlugs(a.shipping);
    i := 0;
    while i < |f.classes|
      invariant 0 <= i <= |f.classes|
      invariant forall j :: 0 <= j < i ==> f.classes[j] in slugs
    {
      if f.classes[i] !in slugs {
        return Some(INVALID_CLASS);
      }
      i := i + 1;
    }
    if f.partner != "Easypost" && f.partner != "Shippo" && f.partner != "USPS" {
      return Some(INVALID_PARTNER);
    }
    if f.pdfSize != "4X4" && f.pdfSize != "4X6" && f.pdfSize != "8.5X11" {
      return Some(INVALID_PDF_SIZE);
    }
    if f.line !in LineIds(a.terms) {
      return Some(INVALID_LINE);
    }
    if !IsMode(f.uspsMode) {
      return Some(INVALID_USPS_MODE);
    }
    if !IsMode(f.shippoMode) {
      return Some(INVALID_SHIPPO_MODE);
    }
    if !IsMode(f.easypostMode) {
      return Some(INVALID_EASYPOST_MODE);
    }
    return None;
  }

  /** `wdm_save_eligible_order_status`: the eight `update_option` calls run
      only after every check has passed. */
  method SaveEligibleOrderStatus(site: Site, p: Posted, a: Available) returns (r: Result<string>)
    modifies site`options
    ensures (site.options, r) == SaveSpec(old(site.options), p, a)
  {
    var f := Defaulted(p);
    var e := Validate(f, a);
    if e.Some? {
      return Err(e.value);
    }
    site.UpdateOption("wdm_eligible_order_status", List(f.statuses));
    site.UpdateOption("wdm_eligible_shipping_classes", List(f.classes));
    site.UpdateOption("wdm_shipping_partner_selector", Text(f.partner));
    site.UpdateOption("wdm_easypost_pdf_size", Text(f.pdfSize));
    site.UpdateOption("default_printing-line", Text(f.line));
    site.UpdateOption("wdm_usps_test_mode", Text(f.uspsMode));
    site.UpdateOption("wdm_shippo_test_mode", Text(f.shippoMode));
    site.UpdateOption("wdm_easypost_test_mode", Text(f.easypostMode));
    r := Ok(SAVED);
  }
}
