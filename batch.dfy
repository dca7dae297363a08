/** One page of the scheduled batch label run (`auto_generate_labels` and
    `remove_last_added_pdf` in class-ss-label-generator.php): label
    generation is run for each order of the page, failures are sorted into
    two lists, and each successful order's label is added to the PDF merger
    of its group `<order type>-<printing line>`, where a failed trial merge
    takes the label out again. */
module Batch {
  import opened Php
  import opened Wp
  import opened LabelFiles
  import opened LabelGenerator

  /** A PDF merger's list of added files: null until the first file is added
      and again once the last one is removed. */
  type Merger = Option<seq<string>>

  /** `addPDF`: the file is appended (a null list becomes a one-file list). */
  function AddPdf(m: Merger, file: string): (r: Merger)
    ensures r.Some? && |r.value| >= 1 && r.value[|r.value| - 1] == file
  {
    Some((if m.None? then [] else m.value) + [file])
  }

  /** `remove_last_added_pdf`: the last added file is popped, leaving null
      when nothing is left; a null list is not a list, and the answer is
      false. */
  function RemoveLast(m: Merger): (r: (Merger, bool))
    ensures r.1 <==> m.Some?
    ensures m.None? ==> r.0.None?
    ensures m.Some? && |m.value| > 1 ==> r.0 == Some(m.value[..|m.value| - 1])
    ensures m.Some? && |m.value| <= 1 ==> r.0.None?
  {
    if m.None? then (m, false)
    else
      var data := if m.value == [] then [] else m.value[..|m.value| - 1];
      (if data == [] then None else Some(data), true)
  }

  /** Taking out the file just added restores the merger, except that a
      merger left without files is null. */
  lemma RemoveLastUndoesAdd(m: Merger, file: string)
    ensures RemoveLast(AddPdf(m, file)) == (if m.None? || m.value == [] then None else m, true)
  {
    if m.Some? && m.value != [] {
      assert (m.value + [file])[..|m.value|] == m.value;
    }
  }

  /** What the batch learns about one order of the page: its id, the message
      of the exception label generation threw (None when it returned), the
      stored `wdm_returnable_item`, the returnable count, the name of the
      order's printing line, its merged flag after label generation, and
      whether the trial merge succeeded. */
  datatype BatchOrder = BatchOrder(id: int, error: Option<string>, returnableMeta: string, returnable: int,
                                   lineName: string, mergedFlag: string, trialOk: bool)

  /** The run's bookkeeping, carried from page to page: the successful, the
      failed and the merge-failed order ids, and the merger of each group. */
  datatype BatchState = BatchState(successful: seq<int>, failed: seq<int>, mergedFailed: seq<int>, files: map<string, Merger>)

  /** "Exchange" when the stored returnable meta is truthy in PHP or the
      returnable count is positive. (The source converts the result of that
      `||` with `intval`, so a stored "00" counts as truthy.) */
  function OrderType(b: BatchOrder): (t: string)
    ensures t in {"Exchange", "No-Exchange"}
    ensures b.returnable > 0 ==> t == "Exchange"
    ensures t == "No-Exchange" <==> b.returnableMeta in {"", "0"} && b.returnable <= 0
  {
    if !Empty(b.returnableMeta) || b.returnable > 0 then "Exchange" else "No-Exchange"
  }

  /** The group an order's label goes to. */
  function GroupKey(b: BatchOrder): string {
    OrderType(b) + "-" + b.lineName
  }

  /** The label added for an order: its merged label when the merged flag is
      "1", its outbound label otherwise. */
  function BatchLabel(cfg: Config, b: BatchOrder): string {
    if b.mergedFlag == TRUE_FLAG then MergedFile(cfg, IntToString(b.id)) else LabelFile(cfg, IntToString(b.id), "outbound")
  }

  /** The merger a group has so far (a fresh merger's list is null). */
  function Before(files: map<string, Merger>, key: string): Merger {
    if key in files then files[key] else None
  }

  /** A successful order's label added to its group: it stays as the last
      file when the trial merge succeeds; when it fails, the label is taken
      out again, which leaves the merger as it was (null if it had no
      files). No other group changes. */
  function AddToGroup(files: map<string, Merger>, key: string, file: string, trialOk: bool): (r: map<string, Merger>)
    ensures r.Keys == files.Keys + {key}
    ensures forall k :: k in files && k != key ==> r[k] == files[k]
    ensures trialOk ==> r[key] == AddPdf(Before(files, key), file)
    ensures !trialOk ==> r[key] == (var m := Before(files, key); if m.None? || m.value == [] then None else m)
  {
    var m := AddPdf(Before(files, key), file);
    RemoveLastUndoesAdd(Before(files, key), file);
    if trialOk then files[key := m] else files[key := RemoveLast(m).0]
  }

  /** One order of the page: the merge error and any other exception put it
      in the merge-failed and the failed list; otherwise it is successful and
      its label goes to its group, and a failed trial merge also puts it in
      the merge-failed list. */
  function BatchStep(cfg: Config, st: BatchState, b: BatchOrder): (r: BatchState)
    ensures r.files.Keys == st.files.Keys + (if b.error.None? then {GroupKey(b)} else {})
  {
    if b.error.Some? then
      if b.error.value == MERGE_FAILED then st.(mergedFailed := st.mergedFailed + [b.id])
      else st.(failed := st.failed + [b.id])
    else
      var st1 := st.(successful := st.successful + [b.id], files := AddToGroup(st.files, GroupKey(b), BatchLabel(cfg, b), b.trialOk));
      if b.trialOk then st1 else st1.(mergedFailed := st.mergedFailed + [b.id])
  }

  /** The orders of a page, in order. */
  function BatchSpec(cfg: Config, st: BatchState, page: seq<BatchOrder>): BatchState {
    if page == [] then st else BatchStep(cfg, BatchSpec(cfg, st, page[..|page| - 1]), page[|page| - 1])
  }

  /** The ids of the page's orders whose label generation threw the merge
      error, whose generation threw anything else, whose generation
      succeeded, and whose generation succeeded but whose trial merge
      failed. */
  function MergeErrorIds(page: seq<BatchOrder>): seq<int> {
    if page == [] then []
    else MergeErrorIds(page[..|page| - 1])
         + (var b := page[|page| - 1]; if b.error == Some(MERGE_FAILED) then [b.id] else [])
  }

  function OtherErrorIds(page: seq<BatchOrder>): seq<int> {
    if page == [] then []
    else OtherErrorIds(page[..|page| - 1])
         + (var b := page[|page| - 1]; if b.error.Some? && b.error.value != MERGE_FAILED then [b.id] else [])
  }

  function SuccessIds(page: seq<BatchOrder>): seq<int> {
    if page == [] then []
    else SuccessIds(page[..|page| - 1]) + (var b := page[|page| - 1]; if b.error.None? then [b.id] else [])
  }

  function MergeFailIds(page: seq<BatchOrder>): seq<int> {
    if page == [] then []
    else MergeFailIds(page[..|page| - 1])
         + (var b := page[|page| - 1]; if b.error == Some(MERGE_FAILED) || (b.error.None? && !b.trialOk) then [b.id] else [])
  }

  /** The failed list grows by the orders that threw anything but the merge
      error; the successful list by the orders that returned; the
      merge-failed list by those that threw the merge error or failed the
      trial merge, in page order. */
  lemma {:induction false} BatchBuckets(cfg: Config, st: BatchState, page: seq<BatchOrder>)
    ensures var r := BatchSpec(cfg, st, page);
            r.failed == st.failed + OtherErrorIds(page)
            && r.successful == st.successful + SuccessIds(page)
            && r.mergedFailed == st.mergedFailed + MergeFailIds(page)
  {
    if page != [] {
      var p := page[..|page| - 1];
      BatchBuckets(cfg, st, p);
      BatchStepBuckets(cfg, BatchSpec(cfg, st, p), page[|page| - 1]);
    }
  }

  /** What one order adds to each list. */
  lemma BatchStepBuckets(cfg: Config, s: BatchState, b: BatchOrder)
    ensures var r := BatchStep(cfg, s, b);
            r.failed == s.failed + (if b.error.Some? && b.error.value != MERGE_FAILED then [b.id] else [])
            && r.successful == s.successful + (if b.error.None? then [b.id] else [])
            && r.mergedFailed == s.mergedFailed + (if b.error == Some(MERGE_FAILED) || (b.error.None? && !b.trialOk) then [b.id] else [])
  {
  }

  /** Every id in one of the page's lists is the id of an order of the page
      with that outcome. */
  lemma {:induction false} BucketMembers(page: seq<BatchOrder>, x: int)
    ensures x in OtherErrorIds(page) ==> exists i :: 0 <= i < |page| && page[i].id == x && page[i].error.Some? && page[i].error.value != MERGE_FAILED
    ensures x in MergeFailIds(page) ==> exists i :: 0 <= i < |page| && page[i].id == x
                                                    && (page[i].error == Some(MERGE_FAILED) || page[i].error.None?)
  {
    if page != [] {
      var p := page[..|page| - 1];
      BucketMembers(p, x);
      if x in OtherErrorIds(p) {
        var i :| 0 <= i < |p| && p[i].id == x && p[i].error.Some? && p[i].error.value != MERGE_FAILED;
        assert page[i] == p[i];
      }
      if x in MergeFailIds(p) {
        var i :| 0 <= i < |p| && p[i].id == x && (p[i].error == Some(MERGE_FAILED) || p[i].error.None?);
        assert page[i] == p[i];
      }
    }
  }

  /** The ids of a page are distinct. */
  predicate DistinctIds(page: seq<BatchOrder>) {
    forall i, j :: 0 <= i < j < |page| ==> page[i].id != page[j].id
  }

  /** The failed and the merge-failed lists stay apart: an order of a page
      (which the query draws from outside both lists) never lands in both. */
  lemma BucketsDisjoint(cfg: Config, st: BatchState, page: seq<BatchOrder>)
    requires DistinctIds(page)
    requires forall x :: x in st.failed ==> x !in st.mergedFailed
    requires forall i :: 0 <= i < |page| ==> page[i].id !in st.failed && page[i].id !in st.mergedFailed
    ensures var r := BatchSpec(cfg, st, page);
            forall x :: x in r.failed ==> x !in r.mergedFailed
  {
    BatchBuckets(cfg, st, page);
    var r := BatchSpec(cfg, st, page);
    forall x | x in r.failed
      ensures x !in r.mergedFailed
    {
      BucketMembers(page, x);
    }
  }

  /** The loop over a page's orders. */
  method AutoGeneratePage(cfg: Config, st: BatchState, page: seq<BatchOrder>) returns (r: BatchState)
    ensures r == BatchSpec(cfg, st, page)
  {
    var successful := st.successful;
    var failed := st.failed;
    var mergedFailed := st.mergedFailed;
    var files := st.files;
    var i := 0;
    while i < |page|
      invariant 0 <= i <= |page|
      invariant BatchState(successful, failed, mergedFailed, files) == BatchSpec(cfg, st, page[..i])
    {
      assert page[..i + 1][..i] == page[..i];
      var b := page[i];
      assert BatchSpec(cfg, st, page[..i + 1]) == BatchStep(cfg, BatchSpec(cfg, st, page[..i]), b);
      if b.error.Some? {
        if b.error.value == MERGE_FAILED {
          mergedFailed := mergedFailed + [b.id];
        } else {
          failed := failed + [b.id];
        }
        i := i + 1;
        continue;
      }
      successful := successful + [b.id];
      files := AddToGroupInPlace(files, GroupKey(b), BatchLabel(cfg, b), b.trialOk);
      if !b.trialOk {
        mergedFailed := mergedFailed + [b.id];
      }
      i := i + 1;
    }
    assert page[..|page|] == page;
    r := BatchState(successful, failed, mergedFailed, files);
  }

  /** Adding the label, trying the merge and taking the label out again when
      the trial fails. */
  method AddToGroupInPlace(files: map<string, Merger>, key: string, file: string, trialOk: bool)
    returns (r: map<string, Merger>)
    ensures r == AddToGroup(files, key, file, trialOk)
  {
    r := files;
    if key !in r {
      r := r[key := None];
    }
    r := r[key := AddPdf(r[key], file)];
    if !trialOk {
      var removed := RemoveLast(r[key]);
      r := r[key := removed.0];
    }
  }
}
