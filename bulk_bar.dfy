/**
 * BulkBar (src/components/BulkBar.js): when the bar shows, which pickers an action needs, the guards
 * of the Apply button, the percentage of the progress bar and the notices. The bar's own choices (the
 * action and the picked names) are parameters here.
 */
module BulkBar {
  import opened Common
  import opened Helpers
  import Bulk
  import Rest
  import Api
  import BulkHook
  import FiltersBar

  /** The bar renders unless nothing is selected, no run is going on and no error is shown. */
  predicate Visible(selected: nat, running: bool, error: Option<string>)
  {
    !(selected == 0 && !running && error.None?)
  }

  /** The action select's values; "" is the placeholder. */
  const ActionOptions: seq<string> := ["", "add_tag", "remove_tag", "add_list", "remove_list", "unsubscribe", "export_csv"]

  predicate NeedsTags(action: string)
  {
    action in ["add_tag", "remove_tag"]
  }

  predicate NeedsLists(action: string)
  {
    action in ["add_list", "remove_list"]
  }

  /** The Apply button is disabled without an action, without a selection, or while a run is going on. */
  predicate ApplyDisabled(action: string, selected: nat, running: bool)
  {
    action == "" || selected == 0 || running
  }

  /** The arguments handleApply passes to run. */
  datatype Apply = Apply(action: string, ids: seq<int>, tagIds: seq<int>, listIds: seq<int>)

  /** handleApply: the run it starts, or None when one of its guards returns early. */
  function HandleApply(action: string, selectedIds: seq<int>, tagNames: seq<string>, listNames: seq<string>,
                       meta: Rest.Meta): Option<Apply>
  {
    if action == "" || selectedIds == [] then None
    else
      var tagIds := if NeedsTags(action) then FiltersBar.IdsForNames(meta.tags, tagNames) else [];
      var listIds := if NeedsLists(action) then FiltersBar.IdsForNames(meta.lists, listNames) else [];
      if NeedsTags(action) && tagIds == [] then None
      else if NeedsLists(action) && listIds == [] then None
      else Some(Apply(action, selectedIds, tagIds, listIds))
  }

  /**
   * A run starts exactly when an action is chosen, something is selected, and a tag (list) action has
   * at least one picked name the catalogue knows; the operand the action does not use is sent empty.
   */
  lemma ApplyRule(action: string, selectedIds: seq<int>, tagNames: seq<string>, listNames: seq<string>, meta: Rest.Meta)
    ensures var a := HandleApply(action, selectedIds, tagNames, listNames, meta);
            a.Some? <==>
              && action != "" && selectedIds != []
              && (NeedsTags(action) ==> FiltersBar.IdsForNames(meta.tags, tagNames) != [])
              && (NeedsLists(action) ==> FiltersBar.IdsForNames(meta.lists, listNames) != [])
    ensures var a := HandleApply(action, selectedIds, tagNames, listNames, meta);
            a.Some? ==>
              && a.value.action == action && a.value.ids == selectedIds
              && (!NeedsTags(action) ==> a.value.tagIds == [])
              && (!NeedsLists(action) ==> a.value.listIds == [])
              && (forall i :: 0 <= i < |a.value.tagIds| ==> a.value.tagIds[i] != 0)
              && (forall i :: 0 <= i < |a.value.listIds| ==> a.value.listIds[i] != 0)
  {
  }

  /**
   * The button and handleApply share their guards: a click on an enabled button starts a run of an
   * action without operands, and every run started is one the button (when idle) allows.
   */
  lemma ApplyButtonGuards(action: string, selectedIds: seq<int>, tagNames: seq<string>, listNames: seq<string>,
                          meta: Rest.Meta, running: bool)
    ensures !ApplyDisabled(action, |selectedIds|, running) && !NeedsTags(action) && !NeedsLists(action) ==>
              HandleApply(action, selectedIds, tagNames, listNames, meta).Some?
    ensures HandleApply(action, selectedIds, tagNames, listNames, meta).Some? ==> !ApplyDisabled(action, |selectedIds|, false)
  {
  }

  lemma SanitizeKeepsNonZero(xs: seq<int>)
    requires xs != [] && xs[0] != 0
    ensures Api.SanitizedIds(xs) != []
  {
  }

  /**
   * What the bar starts passes post_bulk's checks and execute's operand checks: with a selection of
   * at most 5000 listed ids and an action from the select, the server does not reject the body, and
   * the only failure execute can answer is an export whose file cannot be opened: never "No tag IDs
   * provided.", "No list IDs provided." or "Unknown action.".
   */
  lemma ApplyPassesServerChecks(action: string, selectedIds: seq<int>, tagNames: seq<string>, listNames: seq<string>,
                                meta: Rest.Meta, clean: string -> string, env: Bulk.ExportEnv, offset: nat)
    requires action in ActionOptions && clean(action) == action
    requires |selectedIds| <= Rest.MaxIds && forall i :: 0 <= i < |selectedIds| ==> selectedIds[i] > 0
    requires HandleApply(action, selectedIds, tagNames, listNames, meta).Some?
    ensures var a := HandleApply(action, selectedIds, tagNames, listNames, meta).value;
            var req := Api.ServerRequest(Api.BulkBody(a.action, a.ids, a.tagIds, a.listIds, 0), clean);
            var r := Api.Answer(req, env, offset);
            && Rest.Rejection(req).None?
            && (r.Failure? ==> r == Bulk.Failure(Bulk.CannotOpen))
  {
    var a := HandleApply(action, selectedIds, tagNames, listNames, meta).value;
    ApplyRule(action, selectedIds, tagNames, listNames, meta);
    var req := Api.ServerRequest(Api.BulkBody(a.action, a.ids, a.tagIds, a.listIds, 0), clean);
    AppliedBodyRead(a, clean);
    OperandChecksPass(req.action, req.ids, req.tagIds, req.listIds, offset, req.chunk, env);
  }

  /** An allowed action with the operand it needs fails, if at all, only because the export file cannot be opened. */
  lemma OperandChecksPass(action: string, ids: seq<int>, tagIds: seq<int>, listIds: seq<int>, offset: nat, chunk: nat,
                          env: Bulk.ExportEnv)
    requires action in Rest.AllowedActions
    requires NeedsTags(action) ==> tagIds != []
    requires NeedsLists(action) ==> listIds != []
    ensures var r := Bulk.ExecuteResponse(action, ids, tagIds, listIds, offset, chunk, env);
            r.Failure? ==> r == Bulk.Failure(Bulk.CannotOpen)
  {
  }

  /** The body of a started run reaches the server with its action, and with some ids and the operand the action needs. */
  lemma AppliedBodyRead(a: Apply, clean: string -> string)
    requires a.action in ActionOptions && a.action != "" && clean(a.action) == a.action
    requires a.ids != [] && |a.ids| <= Rest.MaxIds && forall i :: 0 <= i < |a.ids| ==> a.ids[i] > 0
    requires NeedsTags(a.action) ==> a.tagIds != [] && a.tagIds[0] != 0
    requires NeedsLists(a.action) ==> a.listIds != [] && a.listIds[0] != 0
    ensures var req := Api.ServerRequest(Api.BulkBody(a.action, a.ids, a.tagIds, a.listIds, 0), clean);
            && req.action == a.action && req.action in Rest.AllowedActions
            && 0 < |req.ids| <= Rest.MaxIds
            && (NeedsTags(a.action) ==> req.tagIds != [])
            && (NeedsLists(a.action) ==> req.listIds != [])
  {
    var body := Api.BulkBody(a.action, a.ids, a.tagIds, a.listIds, 0);
    Api.SanitizedNoLonger(body, clean);
    SanitizeKeepsNonZero(a.ids);
    if NeedsTags(a.action) {
      SanitizeKeepsNonZero(a.tagIds);
    }
    if NeedsLists(a.action) {
      SanitizeKeepsNonZero(a.listIds);
    }
  }

  // ---------------------------------------------------------------- progress

  /**
   * `Math.round(processed / total * 100)` in exact arithmetic, 0 without a progress object; None
   * stands for the NaN or Infinity a total of 0 gives.
   */
  function ProgressPercent(progress: Option<BulkHook.Progress>): (r: Option<int>)
    ensures progress.None? ==> r == Some(0)
    ensures progress.Some? ==> (r.None? <==> progress.value.total == 0)
    // the nearest integer to 100 × processed / total, halves rounded up
    ensures progress.Some? && r.Some? && progress.value.total > 0 ==>
              var p, t := progress.value.processed, progress.value.total;
              2 * r.value * t <= 200 * p + t < 2 * r.value * t + 2 * t
  {
    match progress
    case None => Some(0)
    case Some(p) =>
      if p.total == 0 then None
      else
        var r := (200 * p.processed + p.total) / (2 * p.total);
        FloorBounds(200 * p.processed + p.total, 2 * p.total, r);
        MulAssoc(r, p.total);
        Some(r)
  }

  lemma FloorBounds(a: int, b: int, q: int)
    requires b > 0 && q == a / b
    ensures q * b <= a < q * b + b
  {
  }

  lemma MulAssoc(r: int, t: int)
    ensures 2 * r * t == r * (2 * t)
  {
  }

  /** A shown count between 0 and the total gives a percentage between 0 and 100: 0 at the start, 100 when done. */
  lemma PercentBounds(processed: int, total: nat)
    requires total > 0 && 0 <= processed <= total
    ensures var r := ProgressPercent(Some(BulkHook.Progress(processed, total))).value;
            && 0 <= r <= 100
            && (processed == 0 ==> r == 0)
            && (processed == total ==> r == 100)
  {
    var r := ProgressPercent(Some(BulkHook.Progress(processed, total))).value;
    Twice(r, total);
    MulMono(101, r, total);
    MulMono(r, -1, total);
    MulMono(1, r, total);
    MulMono(r, 99, total);
  }

  lemma Twice(r: int, t: int)
    ensures 2 * r * t == 2 * (r * t)
  {
  }

  lemma MulMono(a: int, b: int, c: nat)
    ensures a <= b ==> a * c <= b * c
  {
  }

  /** A larger count never shows a smaller percentage over the same total. */
  lemma PercentMonotone(p1: int, p2: int, total: nat)
    requires total > 0 && p1 <= p2
    ensures ProgressPercent(Some(BulkHook.Progress(p1, total))).value <=
            ProgressPercent(Some(BulkHook.Progress(p2, total))).value
  {
    var r1 := ProgressPercent(Some(BulkHook.Progress(p1, total))).value;
    var r2 := ProgressPercent(Some(BulkHook.Progress(p2, total))).value;
    Twice(r1, total);
    Twice(r2, total);
    MulMono(r2 + 1, r1, total);
  }

  /** A run that resolves ends showing every id the server received. */
  lemma ResolvedRunShowsAll(req: Rest.BulkRequest, env: Bulk.ExportEnv, offsets: seq<nat>, reported: seq<Bulk.BulkResponse>)
    requires Api.Trace(req, env, offsets, reported) && req.chunk > 0
    requires |reported| == |offsets| >= 1 && (|offsets| - 1) * req.chunk < |req.ids| <= |offsets| * req.chunk
    requires reported[|reported| - 1].Progress?
    ensures reported[|reported| - 1].processed == |req.ids|
  {
    Api.ReportedProgress(req, env, offsets, reported);
  }

  // ---------------------------------------------------------------- notices

  datatype Notice = ErrorNotice(message: string) | DoneNotice(processed: int, link: Option<string>)

  /** The progress bar shows while a run is going on and has a progress object. */
  predicate ShowsProgressBar(running: bool, progress: Option<BulkHook.Progress>)
  {
    running && progress.Some?
  }

  /** The error notice, then the "Done!" notice (with the download link when there is one). */
  function Notices(running: bool, progress: Option<BulkHook.Progress>, error: Option<string>,
                   downloadUrl: Option<string>): seq<Notice>
  {
    (if error.Some? then [ErrorNotice(error.value)] else []) +
    (if !running && progress.Some? && error.None? then [DoneNotice(progress.value.processed, downloadUrl)] else [])
  }

  /** At most one notice shows: an error, or the success of a finished run; reset shows none. */
  lemma NoticesExclusive(running: bool, progress: Option<BulkHook.Progress>, error: Option<string>,
                         downloadUrl: Option<string>)
    ensures |Notices(running, progress, error, downloadUrl)| <= 1
    ensures Notices(running, progress, error, downloadUrl) == [] <==> error.None? && (running || progress.None?)
    ensures Notices(running, None, None, downloadUrl) == []
  {
  }

  // ---------------------------------------------------------------- visibility after a run

  /**
   * As written: when a run resolves, the app's onComplete empties the selection, and the bar, with
   * nothing selected, nothing running and no error, hides itself just as its "Done!" notice (with
   * the export link) falls due.
   */
  lemma DoneNoticeHidden(h: BulkHook.BulkHook, outcome: Api.Fetched, reported: seq<Bulk.BulkResponse>, total: nat,
                         completions0: nat, opened0: seq<string>)
    requires h.Shown(outcome, reported, total, completions0, opened0) && outcome.Resolved?
    ensures h.progress.Some?
    ensures Notices(h.running, h.progress, h.error, h.downloadUrl) == [DoneNotice(h.progress.value.processed, h.downloadUrl)]
    ensures !Visible(0, h.running, h.error)
  {
  }

  /** Corrected: the bar also stays while it holds a progress object, that is, until its notice is dismissed. */
  predicate VisibleWithProgress(selected: nat, running: bool, error: Option<string>, progress: Option<BulkHook.Progress>)
  {
    Visible(selected, running, error) || progress.Some?
  }

  /** With the corrected rule every notice and the progress bar are on a visible bar; dismissing (reset) with nothing selected hides it. */
  lemma NoticesVisible(selected: nat, running: bool, progress: Option<BulkHook.Progress>, error: Option<string>,
                       downloadUrl: Option<string>)
    ensures Notices(running, progress, error, downloadUrl) != [] ==> VisibleWithProgress(selected, running, error, progress)
    ensures ShowsProgressBar(running, progress) ==> VisibleWithProgress(selected, running, error, progress)
    ensures !VisibleWithProgress(0, false, None, None)
  {
  }

  /** Corrected: after a resolved run with the selection emptied, the "Done!" notice is shown. */
  lemma DoneNoticeShown(h: BulkHook.BulkHook, outcome: Api.Fetched, reported: seq<Bulk.BulkResponse>, total: nat,
                        completions0: nat, opened0: seq<string>)
    requires h.Shown(outcome, reported, total, completions0, opened0) && outcome.Resolved?
    ensures VisibleWithProgress(0, h.running, h.error, h.progress)
    ensures Notices(h.running, h.progress, h.error, h.downloadUrl) != []
  {
  }
}
