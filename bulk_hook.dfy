/**
 * useBulk (src/hooks/useBulk.js): the state a bulk run leaves behind for the bulk bar, the progress
 * it shows after each chunk, and the download link of an export. A run is one event here: the
 * intermediate renders between chunks are the `steps` it records.
 */
module BulkHook {
  import opened Common
  import Store
  import Bulk
  import Rest
  import Api

  /** The `{ processed, total }` object the bar renders. */
  datatype Progress = Progress(processed: int, total: nat)

  const BulkFailed := "Bulk action failed."

  /** The `processed` count of each response onProgress saw, in order. */
  function Processed(reported: seq<Bulk.BulkResponse>): (r: seq<int>)
    ensures |r| == |reported|
    ensures forall k :: 0 <= k < |r| && reported[k].Progress? ==> r[k] == reported[k].processed
  {
    seq(|reported|, k requires 0 <= k < |reported| => if reported[k].Progress? then reported[k].processed else 0)
  }

  /** Counts that climb strictly, each between 0 and `total`. */
  predicate Climbs(steps: seq<int>, total: int)
  {
    && (forall i, j :: 0 <= i < j < |steps| ==> steps[i] < steps[j])
    && (forall i :: 0 <= i < |steps| ==> 0 <= steps[i] <= total)
  }

  /**
   * The progress values a run shows: 0 when it starts, then each response's count. Within a run they
   * climb strictly and never pass the number of ids the hook was given.
   */
  lemma RunSteps(req: Rest.BulkRequest, env: Bulk.ExportEnv, offsets: seq<nat>, reported: seq<Bulk.BulkResponse>,
                 total: nat)
    requires Api.Trace(req, env, offsets, reported) && req.chunk > 0 && |offsets| >= 1
    requires Rest.Rejection(req).None? ==> (|offsets| - 1) * req.chunk < |req.ids|
    requires Rest.Rejection(req).Some? ==> reported == []
    requires forall k :: 0 <= k < |reported| ==> reported[k].Progress?
    requires |req.ids| <= total
    ensures Climbs([0] + Processed(reported), total)
  {
    if reported != [] {
      Api.ReportedProgress(req, env, offsets, reported);
      var ps := Processed(reported);
      forall k | 0 <= k < |ps| ensures 0 < ps[k] <= total {
        Api.PositiveProduct(k + 1, req.chunk);
      }
      forall i, j | 0 <= i < j < |ps| ensures ps[i] < ps[j] {
      }
      ClimbsFromZero(ps, total);
    }
  }

  /** Positive counts that climb strictly still climb with a 0 in front. */
  lemma ClimbsFromZero(ps: seq<int>, total: nat)
    requires forall i, j :: 0 <= i < j < |ps| ==> ps[i] < ps[j]
    requires forall k :: 0 <= k < |ps| ==> 0 < ps[k] <= total
    ensures Climbs([0] + ps, total)
  {
    var steps := [0] + ps;
    forall i, j | 0 <= i < j < |steps| ensures steps[i] < steps[j] {
      if i > 0 {
        assert steps[i] == ps[i - 1] && steps[j] == ps[j - 1];
      } else {
        assert steps[j] == ps[j - 1];
      }
    }
    forall i | 0 <= i < |steps| ensures 0 <= steps[i] <= total {
      if i > 0 {
        assert steps[i] == ps[i - 1];
      }
    }
  }

  // ---------------------------------------------------------------- the download link

  /**
   * As written: `result?.download_url` when it is truthy, that is, the URL of executeBulk's final
   * result only, and only when it is a non-empty string.
   */
  function FinalUrl(outcome: Api.Fetched): (u: Option<string>)
    ensures u.Some? <==> outcome.Resolved? && outcome.response.Progress? && outcome.response.downloadUrl.Some? &&
                         outcome.response.downloadUrl.value != ""
    ensures u.Some? ==> u == outcome.response.downloadUrl
  {
    if outcome.Resolved? && outcome.response.Progress? && outcome.response.downloadUrl.Some? &&
       outcome.response.downloadUrl.value != ""
    then outcome.response.downloadUrl
    else None
  }

  /** Corrected: the first URL carried by any response onProgress saw. */
  function SeenUrl(reported: seq<Bulk.BulkResponse>): (u: Option<string>)
    ensures u.Some? <==> exists k :: 0 <= k < |reported| && reported[k].Progress? && reported[k].downloadUrl.Some?
    ensures u.Some? ==> exists k :: 0 <= k < |reported| && reported[k].Progress? && reported[k].downloadUrl == u
  {
    if reported == [] then None
    else if reported[0].Progress? && reported[0].downloadUrl.Some? then reported[0].downloadUrl
    else
      var rest := SeenUrl(reported[1..]);
      assert forall k :: 1 <= k < |reported| ==> reported[k] == reported[1..][k - 1];
      rest
  }

  /**
   * As written, an export that resolves over more than one chunk hands the hook no URL: only the
   * offset-0 response carries it, and executeBulk returns the last response.
   */
  lemma ExportUrlLost(req: Rest.BulkRequest, env: Bulk.ExportEnv, offsets: seq<nat>, reported: seq<Bulk.BulkResponse>)
    requires Api.Trace(req, env, offsets, reported) && |reported| == |offsets| >= 1
    requires Rest.Rejection(req).None? && req.action == "export_csv" && env.canOpen
    requires reported[|reported| - 1].Progress? && reported[|reported| - 1].remaining <= 0
    requires |req.ids| > req.chunk > 0
    requires |offsets| * req.chunk >= |req.ids|
    ensures FinalUrl(Api.Resolved(reported[|reported| - 1])) == None
    ensures reported[0].downloadUrl == Some(env.downloadUrl)
  {
    var last := |offsets| - 1;
    assert offsets[0] == 0 * req.chunk;
    OnceTimes(|offsets|, req.chunk);
    Api.PositiveProduct(last, req.chunk);
    assert reported[last] == Api.Answer(req, env, last * req.chunk);
  }

  /**
   * As written, an export whose ids fit in one chunk (a selection within one page of at most 200
   * rows, under the default chunk of 500) resolves in one request, and its result carries the link.
   */
  lemma ExportUrlOneChunk(req: Rest.BulkRequest, env: Bulk.ExportEnv, offsets: seq<nat>, reported: seq<Bulk.BulkResponse>)
    requires Api.Trace(req, env, offsets, reported) && |reported| == |offsets| >= 1
    requires Rest.Rejection(req).None? && req.action == "export_csv" && env.canOpen
    requires 0 < |req.ids| <= req.chunk
    ensures |reported| == 1
    ensures FinalUrl(Api.Resolved(reported[0])) == if env.downloadUrl == "" then None else Some(env.downloadUrl)
  {
    assert offsets[0] == 0 * req.chunk;
    assert reported[0] == Api.Answer(req, env, 0);
    assert reported[0].Progress? && reported[0].remaining == 0;
  }

  lemma OnceTimes(a: nat, c: nat)
    ensures a == 1 ==> a * c == c
  {
  }

  /** A concrete case: 501 ids in chunks of 500 resolve in two requests, and the final response has no URL. */
  lemma ExportOf501Ids(ids: seq<int>, env: Bulk.ExportEnv)
    requires |ids| == 501 && env.canOpen
    ensures var second := Bulk.ExecuteResponse("export_csv", ids, [], [], 500, 500, env);
            second == Bulk.Progress(501, 0, None)
    ensures Bulk.ExecuteResponse("export_csv", ids, [], [], 0, 500, env) == Bulk.Progress(500, 1, Some(env.downloadUrl))
  {
  }

  /** Corrected: every export the server accepts and that resolves hands the hook the URL of its file. */
  lemma ExportUrlSurfaced(req: Rest.BulkRequest, env: Bulk.ExportEnv, offsets: seq<nat>, reported: seq<Bulk.BulkResponse>)
    requires Api.Trace(req, env, offsets, reported) && |reported| == |offsets| >= 1
    requires Rest.Rejection(req).None? && req.action == "export_csv" && env.canOpen && req.chunk > 0
    requires reported[|reported| - 1].Progress?
    ensures SeenUrl(reported) == Some(env.downloadUrl)
  {
    assert offsets[0] == 0 * req.chunk;
    var first := reported[0];
    assert first == Api.Answer(req, env, 0);
    assert first.Progress? && first.downloadUrl == Some(env.downloadUrl);
    assert SeenUrl(reported) == first.downloadUrl;
  }

  /** Corrected, other actions: no response carries a URL, so none is shown or opened. */
  lemma NoUrlOutsideExport(req: Rest.BulkRequest, env: Bulk.ExportEnv, offsets: seq<nat>, reported: seq<Bulk.BulkResponse>)
    requires Api.Trace(req, env, offsets, reported) && req.action != "export_csv"
    ensures SeenUrl(reported) == None
  {
  }

  // ---------------------------------------------------------------- the hook

  /** executeBulk as useBulk calls it, with what the shown counts can be. */
  method Drive(db: Store.Database, body: Api.BulkBody, clean: string -> string, env: Bulk.ExportEnv)
    returns (outcome: Api.Fetched, offsets: seq<nat>, reported: seq<Bulk.BulkResponse>, file: seq<seq<string>>,
             ghost req: Rest.BulkRequest)
    modifies db
    ensures req == Api.ServerRequest(body, clean)
    ensures Api.Ran(old(db.tables), db.tables, req, env, offsets, reported, file)
    ensures Climbs([0] + Processed(reported), |body.ids|)
  {
    req := Api.ServerRequest(body, clean);
    outcome, offsets, reported, file := Api.ExecuteBulk(db, body, clean, env);
    Api.SanitizedNoLonger(body, clean);
    OutcomeSteps(Api.ServerRequest(body, clean), env, outcome, offsets, reported, |body.ids|);
  }

  /** The shown counts of a run with what executeBulk promises of its outcome. */
  lemma OutcomeSteps(req: Rest.BulkRequest, env: Bulk.ExportEnv, outcome: Api.Fetched, offsets: seq<nat>,
                     reported: seq<Bulk.BulkResponse>, total: nat)
    requires Api.Trace(req, env, offsets, reported) && |offsets| >= 1 && req.chunk > 0
    requires |reported| == (if outcome.Resolved? then |offsets| else |offsets| - 1)
    requires Rest.Rejection(req).Some? ==> outcome.Thrown? && offsets == [0]
    requires Rest.Rejection(req).None? ==> (|offsets| - 1) * req.chunk < |req.ids|
    requires outcome.Resolved? ==> outcome.response == reported[|reported| - 1] && outcome.response.Progress?
    requires |req.ids| <= total
    ensures Climbs([0] + Processed(reported), total)
  {
    forall k | 0 <= k < |reported| ensures reported[k].Progress? {
      if k == |offsets| - 1 {
        assert outcome.Resolved? && k == |reported| - 1;
      }
    }
    if Rest.Rejection(req).Some? {
      assert |reported| == 0;
    }
    RunSteps(req, env, offsets, reported, total);
  }

  class BulkHook {
    var progress: Option<Progress>
    var running: bool
    var error: Option<string>
    var downloadUrl: Option<string>
    /** Every URL passed to window.open, in order. */
    var openedUrls: seq<string>
    /** How many times onComplete has run. */
    var completions: nat
    /** The progress counts the latest run showed, in order. */
    var steps: seq<int>

    constructor ()
      ensures progress.None? && !running && error.None? && downloadUrl.None?
      ensures openedUrls == [] && completions == 0 && steps == []
    {
      progress := None;
      running := false;
      error := None;
      downloadUrl := None;
      openedUrls := [];
      completions := 0;
      steps := [];
    }

    /**
     * run(action, ids, { tag_ids, list_ids }): reset the notices, show 0 of |ids|, drive executeBulk
     * (useBulk sends no chunk, so the default one), show each response's count, then either open the
     * final result's link, when it has a non-empty one, and call onComplete, or show the thrown message;
     * running ends false either way.
     */
    method Run(db: Store.Database, action: string, ids: seq<int>, tagIds: seq<int>, listIds: seq<int>,
               clean: string -> string, env: Bulk.ExportEnv)
      returns (outcome: Api.Fetched, offsets: seq<nat>, reported: seq<Bulk.BulkResponse>, file: seq<seq<string>>,
               ghost req: Rest.BulkRequest)
      modifies this, db
      ensures req == Api.ServerRequest(Api.BulkBody(action, ids, tagIds, listIds, 0), clean)
      ensures Api.Ran(old(db.tables), db.tables, req, env, offsets, reported, file)
      ensures Shown(outcome, reported, |ids|, old(completions), old(openedUrls))
    {
      running := true;
      error := None;
      downloadUrl := None;
      progress := Some(Progress(0, |ids|));
      outcome, offsets, reported, file, req := Drive(db, Api.BulkBody(action, ids, tagIds, listIds, 0), clean, env);
      Finish(outcome, reported, |ids|);
    }

    /**
     * What the hook shows once a run over `total` ids settles with `outcome`, given the completions and
     * opened links before it: running is off, the counts climbed from 0 through every reported count,
     * and either the link of executeBulk's final result (when non-empty) was opened and onComplete called
     * once, or the thrown message (or the default one) is shown and nothing was opened.
     */
    ghost predicate Shown(outcome: Api.Fetched, reported: seq<Bulk.BulkResponse>, total: nat, completions0: nat,
                          opened0: seq<string>)
      reads this
    {
      && !running
      && steps == [0] + Processed(reported)
      && Climbs(steps, total)
      && progress == Some(Progress(steps[|steps| - 1], total))
      && (outcome.Resolved? ==>
            && error.None? && downloadUrl == FinalUrl(outcome) && completions == completions0 + 1
            && openedUrls == opened0 + (if downloadUrl.Some? then [downloadUrl.value] else []))
      && (outcome.Thrown? ==>
            && error == Some(if outcome.message == "" then BulkFailed else outcome.message)
            && downloadUrl.None? && completions == completions0 && openedUrls == opened0)
    }

    /** The onProgress calls, then the settling of the run. */
    method Finish(outcome: Api.Fetched, reported: seq<Bulk.BulkResponse>, total: nat)
      requires Climbs([0] + Processed(reported), total) && error.None? && downloadUrl.None?
      modifies this
      ensures Shown(outcome, reported, total, old(completions), old(openedUrls))
    {
      Show(reported, total);
      Settle(outcome, reported);
    }

    /** The onProgress calls: each response's count replaces the shown one, over the same total. */
    method Show(reported: seq<Bulk.BulkResponse>, total: nat)
      modifies this
      ensures steps == [0] + Processed(reported) && progress == Some(Progress(steps[|steps| - 1], total))
      ensures running == old(running) && error == old(error) && downloadUrl == old(downloadUrl)
      ensures openedUrls == old(openedUrls) && completions == old(completions)
    {
      steps := [0] + Processed(reported);
      progress := Some(Progress(steps[|steps| - 1], total));
    }

    /** After executeBulk settles: open the link and call onComplete, or show the thrown message; then stop running. */
    method Settle(outcome: Api.Fetched, reported: seq<Bulk.BulkResponse>)
      modifies this
      ensures !running && progress == old(progress) && steps == old(steps)
      ensures outcome.Resolved? ==>
                && error == old(error) && downloadUrl == FinalUrl(outcome) && completions == old(completions) + 1
                && openedUrls == old(openedUrls) + (if downloadUrl.Some? then [downloadUrl.value] else [])
      ensures outcome.Thrown? ==>
                && error == Some(if outcome.message == "" then BulkFailed else outcome.message)
                && downloadUrl == old(downloadUrl) && completions == old(completions) && openedUrls == old(openedUrls)
    {
      if outcome.Resolved? {
        var url := FinalUrl(outcome);
        downloadUrl := url;
        if url.Some? {
          openedUrls := openedUrls + [url.value];
        }
        completions := completions + 1;
      } else {
        error := Some(if outcome.message == "" then BulkFailed else outcome.message);
      }
      running := false;
    }

    /** reset: clear the progress, the error and the link; a run in flight keeps running. */
    method Reset()
      modifies this
      ensures progress.None? && error.None? && downloadUrl.None?
      ensures running == old(running) && openedUrls == old(openedUrls) && completions == old(completions) && steps == old(steps)
    {
      progress := None;
      error := None;
      downloadUrl := None;
    }
  }
}
