/**
 * DCMM_Bulk (includes/class-bulk.php): one chunk of a bulk action. `execute` slices the chunk out
 * of the id list, reports processed/remaining, and dispatches to an action that changes one
 * MailPoet table through the database handle, or to the once-only CSV export.
 */
module Bulk {
  import opened Common
  import opened Store
  import Queries

  const NoTagIds := "No tag IDs provided."
  const NoListIds := "No list IDs provided."
  const UnknownAction := "Unknown action."
  const CannotOpen := "Could not create export file."

  /** What an action hands back to execute: ok, ok with the export's download URL, or a failure message. */
  datatype Outcome = Ok | OkWithUrl(url: string) | NotOk(message: string)

  /** The response of execute: progress (ok = true) or the failing action's result returned unchanged. */
  datatype BulkResponse =
    | Progress(processed: int, remaining: int, downloadUrl: Option<string>)
    | Failure(message: string)

  /** What the filesystem decides for the export: whether the file opens, and its public URL. */
  datatype ExportEnv = ExportEnv(canOpen: bool, downloadUrl: string)

  // ---------------------------------------------------------------- rows the inserts send

  /** The rows add_tags' inner loop appends for one subscriber, in tag order. */
  function TagRowsFor(sid: int, tids: seq<int>): (r: seq<TagLink>)
    ensures |r| == |tids|
    ensures forall j :: 0 <= j < |tids| ==> r[j] == TagLink(sid, tids[j])
  {
    seq(|tids|, j requires 0 <= j < |tids| => TagLink(sid, tids[j]))
  }

  /** The rows of add_tags' nested loop: subscriber-major, then tag order. */
  function TagRows(sids: seq<int>, tids: seq<int>): seq<TagLink>
  {
    if sids == [] then [] else TagRows(sids[..|sids| - 1], tids) + TagRowsFor(sids[|sids| - 1], tids)
  }

  function SegmentRowsFor(sid: int, lids: seq<int>): (r: seq<SegmentLink>)
    ensures |r| == |lids|
    ensures forall j :: 0 <= j < |lids| ==> r[j] == SegmentLink(sid, lids[j], "subscribed")
  {
    seq(|lids|, j requires 0 <= j < |lids| => SegmentLink(sid, lids[j], "subscribed"))
  }

  /** The rows of add_lists' nested loop, each with status "subscribed". */
  function SegmentRows(sids: seq<int>, lids: seq<int>): seq<SegmentLink>
  {
    if sids == [] then [] else SegmentRows(sids[..|sids| - 1], lids) + SegmentRowsFor(sids[|sids| - 1], lids)
  }

  /** The insert rows are exactly the cross product of the chunk and the operand ids. */
  lemma {:induction false} TagRowsMembers(sids: seq<int>, tids: seq<int>, l: TagLink)
    ensures l in TagRows(sids, tids) <==> l.subscriberId in sids && l.tagId in tids
  {
    if sids != [] {
      var front := sids[..|sids| - 1];
      TagRowsMembers(front, tids, l);
      assert sids == front + [sids[|sids| - 1]];
      if l in TagRowsFor(sids[|sids| - 1], tids) {
        var j :| 0 <= j < |tids| && TagRowsFor(sids[|sids| - 1], tids)[j] == l;
      }
      if l.subscriberId == sids[|sids| - 1] && l.tagId in tids {
        var j :| 0 <= j < |tids| && tids[j] == l.tagId;
        assert TagRowsFor(sids[|sids| - 1], tids)[j] == l;
      }
    }
  }

  lemma {:induction false} SegmentRowsMembers(sids: seq<int>, lids: seq<int>, l: SegmentLink)
    ensures l in SegmentRows(sids, lids) <==> l.subscriberId in sids && l.segmentId in lids && l.status == "subscribed"
  {
    if sids != [] {
      var front := sids[..|sids| - 1];
      SegmentRowsMembers(front, lids, l);
      assert sids == front + [sids[|sids| - 1]];
      if l in SegmentRowsFor(sids[|sids| - 1], lids) {
        var j :| 0 <= j < |lids| && SegmentRowsFor(sids[|sids| - 1], lids)[j] == l;
      }
      if l.subscriberId == sids[|sids| - 1] && l.segmentId in lids && l.status == "subscribed" {
        var j :| 0 <= j < |lids| && lids[j] == l.segmentId;
        assert SegmentRowsFor(sids[|sids| - 1], lids)[j] == l;
      }
    }
  }

  /** Every (subscriber, list) pair of the cross product is sent with status "subscribed", and no other pair. */
  lemma SegmentRowsStatus(sids: seq<int>, lids: seq<int>, sid: int, lid: int)
    ensures SegmentStatus(SegmentRows(sids, lids), sid, lid) ==
            if sid in sids && lid in lids then Some("subscribed") else None
  {
    var st := SegmentStatus(SegmentRows(sids, lids), sid, lid);
    if sid in sids && lid in lids {
      SegmentRowsMembers(sids, lids, SegmentLink(sid, lid, "subscribed"));
    }
    if st.Some? {
      SegmentRowsMembers(sids, lids, SegmentLink(sid, lid, st.value));
    }
  }

  // ---------------------------------------------------------------- the actions

  /** add_tags: INSERT IGNORE of every (chunk id, tag id) pair built by the nested loop. */
  method AddTags(db: Database, sids: seq<int>, tids: seq<int>) returns (o: Outcome)
    modifies db
    ensures tids == [] ==> o == NotOk(NoTagIds) && db.tables == old(db.tables)
    ensures tids != [] ==> (o == Ok &&
      db.tables == old(db.tables).(subscriberTags := InsertIgnoreTags(old(db.tables).subscriberTags, TagRows(sids, tids))))
  {
    if tids == [] {
      return NotOk(NoTagIds);
    }
    var rows: seq<TagLink> := [];
    var i := 0;
    while i < |sids|
      invariant 0 <= i <= |sids|
      invariant rows == TagRows(sids[..i], tids)
    {
      var j := 0;
      while j < |tids|
        invariant 0 <= j <= |tids|
        invariant rows == TagRows(sids[..i], tids) + TagRowsFor(sids[i], tids[..j])
      {
        rows := rows + [TagLink(sids[i], tids[j])];
        j := j + 1;
      }
      assert tids[..j] == tids;
      assert sids[..i + 1][..i] == sids[..i];
      i := i + 1;
    }
    assert sids[..i] == sids;
    db.InsertIgnoreTagLinks(rows);
    return Ok;
  }

  /** remove_tags: DELETE of the links whose subscriber is in the chunk and whose tag is an operand. */
  method RemoveTags(db: Database, sids: seq<int>, tids: seq<int>) returns (o: Outcome)
    modifies db
    ensures tids == [] ==> o == NotOk(NoTagIds) && db.tables == old(db.tables)
    ensures tids != [] ==> (o == Ok &&
      db.tables == old(db.tables).(subscriberTags := DeleteTags(old(db.tables).subscriberTags, sids, tids)))
  {
    if tids == [] {
      return NotOk(NoTagIds);
    }
    db.DeleteTagLinks(sids, tids);
    return Ok;
  }

  /** add_lists: INSERT IGNORE of every (chunk id, list id, "subscribed") row built by the nested loop. */
  method AddLists(db: Database, sids: seq<int>, lids: seq<int>) returns (o: Outcome)
    modifies db
    ensures lids == [] ==> o == NotOk(NoListIds) && db.tables == old(db.tables)
    ensures lids != [] ==> (o == Ok &&
      db.tables == old(db.tables).(subscriberSegments :=
                     InsertIgnoreSegments(old(db.tables).subscriberSegments, SegmentRows(sids, lids))))
  {
    if lids == [] {
      return NotOk(NoListIds);
    }
    var rows: seq<SegmentLink> := [];
    var i := 0;
    while i < |sids|
      invariant 0 <= i <= |sids|
      invariant rows == SegmentRows(sids[..i], lids)
    {
      var j := 0;
      while j < |lids|
        invariant 0 <= j <= |lids|
        invariant rows == SegmentRows(sids[..i], lids) + SegmentRowsFor(sids[i], lids[..j])
      {
        rows := rows + [SegmentLink(sids[i], lids[j], "subscribed")];
        j := j + 1;
      }
      assert lids[..j] == lids;
      assert sids[..i + 1][..i] == sids[..i];
      i := i + 1;
    }
    assert sids[..i] == sids;
    db.InsertIgnoreSegmentLinks(rows);
    return Ok;
  }

  /** remove_lists: DELETE of the memberships whose subscriber is in the chunk and whose list is an operand. */
  method RemoveLists(db: Database, sids: seq<int>, lids: seq<int>) returns (o: Outcome)
    modifies db
    ensures lids == [] ==> o == NotOk(NoListIds) && db.tables == old(db.tables)
    ensures lids != [] ==> (o == Ok &&
      db.tables == old(db.tables).(subscriberSegments := DeleteSegments(old(db.tables).subscriberSegments, sids, lids)))
  {
    if lids == [] {
      return NotOk(NoListIds);
    }
    db.DeleteSegmentLinks(sids, lids);
    return Ok;
  }

  /** unsubscribe: UPDATE of the chunk's subscribers to status "unsubscribed"; it cannot fail. */
  method Unsubscribe(db: Database, sids: seq<int>) returns (o: Outcome)
    modifies db
    ensures o == Ok
    ensures db.tables == old(db.tables).(subscribers := SetStatus(old(db.tables).subscribers, sids, "unsubscribed"))
  {
    db.UpdateStatus(sids, "unsubscribed");
    return Ok;
  }

  // ---------------------------------------------------------------- execute, as specified

  /** The action's result, as the dispatch in execute sees it. */
  function ActionOutcome(action: string, tagIds: seq<int>, listIds: seq<int>, offset: nat, env: ExportEnv): Outcome
  {
    if action == "add_tag" || action == "remove_tag" then (if tagIds == [] then NotOk(NoTagIds) else Ok)
    else if action == "add_list" || action == "remove_list" then (if listIds == [] then NotOk(NoListIds) else Ok)
    else if action == "unsubscribe" then Ok
    else if action == "export_csv" then
      (if offset > 0 then Ok else if !env.canOpen then NotOk(CannotOpen) else OkWithUrl(env.downloadUrl))
    else NotOk(UnknownAction)
  }

  /** The response execute returns for one chunk. */
  function ExecuteResponse(action: string, ids: seq<int>, tagIds: seq<int>, listIds: seq<int>,
                           offset: nat, chunk: nat, env: ExportEnv): (r: BulkResponse)
    // an empty slice (offset at or past the end, or chunk 0) reports the offset and nothing remaining
    ensures offset >= |ids| || chunk == 0 ==> r == Progress(offset, 0, None)
    // otherwise progress counts the chunk and the rest of the list
    ensures offset < |ids| && chunk > 0 && r.Progress? ==>
              r.processed == offset + Min(chunk, |ids| - offset) <= |ids| && r.remaining == |ids| - r.processed
    // a failure is the action's own result, and happens only on a non-empty slice
    ensures r.Failure? <==>
              offset < |ids| && chunk > 0 &&
              ((action !in ["add_tag", "remove_tag", "add_list", "remove_list", "unsubscribe", "export_csv"]) ||
               ((action == "add_tag" || action == "remove_tag") && tagIds == []) ||
               ((action == "add_list" || action == "remove_list") && listIds == []) ||
               (action == "export_csv" && offset == 0 && !env.canOpen))
    ensures r.Failure? ==> r.message in [NoTagIds, NoListIds, UnknownAction, CannotOpen]
    // only a first-chunk export that could open its file carries a download URL
    ensures r.Progress? && r.downloadUrl.Some? <==>
              offset == 0 && |ids| > 0 && chunk > 0 && action == "export_csv" && env.canOpen
    ensures r.Progress? && r.downloadUrl.Some? ==> r.downloadUrl == Some(env.downloadUrl)
  {
    var chunkIds := Window(ids, chunk, offset);
    var processed := offset + |chunkIds|;
    if chunkIds == [] then Progress(processed, 0, None)
    else
      match ActionOutcome(action, tagIds, listIds, offset, env)
      case NotOk(m) => Failure(m)
      case Ok => Progress(processed, Max(0, |ids| - processed), None)
      case OkWithUrl(u) => Progress(processed, Max(0, |ids| - processed), Some(u))
  }

  /** The tables after execute: the chunk's action, or nothing on an empty slice or a failed action. */
  function ExecuteEffect(t: Tables, action: string, chunkIds: seq<int>, tagIds: seq<int>, listIds: seq<int>): (r: Tables)
    ensures r.customFields == t.customFields && r.fieldValues == t.fieldValues
    ensures r.tags == t.tags && r.segments == t.segments
    ensures action != "unsubscribe" ==> r.subscribers == t.subscribers
    ensures action != "add_tag" && action != "remove_tag" ==> r.subscriberTags == t.subscriberTags
    ensures action != "add_list" && action != "remove_list" ==> r.subscriberSegments == t.subscriberSegments
  {
    if chunkIds == [] then t
    else if action == "add_tag" && tagIds != [] then
      t.(subscriberTags := InsertIgnoreTags(t.subscriberTags, TagRows(chunkIds, tagIds)))
    else if action == "remove_tag" && tagIds != [] then
      t.(subscriberTags := DeleteTags(t.subscriberTags, chunkIds, tagIds))
    else if action == "add_list" && listIds != [] then
      t.(subscriberSegments := InsertIgnoreSegments(t.subscriberSegments, SegmentRows(chunkIds, listIds)))
    else if action == "remove_list" && listIds != [] then
      t.(subscriberSegments := DeleteSegments(t.subscriberSegments, chunkIds, listIds))
    else if action == "unsubscribe" then
      t.(subscribers := SetStatus(t.subscribers, chunkIds, "unsubscribed"))
    else t
  }

  /** The file execute writes: the export's content on a first chunk whose file opens, nothing otherwise. */
  function ExecuteFile(t: Tables, action: string, ids: seq<int>, offset: nat, chunk: nat, env: ExportEnv): seq<seq<string>>
  {
    if Window(ids, chunk, offset) != [] && action == "export_csv" && offset == 0 && env.canOpen then ExportFile(t, ids)
    else []
  }

  // ---------------------------------------------------------------- execute

  method Execute(db: Database, action: string, ids: seq<int>, tagIds: seq<int>, listIds: seq<int>,
                 offset: nat, chunk: nat, env: ExportEnv)
    returns (r: BulkResponse, file: seq<seq<string>>)
    modifies db
    ensures r == ExecuteResponse(action, ids, tagIds, listIds, offset, chunk, env)
    ensures db.tables == ExecuteEffect(old(db.tables), action, Window(ids, chunk, offset), tagIds, listIds)
    ensures file == ExecuteFile(old(db.tables), action, ids, offset, chunk, env)
  {
    var chunkIds := Window(ids, chunk, offset);
    var processed := offset + |chunkIds|;
    var remaining := Max(0, |ids| - processed);
    if chunkIds == [] {
      return Progress(processed, 0, None), [];
    }
    var o;
    o, file := RunAction(db, action, ids, chunkIds, tagIds, listIds, offset, env);
    r := match o
      case NotOk(m) => Failure(m)
      case Ok => Progress(processed, remaining, None)
      case OkWithUrl(u) => Progress(processed, remaining, Some(u));
  }

  /** The switch of execute on a non-empty chunk: the action's outcome, its effect and the file it writes. */
  method RunAction(db: Database, action: string, ids: seq<int>, chunkIds: seq<int>, tagIds: seq<int>, listIds: seq<int>,
                   offset: nat, env: ExportEnv)
    returns (o: Outcome, file: seq<seq<string>>)
    requires chunkIds != []
    modifies db
    ensures o == ActionOutcome(action, tagIds, listIds, offset, env)
    ensures db.tables == ExecuteEffect(old(db.tables), action, chunkIds, tagIds, listIds)
    ensures file == if action == "export_csv" && offset == 0 && env.canOpen then ExportFile(old(db.tables), ids) else []
  {
    file := [];
    if action == "add_tag" {
      o := AddTags(db, chunkIds, tagIds);
    } else if action == "remove_tag" {
      o := RemoveTags(db, chunkIds, tagIds);
    } else if action == "add_list" {
      o := AddLists(db, chunkIds, listIds);
    } else if action == "remove_list" {
      o := RemoveLists(db, chunkIds, listIds);
    } else if action == "unsubscribe" {
      o := Unsubscribe(db, chunkIds);
    } else if action == "export_csv" {
      o, file := ExportCsv(db.tables, ids, offset, env);
    } else {
      o := NotOk(UnknownAction);
    }
  }

  // ---------------------------------------------------------------- what the actions do

  /** A failed action (unknown action, missing operands, unopenable file) writes nothing. */
  lemma FailureWritesNothing(t: Tables, action: string, ids: seq<int>, tagIds: seq<int>, listIds: seq<int>,
                             offset: nat, chunk: nat, env: ExportEnv)
    requires ExecuteResponse(action, ids, tagIds, listIds, offset, chunk, env).Failure?
    ensures ExecuteEffect(t, action, Window(ids, chunk, offset), tagIds, listIds) == t
    ensures ExecuteFile(t, action, ids, offset, chunk, env) == []
  {
  }

  /** add_tag: the tag pairs afterwards are the old ones plus the chunk × tags cross product, and no duplicate row appears. */
  lemma AddTagPairs(t: Tables, chunkIds: seq<int>, tagIds: seq<int>)
    requires chunkIds != [] && tagIds != []
    ensures var after := ExecuteEffect(t, "add_tag", chunkIds, tagIds, []).subscriberTags;
            && t.subscriberTags <= after
            && TagPairs(after) == TagPairs(t.subscriberTags) + (set s, g | s in chunkIds && g in tagIds :: (s, g))
            && (NoDuplicates(t.subscriberTags) ==> NoDuplicates(after))
  {
    var rows := TagRows(chunkIds, tagIds);
    InsertIgnoreTagsEffect(t.subscriberTags, rows);
    forall pr | pr in TagPairs(rows) ensures pr in (set s, g | s in chunkIds && g in tagIds :: (s, g)) {
      var l :| l in rows && pr == (l.subscriberId, l.tagId);
      TagRowsMembers(chunkIds, tagIds, l);
    }
    forall pr | pr in (set s, g | s in chunkIds && g in tagIds :: (s, g)) ensures pr in TagPairs(rows) {
      TagRowsMembers(chunkIds, tagIds, TagLink(pr.0, pr.1));
    }
  }

  /** remove_tag: a link survives iff it was there and is not in chunk × tags. */
  lemma RemoveTagLinks(t: Tables, chunkIds: seq<int>, tagIds: seq<int>, l: TagLink)
    requires chunkIds != [] && tagIds != []
    ensures l in ExecuteEffect(t, "remove_tag", chunkIds, tagIds, []).subscriberTags <==>
            l in t.subscriberTags && !(l.subscriberId in chunkIds && l.tagId in tagIds)
  {
    DeleteTagsEffect(t.subscriberTags, chunkIds, tagIds);
  }

  /** add_list: a missing membership in chunk × lists is created "subscribed"; every existing one keeps its status. */
  lemma AddListStatus(t: Tables, chunkIds: seq<int>, listIds: seq<int>, sid: int, lid: int)
    requires chunkIds != [] && listIds != []
    ensures var before := SegmentStatus(t.subscriberSegments, sid, lid);
            SegmentStatus(ExecuteEffect(t, "add_list", chunkIds, [], listIds).subscriberSegments, sid, lid) ==
              if before.None? && sid in chunkIds && lid in listIds then Some("subscribed") else before
  {
    InsertIgnoreSegmentsEffect(t.subscriberSegments, SegmentRows(chunkIds, listIds), sid, lid);
    SegmentRowsStatus(chunkIds, listIds, sid, lid);
  }

  /** remove_list: exactly the memberships in chunk × lists disappear. */
  lemma RemoveListStatus(t: Tables, chunkIds: seq<int>, listIds: seq<int>, sid: int, lid: int)
    requires chunkIds != [] && listIds != []
    ensures SegmentStatus(ExecuteEffect(t, "remove_list", chunkIds, [], listIds).subscriberSegments, sid, lid) ==
            if sid in chunkIds && lid in listIds then None else SegmentStatus(t.subscriberSegments, sid, lid)
  {
    DeleteSegmentsEffect(t.subscriberSegments, chunkIds, listIds, sid, lid);
  }

  /** unsubscribe: a subscriber's status becomes "unsubscribed" iff its id is in the chunk; the other columns never change. */
  lemma UnsubscribeStatus(t: Tables, chunkIds: seq<int>, s: Subscriber)
    requires chunkIds != []
    requires s in t.subscribers
    ensures var after := ExecuteEffect(t, "unsubscribe", chunkIds, [], []).subscribers;
            (s.id in chunkIds ==> s.(status := "unsubscribed") in after) &&
            (s.id !in chunkIds ==> s in after)
  {
    var i :| 0 <= i < |t.subscribers| && t.subscribers[i] == s;
    assert SetStatus(t.subscribers, chunkIds, "unsubscribed")[i] ==
           if s.id in chunkIds then s.(status := "unsubscribed") else s;
  }

  /** Deleting again deletes nothing. */
  lemma {:induction false} DeleteTagsIdempotent(existing: seq<TagLink>, sids: seq<int>, tids: seq<int>)
    ensures DeleteTags(DeleteTags(existing, sids, tids), sids, tids) == DeleteTags(existing, sids, tids)
  {
    if existing != [] {
      DeleteTagsIdempotent(existing[1..], sids, tids);
      var rest := DeleteTags(existing[1..], sids, tids);
      if !(existing[0].subscriberId in sids && existing[0].tagId in tids) {
        assert ([existing[0]] + rest)[1..] == rest;
      }
    }
  }

  lemma {:induction false} DeleteSegmentsIdempotent(existing: seq<SegmentLink>, sids: seq<int>, lids: seq<int>)
    ensures DeleteSegments(DeleteSegments(existing, sids, lids), sids, lids) == DeleteSegments(existing, sids, lids)
  {
    if existing != [] {
      DeleteSegmentsIdempotent(existing[1..], sids, lids);
      var rest := DeleteSegments(existing[1..], sids, lids);
      if !(existing[0].subscriberId in sids && existing[0].segmentId in lids) {
        assert ([existing[0]] + rest)[1..] == rest;
      }
    }
  }

  /** Re-inserting rows whose keys are all present changes nothing. */
  lemma {:induction false} InsertIgnoreSegmentsPresent(existing: seq<SegmentLink>, rows: seq<SegmentLink>)
    requires forall r :: r in rows ==> HasSegmentKey(existing, r.subscriberId, r.segmentId)
    ensures InsertIgnoreSegments(existing, rows) == existing
    decreases |rows|
  {
    if rows != [] { InsertIgnoreSegmentsPresent(existing, rows[1..]); }
  }

  lemma InsertIgnoreSegmentsIdempotent(existing: seq<SegmentLink>, rows: seq<SegmentLink>)
    ensures var once := InsertIgnoreSegments(existing, rows);
            InsertIgnoreSegments(once, rows) == once
  {
    var once := InsertIgnoreSegments(existing, rows);
    forall r | r in rows ensures HasSegmentKey(once, r.subscriberId, r.segmentId) {
      InsertIgnoreSegmentsEffect(existing, rows, r.subscriberId, r.segmentId);
      assert HasSegmentKey(rows, r.subscriberId, r.segmentId);
    }
    InsertIgnoreSegmentsPresent(once, rows);
  }

  lemma InsertIgnoreTagsIdempotent(existing: seq<TagLink>, rows: seq<TagLink>)
    ensures var once := InsertIgnoreTags(existing, rows);
            InsertIgnoreTags(once, rows) == once
  {
    InsertIgnoreTagsContains(existing, rows);
    InsertIgnoreTagsPresent(InsertIgnoreTags(existing, rows), rows);
  }

  lemma SetStatusIdempotent(subscribers: seq<Subscriber>, ids: seq<int>, value: string)
    ensures var once := SetStatus(subscribers, ids, value);
            SetStatus(once, ids, value) == once
  {
    var once := SetStatus(subscribers, ids, value);
    var twice := SetStatus(once, ids, value);
    assert forall i :: 0 <= i < |twice| ==> twice[i] == once[i];
  }

  /** Running the same chunk of any action twice leaves the tables as running it once. */
  lemma ExecuteIdempotent(t: Tables, action: string, chunkIds: seq<int>, tagIds: seq<int>, listIds: seq<int>)
    ensures var once := ExecuteEffect(t, action, chunkIds, tagIds, listIds);
            ExecuteEffect(once, action, chunkIds, tagIds, listIds) == once
  {
    if chunkIds != [] {
      if action == "add_tag" && tagIds != [] {
        InsertIgnoreTagsIdempotent(t.subscriberTags, TagRows(chunkIds, tagIds));
      } else if action == "remove_tag" && tagIds != [] {
        DeleteTagsIdempotent(t.subscriberTags, chunkIds, tagIds);
      } else if action == "add_list" && listIds != [] {
        InsertIgnoreSegmentsIdempotent(t.subscriberSegments, SegmentRows(chunkIds, listIds));
      } else if action == "remove_list" && listIds != [] {
        DeleteSegmentsIdempotent(t.subscriberSegments, chunkIds, listIds);
      } else if action == "unsubscribe" {
        SetStatusIdempotent(t.subscribers, chunkIds, "unsubscribed");
      }
    }
  }

  /** Every action keeps the tables' unique keys. */
  lemma ExecutePreservesValid(t: Tables, action: string, chunkIds: seq<int>, tagIds: seq<int>, listIds: seq<int>)
    requires Valid(t)
    ensures Valid(ExecuteEffect(t, action, chunkIds, tagIds, listIds))
  {
    if chunkIds != [] {
      if action == "add_tag" && tagIds != [] {
        InsertIgnoreTagsEffect(t.subscriberTags, TagRows(chunkIds, tagIds));
      } else if action == "remove_tag" && tagIds != [] {
        DeleteTagsEffect(t.subscriberTags, chunkIds, tagIds);
      } else if action == "add_list" && listIds != [] {
        InsertIgnoreSegmentsUnique(t.subscriberSegments, SegmentRows(chunkIds, listIds));
      } else if action == "remove_list" && listIds != [] {
        DeleteSegmentsUnique(t.subscriberSegments, chunkIds, listIds);
      } else if action == "unsubscribe" {
        var after := SetStatus(t.subscribers, chunkIds, "unsubscribed");
        assert forall i :: 0 <= i < |after| ==> after[i].id == t.subscribers[i].id;
      }
    }
  }

  // ---------------------------------------------------------------- export_csv

  const Header: seq<string> := ["email", "first_name", "last_name", "status", "npa", "tags", "lists", "created_at"]

  const BatchSize: nat := 500

  /** array_chunk: consecutive pieces of `size` ids, the last one possibly shorter. */
  function Batches(ids: seq<int>, size: nat): (bs: seq<seq<int>>)
    requires size > 0
    ensures forall b :: b in bs ==> 0 < |b| <= size
    decreases |ids|
  {
    if ids == [] then [] else [ids[..Min(size, |ids|)]] + Batches(ids[Min(size, |ids|)..], size)
  }

  /** The batches put back together are the id list. */
  lemma {:induction false} BatchesFlatten(ids: seq<int>, size: nat)
    requires size > 0
    ensures Flatten(Batches(ids, size)) == ids
    decreases |ids|
  {
    if ids != [] {
      var k := Min(size, |ids|);
      BatchesFlatten(ids[k..], size);
      assert ids[..k] + ids[k..] == ids;
    }
  }

  /** There are ⌈n / size⌉ batches: the fewest pieces of `size` that hold all n ids. */
  lemma {:induction false} BatchesCount(ids: seq<int>, size: nat)
    requires size > 0
    ensures |Batches(ids, size)| * size >= |ids|
    ensures (|Batches(ids, size)| - 1) * size < |ids| || ids == []
    decreases |ids|
  {
    if ids != [] {
      var k := Min(size, |ids|);
      BatchesCount(ids[k..], size);
      var m := |Batches(ids[k..], size)|;
      assert |Batches(ids, size)| == m + 1;
      if |ids| > size {
        CountStep(|ids|, size, m);
      } else {
        assert ids[k..] == [];
      }
    }
  }

  lemma CountStep(n: int, size: int, m: int)
    requires size > 0 && n > size
    requires m * size >= n - size && (m - 1) * size < n - size
    ensures (m + 1) * size >= n && m * size < n
  {
    assert (m + 1) * size == m * size + size;
    assert (m - 1) * size == m * size - size;
  }

  /** An id is in some batch iff it is in the list. */
  lemma {:induction false} BatchesCover(ids: seq<int>, size: nat, x: int)
    requires size > 0
    ensures (exists b :: b in Batches(ids, size) && x in b) <==> x in ids
    decreases |ids|
  {
    if ids != [] {
      var k := Min(size, |ids|);
      BatchesCover(ids[k..], size, x);
      assert ids == ids[..k] + ids[k..];
      var bs := Batches(ids, size);
      assert bs == [ids[..k]] + Batches(ids[k..], size);
      if x in ids[..k] { assert ids[..k] in bs; }
      if exists b :: b in Batches(ids[k..], size) && x in b {
        var b :| b in Batches(ids[k..], size) && x in b;
        assert b in bs;
      }
    }
  }

  /** The batch's SELECT: the subscribers whose id is in the batch, in table order, with their NPA value. */
  function RowsIn(t: Tables, field: Option<int>, subs: seq<Subscriber>, batch: seq<int>): seq<Queries.Row>
  {
    if subs == [] then []
    else (if subs[0].id in batch then [Queries.RowOf(t, field, subs[0])] else []) + RowsIn(t, field, subs[1..], batch)
  }

  lemma {:induction false} RowsInMembers(t: Tables, field: Option<int>, subs: seq<Subscriber>, batch: seq<int>, r: Queries.Row)
    ensures r in RowsIn(t, field, subs, batch) <==>
            exists s :: s in subs && s.id in batch && r == Queries.RowOf(t, field, s)
  {
    if subs != [] {
      RowsInMembers(t, field, subs[1..], batch, r);
      if exists s :: s in subs && s.id in batch && r == Queries.RowOf(t, field, s) {
        var s :| s in subs && s.id in batch && r == Queries.RowOf(t, field, s);
        if s != subs[0] { assert s in subs[1..]; }
      }
    }
  }

  /** The rows of all batches, batch after batch. */
  function ExportRows(t: Tables, field: Option<int>, bs: seq<seq<int>>): seq<Queries.Row>
  {
    if bs == [] then []
    else ExportRows(t, field, bs[..|bs| - 1]) + RowsIn(t, field, t.subscribers, bs[|bs| - 1])
  }

  lemma {:induction false} ExportRowsMembers(t: Tables, field: Option<int>, bs: seq<seq<int>>, r: Queries.Row)
    ensures r in ExportRows(t, field, bs) <==>
            exists s :: s in t.subscribers && r == Queries.RowOf(t, field, s) && exists b :: b in bs && s.id in b
  {
    if bs != [] {
      var front := bs[..|bs| - 1];
      var last := bs[|bs| - 1];
      ExportRowsMembers(t, field, front, r);
      RowsInMembers(t, field, t.subscribers, last, r);
      assert bs == front + [last];
      if exists s :: s in t.subscribers && r == Queries.RowOf(t, field, s) && exists b :: b in bs && s.id in b {
        var s :| s in t.subscribers && r == Queries.RowOf(t, field, s) && exists b :: b in bs && s.id in b;
        var b :| b in bs && s.id in b;
        if b != last { assert b in front; }
      }
    }
  }

  /** The export writes a row for a stored subscriber iff its id is among all the ids (not just the chunk's). */
  lemma ExportCoversIds(t: Tables, ids: seq<int>, s: Subscriber)
    requires s in t.subscribers
    ensures var field := Queries.DetectNpaFieldId(t.customFields);
            Queries.RowOf(t, field, s) in ExportRows(t, field, Batches(ids, BatchSize)) <==> s.id in ids
  {
    var field := Queries.DetectNpaFieldId(t.customFields);
    var bs := Batches(ids, BatchSize);
    ExportRowsMembers(t, field, bs, Queries.RowOf(t, field, s));
    BatchesCover(ids, BatchSize, s.id);
  }

  /** Every exported row is a stored subscriber whose id was requested. */
  lemma ExportSound(t: Tables, ids: seq<int>, r: Queries.Row)
    requires r in ExportRows(t, Queries.DetectNpaFieldId(t.customFields), Batches(ids, BatchSize))
    ensures r.sub in t.subscribers && r.sub.id in ids
    ensures r == Queries.RowOf(t, Queries.DetectNpaFieldId(t.customFields), r.sub)
  {
    var field := Queries.DetectNpaFieldId(t.customFields);
    ExportRowsMembers(t, field, Batches(ids, BatchSize), r);
    var s :| s in t.subscribers && r == Queries.RowOf(t, field, s) && exists b :: b in Batches(ids, BatchSize) && s.id in b;
    BatchesCover(ids, BatchSize, s.id);
  }

  function Names(entries: seq<Named>): (r: seq<string>)
    ensures |r| == |entries|
    ensures forall i :: 0 <= i < |entries| ==> r[i] == entries[i].name
  {
    seq(|entries|, i requires 0 <= i < |entries| => entries[i].name)
  }

  /** One CSV line: the item's columns in header order, a missing NPA as "" and names joined by ", ". */
  function CsvLine(item: Queries.Item): (line: seq<string>)
    ensures |line| == |Header|
  {
    [item.email, item.firstName, item.lastName, item.status,
     if item.npa.Some? then item.npa.value else "",
     Join(", ", Names(item.tags)), Join(", ", Names(item.lists)),
     item.createdAt]
  }

  function LinesOf(t: Tables, rows: seq<Queries.Row>): (lines: seq<seq<string>>)
    ensures |lines| == |rows|
    ensures forall i :: 0 <= i < |rows| ==> lines[i] == CsvLine(Queries.ItemOf(t, rows[i]))
  {
    seq(|rows|, i requires 0 <= i < |rows| => CsvLine(Queries.ItemOf(t, rows[i])))
  }

  /** The content of the export file: the header, then one line per exported row. */
  function ExportFile(t: Tables, ids: seq<int>): seq<seq<string>>
  {
    [Header] + LinesOf(t, ExportRows(t, Queries.DetectNpaFieldId(t.customFields), Batches(ids, BatchSize)))
  }

  /** One batch: the SELECT, the tag and list queries grouped by subscriber, then one line per row. */
  method ExportBatch(t: Tables, field: Option<int>, batch: seq<int>) returns (lines: seq<seq<string>>)
    ensures lines == LinesOf(t, RowsIn(t, field, t.subscribers, batch))
  {
    var rows := RowsIn(t, field, t.subscribers, batch);
    if rows == [] {
      return [];
    }
    var ids := set r | r in rows :: r.sub.id;
    var tagPairs := Queries.TagLinkPairs(t.subscriberTags);
    var listPairs := Queries.SegmentLinkPairs(t.subscriberSegments);
    var tagsMap := Queries.GroupBySubscriber(Queries.JoinRows(tagPairs, t.tags, ids));
    var listsMap := Queries.GroupBySubscriber(Queries.JoinRows(listPairs, t.segments, ids));
    lines := [];
    var i := 0;
    while i < |rows|
      invariant 0 <= i <= |rows|
      invariant lines == LinesOf(t, rows[..i])
    {
      var row := rows[i];
      var sid := row.sub.id;
      Queries.GroupOfJoin(tagPairs, t.tags, ids, sid);
      Queries.GroupOfJoin(listPairs, t.segments, ids, sid);
      var item := Queries.Item(sid, row.sub.email, row.sub.firstName, row.sub.lastName, row.sub.status,
                               row.sub.createdAt, row.npa,
                               Queries.GetOrEmpty(tagsMap, sid), Queries.GetOrEmpty(listsMap, sid));
      assert item == Queries.ItemOf(t, row);
      lines := lines + [CsvLine(item)];
      LinesNext(t, rows, i);
      i := i + 1;
    }
    assert rows[..i] == rows;
  }

  lemma LinesNext(t: Tables, rows: seq<Queries.Row>, i: nat)
    requires i < |rows|
    ensures LinesOf(t, rows[..i + 1]) == LinesOf(t, rows[..i]) + [CsvLine(Queries.ItemOf(t, rows[i]))]
  {
    var a := LinesOf(t, rows[..i + 1]);
    var b := LinesOf(t, rows[..i]) + [CsvLine(Queries.ItemOf(t, rows[i]))];
    assert |a| == |b|;
    forall j | 0 <= j < |a| ensures a[j] == b[j] {
      if j < i {
        assert rows[..i + 1][j] == rows[..i][j];
      }
    }
  }

  /** The rows of the first k + 1 batches are those of the first k, then those of batch k. */
  lemma ExportRowsNext(t: Tables, field: Option<int>, batches: seq<seq<int>>, k: nat)
    requires k < |batches|
    ensures LinesOf(t, ExportRows(t, field, batches[..k + 1])) ==
            LinesOf(t, ExportRows(t, field, batches[..k])) + LinesOf(t, RowsIn(t, field, t.subscribers, batches[k]))
  {
    var done := ExportRows(t, field, batches[..k]);
    var next := RowsIn(t, field, t.subscribers, batches[k]);
    assert batches[..k + 1][..k] == batches[..k];
    assert ExportRows(t, field, batches[..k + 1]) == done + next;
    assert LinesOf(t, done + next) == LinesOf(t, done) + LinesOf(t, next);
  }

  /** Appending the lines of batch k to the file written so far gives the file of the first k + 1 batches. */
  lemma ExportLinesNext(t: Tables, field: Option<int>, batches: seq<seq<int>>, k: nat, lines: seq<seq<string>>, more: seq<seq<string>>)
    requires k < |batches|
    requires lines == [Header] + LinesOf(t, ExportRows(t, field, batches[..k]))
    requires more == LinesOf(t, RowsIn(t, field, t.subscribers, batches[k]))
    ensures lines + more == [Header] + LinesOf(t, ExportRows(t, field, batches[..k + 1]))
  {
    ExportRowsNext(t, field, batches, k);
    AppendAssoc([Header], LinesOf(t, ExportRows(t, field, batches[..k])), more);
  }

  /** The header, then the batches one after the other. */
  method WriteBatches(t: Tables, field: Option<int>, batches: seq<seq<int>>) returns (lines: seq<seq<string>>)
    ensures lines == [Header] + LinesOf(t, ExportRows(t, field, batches))
  {
    lines := [Header];
    var k := 0;
    while k < |batches|
      invariant 0 <= k <= |batches|
      invariant lines == [Header] + LinesOf(t, ExportRows(t, field, batches[..k]))
    {
      var more := ExportBatch(t, field, batches[k]);
      ExportLinesNext(t, field, batches, k, lines, more);
      lines := lines + more;
      k := k + 1;
    }
    assert batches[..k] == batches;
  }

  /**
   * export_csv: a no-op after the first chunk; on the first chunk, the header and every batch of
   * all the ids, written to a file that either opens or fails the action.
   */
  method ExportCsv(t: Tables, allIds: seq<int>, offset: nat, env: ExportEnv) returns (o: Outcome, lines: seq<seq<string>>)
    ensures offset > 0 ==> o == Ok && lines == []
    ensures offset == 0 && !env.canOpen ==> o == NotOk(CannotOpen) && lines == []
    ensures offset == 0 && env.canOpen ==> o == OkWithUrl(env.downloadUrl) && lines == ExportFile(t, allIds)
  {
    if offset > 0 {
      return Ok, [];
    }
    if !env.canOpen {
      return NotOk(CannotOpen), [];
    }
    lines := WriteBatches(t, Queries.DetectNpaFieldId(t.customFields), Batches(allIds, BatchSize));
    return OkWithUrl(env.downloadUrl), lines;
  }
}
