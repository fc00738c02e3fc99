/**
 * The MailPoet tables the plugin reads and writes, as row sequences in storage order, and the
 * database handle ($wpdb) whose statements change them. Uniqueness of the table keys lives in
 * MailPoet's schema; here it is the predicate Valid.
 */
module Store {
  import opened Common

  datatype Subscriber = Subscriber(id: int, email: string, firstName: string, lastName: string,
                                   status: string, createdAt: string)

  /** A row of the tags or segments (lists) catalogue. */
  datatype Named = Named(id: int, name: string)

  datatype CustomField = CustomField(id: int, name: string, fieldType: string)

  /** A row of subscriber_custom_field. */
  datatype FieldValue = FieldValue(subscriberId: int, customFieldId: int, value: string)

  /** A row of subscriber_tag (its created_at timestamp is not modelled). */
  datatype TagLink = TagLink(subscriberId: int, tagId: int)

  /** A row of subscriber_segment (its timestamps are not modelled). */
  datatype SegmentLink = SegmentLink(subscriberId: int, segmentId: int, status: string)

  datatype Tables = Tables(
    subscribers: seq<Subscriber>,
    customFields: seq<CustomField>,
    fieldValues: seq<FieldValue>,
    tags: seq<Named>,
    subscriberTags: seq<TagLink>,
    segments: seq<Named>,
    subscriberSegments: seq<SegmentLink>)

  // ---------------------------------------------------------------- unique keys

  predicate UniqueSubscriberIds(s: seq<Subscriber>)
  {
    forall i, j :: 0 <= i < j < |s| ==> s[i].id != s[j].id
  }

  predicate UniqueNamedIds(s: seq<Named>)
  {
    forall i, j :: 0 <= i < j < |s| ==> s[i].id != s[j].id
  }

  predicate UniqueValueKeys(s: seq<FieldValue>)
  {
    forall i, j :: 0 <= i < j < |s| ==>
      s[i].subscriberId != s[j].subscriberId || s[i].customFieldId != s[j].customFieldId
  }

  predicate UniqueSegmentKeys(s: seq<SegmentLink>)
  {
    forall i, j :: 0 <= i < j < |s| ==>
      s[i].subscriberId != s[j].subscriberId || s[i].segmentId != s[j].segmentId
  }

  /** The primary and unique keys of MailPoet's tables. */
  predicate Valid(t: Tables)
  {
    && UniqueSubscriberIds(t.subscribers)
    && UniqueNamedIds(t.tags)
    && UniqueNamedIds(t.segments)
    && UniqueValueKeys(t.fieldValues)
    && NoDuplicates(t.subscriberTags)
    && UniqueSegmentKeys(t.subscriberSegments)
  }

  // ---------------------------------------------------------------- lookups and views

  function SubscriberById(s: seq<Subscriber>, id: int): (r: Option<Subscriber>)
    ensures r.Some? <==> exists i :: 0 <= i < |s| && s[i].id == id
    ensures r.Some? ==> r.value in s && r.value.id == id
  {
    if s == [] then None else if s[0].id == id then Some(s[0]) else SubscriberById(s[1..], id)
  }

  function IdsOf(s: seq<Subscriber>): set<int>
  {
    set x | x in s :: x.id
  }

  /** The name of the catalogue row with this id (the inner JOIN on the tags or segments table). */
  function NameOf(catalogue: seq<Named>, id: int): (r: Option<string>)
    ensures r.Some? <==> exists i :: 0 <= i < |catalogue| && catalogue[i].id == id
    ensures r.Some? ==> Named(id, r.value) in catalogue
  {
    if catalogue == [] then None
    else if catalogue[0].id == id then Some(catalogue[0].name)
    else NameOf(catalogue[1..], id)
  }

  /** The stored value of one custom field for one subscriber (the LEFT JOIN on subscriber_custom_field). */
  function ValueOf(values: seq<FieldValue>, subscriberId: int, fieldId: int): (r: Option<string>)
    ensures r.Some? ==> FieldValue(subscriberId, fieldId, r.value) in values
    ensures r.None? ==> forall v :: v in values ==> v.subscriberId != subscriberId || v.customFieldId != fieldId
  {
    if values == [] then None
    else if values[0].subscriberId == subscriberId && values[0].customFieldId == fieldId then Some(values[0].value)
    else ValueOf(values[1..], subscriberId, fieldId)
  }

  function TagPairs(links: seq<TagLink>): set<(int, int)>
  {
    set l | l in links :: (l.subscriberId, l.tagId)
  }

  predicate HasSegmentKey(links: seq<SegmentLink>, subscriberId: int, segmentId: int)
  {
    exists l :: l in links && l.subscriberId == subscriberId && l.segmentId == segmentId
  }

  /** The membership status of (subscriber, segment), or None when there is no membership row. */
  function SegmentStatus(links: seq<SegmentLink>, subscriberId: int, segmentId: int): (r: Option<string>)
    ensures r.Some? <==> HasSegmentKey(links, subscriberId, segmentId)
    ensures r.Some? ==> SegmentLink(subscriberId, segmentId, r.value) in links
  {
    if links == [] then None
    else if links[0].subscriberId == subscriberId && links[0].segmentId == segmentId then Some(links[0].status)
    else SegmentStatus(links[1..], subscriberId, segmentId)
  }

  // ---------------------------------------------------------------- statements

  /** INSERT IGNORE INTO subscriber_tag: each row is appended unless an equal row is already there. */
  function InsertIgnoreTags(existing: seq<TagLink>, rows: seq<TagLink>): seq<TagLink>
    decreases |rows|
  {
    if rows == [] then existing
    else InsertIgnoreTags(if rows[0] in existing then existing else existing + [rows[0]], rows[1..])
  }

  /** DELETE FROM subscriber_tag WHERE subscriber_id IN (sids) AND tag_id IN (tids). */
  function DeleteTags(existing: seq<TagLink>, sids: seq<int>, tids: seq<int>): seq<TagLink>
  {
    if existing == [] then []
    else
      var rest := DeleteTags(existing[1..], sids, tids);
      if existing[0].subscriberId in sids && existing[0].tagId in tids then rest else [existing[0]] + rest
  }

  /** INSERT IGNORE INTO subscriber_segment, keyed on (subscriber_id, segment_id). */
  function InsertIgnoreSegments(existing: seq<SegmentLink>, rows: seq<SegmentLink>): seq<SegmentLink>
    decreases |rows|
  {
    if rows == [] then existing
    else
      var keep := HasSegmentKey(existing, rows[0].subscriberId, rows[0].segmentId);
      InsertIgnoreSegments(if keep then existing else existing + [rows[0]], rows[1..])
  }

  /** DELETE FROM subscriber_segment WHERE subscriber_id IN (sids) AND segment_id IN (lids). */
  function DeleteSegments(existing: seq<SegmentLink>, sids: seq<int>, lids: seq<int>): seq<SegmentLink>
  {
    if existing == [] then []
    else
      var rest := DeleteSegments(existing[1..], sids, lids);
      if existing[0].subscriberId in sids && existing[0].segmentId in lids then rest else [existing[0]] + rest
  }

  /** UPDATE subscribers SET status = value WHERE id IN (ids). */
  function SetStatus(subscribers: seq<Subscriber>, ids: seq<int>, value: string): (r: seq<Subscriber>)
    ensures |r| == |subscribers|
    ensures forall i :: 0 <= i < |r| ==>
      r[i] == if subscribers[i].id in ids then subscribers[i].(status := value) else subscribers[i]
  {
    if subscribers == [] then []
    else
      [if subscribers[0].id in ids then subscribers[0].(status := value) else subscribers[0]]
      + SetStatus(subscribers[1..], ids, value)
  }

  // ---------------------------------------------------------------- what the statements do

  /** INSERT IGNORE keeps every existing row in place and adds exactly the new pairs, each once. */
  lemma {:induction false} InsertIgnoreTagsEffect(existing: seq<TagLink>, rows: seq<TagLink>)
    ensures existing <= InsertIgnoreTags(existing, rows)
    ensures TagPairs(InsertIgnoreTags(existing, rows)) == TagPairs(existing) + TagPairs(rows)
    ensures NoDuplicates(existing) ==> NoDuplicates(InsertIgnoreTags(existing, rows))
    decreases |rows|
  {
    if rows != [] {
      var next := if rows[0] in existing then existing else existing + [rows[0]];
      InsertIgnoreTagsEffect(next, rows[1..]);
      assert rows == [rows[0]] + rows[1..];
      assert TagPairs(rows) == TagPairs([rows[0]]) + TagPairs(rows[1..]);
      if rows[0] !in existing {
        assert TagPairs(next) == TagPairs(existing) + TagPairs([rows[0]]);
      }
    }
  }

  /** Re-inserting rows that are all present changes nothing. */
  lemma {:induction false} InsertIgnoreTagsPresent(existing: seq<TagLink>, rows: seq<TagLink>)
    requires forall r :: r in rows ==> r in existing
    ensures InsertIgnoreTags(existing, rows) == existing
    decreases |rows|
  {
    if rows != [] { InsertIgnoreTagsPresent(existing, rows[1..]); }
  }

  /** Every row inserted by INSERT IGNORE is in the result. */
  lemma {:induction false} InsertIgnoreTagsContains(existing: seq<TagLink>, rows: seq<TagLink>)
    ensures forall r :: r in rows ==> r in InsertIgnoreTags(existing, rows)
    ensures forall r :: r in existing ==> r in InsertIgnoreTags(existing, rows)
    decreases |rows|
  {
    if rows != [] {
      var next := if rows[0] in existing then existing else existing + [rows[0]];
      InsertIgnoreTagsContains(next, rows[1..]);
    }
  }

  lemma {:induction false} DeleteTagsEffect(existing: seq<TagLink>, sids: seq<int>, tids: seq<int>)
    ensures forall l :: l in DeleteTags(existing, sids, tids) <==>
                        l in existing && !(l.subscriberId in sids && l.tagId in tids)
    ensures NoDuplicates(existing) ==> NoDuplicates(DeleteTags(existing, sids, tids))
  {
    if existing != [] {
      DeleteTagsEffect(existing[1..], sids, tids);
      var rest := DeleteTags(existing[1..], sids, tids);
      if NoDuplicates(existing) && !(existing[0].subscriberId in sids && existing[0].tagId in tids) {
        assert existing[0] !in existing[1..];
        assert existing[0] !in rest;
        var r := [existing[0]] + rest;
        forall i, j | 0 <= i < j < |r| ensures r[i] != r[j] {
          if i > 0 { assert r[i] == rest[i - 1] && r[j] == rest[j - 1]; }
          else { assert r[j] in rest; }
        }
      }
    }
  }

  /** Keyed INSERT IGNORE: an existing membership keeps its status; a missing one takes the row's status. */
  lemma {:induction false} InsertIgnoreSegmentsEffect(existing: seq<SegmentLink>, rows: seq<SegmentLink>, sid: int, lid: int)
    ensures existing <= InsertIgnoreSegments(existing, rows)
    ensures SegmentStatus(existing, sid, lid).Some? ==>
              SegmentStatus(InsertIgnoreSegments(existing, rows), sid, lid) == SegmentStatus(existing, sid, lid)
    ensures SegmentStatus(existing, sid, lid).None? ==>
              SegmentStatus(InsertIgnoreSegments(existing, rows), sid, lid) == SegmentStatus(rows, sid, lid)
    decreases |rows|
  {
    if rows != [] {
      var keep := HasSegmentKey(existing, rows[0].subscriberId, rows[0].segmentId);
      var next := if keep then existing else existing + [rows[0]];
      InsertIgnoreSegmentsEffect(next, rows[1..], sid, lid);
      if SegmentStatus(existing, sid, lid).Some? { StatusPrefix(existing, next, sid, lid); }
      if !keep {
        if SegmentStatus(existing, sid, lid).None? {
          StatusAppend(existing, rows[0], sid, lid);
        }
      } else if SegmentStatus(existing, sid, lid).None? && rows[0].subscriberId == sid && rows[0].segmentId == lid {
        assert false;
      }
    }
  }

  /** Keyed INSERT IGNORE never duplicates a (subscriber, segment) key. */
  lemma {:induction false} InsertIgnoreSegmentsUnique(existing: seq<SegmentLink>, rows: seq<SegmentLink>)
    requires UniqueSegmentKeys(existing)
    ensures UniqueSegmentKeys(InsertIgnoreSegments(existing, rows))
    decreases |rows|
  {
    if rows != [] {
      var keep := HasSegmentKey(existing, rows[0].subscriberId, rows[0].segmentId);
      var next := if keep then existing else existing + [rows[0]];
      if !keep {
        forall i, j | 0 <= i < j < |next|
          ensures next[i].subscriberId != next[j].subscriberId || next[i].segmentId != next[j].segmentId
        {
          if j == |existing| { assert next[i] in existing; }
        }
      }
      InsertIgnoreSegmentsUnique(next, rows[1..]);
    }
  }

  lemma {:induction false} StatusPrefix(a: seq<SegmentLink>, b: seq<SegmentLink>, sid: int, lid: int)
    requires a <= b
    requires SegmentStatus(a, sid, lid).Some?
    ensures SegmentStatus(b, sid, lid) == SegmentStatus(a, sid, lid)
  {
    if !(a[0].subscriberId == sid && a[0].segmentId == lid) {
      StatusPrefix(a[1..], b[1..], sid, lid);
    }
  }

  lemma {:induction false} StatusAppend(a: seq<SegmentLink>, l: SegmentLink, sid: int, lid: int)
    requires SegmentStatus(a, sid, lid).None?
    ensures SegmentStatus(a + [l], sid, lid) == SegmentStatus([l], sid, lid)
  {
    if a != [] {
      assert (a + [l])[1..] == a[1..] + [l];
      StatusAppend(a[1..], l, sid, lid);
    }
  }

  lemma {:induction false} DeleteSegmentsEffect(existing: seq<SegmentLink>, sids: seq<int>, lids: seq<int>, sid: int, lid: int)
    ensures SegmentStatus(DeleteSegments(existing, sids, lids), sid, lid) ==
            if sid in sids && lid in lids then None else SegmentStatus(existing, sid, lid)
    ensures forall l :: l in DeleteSegments(existing, sids, lids) ==> l in existing
  {
    if existing != [] {
      DeleteSegmentsEffect(existing[1..], sids, lids, sid, lid);
    }
  }

  lemma {:induction false} DeleteSegmentsUnique(existing: seq<SegmentLink>, sids: seq<int>, lids: seq<int>)
    requires UniqueSegmentKeys(existing)
    ensures UniqueSegmentKeys(DeleteSegments(existing, sids, lids))
  {
    if existing != [] {
      DeleteSegmentsUnique(existing[1..], sids, lids);
      var rest := DeleteSegments(existing[1..], sids, lids);
      DeleteSegmentsEffect(existing[1..], sids, lids, 0, 0);
      var r := [existing[0]] + rest;
      forall i, j | 0 <= i < j < |r|
        ensures r[i].subscriberId != r[j].subscriberId || r[i].segmentId != r[j].segmentId
      {
        if i == 0 {
          assert r[j] in existing[1..];
          var k :| 0 <= k < |existing[1..]| && existing[1..][k] == r[j];
          assert existing[k + 1] == r[j];
        } else {
          assert r[i] == rest[i - 1] && r[j] == rest[j - 1];
        }
      }
    }
  }

  // ---------------------------------------------------------------- the database handle

  /** $wpdb: the connection whose tables the bulk actions change in place. */
  class Database {
    var tables: Tables

    constructor (initial: Tables)
      ensures tables == initial
    {
      tables := initial;
    }

    method InsertIgnoreTagLinks(rows: seq<TagLink>)
      modifies this
      ensures tables == old(tables).(subscriberTags := InsertIgnoreTags(old(tables).subscriberTags, rows))
    {
      tables := tables.(subscriberTags := InsertIgnoreTags(tables.subscriberTags, rows));
    }

    method DeleteTagLinks(sids: seq<int>, tids: seq<int>)
      modifies this
      ensures tables == old(tables).(subscriberTags := DeleteTags(old(tables).subscriberTags, sids, tids))
    {
      tables := tables.(subscriberTags := DeleteTags(tables.subscriberTags, sids, tids));
    }

    method InsertIgnoreSegmentLinks(rows: seq<SegmentLink>)
      modifies this
      ensures tables == old(tables).(subscriberSegments := InsertIgnoreSegments(old(tables).subscriberSegments, rows))
    {
      tables := tables.(subscriberSegments := InsertIgnoreSegments(tables.subscriberSegments, rows));
    }

    method DeleteSegmentLinks(sids: seq<int>, lids: seq<int>)
      modifies this
      ensures tables == old(tables).(subscriberSegments := DeleteSegments(old(tables).subscriberSegments, sids, lids))
    {
      tables := tables.(subscriberSegments := DeleteSegments(tables.subscriberSegments, sids, lids));
    }

    method UpdateStatus(ids: seq<int>, value: string)
      modifies this
      ensures tables == old(tables).(subscribers := SetStatus(old(tables).subscribers, ids, value))
    {
      tables := tables.(subscribers := SetStatus(tables.subscribers, ids, value));
    }
  }
}
