/**
 * The client's API wrappers (src/api.js). fetchSubscribers turns the filters into a query string
 * through URLSearchParams; executeBulk posts the bulk body chunk by chunk until the server reports
 * nothing remaining or a request fails. The server it talks to is the Rest model, so the loop's
 * behaviour is proved against what post_bulk answers.
 */
module Api {
  import opened Common
  import opened Helpers
  import opened Filters
  import Store
  import Queries
  import Bulk
  import Rest

  // ---------------------------------------------------------------- URLSearchParams

  /** The name/value pairs of a URLSearchParams, in order. */
  type Entries = seq<(string, string)>

  /** URLSearchParams.get: the first value stored under `k`. */
  function Get(es: Entries, k: string): Option<string>
  {
    if es == [] then None else if es[0].0 == k then Some(es[0].1) else Get(es[1..], k)
  }

  /** URLSearchParams.getAll: every value stored under `k`, in order. */
  function GetAll(es: Entries, k: string): seq<string>
  {
    if es == [] then [] else (if es[0].0 == k then [es[0].1] else []) + GetAll(es[1..], k)
  }

  function KeysOf(es: Entries): set<string>
  {
    if es == [] then {} else {es[0].0} + KeysOf(es[1..])
  }

  /** The entries without any under `k`. */
  function RemoveKey(es: Entries, k: string): (r: Entries)
    ensures k !in KeysOf(r)
    ensures KeysOf(r) <= KeysOf(es)
  {
    if es == [] then []
    else
      var rest := RemoveKey(es[1..], k);
      if es[0].0 == k then rest
      else
        assert ([es[0]] + rest)[1..] == rest;
        [es[0]] + rest
  }

  /** The first entry under `k` takes the value `v`; the later ones are removed. */
  function ReplaceFirst(es: Entries, k: string, v: string): Entries
  {
    if es == [] then []
    else if es[0].0 == k then [(k, v)] + RemoveKey(es[1..], k)
    else [es[0]] + ReplaceFirst(es[1..], k, v)
  }

  /** URLSearchParams.set: replace the values under an existing key in place, or append a new key. */
  function SetEntry(es: Entries, k: string, v: string): Entries
  {
    if k in KeysOf(es) then ReplaceFirst(es, k, v) else es + [(k, v)]
  }

  lemma GetConcat(a: Entries, b: Entries, k: string)
    ensures Get(a + b, k) == if Get(a, k).Some? then Get(a, k) else Get(b, k)
    ensures GetAll(a + b, k) == GetAll(a, k) + GetAll(b, k)
  {
    GetFirstConcat(a, b, k);
    GetAllConcat(a, b, k);
  }

  lemma {:induction false} GetFirstConcat(a: Entries, b: Entries, k: string)
    ensures Get(a + b, k) == if Get(a, k).Some? then Get(a, k) else Get(b, k)
  {
    if a == [] {
      assert a + b == b;
    } else {
      assert (a + b)[1..] == a[1..] + b;
      GetFirstConcat(a[1..], b, k);
    }
  }

  lemma {:induction false} GetAllConcat(a: Entries, b: Entries, k: string)
    ensures GetAll(a + b, k) == GetAll(a, k) + GetAll(b, k)
  {
    if a == [] {
      assert a + b == b;
    } else {
      assert (a + b)[1..] == a[1..] + b;
      GetAllConcat(a[1..], b, k);
      AppendAssoc(if a[0].0 == k then [a[0].1] else [], GetAll(a[1..], k), GetAll(b, k));
    }
  }

  lemma {:induction false} GetRemoveKey(es: Entries, k: string, k2: string)
    ensures Get(RemoveKey(es, k), k2) == if k2 == k then None else Get(es, k2)
    ensures GetAll(RemoveKey(es, k), k2) == if k2 == k then [] else GetAll(es, k2)
  {
    if es != [] {
      GetRemoveKey(es[1..], k, k2);
      GetConcat(if es[0].0 == k then [] else [es[0]], RemoveKey(es[1..], k), k2);
    }
  }

  lemma {:induction false} GetReplaceFirst(es: Entries, k: string, v: string, k2: string)
    requires k in KeysOf(es)
    ensures Get(ReplaceFirst(es, k, v), k2) == if k2 == k then Some(v) else Get(es, k2)
    ensures GetAll(ReplaceFirst(es, k, v), k2) == if k2 == k then [v] else GetAll(es, k2)
  {
    if es[0].0 == k {
      GetRemoveKey(es[1..], k, k2);
      GetConcat([(k, v)], RemoveKey(es[1..], k), k2);
    } else {
      GetReplaceFirst(es[1..], k, v, k2);
      GetConcat([es[0]], ReplaceFirst(es[1..], k, v), k2);
    }
  }

  /** After set(k, v), get(k) is v and getAll(k) is [v]; every other key reads as before. */
  lemma SetEntryGet(es: Entries, k: string, v: string, k2: string)
    ensures Get(SetEntry(es, k, v), k2) == if k2 == k then Some(v) else Get(es, k2)
    ensures GetAll(SetEntry(es, k, v), k2) == if k2 == k then [v] else GetAll(es, k2)
  {
    if k in KeysOf(es) {
      GetReplaceFirst(es, k, v, k2);
    } else {
      GetConcat(es, [(k, v)], k2);
      GetAbsent(es, k);
    }
  }

  lemma {:induction false} GetAbsent(es: Entries, k: string)
    requires k !in KeysOf(es)
    ensures Get(es, k).None? && GetAll(es, k) == []
  {
    if es != [] {
      GetAbsent(es[1..], k);
    }
  }

  lemma {:induction false} KeysOfConcat(a: Entries, b: Entries)
    ensures KeysOf(a + b) == KeysOf(a) + KeysOf(b)
  {
    if a == [] {
      assert a + b == b;
    } else {
      assert (a + b)[1..] == a[1..] + b;
      KeysOfConcat(a[1..], b);
    }
  }

  class SearchParams {
    var entries: Entries

    constructor ()
      ensures entries == []
    {
      entries := [];
    }

    method Set(k: string, v: string)
      modifies this
      ensures entries == SetEntry(old(entries), k, v)
    {
      entries := SetEntry(entries, k, v);
    }

    method Append(k: string, v: string)
      modifies this
      ensures entries == old(entries) + [(k, v)]
    {
      entries := entries + [(k, v)];
    }
  }

  // ---------------------------------------------------------------- fetchSubscribers

  /** One `if (value) query.set(key, value)`: the pair when the value is truthy, nothing otherwise. */
  function Scalar(k: string, truthy: bool, v: string): (r: Entries)
    ensures KeysOf(r) <= {k}
  {
    if truthy then [(k, v)] else []
  }

  /** The appended `key=String(x)` pairs for a list of ids. */
  function Values(k: string, xs: seq<int>): (r: Entries)
    ensures |r| == |xs|
    ensures forall i :: 0 <= i < |xs| ==> r[i] == (k, IntToString(xs[i]))
  {
    seq(|xs|, i requires 0 <= i < |xs| => (k, IntToString(xs[i])))
  }

  /** A non-empty id list is sent as repeated `key[]` pairs followed by its mode, when the mode is set. */
  function Membership(key: string, xs: seq<int>, modeKey: string, mode: string): Entries
  {
    if xs == [] then [] else Values(key, xs) + Scalar(modeKey, mode != "", mode)
  }

  /** The listing parameters: page, per_page, search, status, sort and order, each when truthy. */
  function ListingEntries(f: Filters): Entries
  {
    Scalar("page", f.page != 0, IntToString(f.page)) +
    Scalar("per_page", f.perPage != 0, IntToString(f.perPage)) +
    Scalar("search", f.search != "", f.search) +
    Scalar("status", f.status != "", f.status) +
    Scalar("sort", f.sort != "", f.sort) +
    Scalar("order", f.order != "", f.order)
  }

  /** The NPA parameters, each when non-empty. */
  function NpaEntries(f: Filters): Entries
  {
    Scalar("npa", f.npa != "", f.npa) +
    Scalar("npa_min", f.npaMin != "", f.npaMin) +
    Scalar("npa_max", f.npaMax != "", f.npaMax)
  }

  /** The query fetchSubscribers builds, pair by pair. */
  function QueryEntries(f: Filters): Entries
  {
    ListingEntries(f) + NpaEntries(f) +
    Membership("tags[]", f.tags, "tags_mode", f.tagsMode) +
    Membership("lists[]", f.lists, "lists_mode", f.listsMode)
  }

  /** `if (value) query.set(key, value)` on a key not yet in the query. */
  method SetIfTruthy(q: SearchParams, k: string, truthy: bool, v: string)
    requires k !in KeysOf(q.entries)
    modifies q
    ensures q.entries == old(q.entries) + Scalar(k, truthy, v)
    ensures KeysOf(q.entries) <= KeysOf(old(q.entries)) + {k}
  {
    KeysOfConcat(q.entries, Scalar(k, truthy, v));
    if truthy {
      q.Set(k, v);
    }
  }

  /** The forEach that appends the ids, then the mode set after them. */
  method AppendMembership(q: SearchParams, key: string, xs: seq<int>, modeKey: string, mode: string)
    requires modeKey !in KeysOf(q.entries) && modeKey != key
    modifies q
    ensures q.entries == old(q.entries) + Membership(key, xs, modeKey, mode)
    ensures KeysOf(q.entries) <= KeysOf(old(q.entries)) + {key, modeKey}
  {
    if xs != [] {
      ghost var before := q.entries;
      for i := 0 to |xs|
        invariant q.entries == before + Values(key, xs[..i])
        invariant KeysOf(q.entries) <= KeysOf(before) + {key}
      {
        assert Values(key, xs[..i + 1]) == Values(key, xs[..i]) + [(key, IntToString(xs[i]))];
        KeysOfConcat(q.entries, [(key, IntToString(xs[i]))]);
        q.Append(key, IntToString(xs[i]));
      }
      assert xs[..|xs|] == xs;
      SetIfTruthy(q, modeKey, mode != "", mode);
    }
  }

  method SetListing(q: SearchParams, f: Filters)
    requires q.entries == []
    modifies q
    ensures q.entries == ListingEntries(f)
    ensures KeysOf(q.entries) <= ListingKeys
  {
    SetPaging(q, f);
    ghost var paging := q.entries;
    SetSearch(q, f);
    assert q.entries == paging + Scalar("search", f.search != "", f.search) + Scalar("status", f.status != "", f.status) +
                        Scalar("sort", f.sort != "", f.sort) + Scalar("order", f.order != "", f.order);
  }

  const ListingKeys: set<string> := {"page", "per_page", "search", "status", "sort", "order"}

  method SetPaging(q: SearchParams, f: Filters)
    requires q.entries == []
    modifies q
    ensures q.entries == Scalar("page", f.page != 0, IntToString(f.page)) +
                         Scalar("per_page", f.perPage != 0, IntToString(f.perPage))
    ensures KeysOf(q.entries) <= {"page", "per_page"}
  {
    SetIfTruthy(q, "page", f.page != 0, IntToString(f.page));
    assert q.entries == Scalar("page", f.page != 0, IntToString(f.page));
    SetIfTruthy(q, "per_page", f.perPage != 0, IntToString(f.perPage));
  }

  method SetSearch(q: SearchParams, f: Filters)
    requires KeysOf(q.entries) <= {"page", "per_page"}
    modifies q
    ensures q.entries == old(q.entries) + Scalar("search", f.search != "", f.search) + Scalar("status", f.status != "", f.status) +
                         Scalar("sort", f.sort != "", f.sort) + Scalar("order", f.order != "", f.order)
    ensures KeysOf(q.entries) <= ListingKeys
  {
    SetIfTruthy(q, "search", f.search != "", f.search);
    SetIfTruthy(q, "status", f.status != "", f.status);
    assert KeysOf(q.entries) <= {"page", "per_page", "search", "status"};
    SetIfTruthy(q, "sort", f.sort != "", f.sort);
    SetIfTruthy(q, "order", f.order != "", f.order);
  }

  method SetNpa(q: SearchParams, f: Filters)
    requires KeysOf(q.entries) <= ListingKeys
    modifies q
    ensures q.entries == old(q.entries) + NpaEntries(f)
    ensures KeysOf(q.entries) <= ListingKeys + {"npa", "npa_min", "npa_max"}
  {
    ghost var before := q.entries;
    NpaKeysFresh();
    SetIfTruthy(q, "npa", f.npa != "", f.npa);
    SetIfTruthy(q, "npa_min", f.npaMin != "", f.npaMin);
    SetIfTruthy(q, "npa_max", f.npaMax != "", f.npaMax);
    assert q.entries == before + NpaEntries(f);
  }

  lemma NpaKeysFresh()
    ensures "npa" !in ListingKeys
    ensures "npa_min" !in ListingKeys + {"npa"}
    ensures "npa_max" !in ListingKeys + {"npa", "npa_min"}
  {
  }

  lemma ModeKeysFresh()
    ensures "tags_mode" !in ListingKeys + {"npa", "npa_min", "npa_max"}
    ensures "lists_mode" !in ListingKeys + {"npa", "npa_min", "npa_max"} + {"tags[]", "tags_mode"}
  {
  }

  /** fetchSubscribers' query: the scalar filters that are truthy, then the tag and list ids with their modes. */
  method FetchSubscribersQuery(f: Filters) returns (q: SearchParams)
    ensures fresh(q)
    ensures q.entries == QueryEntries(f)
  {
    q := new SearchParams();
    SetListing(q, f);
    SetNpa(q, f);
    ModeKeysFresh();
    AppendMembership(q, "tags[]", f.tags, "tags_mode", f.tagsMode);
    AppendMembership(q, "lists[]", f.lists, "lists_mode", f.listsMode);
  }

  // ---------------------------------------------------------------- what the query carries

  /** `String(x)` of each id. */
  function Strings(xs: seq<int>): (r: seq<string>)
    ensures |r| == |xs|
    ensures forall i :: 0 <= i < |xs| ==> r[i] == IntToString(xs[i])
  {
    seq(|xs|, i requires 0 <= i < |xs| => IntToString(xs[i]))
  }

  /** The scalar parameters get_subscribers reads. */
  datatype QueryKey = Page | PerPage | Search | Status | Sort | Order | Npa | NpaMin | NpaMax | TagsMode | ListsMode

  function KeyName(k: QueryKey): string
  {
    match k
    case Page => "page"
    case PerPage => "per_page"
    case Search => "search"
    case Status => "status"
    case Sort => "sort"
    case Order => "order"
    case Npa => "npa"
    case NpaMin => "npa_min"
    case NpaMax => "npa_max"
    case TagsMode => "tags_mode"
    case ListsMode => "lists_mode"
  }

  /** The value fetchSubscribers sends under a key: the filter's value when it is truthy, a mode only beside a non-empty id list. */
  function SentValue(f: Filters, k: QueryKey): Option<string>
  {
    match k
    case Page => if f.page != 0 then Some(IntToString(f.page)) else None
    case PerPage => if f.perPage != 0 then Some(IntToString(f.perPage)) else None
    case Search => if f.search != "" then Some(f.search) else None
    case Status => if f.status != "" then Some(f.status) else None
    case Sort => if f.sort != "" then Some(f.sort) else None
    case Order => if f.order != "" then Some(f.order) else None
    case Npa => if f.npa != "" then Some(f.npa) else None
    case NpaMin => if f.npaMin != "" then Some(f.npaMin) else None
    case NpaMax => if f.npaMax != "" then Some(f.npaMax) else None
    case TagsMode => if f.tags != [] && f.tagsMode != "" then Some(f.tagsMode) else None
    case ListsMode => if f.lists != [] && f.listsMode != "" then Some(f.listsMode) else None
  }

  lemma {:induction false} GetValues(k: string, xs: seq<int>, k2: string)
    ensures GetAll(Values(k, xs), k2) == if k2 == k then Strings(xs) else []
    ensures k2 != k ==> Get(Values(k, xs), k2).None?
  {
    if xs != [] {
      assert Values(k, xs)[1..] == Values(k, xs[1..]);
      GetValues(k, xs[1..], k2);
      if k2 == k {
        assert Strings(xs) == [IntToString(xs[0])] + Strings(xs[1..]);
      }
    }
  }

  lemma GetMembership(key: string, xs: seq<int>, modeKey: string, mode: string, k2: string)
    requires key != modeKey
    ensures k2 != modeKey ==> GetAll(Membership(key, xs, modeKey, mode), k2) == if k2 == key then Strings(xs) else []
    ensures k2 != key ==> Get(Membership(key, xs, modeKey, mode), k2) ==
                            if k2 == modeKey && xs != [] && mode != "" then Some(mode) else None
  {
    if xs != [] {
      GetConcat(Values(key, xs), Scalar(modeKey, mode != "", mode), k2);
      GetValues(key, xs, k2);
    }
  }

  /** The four parts of the query, in the order fetchSubscribers builds them. */
  lemma GetQueryParts(f: Filters, k: string)
    ensures var listing, npa := ListingEntries(f), NpaEntries(f);
            var tags := Membership("tags[]", f.tags, "tags_mode", f.tagsMode);
            var lists := Membership("lists[]", f.lists, "lists_mode", f.listsMode);
            && Get(QueryEntries(f), k) ==
                 (if Get(listing, k).Some? then Get(listing, k)
                  else if Get(npa, k).Some? then Get(npa, k)
                  else if Get(tags, k).Some? then Get(tags, k)
                  else Get(lists, k))
            && GetAll(QueryEntries(f), k) == GetAll(listing, k) + GetAll(npa, k) + GetAll(tags, k) + GetAll(lists, k)
  {
    var listing, npa := ListingEntries(f), NpaEntries(f);
    var tags := Membership("tags[]", f.tags, "tags_mode", f.tagsMode);
    var lists := Membership("lists[]", f.lists, "lists_mode", f.listsMode);
    GetConcat(listing + npa + tags, lists, k);
    GetConcat(listing + npa, tags, k);
    GetConcat(listing, npa, k);
  }

  /** Every scalar key carries exactly the value the filters send for it. */
  lemma QueryCarriesFilters(f: Filters, k: QueryKey)
    ensures Get(QueryEntries(f), KeyName(k)) == SentValue(f, k)
  {
    var n := KeyName(k);
    GetQueryParts(f, n);
    GetListing(f, k);
    GetNpa(f, k);
    GetMembership("tags[]", f.tags, "tags_mode", f.tagsMode, n);
    GetMembership("lists[]", f.lists, "lists_mode", f.listsMode, n);
  }

  /** The tag and list ids arrive whole and in order, and nothing else is sent under their names. */
  lemma QueryCarriesIds(f: Filters)
    ensures GetAll(QueryEntries(f), "tags[]") == Strings(f.tags)
    ensures GetAll(QueryEntries(f), "lists[]") == Strings(f.lists)
  {
    GetQueryParts(f, "tags[]");
    GetQueryParts(f, "lists[]");
    GetListingAll(f, "tags[]");
    GetListingAll(f, "lists[]");
    GetNpaAll(f, "tags[]");
    GetNpaAll(f, "lists[]");
    GetMembership("tags[]", f.tags, "tags_mode", f.tagsMode, "tags[]");
    GetMembership("lists[]", f.lists, "lists_mode", f.listsMode, "tags[]");
    GetMembership("tags[]", f.tags, "tags_mode", f.tagsMode, "lists[]");
    GetMembership("lists[]", f.lists, "lists_mode", f.listsMode, "lists[]");
  }

  lemma GetScalar(k: string, truthy: bool, v: string, k2: string)
    ensures Get(Scalar(k, truthy, v), k2) == if k2 == k && truthy then Some(v) else None
  {
  }

  predicate IsListingKey(k: QueryKey)
  {
    k.Page? || k.PerPage? || k.Search? || k.Status? || k.Sort? || k.Order?
  }

  lemma GetListing(f: Filters, k: QueryKey)
    ensures Get(ListingEntries(f), KeyName(k)) == if IsListingKey(k) then SentValue(f, k) else None
  {
    GetListingByName(f, KeyName(k));
  }

  lemma GetListingByName(f: Filters, n: string)
    ensures Get(ListingEntries(f), n) ==
            if n == "page" && f.page != 0 then Some(IntToString(f.page))
            else if n == "per_page" && f.perPage != 0 then Some(IntToString(f.perPage))
            else if n == "search" && f.search != "" then Some(f.search)
            else if n == "status" && f.status != "" then Some(f.status)
            else if n == "sort" && f.sort != "" then Some(f.sort)
            else if n == "order" && f.order != "" then Some(f.order)
            else None
  {
    var a := Scalar("page", f.page != 0, IntToString(f.page));
    var b := Scalar("per_page", f.perPage != 0, IntToString(f.perPage));
    var c := Scalar("search", f.search != "", f.search);
    var d := Scalar("status", f.status != "", f.status);
    var e := Scalar("sort", f.sort != "", f.sort);
    var g := Scalar("order", f.order != "", f.order);
    GetConcat(a + b + c + d + e, g, n);
    GetConcat(a + b + c + d, e, n);
    GetConcat(a + b + c, d, n);
    GetConcat(a + b, c, n);
    GetConcat(a, b, n);
    GetScalar("page", f.page != 0, IntToString(f.page), n);
    GetScalar("per_page", f.perPage != 0, IntToString(f.perPage), n);
    GetScalar("search", f.search != "", f.search, n);
    GetScalar("status", f.status != "", f.status, n);
    GetScalar("sort", f.sort != "", f.sort, n);
    GetScalar("order", f.order != "", f.order, n);
  }

  lemma GetListingAll(f: Filters, k: string)
    requires k == "tags[]" || k == "lists[]"
    ensures GetAll(ListingEntries(f), k) == []
  {
    KeysOfListing(f);
    GetAbsent(ListingEntries(f), k);
  }

  lemma KeysOfListing(f: Filters)
    ensures KeysOf(ListingEntries(f)) <= {"page", "per_page", "search", "status", "sort", "order"}
  {
    var a := Scalar("page", f.page != 0, IntToString(f.page));
    var b := Scalar("per_page", f.perPage != 0, IntToString(f.perPage));
    var c := Scalar("search", f.search != "", f.search);
    var d := Scalar("status", f.status != "", f.status);
    var e := Scalar("sort", f.sort != "", f.sort);
    var g := Scalar("order", f.order != "", f.order);
    KeysOfConcat(a + b + c + d + e, g);
    KeysOfConcat(a + b + c + d, e);
    KeysOfConcat(a + b + c, d);
    KeysOfConcat(a + b, c);
    KeysOfConcat(a, b);
  }

  lemma GetNpa(f: Filters, k: QueryKey)
    ensures Get(NpaEntries(f), KeyName(k)) == if k.Npa? || k.NpaMin? || k.NpaMax? then SentValue(f, k) else None
  {
    GetNpaByName(f, KeyName(k));
  }

  lemma GetNpaByName(f: Filters, n: string)
    ensures Get(NpaEntries(f), n) ==
            if n == "npa" && f.npa != "" then Some(f.npa)
            else if n == "npa_min" && f.npaMin != "" then Some(f.npaMin)
            else if n == "npa_max" && f.npaMax != "" then Some(f.npaMax)
            else None
  {
    var a := Scalar("npa", f.npa != "", f.npa);
    var b := Scalar("npa_min", f.npaMin != "", f.npaMin);
    var c := Scalar("npa_max", f.npaMax != "", f.npaMax);
    GetConcat(a + b, c, n);
    GetConcat(a, b, n);
    GetScalar("npa", f.npa != "", f.npa, n);
    GetScalar("npa_min", f.npaMin != "", f.npaMin, n);
    GetScalar("npa_max", f.npaMax != "", f.npaMax, n);
  }

  lemma GetNpaAll(f: Filters, k: string)
    requires k == "tags[]" || k == "lists[]"
    ensures GetAll(NpaEntries(f), k) == []
  {
    var a := Scalar("npa", f.npa != "", f.npa);
    var b := Scalar("npa_min", f.npaMin != "", f.npaMin);
    var c := Scalar("npa_max", f.npaMax != "", f.npaMax);
    KeysOfConcat(a + b, c);
    KeysOfConcat(a, b);
    GetAbsent(NpaEntries(f), k);
  }

  // ---------------------------------------------------------------- what the server reads back

  /** The strings of a `key[]` list, as the array PHP collects them into. */
  function IdValues(vs: seq<string>): (r: Raw)
    ensures r.RArray? && |r.items| == |vs|
    ensures forall i :: 0 <= i < |vs| ==> r.items[i] == RStr(vs[i])
  {
    RArray(seq(|vs|, i requires 0 <= i < |vs| => RStr(vs[i])))
  }

  /**
   * What `$request->get_param(n)` returns for the query string: the `tags[]` and `lists[]` pairs
   * collected into arrays under `tags` and `lists`, any other name as its string, null when absent.
   */
  function ValueOf(es: Entries, n: string): Raw
  {
    if n == "tags" then (if GetAll(es, "tags[]") != [] then IdValues(GetAll(es, "tags[]")) else RNull)
    else if n == "lists" then (if GetAll(es, "lists[]") != [] then IdValues(GetAll(es, "lists[]")) else RNull)
    else if n == "tags[]" || n == "lists[]" then RNull
    else match Get(es, n) case Some(v) => RStr(v) case None => RNull
  }

  /** The request's get_param for the query string. */
  function Received(es: Entries): string -> Raw
  {
    n => ValueOf(es, n)
  }

  lemma ReceivedScalar(es: Entries, k: QueryKey)
    ensures Received(es)(KeyName(k)) == match Get(es, KeyName(k)) case Some(v) => RStr(v) case None => RNull
  {
  }

  lemma ReceivedIds(es: Entries)
    ensures Received(es)("tags") == if GetAll(es, "tags[]") != [] then IdValues(GetAll(es, "tags[]")) else RNull
    ensures Received(es)("lists") == if GetAll(es, "lists[]") != [] then IdValues(GetAll(es, "lists[]")) else RNull
  {
  }

  /** The decimal form of a positive number is neither empty nor "0", so PHP reads it as truthy. */
  lemma {:induction false} DecimalIsTruthy(n: nat)
    requires n > 0
    ensures Truthy(RStr(NatToDecimal(n)))
  {
    if n >= 10 {
      assert |NatToDecimal(n)| >= 2 by {
        assert |NatToDecimal(n / 10)| >= 1;
      }
    } else {
      assert NatToDecimal(n) == [DigitChar(n)];
      assert DigitValue(DigitChar(n)) == n;
    }
  }

  /** A positive page within PHP's integer range, sent as its decimal string, is read back as itself. */
  lemma PageReadBack(n: int)
    requires 0 < n <= PhpIntMax
    ensures Rest.PageNumber(RStr(IntToString(n))) == n
  {
    DecimalIsTruthy(n);
    DecimalStrToInt(n);
  }

  /** A per_page in 1..200 sent as its decimal string is read back as itself. */
  lemma PerPageReadBack(n: int)
    requires 0 < n <= 200
    ensures Rest.PerPage(RStr(IntToString(n))) == n
  {
    DecimalIsTruthy(n);
    DecimalStrToInt(n);
  }

  /** Positive ids within PHP's integer range, sent as decimal strings, sanitize back to the same list. */
  lemma IdsReadBack(xs: seq<int>)
    requires forall i :: 0 <= i < |xs| ==> 0 < xs[i] <= PhpIntMax
    ensures SanitizeIntArray(IdValues(Strings(xs))) == xs
  {
    var items := IdValues(Strings(xs)).items;
    forall i | 0 <= i < |xs| ensures AbsInt(items[i]) == xs[i] {
      DecimalStrToInt(xs[i]);
    }
    SanitizeExact(items, xs);
  }

  /**
   * Filters the interface can produce: a real page, a per-page the server accepts, positive ids
   * (all within PHP's integer range), known modes, sort and order.
   */
  predicate WellFormed(f: Filters)
  {
    && 0 < f.page <= PhpIntMax && 0 < f.perPage <= 200
    && (forall i :: 0 <= i < |f.tags| ==> 0 < f.tags[i] <= PhpIntMax)
    && (forall i :: 0 <= i < |f.lists| ==> 0 < f.lists[i] <= PhpIntMax)
    && (f.tagsMode == "any" || f.tagsMode == "all")
    && (f.listsMode == "any" || f.listsMode == "all")
    && f.sort in AllowedSorts
    && (f.order == "asc" || f.order == "desc")
  }

  /** sanitize_text_field leaves the filters' text, and the empty string, unchanged. */
  predicate CleanKeeps(f: Filters, clean: string -> string)
  {
    && clean("") == ""
    && clean(f.search) == f.search && clean(f.status) == f.status
    && clean(f.npa) == f.npa && clean(f.npaMin) == f.npaMin && clean(f.npaMax) == f.npaMax
    && clean(f.sort) == f.sort && clean(f.order) == f.order
  }

  /** The params get_subscribers builds from the query sent for `f`. */
  function ServerParams(f: Filters, clean: string -> string): Queries.Params
  {
    Rest.QueryParams(Received(QueryEntries(f)), clean)
  }

  /** A query that carries `f`: every scalar key holds what fetchSubscribers sends for it, and the id lists arrive whole. */
  ghost predicate Carries(es: Entries, f: Filters)
  {
    && (forall k :: Get(es, KeyName(k)) == SentValue(f, k))
    && GetAll(es, "tags[]") == Strings(f.tags)
    && GetAll(es, "lists[]") == Strings(f.lists)
  }

  lemma QueryCarries(f: Filters)
    ensures Carries(QueryEntries(f), f)
  {
    forall k ensures Get(QueryEntries(f), KeyName(k)) == SentValue(f, k) {
      QueryCarriesFilters(f, k);
    }
    QueryCarriesIds(f);
  }

  /** The raw value get_param returns under a scalar key for the query fetchSubscribers sends. */
  function Expected(f: Filters, k: QueryKey): Raw
  {
    match SentValue(f, k) case Some(v) => RStr(v) case None => RNull
  }

  /** The raw parameters PHP hands get_subscribers for a query that carries `f`. */
  ghost predicate Arrived(q: string -> Raw, f: Filters)
  {
    && ScalarsArrived(q, f)
    && q("tags") == (if f.tags != [] then IdValues(Strings(f.tags)) else RNull)
    && q("lists") == (if f.lists != [] then IdValues(Strings(f.lists)) else RNull)
  }

  /** The raw parameters under the scalar keys. */
  ghost predicate ScalarsArrived(q: string -> Raw, f: Filters)
  {
    forall k :: q(KeyName(k)) == Expected(f, k)
  }

  lemma ReceivedArrives(es: Entries, f: Filters)
    requires Carries(es, f)
    ensures Arrived(Received(es), f)
  {
    forall k ensures Received(es)(KeyName(k)) == Expected(f, k) {
      ReceivedScalar(es, k);
    }
    ReceivedIds(es);
  }

  /** The page and page size sent as decimal strings are read back as themselves. */
  lemma PagingRead(q: string -> Raw, f: Filters)
    requires 0 < f.page <= PhpIntMax && 0 < f.perPage <= 200
    requires q("page") == RStr(IntToString(f.page)) && q("per_page") == RStr(IntToString(f.perPage))
    ensures Rest.PageNumber(q("page")) == f.page && Rest.PerPage(q("per_page")) == f.perPage
  {
    PageReadBack(f.page);
    PerPageReadBack(f.perPage);
  }

  /** A text filter, sent only when non-empty, is read back as itself (absent reads as ""). */
  lemma TextRead(q: string -> Raw, name: string, value: string, clean: string -> string)
    requires clean("") == "" && clean(value) == value
    requires q(name) == if value != "" then RStr(value) else RNull
    ensures Rest.TextParam(q, name, clean) == value
  {
  }

  /** An id list, sent only when non-empty, is read back as itself (absent reads as []). */
  lemma IdsRead(q: string -> Raw, name: string, ids: seq<int>)
    requires forall i :: 0 <= i < |ids| ==> 0 < ids[i] <= PhpIntMax
    requires q(name) == if ids != [] then IdValues(Strings(ids)) else RNull
    ensures Rest.IdsParam(q, name) == ids
  {
    if ids != [] {
      IdsReadBack(ids);
    }
  }

  /** A mode travels only beside its ids: read back as sent, or as "any" when there are no ids. */
  lemma ModeRead(q: string -> Raw, name: string, ids: seq<int>, mode: string)
    requires mode == "any" || mode == "all"
    requires q(name) == if ids != [] then RStr(mode) else RNull
    ensures Rest.Mode(q(name)) == if ids == [] then "any" else mode
  {
  }

  /** An allowed sort column is read back as itself. */
  lemma SortRead(q: string -> Raw, sort: string, clean: string -> string)
    requires sort in AllowedSorts && clean(sort) == sort
    requires q("sort") == if sort != "" then RStr(sort) else RNull
    ensures ValidateSort(Rest.SanitizeText(Rest.Coalesce(q("sort"), RStr("created_at")), clean)) == sort
  {
  }

  /** The order is read back upper-cased. */
  lemma OrderRead(q: string -> Raw, order: string, clean: string -> string)
    requires (order == "asc" || order == "desc") && clean(order) == order
    requires q("order") == if order != "" then RStr(order) else RNull
    ensures ValidateOrder(Rest.SanitizeText(Rest.Coalesce(q("order"), RStr("desc")), clean)) ==
            if order == "asc" then "ASC" else "DESC"
  {
    OrderWords();
  }

  /** Arrived, key by key: the page and the page size. */
  ghost predicate PagingDelivered(q: string -> Raw, f: Filters)
  {
    && q("page") == (if f.page != 0 then RStr(IntToString(f.page)) else RNull)
    && q("per_page") == (if f.perPage != 0 then RStr(IntToString(f.perPage)) else RNull)
  }

  /** Arrived, key by key: the text filters. */
  ghost predicate TextsDelivered(q: string -> Raw, f: Filters)
  {
    && q("search") == (if f.search != "" then RStr(f.search) else RNull)
    && q("status") == (if f.status != "" then RStr(f.status) else RNull)
    && q("npa") == (if f.npa != "" then RStr(f.npa) else RNull)
    && q("npa_min") == (if f.npaMin != "" then RStr(f.npaMin) else RNull)
    && q("npa_max") == (if f.npaMax != "" then RStr(f.npaMax) else RNull)
  }

  /** Arrived, key by key: the id lists, the modes, the sort and the order. */
  ghost predicate ChoicesDelivered(q: string -> Raw, f: Filters)
  {
    && q("tags") == (if f.tags != [] then IdValues(Strings(f.tags)) else RNull)
    && q("lists") == (if f.lists != [] then IdValues(Strings(f.lists)) else RNull)
    && q("tags_mode") == (if f.tags != [] && f.tagsMode != "" then RStr(f.tagsMode) else RNull)
    && q("lists_mode") == (if f.lists != [] && f.listsMode != "" then RStr(f.listsMode) else RNull)
    && q("sort") == (if f.sort != "" then RStr(f.sort) else RNull)
    && q("order") == (if f.order != "" then RStr(f.order) else RNull)
  }

  lemma PagingDelivers(q: string -> Raw, f: Filters)
    requires ScalarsArrived(q, f)
    ensures PagingDelivered(q, f)
  {
    assert q(KeyName(Page)) == Expected(f, Page) && q(KeyName(PerPage)) == Expected(f, PerPage);
  }

  /** Arrived, for the text keys. */
  lemma TextsArrive(q: string -> Raw, f: Filters)
    requires ScalarsArrived(q, f)
    ensures q(KeyName(Search)) == (if f.search != "" then RStr(f.search) else RNull)
    ensures q(KeyName(Status)) == (if f.status != "" then RStr(f.status) else RNull)
    ensures q(KeyName(Npa)) == (if f.npa != "" then RStr(f.npa) else RNull)
    ensures q(KeyName(NpaMin)) == (if f.npaMin != "" then RStr(f.npaMin) else RNull)
    ensures q(KeyName(NpaMax)) == (if f.npaMax != "" then RStr(f.npaMax) else RNull)
  {
  }

  lemma TextsDeliver(q: string -> Raw, f: Filters)
    requires q(KeyName(Search)) == (if f.search != "" then RStr(f.search) else RNull)
    requires q(KeyName(Status)) == (if f.status != "" then RStr(f.status) else RNull)
    requires q(KeyName(Npa)) == (if f.npa != "" then RStr(f.npa) else RNull)
    requires q(KeyName(NpaMin)) == (if f.npaMin != "" then RStr(f.npaMin) else RNull)
    requires q(KeyName(NpaMax)) == (if f.npaMax != "" then RStr(f.npaMax) else RNull)
    ensures TextsDelivered(q, f)
  {
  }

  /** Arrived, for the mode, sort and order keys. */
  lemma ChoicesArrive(q: string -> Raw, f: Filters)
    requires ScalarsArrived(q, f)
    ensures q(KeyName(TagsMode)) == (if f.tags != [] && f.tagsMode != "" then RStr(f.tagsMode) else RNull)
    ensures q(KeyName(ListsMode)) == (if f.lists != [] && f.listsMode != "" then RStr(f.listsMode) else RNull)
    ensures q(KeyName(Sort)) == (if f.sort != "" then RStr(f.sort) else RNull)
    ensures q(KeyName(Order)) == (if f.order != "" then RStr(f.order) else RNull)
  {
  }

  lemma ChoicesDeliver(q: string -> Raw, f: Filters)
    requires q("tags") == (if f.tags != [] then IdValues(Strings(f.tags)) else RNull)
    requires q("lists") == (if f.lists != [] then IdValues(Strings(f.lists)) else RNull)
    requires q(KeyName(TagsMode)) == (if f.tags != [] && f.tagsMode != "" then RStr(f.tagsMode) else RNull)
    requires q(KeyName(ListsMode)) == (if f.lists != [] && f.listsMode != "" then RStr(f.listsMode) else RNull)
    requires q(KeyName(Sort)) == (if f.sort != "" then RStr(f.sort) else RNull)
    requires q(KeyName(Order)) == (if f.order != "" then RStr(f.order) else RNull)
    ensures ChoicesDelivered(q, f)
  {
  }

  /** get_subscribers' reading of those parameters: the same filters, a mode without ids as "any", the order upper-cased. */
  lemma ArrivedRead(q: string -> Raw, f: Filters, clean: string -> string)
    requires WellFormed(f) && CleanKeeps(f, clean)
    requires PagingDelivered(q, f) && TextsDelivered(q, f) && ChoicesDelivered(q, f)
    ensures Rest.QueryParams(q, clean) ==
            Queries.Params(f.page, f.perPage, f.search, f.status,
                           f.tags, if f.tags == [] then "any" else f.tagsMode,
                           f.lists, if f.lists == [] then "any" else f.listsMode,
                           f.npa, f.npaMin, f.npaMax, f.sort, if f.order == "asc" then "ASC" else "DESC", None)
  {
    PagingRead(q, f);
    TextRead(q, "search", f.search, clean);
    TextRead(q, "status", f.status, clean);
    TextRead(q, "npa", f.npa, clean);
    TextRead(q, "npa_min", f.npaMin, clean);
    TextRead(q, "npa_max", f.npaMax, clean);
    IdsRead(q, "tags", f.tags);
    IdsRead(q, "lists", f.lists);
    ModeRead(q, "tags_mode", f.tags, f.tagsMode);
    ModeRead(q, "lists_mode", f.lists, f.listsMode);
    SortRead(q, f.sort, clean);
    OrderRead(q, f.order, clean);
  }

  lemma OrderWords()
    ensures ValidateOrder("asc") == "ASC" && ValidateOrder("desc") == "DESC"
  {
    assert Lower("asc") == "asc";
    assert Lower("desc") != "asc" by { assert Lower("desc")[0] == 'd'; }
  }

  /**
   * The round trip of a listing request: the query fetchSubscribers sends for well-formed filters is
   * read by get_subscribers back into the same filters; a mode travels only beside its ids, and the
   * order is upper-cased.
   */
  lemma ServerReadsFilters(f: Filters, clean: string -> string)
    requires WellFormed(f) && CleanKeeps(f, clean)
    ensures ServerParams(f, clean) ==
            Queries.Params(f.page, f.perPage, f.search, f.status,
                           f.tags, if f.tags == [] then "any" else f.tagsMode,
                           f.lists, if f.lists == [] then "any" else f.listsMode,
                           f.npa, f.npaMin, f.npaMax, f.sort, if f.order == "asc" then "ASC" else "DESC", None)
  {
    QueryCarries(f);
    ReceivedArrives(QueryEntries(f), f);
    PagingDelivers(Received(QueryEntries(f)), f);
    TextsArrive(Received(QueryEntries(f)), f);
    TextsDeliver(Received(QueryEntries(f)), f);
    ChoicesArrive(Received(QueryEntries(f)), f);
    ChoicesDeliver(Received(QueryEntries(f)), f);
    ArrivedRead(Received(QueryEntries(f)), f, clean);
  }

  // ---------------------------------------------------------------- executeBulk

  /** The body executeBulk receives; `chunk` is 0 when the body carries none (useBulk never sets one). */
  datatype BulkBody = BulkBody(action: string, ids: seq<int>, tagIds: seq<int>, listIds: seq<int>, chunk: int)

  const DefaultChunk := 500

  /** `body.chunk || 500`. */
  function ChunkOf(body: BulkBody): (c: int)
    ensures c != 0
    ensures body.chunk != 0 ==> c == body.chunk
    ensures body.chunk == 0 ==> c == DefaultChunk
  {
    if body.chunk != 0 then body.chunk else DefaultChunk
  }

  /** A JSON array of numbers, as PHP decodes it. */
  function Ints(xs: seq<int>): Raw
  {
    RArray(seq(|xs|, i requires 0 <= i < |xs| => RInt(xs[i])))
  }

  /** dcmm_sanitize_int_array on a JSON array of numbers: each id made absolute, and the zeros dropped. */
  function SanitizedIds(xs: seq<int>): (r: seq<int>)
    ensures |r| <= |xs|
    ensures forall i :: 0 <= i < |r| ==> r[i] > 0
  {
    if xs == [] then []
    else (if xs[0] != 0 then [if xs[0] < 0 then -xs[0] else xs[0]] else []) + SanitizedIds(xs[1..])
  }

  lemma {:induction false} SanitizedInts(xs: seq<int>)
    ensures SanitizeIntArray(Ints(xs)) == SanitizedIds(xs)
  {
    if xs != [] {
      assert Ints(xs).items[1..] == Ints(xs[1..]).items;
      SanitizedInts(xs[1..]);
    }
  }

  /** The JSON body of one request: `{ ...body, offset, chunk }`. */
  function Wire(body: BulkBody, offset: int, chunk: int): map<string, Raw>
  {
    map["action" := RStr(body.action), "ids" := Ints(body.ids), "tag_ids" := Ints(body.tagIds),
        "list_ids" := Ints(body.listIds), "offset" := RInt(offset), "chunk" := RInt(chunk)]
  }

  /**
   * What post_bulk reads from the first request of a run, field by field: the sanitized action, the
   * id lists with non-positive ids dropped, offset 0 and the capped chunk. WireOffset shows it is
   * what ReadBulk makes of the wire body.
   */
  function ServerRequest(body: BulkBody, clean: string -> string): Rest.BulkRequest
  {
    Rest.BulkRequest(
      action := clean(body.action),
      ids := SanitizedIds(body.ids),
      tagIds := SanitizedIds(body.tagIds),
      listIds := SanitizedIds(body.listIds),
      offset := 0,
      chunk := Min(AbsInt(RInt(ChunkOf(body))), Rest.MaxChunk))
  }

  /** Every request of a run reads as the first one, except for the offset; the server's chunk is never 0. */
  lemma WireOffset(body: BulkBody, offset: nat, clean: string -> string)
    ensures Rest.ReadBulk(Wire(body, offset, ChunkOf(body)), clean) == ServerRequest(body, clean).(offset := offset)
    ensures 0 < ServerRequest(body, clean).chunk <= Rest.MaxChunk
  {
    var c := ChunkOf(body);
    var wire := Wire(body, offset, c);
    assert Rest.Param(wire, "action") == RStr(body.action);
    assert Rest.Param(wire, "ids") == Ints(body.ids);
    assert Rest.Param(wire, "tag_ids") == Ints(body.tagIds);
    assert Rest.Param(wire, "list_ids") == Ints(body.listIds);
    SanitizedInts(body.ids);
    SanitizedInts(body.tagIds);
    SanitizedInts(body.listIds);
    assert Rest.Param(wire, "offset") == RInt(offset);
    assert Rest.Param(wire, "chunk") == RInt(c);
    assert AbsInt(RInt(c)) > 0;
  }

  /** What one apiFetch call settles to. */
  datatype Fetched = Resolved(response: Bulk.BulkResponse) | Thrown(message: string)

  function ReplyMessage(b: Rest.BulkReply): string
  {
    match b
    case Rejected(m) => m
    case Executed(Failure(m)) => m
    case Executed(Progress(_, _, _)) => ""
  }

  /** apiFetch: a 2xx response resolves with its body; any other status rejects with the body's message. */
  function ApiFetch(r: Rest.HttpReply): (f: Fetched)
    ensures f.Resolved? <==> 200 <= r.status < 300 && r.reply.Executed?
  {
    if 200 <= r.status < 300 && r.reply.Executed? then Resolved(r.reply.response) else Thrown(ReplyMessage(r.reply))
  }

  /** The tables after the requests at `offsets`, in order, each running its chunk. */
  function Chunked(t: Store.Tables, req: Rest.BulkRequest, offsets: seq<nat>): Store.Tables
  {
    if offsets == [] then t
    else
      var last := offsets[|offsets| - 1];
      Bulk.ExecuteEffect(Chunked(t, req, offsets[..|offsets| - 1]), req.action, Window(req.ids, req.chunk, last),
                         req.tagIds, req.listIds)
  }

  /** The tables after a run's requests: untouched when post_bulk rejects the body, each chunk's effect otherwise. */
  function Applied(t: Store.Tables, req: Rest.BulkRequest, offsets: seq<nat>): Store.Tables
  {
    if Rest.Rejection(req).Some? then t else Chunked(t, req, offsets)
  }

  /** The export file a run leaves: the one its first request writes, if post_bulk accepts the body. */
  function RunFile(t: Store.Tables, req: Rest.BulkRequest, env: Bulk.ExportEnv, offsets: seq<nat>): seq<seq<string>>
  {
    if offsets == [] || Rest.Rejection(req).Some? then [] else Bulk.ExecuteFile(t, req.action, req.ids, 0, req.chunk, env)
  }

  /** A chunk that leaves ids remaining ends at the next multiple of the chunk size, still inside the list; one that leaves none covers the list. */
  lemma Advance(req: Rest.BulkRequest, env: Bulk.ExportEnv, m: nat)
    requires 0 < req.chunk && m * req.chunk < |req.ids|
    requires Bulk.ExecuteResponse(req.action, req.ids, req.tagIds, req.listIds, m * req.chunk, req.chunk, env).Progress?
    ensures var resp := Bulk.ExecuteResponse(req.action, req.ids, req.tagIds, req.listIds, m * req.chunk, req.chunk, env);
            && (resp.remaining > 0 ==> resp.processed == (m + 1) * req.chunk < |req.ids|)
            && (resp.remaining <= 0 ==> (m + 1) * req.chunk >= |req.ids|)
  {
    MulStep(m, req.chunk);
  }

  lemma MulStep(m: nat, c: nat)
    ensures (m + 1) * c == m * c + c
  {
  }

  lemma AppliedNext(t: Store.Tables, req: Rest.BulkRequest, offsets: seq<nat>, offset: nat)
    ensures Chunked(t, req, offsets + [offset]) ==
            Bulk.ExecuteEffect(Chunked(t, req, offsets), req.action, Window(req.ids, req.chunk, offset), req.tagIds, req.listIds)
  {
    assert (offsets + [offset])[..|offsets|] == offsets;
  }

  /** post_bulk's answer to the run's request at `offset`. */
  function Answer(req: Rest.BulkRequest, env: Bulk.ExportEnv, offset: nat): Bulk.BulkResponse
  {
    Bulk.ExecuteResponse(req.action, req.ids, req.tagIds, req.listIds, offset, req.chunk, env)
  }

  /**
   * A run so far: the k-th request went out at offset k × chunk, the k-th response onProgress saw is
   * post_bulk's answer at that offset, and every request but the last was answered with progress that
   * left ids remaining and whose processed count is the next offset.
   */
  ghost predicate Trace(req: Rest.BulkRequest, env: Bulk.ExportEnv, offsets: seq<nat>, reported: seq<Bulk.BulkResponse>)
  {
    && |reported| <= |offsets| <= |reported| + 1
    && (forall k :: 0 <= k < |offsets| ==> offsets[k] == k * req.chunk)
    && (forall k :: 0 <= k < |reported| ==> reported[k] == Answer(req, env, offsets[k]))
    && (forall k :: 0 <= k < |offsets| - 1 ==>
          reported[k].Progress? && reported[k].remaining > 0 && offsets[k + 1] == reported[k].processed)
  }

  /** What a run leaves behind: the tables after its requests, the export file, and the trace of its requests and responses. */
  ghost predicate Ran(t0: Store.Tables, t: Store.Tables, req: Rest.BulkRequest, env: Bulk.ExportEnv, offsets: seq<nat>,
                      reported: seq<Bulk.BulkResponse>, file: seq<seq<string>>)
  {
    && t == Applied(t0, req, offsets)
    && file == RunFile(t0, req, env, offsets)
    && Trace(req, env, offsets, reported)
  }

  lemma TraceSend(req: Rest.BulkRequest, env: Bulk.ExportEnv, offsets: seq<nat>, reported: seq<Bulk.BulkResponse>, offset: nat)
    requires Trace(req, env, offsets, reported) && |reported| == |offsets|
    requires offset == |offsets| * req.chunk
    requires offsets != [] ==> (reported[|reported| - 1].Progress? && reported[|reported| - 1].remaining > 0 &&
                                reported[|reported| - 1].processed == offset)
    ensures Trace(req, env, offsets + [offset], reported)
  {
  }

  lemma TraceReport(req: Rest.BulkRequest, env: Bulk.ExportEnv, offsets: seq<nat>, reported: seq<Bulk.BulkResponse>)
    requires Trace(req, env, offsets, reported) && |reported| + 1 == |offsets|
    ensures Trace(req, env, offsets, reported + [Answer(req, env, offsets[|offsets| - 1])])
  {
  }

  /**
   * One `apiFetch` POST of the body at `offset`, answered by post_bulk, as the next request of a run
   * that started on tables `t0` and has sent `offsets` so far.
   */
  method Request(db: Store.Database, body: BulkBody, clean: string -> string, env: Bulk.ExportEnv, offset: nat,
                 ghost t0: Store.Tables, ghost offsets: seq<nat>)
    returns (result: Fetched, written: seq<seq<string>>)
    requires db.tables == Applied(t0, ServerRequest(body, clean), offsets)
    requires offsets == [] <==> offset == 0
    modifies db
    ensures var req := ServerRequest(body, clean);
            && db.tables == Applied(t0, req, offsets + [offset])
            && written == (if offset == 0 then RunFile(t0, req, env, [offset]) else [])
    ensures Settles(ServerRequest(body, clean), env, offset, result)
  {
    ghost var req := ServerRequest(body, clean);
    WireOffset(body, offset, clean);
    AppliedStep(t0, req, offsets, offset);
    var reply;
    reply, written := Rest.PostBulk(db, Wire(body, offset, ChunkOf(body)), clean, env);
    result := ApiFetch(reply);
    FetchedSettles(req, env, offset);
  }

  /** How one request of a run settles: post_bulk's rejection, or its answer at `offset`, through apiFetch. */
  predicate Settles(req: Rest.BulkRequest, env: Bulk.ExportEnv, offset: nat, result: Fetched)
  {
    var resp := Answer(req, env, offset);
    && (Rest.Rejection(req).Some? ==> result == Thrown(Rest.Rejection(req).value))
    && (Rest.Rejection(req).None? ==> (
          && (resp.Progress? ==> result == Resolved(resp))
          && (resp.Failure? ==> result == Thrown(resp.message))))
  }
  /** apiFetch's view of post_bulk's reply to the run's request at `offset`. */
  lemma FetchedSettles(req: Rest.BulkRequest, env: Bulk.ExportEnv, offset: nat)
    ensures Settles(req, env, offset, ApiFetch(Rest.PostBulkReply(req.(offset := offset), env)))
  {
  }

  /** One more request: no change when post_bulk rejects the body, its chunk's effect otherwise. */
  lemma AppliedStep(t0: Store.Tables, req: Rest.BulkRequest, offsets: seq<nat>, offset: nat)
    ensures Rest.Rejection(req).Some? ==> Applied(t0, req, offsets + [offset]) == Applied(t0, req, offsets)
    ensures Rest.Rejection(req).None? ==>
              Applied(t0, req, offsets + [offset]) ==
              Bulk.ExecuteEffect(Applied(t0, req, offsets), req.action, Window(req.ids, req.chunk, offset), req.tagIds, req.listIds)
  {
    AppliedNext(t0, req, offsets, offset);
  }


  /**
   * The loop of executeBulk before it sends the request at `offset`: the run so far is a trace whose
   * every request was answered with ids remaining, and the next offset is the last processed count.
   */
  ghost predicate Running(req: Rest.BulkRequest, env: Bulk.ExportEnv, offsets: seq<nat>, reported: seq<Bulk.BulkResponse>, offset: nat)
  {
    && Trace(req, env, offsets, reported) && |offsets| == |reported|
    && offset == |offsets| * req.chunk
    && (offsets == [] <==> offset == 0)
    && (offsets != [] ==> (reported[|reported| - 1].Progress? && reported[|reported| - 1].remaining > 0 &&
                           reported[|reported| - 1].processed == offset))
    && (offsets != [] ==> Rest.Rejection(req).None? && offset < |req.ids|)
  }

  /** A request answered with ids remaining moves the run on to the processed count, further into the list. */
  lemma RunningStep(req: Rest.BulkRequest, env: Bulk.ExportEnv, offsets: seq<nat>, reported: seq<Bulk.BulkResponse>, offset: nat)
    requires Running(req, env, offsets, reported, offset) && 0 < req.chunk && Rest.Rejection(req).None?
    requires Answer(req, env, offset).Progress? && Answer(req, env, offset).remaining > 0
    ensures Running(req, env, offsets + [offset], reported + [Answer(req, env, offset)], Answer(req, env, offset).processed)
    ensures offset < Answer(req, env, offset).processed < |req.ids|
  {
    TraceSend(req, env, offsets, reported, offset);
    Advance(req, env, |offsets|);
    TraceReport(req, env, offsets + [offset], reported);
  }

  /**
   * How a run ended: its requests and responses form a trace and it stopped where executeBulk stops,
   * at the first rejection, at the first failure, or at a response with nothing remaining that
   * covers the whole id list.
   */
  ghost predicate Ended(req: Rest.BulkRequest, env: Bulk.ExportEnv, outcome: Fetched, offsets: seq<nat>,
                        reported: seq<Bulk.BulkResponse>)
  {
    && Trace(req, env, offsets, reported)
    && |offsets| >= 1
    && |reported| == (if outcome.Resolved? then |offsets| else |offsets| - 1)
    && (Rest.Rejection(req).Some? ==> outcome == Thrown(Rest.Rejection(req).value) && offsets == [0])
    && (Rest.Rejection(req).None? ==> (|offsets| - 1) * req.chunk < |req.ids|)
    && (outcome.Resolved? ==> (
          && outcome.response == reported[|reported| - 1]
          && outcome.response.Progress? && outcome.response.remaining <= 0
          && |offsets| * req.chunk >= |req.ids|))
    && (Rest.Rejection(req).None? && outcome.Thrown? ==>
          var last := Answer(req, env, offsets[|offsets| - 1]);
          last.Failure? && outcome.message == last.message)
  }

  /** The run ends with the request at `offset` rejected or failed. */
  lemma ThrownEnd(req: Rest.BulkRequest, env: Bulk.ExportEnv, offsets: seq<nat>, reported: seq<Bulk.BulkResponse>, offset: nat,
                  outcome: Fetched)
    requires Running(req, env, offsets, reported, offset) && Settles(req, env, offset, outcome) && outcome.Thrown?
    ensures Ended(req, env, outcome, offsets + [offset], reported)
  {
    TraceSend(req, env, offsets, reported, offset);
  }

  /** The run ends with the request at `offset` resolved with nothing remaining. */
  lemma ResolvedEnd(req: Rest.BulkRequest, env: Bulk.ExportEnv, offsets: seq<nat>, reported: seq<Bulk.BulkResponse>, offset: nat,
                    outcome: Fetched)
    requires Running(req, env, offsets, reported, offset) && 0 < req.chunk && Settles(req, env, offset, outcome)
    requires outcome.Resolved? && !(outcome.response.Progress? && outcome.response.remaining > 0)
    ensures Ended(req, env, outcome, offsets + [offset], reported + [outcome.response])
    ensures Rest.Rejection(req).None?
  {
    TraceSend(req, env, offsets, reported, offset);
    Advance(req, env, |offsets|);
    TraceReport(req, env, offsets + [offset], reported);
  }

  /** The export file of a run grows only with its first request. */
  lemma FileStep(t0: Store.Tables, req: Rest.BulkRequest, env: Bulk.ExportEnv, offsets: seq<nat>, offset: nat,
                 file: seq<seq<string>>, written: seq<seq<string>>)
    requires offsets == [] <==> offset == 0
    requires file == RunFile(t0, req, env, offsets)
    requires written == (if offset == 0 then RunFile(t0, req, env, [offset]) else [])
    ensures file + written == RunFile(t0, req, env, offsets + [offset])
  {
  }

  /**
   * executeBulk against post_bulk. The first request starts at offset 0 and each later one at the
   * processed count the previous response reported, which is the next multiple of the server's chunk;
   * onProgress sees every response that resolves; the loop stops at the first rejection or failure,
   * or once nothing remains, and by then the requests have covered the whole id list.
   */
  method ExecuteBulk(db: Store.Database, body: BulkBody, clean: string -> string, env: Bulk.ExportEnv)
    returns (outcome: Fetched, offsets: seq<nat>, reported: seq<Bulk.BulkResponse>, file: seq<seq<string>>)
    modifies db
    ensures Ended(ServerRequest(body, clean), env, outcome, offsets, reported)
    ensures var req := ServerRequest(body, clean);
            && db.tables == Applied(old(db.tables), req, offsets)
            && file == RunFile(old(db.tables), req, env, offsets)
  {
    var req := ServerRequest(body, clean);
    WireOffset(body, 0, clean);
    ghost var t0 := db.tables;
    var offset: nat := 0;
    offsets, reported, file := [], [], [];
    while true
      invariant Running(req, env, offsets, reported, offset)
      invariant db.tables == Applied(t0, req, offsets)
      invariant file == RunFile(t0, req, env, offsets)
      decreases |req.ids| - offset + (if offsets == [] then 1 else 0)
    {
      var result, written := Request(db, body, clean, env, offset, t0, offsets);
      assert Settles(req, env, offset, result);
      FileStep(t0, req, env, offsets, offset, file, written);
      file := file + written;
      if result.Thrown? {
        ThrownEnd(req, env, offsets, reported, offset, result);
        return result, offsets + [offset], reported, file;
      }
      if !result.response.Progress? || result.response.remaining <= 0 {
        ResolvedEnd(req, env, offsets, reported, offset, result);
        return result, offsets + [offset], reported + [result.response], file;
      }
      RunningStep(req, env, offsets, reported, offset);
      offsets, reported := offsets + [offset], reported + [result.response];
      offset := result.response.processed;
    }
  }

  // ---------------------------------------------------------------- what a whole run does

  /** The id slices a run's requests process, in the order they were sent. */
  function Chunks(req: Rest.BulkRequest, offsets: seq<nat>): (cs: seq<seq<int>>)
    ensures |cs| == |offsets|
    ensures forall k :: 0 <= k < |cs| ==> cs[k] == Window(req.ids, req.chunk, offsets[k])
  {
    seq(|offsets|, k requires 0 <= k < |offsets| => Window(req.ids, req.chunk, offsets[k]))
  }

  lemma ChunksSnoc(req: Rest.BulkRequest, offsets: seq<nat>, offset: nat)
    ensures Chunks(req, offsets + [offset]) == Chunks(req, offsets) + [Window(req.ids, req.chunk, offset)]
  {
  }

  lemma {:induction false} FlattenSnoc<T>(ss: seq<seq<T>>, s: seq<T>)
    ensures Flatten(ss + [s]) == Flatten(ss) + s
  {
    if ss == [] {
      assert [] + [s] == [s];
      assert Flatten([s]) == s + Flatten([s][1..]);
    } else {
      assert (ss + [s])[1..] == ss[1..] + [s];
      FlattenSnoc(ss[1..], s);
    }
  }

  /** The prefix of the id list before the j-th multiple of the chunk, followed by the chunk there, is the prefix before the next one. */
  lemma NextWindow(ids: seq<int>, c: nat, j: nat)
    requires c > 0
    ensures ids[..Min(j * c, |ids|)] + Window(ids, c, j * c) == ids[..Min((j + 1) * c, |ids|)]
  {
    MulStep(j, c);
    if j * c < |ids| {
      assert ids[..j * c] + ids[j * c..Min(j * c + c, |ids|)] == ids[..Min(j * c + c, |ids|)];
    }
  }

  /** Requests at 0, c, 2c, … process, between them, exactly the ids before the next multiple of c. */
  lemma {:induction false} ChunksPrefix(req: Rest.BulkRequest, offsets: seq<nat>)
    requires req.chunk > 0
    requires forall k :: 0 <= k < |offsets| ==> offsets[k] == k * req.chunk
    ensures Flatten(Chunks(req, offsets)) == req.ids[..Min(|offsets| * req.chunk, |req.ids|)]
  {
    if offsets != [] {
      var m := |offsets| - 1;
      var init := offsets[..m];
      ChunksPrefix(req, init);
      assert offsets == init + [m * req.chunk];
      ChunksSnoc(req, init, m * req.chunk);
      FlattenSnoc(Chunks(req, init), Window(req.ids, req.chunk, m * req.chunk));
      NextWindow(req.ids, req.chunk, m);
    }
  }

  /** The requests of a run that resolves process every id once, in order: their slices concatenate to the id list. */
  lemma RunCoversIds(req: Rest.BulkRequest, env: Bulk.ExportEnv, offsets: seq<nat>, reported: seq<Bulk.BulkResponse>)
    requires Trace(req, env, offsets, reported) && req.chunk > 0
    requires |offsets| * req.chunk >= |req.ids|
    ensures Flatten(Chunks(req, offsets)) == req.ids
  {
    ChunksPrefix(req, offsets);
  }

  /** The k-th response of an accepted run reports the ids up to the next multiple of the chunk, never more than the list holds. */
  lemma ReportedProgress(req: Rest.BulkRequest, env: Bulk.ExportEnv, offsets: seq<nat>, reported: seq<Bulk.BulkResponse>)
    requires Trace(req, env, offsets, reported) && req.chunk > 0
    requires |offsets| >= 1 && (|offsets| - 1) * req.chunk < |req.ids|
    ensures forall k :: 0 <= k < |reported| && reported[k].Progress? ==>
              reported[k].processed == Min((k + 1) * req.chunk, |req.ids|) <= |req.ids|
    ensures forall i, j :: 0 <= i < j < |reported| && reported[i].Progress? && reported[j].Progress? ==>
              reported[i].processed < reported[j].processed
  {
    forall k | 0 <= k < |reported| && reported[k].Progress?
      ensures reported[k].processed == Min((k + 1) * req.chunk, |req.ids|)
    {
      ReportedAt(req, env, offsets, reported, k);
    }
    forall i, j | 0 <= i < j < |reported| && reported[i].Progress? && reported[j].Progress?
      ensures reported[i].processed < reported[j].processed
    {
      ReportedAt(req, env, offsets, reported, i);
      ReportedAt(req, env, offsets, reported, j);
      ProcessedOrder(i, j, req.chunk, |req.ids|);
    }
  }

  lemma ProcessedOrder(i: nat, j: nat, c: nat, n: nat)
    requires i < j && c > 0 && j * c < n
    ensures Min((i + 1) * c, n) < Min((j + 1) * c, n)
  {
    MulStep(i, c);
    MulStep(j, c);
    MonotoneProduct(i + 1, j, c);
  }

  lemma ReportedAt(req: Rest.BulkRequest, env: Bulk.ExportEnv, offsets: seq<nat>, reported: seq<Bulk.BulkResponse>, k: nat)
    requires Trace(req, env, offsets, reported) && req.chunk > 0
    requires |offsets| >= 1 && (|offsets| - 1) * req.chunk < |req.ids|
    requires k < |reported| && reported[k].Progress?
    ensures reported[k].processed == Min((k + 1) * req.chunk, |req.ids|) && k * req.chunk < |req.ids|
  {
    MulStep(k, req.chunk);
    MonotoneProduct(k, |offsets| - 1, req.chunk);
    assert reported[k] == Answer(req, env, k * req.chunk);
  }

  lemma MonotoneProduct(a: nat, b: nat, c: nat)
    requires a <= b
    ensures a * c <= b * c
  {
  }

  /** A run post_bulk accepts can fail only on its first request, and then it has changed no table. */
  lemma OnlyFirstRequestFails(t: Store.Tables, req: Rest.BulkRequest, env: Bulk.ExportEnv, offsets: seq<nat>,
                              reported: seq<Bulk.BulkResponse>)
    requires Trace(req, env, offsets, reported) && |offsets| >= 1
    requires Rest.Rejection(req).None?
    requires Answer(req, env, offsets[|offsets| - 1]).Failure?
    ensures offsets == [0]
    ensures Applied(t, req, offsets) == t
  {
    var last := |offsets| - 1;
    FailureAtFirst(req, env, offsets[last]);
    PositiveProduct(last, req.chunk);
    TraceFirst(req, env, offsets, reported);
    assert last == 0;
    assert offsets == [] + [0];
    AppliedNext(t, req, [], 0);
    Bulk.FailureWritesNothing(t, req.action, req.ids, req.tagIds, req.listIds, 0, req.chunk, env);
  }

  lemma TraceFirst(req: Rest.BulkRequest, env: Bulk.ExportEnv, offsets: seq<nat>, reported: seq<Bulk.BulkResponse>)
    requires Trace(req, env, offsets, reported)
    ensures |offsets| >= 2 ==> Answer(req, env, 0).Progress?
  {
    if |offsets| >= 2 {
      assert offsets[0] == 0 * req.chunk;
    }
  }

  lemma PositiveProduct(a: nat, c: nat)
    ensures a >= 1 && c >= 1 ==> a * c >= c
  {
  }

  /** Whether a chunk fails depends on the offset only through the export's first chunk. */
  lemma FailureAtFirst(req: Rest.BulkRequest, env: Bulk.ExportEnv, offset: nat)
    requires Rest.Rejection(req).None? && Answer(req, env, offset).Failure?
    ensures offset == 0 || Answer(req, env, 0).Failure?
  {
  }

  function Cross(sids: seq<int>, tids: seq<int>): set<(int, int)>
  {
    set s, g | s in sids && g in tids :: (s, g)
  }

  /** add_tag over any requests: the old pairs plus every processed id with every tag. */
  lemma {:induction false} ChunkedAddTag(t: Store.Tables, req: Rest.BulkRequest, offsets: seq<nat>)
    requires req.action == "add_tag" && req.tagIds != []
    ensures Store.TagPairs(Chunked(t, req, offsets).subscriberTags) ==
            Store.TagPairs(t.subscriberTags) + Cross(Flatten(Chunks(req, offsets)), req.tagIds)
    decreases |offsets|
  {
    if offsets != [] {
      var init, w := ChunkedLast(t, req, offsets);
      ChunkedAddTag(t, req, init);
      if w != [] {
        Bulk.AddTagPairs(Chunked(t, req, init), w, req.tagIds);
      }
      CrossAppend(Flatten(Chunks(req, init)), w, req.tagIds);
    }
  }

  /** A run's tables are the last request's effect on the tables of the requests before it. */
  lemma ChunkedLast(t: Store.Tables, req: Rest.BulkRequest, offsets: seq<nat>) returns (init: seq<nat>, w: seq<int>)
    requires offsets != []
    ensures |init| < |offsets|
    ensures Chunked(t, req, offsets) == Bulk.ExecuteEffect(Chunked(t, req, init), req.action, w, req.tagIds, req.listIds)
    ensures Flatten(Chunks(req, offsets)) == Flatten(Chunks(req, init)) + w
  {
    var m := |offsets| - 1;
    init, w := offsets[..m], Window(req.ids, req.chunk, offsets[m]);
    assert offsets == init + [offsets[m]];
    ChunksSnoc(req, init, offsets[m]);
    FlattenSnoc(Chunks(req, init), w);
  }

  lemma CrossAppend(a: seq<int>, b: seq<int>, tids: seq<int>)
    ensures Cross(a + b, tids) == Cross(a, tids) + Cross(b, tids)
  {
  }

  /** remove_tag over any requests: a link survives iff it was there and does not pair a processed id with a tag. */
  lemma {:induction false} ChunkedRemoveTag(t: Store.Tables, req: Rest.BulkRequest, offsets: seq<nat>, l: Store.TagLink)
    requires req.action == "remove_tag" && req.tagIds != []
    ensures l in Chunked(t, req, offsets).subscriberTags <==>
            l in t.subscriberTags && !(l.subscriberId in Flatten(Chunks(req, offsets)) && l.tagId in req.tagIds)
    decreases |offsets|
  {
    if offsets != [] {
      var init, w := ChunkedLast(t, req, offsets);
      ChunkedRemoveTag(t, req, init, l);
      if w != [] {
        Bulk.RemoveTagLinks(Chunked(t, req, init), w, req.tagIds, l);
      }
    }
  }

  /** add_list over any requests: a missing membership of a processed id in a list appears "subscribed"; every other keeps its status. */
  lemma {:induction false} ChunkedAddList(t: Store.Tables, req: Rest.BulkRequest, offsets: seq<nat>, sid: int, lid: int)
    requires req.action == "add_list" && req.listIds != []
    ensures var before := Store.SegmentStatus(t.subscriberSegments, sid, lid);
            Store.SegmentStatus(Chunked(t, req, offsets).subscriberSegments, sid, lid) ==
              if before.None? && sid in Flatten(Chunks(req, offsets)) && lid in req.listIds then Some("subscribed") else before
    decreases |offsets|
  {
    if offsets != [] {
      var init, w := ChunkedLast(t, req, offsets);
      ChunkedAddList(t, req, init, sid, lid);
      if w != [] {
        Bulk.AddListStatus(Chunked(t, req, init), w, req.listIds, sid, lid);
      }
    }
  }

  /** remove_list over any requests: exactly the memberships of processed ids in the lists disappear. */
  lemma {:induction false} ChunkedRemoveList(t: Store.Tables, req: Rest.BulkRequest, offsets: seq<nat>, sid: int, lid: int)
    requires req.action == "remove_list" && req.listIds != []
    ensures Store.SegmentStatus(Chunked(t, req, offsets).subscriberSegments, sid, lid) ==
            if sid in Flatten(Chunks(req, offsets)) && lid in req.listIds then None
            else Store.SegmentStatus(t.subscriberSegments, sid, lid)
    decreases |offsets|
  {
    if offsets != [] {
      var init, w := ChunkedLast(t, req, offsets);
      ChunkedRemoveList(t, req, init, sid, lid);
      if w != [] {
        Bulk.RemoveListStatus(Chunked(t, req, init), w, req.listIds, sid, lid);
      }
    }
  }

  /** unsubscribe over any requests: the statuses of exactly the processed ids become "unsubscribed". */
  lemma {:induction false} ChunkedUnsubscribe(t: Store.Tables, req: Rest.BulkRequest, offsets: seq<nat>)
    requires req.action == "unsubscribe"
    ensures Chunked(t, req, offsets).subscribers ==
            Store.SetStatus(t.subscribers, Flatten(Chunks(req, offsets)), "unsubscribed")
    decreases |offsets|
  {
    if offsets == [] {
      SetStatusNone(t.subscribers, "unsubscribed");
    } else {
      var init, w := ChunkedLast(t, req, offsets);
      ChunkedUnsubscribe(t, req, init);
      UnsubscribeEffect(Chunked(t, req, init), w, req.tagIds, req.listIds);
      SetStatusTwice(t.subscribers, Flatten(Chunks(req, init)), w, "unsubscribed");
    }
  }

  lemma SetStatusNone(subscribers: seq<Store.Subscriber>, value: string)
    ensures Store.SetStatus(subscribers, [], value) == subscribers
  {
    var r := Store.SetStatus(subscribers, [], value);
    assert forall i :: 0 <= i < |r| ==> r[i] == subscribers[i];
  }

  lemma UnsubscribeEffect(t: Store.Tables, w: seq<int>, tagIds: seq<int>, listIds: seq<int>)
    ensures Bulk.ExecuteEffect(t, "unsubscribe", w, tagIds, listIds).subscribers == Store.SetStatus(t.subscribers, w, "unsubscribed")
  {
    if w == [] {
      SetStatusNone(t.subscribers, "unsubscribed");
    }
  }

  lemma SetStatusTwice(subscribers: seq<Store.Subscriber>, a: seq<int>, b: seq<int>, value: string)
    ensures Store.SetStatus(Store.SetStatus(subscribers, a, value), b, value) == Store.SetStatus(subscribers, a + b, value)
  {
    var twice := Store.SetStatus(Store.SetStatus(subscribers, a, value), b, value);
    var both := Store.SetStatus(subscribers, a + b, value);
    assert forall i :: 0 <= i < |both| ==> twice[i] == both[i];
  }

  /** What a resolved run leaves: every tag linked to every id of the request, and no other new pair. */
  lemma AddTagRun(t: Store.Tables, req: Rest.BulkRequest, env: Bulk.ExportEnv, offsets: seq<nat>,
                  reported: seq<Bulk.BulkResponse>)
    requires Trace(req, env, offsets, reported) && req.chunk > 0 && |offsets| * req.chunk >= |req.ids|
    requires Rest.Rejection(req).None? && req.action == "add_tag" && req.tagIds != []
    ensures Store.TagPairs(Applied(t, req, offsets).subscriberTags) ==
            Store.TagPairs(t.subscriberTags) + Cross(req.ids, req.tagIds)
  {
    RunCoversIds(req, env, offsets, reported);
    ChunkedAddTag(t, req, offsets);
  }

  lemma RemoveTagRun(t: Store.Tables, req: Rest.BulkRequest, env: Bulk.ExportEnv, offsets: seq<nat>,
                     reported: seq<Bulk.BulkResponse>, l: Store.TagLink)
    requires Trace(req, env, offsets, reported) && req.chunk > 0 && |offsets| * req.chunk >= |req.ids|
    requires Rest.Rejection(req).None? && req.action == "remove_tag" && req.tagIds != []
    ensures l in Applied(t, req, offsets).subscriberTags <==>
            l in t.subscriberTags && !(l.subscriberId in req.ids && l.tagId in req.tagIds)
  {
    RunCoversIds(req, env, offsets, reported);
    ChunkedRemoveTag(t, req, offsets, l);
  }

  lemma AddListRun(t: Store.Tables, req: Rest.BulkRequest, env: Bulk.ExportEnv, offsets: seq<nat>,
                   reported: seq<Bulk.BulkResponse>, sid: int, lid: int)
    requires Trace(req, env, offsets, reported) && req.chunk > 0 && |offsets| * req.chunk >= |req.ids|
    requires Rest.Rejection(req).None? && req.action == "add_list" && req.listIds != []
    ensures var before := Store.SegmentStatus(t.subscriberSegments, sid, lid);
            Store.SegmentStatus(Applied(t, req, offsets).subscriberSegments, sid, lid) ==
              if before.None? && sid in req.ids && lid in req.listIds then Some("subscribed") else before
  {
    RunCoversIds(req, env, offsets, reported);
    ChunkedAddList(t, req, offsets, sid, lid);
  }

  lemma RemoveListRun(t: Store.Tables, req: Rest.BulkRequest, env: Bulk.ExportEnv, offsets: seq<nat>,
                      reported: seq<Bulk.BulkResponse>, sid: int, lid: int)
    requires Trace(req, env, offsets, reported) && req.chunk > 0 && |offsets| * req.chunk >= |req.ids|
    requires Rest.Rejection(req).None? && req.action == "remove_list" && req.listIds != []
    ensures Store.SegmentStatus(Applied(t, req, offsets).subscriberSegments, sid, lid) ==
            if sid in req.ids && lid in req.listIds then None else Store.SegmentStatus(t.subscriberSegments, sid, lid)
  {
    RunCoversIds(req, env, offsets, reported);
    ChunkedRemoveList(t, req, offsets, sid, lid);
  }

  lemma UnsubscribeRun(t: Store.Tables, req: Rest.BulkRequest, env: Bulk.ExportEnv, offsets: seq<nat>,
                       reported: seq<Bulk.BulkResponse>)
    requires Trace(req, env, offsets, reported) && req.chunk > 0 && |offsets| * req.chunk >= |req.ids|
    requires Rest.Rejection(req).None? && req.action == "unsubscribe"
    ensures Applied(t, req, offsets).subscribers == Store.SetStatus(t.subscribers, req.ids, "unsubscribed")
  {
    RunCoversIds(req, env, offsets, reported);
    ChunkedUnsubscribe(t, req, offsets);
  }

  /** The server never sees more ids than the body holds: sanitizing only drops ids. */
  lemma SanitizedNoLonger(body: BulkBody, clean: string -> string)
    ensures |ServerRequest(body, clean).ids| <= |body.ids|
  {
  }
}
