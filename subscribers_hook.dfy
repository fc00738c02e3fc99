/**
 * useSubscribers (src/hooks/useSubscribers.js): the filters reducer with its page reset, the
 * debounced or immediate reload, and the request-id guard that drops superseded responses. The
 * timer and the arrival of responses are explicit events: TimerFires, Resolve and Reject.
 */
module SubscribersHook {
  import opened Common
  import opened Filters
  import Queries

  /** `{ ...prev, ...updates }`: every present key of the update wins. */
  function Merge(prev: Filters, u: Update): Filters
  {
    Filters(
      Pick(u.page, prev.page), Pick(u.perPage, prev.perPage),
      Pick(u.search, prev.search), Pick(u.status, prev.status),
      Pick(u.tags, prev.tags), Pick(u.tagsMode, prev.tagsMode),
      Pick(u.lists, prev.lists), Pick(u.listsMode, prev.listsMode),
      Pick(u.npa, prev.npa), Pick(u.npaMin, prev.npaMin), Pick(u.npaMax, prev.npaMax),
      Pick(u.sort, prev.sort), Pick(u.order, prev.order))
  }

  /** `Object.keys(updates).some(k => filterKeys.includes(k))`. */
  predicate IsFilterChange(u: Update)
  {
    exists k :: k in FilterKeys && Has(u, k)
  }

  /** The next filters: the merge, with the page forced to 1 when the update touches a filter key. */
  function NextFilters(prev: Filters, u: Update): (next: Filters)
    ensures IsFilterChange(u) ==> next.page == 1
    ensures !IsFilterChange(u) ==> next.page == Pick(u.page, prev.page)
    ensures next.(page := 0) == Merge(prev, u).(page := 0)
  {
    var next := Merge(prev, u);
    if IsFilterChange(u) then next.(page := 1) else next
  }

  /** The page is reset exactly when one of the nine filter keys is present, even if the update also sets page. */
  lemma PageResetRule(prev: Filters, u: Update)
    ensures IsFilterChange(u) <==>
            u.search.Some? || u.status.Some? || u.tags.Some? || u.lists.Some? || u.npa.Some? ||
            u.npaMin.Some? || u.npaMax.Some? || u.tagsMode.Some? || u.listsMode.Some?
    ensures IsFilterChange(u) ==> NextFilters(prev, u).page == 1
  {
    if u.status.Some? { assert Has(u, "status"); }
    if u.tags.Some? { assert Has(u, "tags"); }
    if u.lists.Some? { assert Has(u, "lists"); }
    if u.npaMin.Some? { assert Has(u, "npa_min"); }
    if u.npaMax.Some? { assert Has(u, "npa_max"); }
    if u.tagsMode.Some? { assert Has(u, "tags_mode"); }
    if u.listsMode.Some? { assert Has(u, "lists_mode"); }
    if u.search.Some? { assert Has(u, "search"); }
    if u.npa.Some? { assert Has(u, "npa"); }
  }

  /** An update of only page, per_page, sort or order keeps every filter and the requested page. */
  lemma PagingUpdateKeepsFilters(prev: Filters, u: Update)
    requires u.search.None? && u.status.None? && u.tags.None? && u.lists.None? && u.npa.None?
    requires u.npaMin.None? && u.npaMax.None? && u.tagsMode.None? && u.listsMode.None?
    ensures var next := NextFilters(prev, u);
            next == prev.(page := Pick(u.page, prev.page), perPage := Pick(u.perPage, prev.perPage),
                          sort := Pick(u.sort, prev.sort), order := Pick(u.order, prev.order))
  {
    PageResetRule(prev, u);
  }

  /** Applying the same update twice gives the same filters as applying it once. */
  lemma NextFiltersIdempotent(prev: Filters, u: Update)
    ensures NextFilters(NextFilters(prev, u), u) == NextFilters(prev, u)
  {
  }

  /** The response body of GET /subscribers, as the hook stores it. */
  datatype Page = Page(items: seq<Queries.Item>, total: int)

  const LoadFailed := "Failed to load subscribers."

  class SubscribersHook {
    var filters: Filters
    var data: Page
    var loading: bool
    var error: Option<string>
    /** The load the debounce timer will run, if one is scheduled. */
    var pending: Option<Filters>
    /** requestIdRef.current: the id of the latest load. */
    var requestId: nat
    /** The params of every fetchSubscribers call issued, in order; the i-th has id i + 1. */
    var sent: seq<Filters>

    ghost predicate Valid()
      reads this
    {
      requestId == |sent|
    }

    /** The state on first render, before the mount effect runs. */
    constructor ()
      ensures Valid()
      ensures filters == DefaultFilters && data == Page([], 0) && loading && error.None?
      ensures pending.None? && requestId == 0 && sent == []
    {
      filters := DefaultFilters;
      data := Page([], 0);
      loading := true;
      error := None;
      pending := None;
      requestId := 0;
      sent := [];
    }

    /** load(params): a fresh id above every earlier one, loading on, error cleared, the fetch issued. */
    method Load(params: Filters) returns (id: nat)
      requires Valid()
      modifies this
      ensures Valid()
      ensures id == requestId == old(requestId) + 1
      ensures sent == old(sent) + [params]
      ensures loading && error.None?
      ensures filters == old(filters) && data == old(data) && pending == old(pending)
    {
      requestId := requestId + 1;
      id := requestId;
      loading := true;
      error := None;
      sent := sent + [params];
    }

    /** The mount effect: load the initial filters. */
    method Mount() returns (id: nat)
      requires Valid()
      modifies this
      ensures Valid()
      ensures id == requestId == old(requestId) + 1 && sent == old(sent) + [old(filters)]
      ensures loading && error.None?
      ensures filters == old(filters) && data == old(data) && pending == old(pending)
    {
      id := Load(filters);
    }

    /** refresh: load the current filters now. */
    method Refresh() returns (id: nat)
      requires Valid()
      modifies this
      ensures Valid()
      ensures id == requestId == old(requestId) + 1 && sent == old(sent) + [old(filters)]
      ensures loading && error.None?
      ensures filters == old(filters) && data == old(data) && pending == old(pending)
    {
      id := Load(filters);
    }

    /**
     * updateFilters: compute the next filters, cancel any scheduled load, then load them now or
     * schedule exactly one load of them.
     */
    method UpdateFilters(updates: Update, immediate: bool)
      requires Valid()
      modifies this
      ensures Valid()
      ensures filters == NextFilters(old(filters), updates)
      ensures immediate ==> pending.None? && sent == old(sent) + [filters] && requestId == old(requestId) + 1
      ensures immediate ==> loading && error.None?
      ensures !immediate ==> pending == Some(filters) && sent == old(sent) && requestId == old(requestId)
      ensures !immediate ==> loading == old(loading) && error == old(error)
      ensures data == old(data)
    {
      var next := NextFilters(filters, updates);
      pending := None;
      if immediate {
        var _ := Load(next);
      } else {
        pending := Some(next);
      }
      filters := next;
    }

    /** The debounce timer fires: the scheduled load runs, once. */
    method TimerFires()
      requires Valid()
      modifies this
      ensures Valid()
      ensures pending.None?
      ensures old(pending).Some? ==> sent == old(sent) + [old(pending).value] && requestId == old(requestId) + 1
      ensures old(pending).Some? ==> loading && error.None?
      ensures old(pending).None? ==> sent == old(sent) && requestId == old(requestId)
      ensures old(pending).None? ==> loading == old(loading) && error == old(error)
      ensures filters == old(filters) && data == old(data)
    {
      if pending.Some? {
        var params := pending.value;
        pending := None;
        var _ := Load(params);
      }
    }

    /** A response arrives for load `id`: applied only if no later load has been issued. */
    method Resolve(id: nat, result: Page)
      requires Valid()
      modifies this
      ensures Valid()
      ensures id == old(requestId) ==> data == result && !loading && error == old(error)
      ensures id != old(requestId) ==> data == old(data) && loading == old(loading) && error == old(error)
      ensures filters == old(filters) && pending == old(pending) && requestId == old(requestId) && sent == old(sent)
    {
      if id == requestId {
        data := result;
        loading := false;
      }
    }

    /** A load fails: its message (or the default one) is shown only if no later load has been issued. */
    method Reject(id: nat, message: string)
      requires Valid()
      modifies this
      ensures Valid()
      ensures id == old(requestId) ==> error == Some(if message == "" then LoadFailed else message) && !loading
      ensures id != old(requestId) ==> error == old(error) && loading == old(loading)
      ensures data == old(data) && filters == old(filters) && pending == old(pending)
      ensures requestId == old(requestId) && sent == old(sent)
    {
      if id == requestId {
        error := Some(if message == "" then LoadFailed else message);
        loading := false;
      }
    }
  }
}
