/**
 * The client's filter state (src/hooks/useSubscribers.js): the thirteen keys of the filters object,
 * its initial value, and a partial update object, whose present keys are what Object.keys returns.
 */
module Filters {
  import opened Common

  datatype Filters = Filters(
    page: int, perPage: int,
    search: string, status: string,
    tags: seq<int>, tagsMode: string,
    lists: seq<int>, listsMode: string,
    npa: string, npaMin: string, npaMax: string,
    sort: string, order: string)

  /** DEFAULT_FILTERS. */
  const DefaultFilters := Filters(1, 25, "", "", [], "any", [], "any", "", "", "", "created_at", "desc")

  /** An update object: a key is present exactly when its field is Some. */
  datatype Update = Update(
    page: Option<int>, perPage: Option<int>,
    search: Option<string>, status: Option<string>,
    tags: Option<seq<int>>, tagsMode: Option<string>,
    lists: Option<seq<int>>, listsMode: Option<string>,
    npa: Option<string>, npaMin: Option<string>, npaMax: Option<string>,
    sort: Option<string>, order: Option<string>)

  /** The empty update `{}`, from which the handlers build theirs. */
  const NoUpdate := Update(None, None, None, None, None, None, None, None, None, None, None, None, None)

  /** The nine keys whose change sends the listing back to page 1. */
  const FilterKeys: set<string> :=
    {"search", "status", "tags", "lists", "npa", "npa_min", "npa_max", "tags_mode", "lists_mode"}

  /** Whether the update object carries the key `k` (wire names). */
  predicate Has(u: Update, k: string)
  {
    match k
    case "page" => u.page.Some?
    case "per_page" => u.perPage.Some?
    case "search" => u.search.Some?
    case "status" => u.status.Some?
    case "tags" => u.tags.Some?
    case "tags_mode" => u.tagsMode.Some?
    case "lists" => u.lists.Some?
    case "lists_mode" => u.listsMode.Some?
    case "npa" => u.npa.Some?
    case "npa_min" => u.npaMin.Some?
    case "npa_max" => u.npaMax.Some?
    case "sort" => u.sort.Some?
    case "order" => u.order.Some?
    case _ => false
  }

  function Pick<T>(o: Option<T>, otherwise: T): T
  {
    if o.Some? then o.value else otherwise
  }
}
