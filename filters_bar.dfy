/**
 * FiltersBar (src/components/FiltersBar.js): the tag and list pickers, which translate between the
 * catalogue names the operator sees and the ids the filters hold, and the update each control sends
 * to updateFilters, debounced or immediate.
 */
module FiltersBar {
  import opened Common
  import opened Filters
  import Store
  import SubscribersHook

  // ---------------------------------------------------------------- names and ids

  /** `catalogue.find(t => t.id === id)?.name`: the name of the first entry with this id. */
  function NameOf(catalogue: seq<Store.Named>, id: int): (r: Option<string>)
    ensures r.Some? <==> exists k :: 0 <= k < |catalogue| && catalogue[k].id == id
    ensures r.Some? ==> exists k :: 0 <= k < |catalogue| && catalogue[k] == Store.Named(id, r.value)
  {
    if catalogue == [] then None
    else if catalogue[0].id == id then Some(catalogue[0].name)
    else
      var r := NameOf(catalogue[1..], id);
      assert forall k :: 1 <= k < |catalogue| ==> catalogue[k] == catalogue[1..][k - 1];
      r
  }

  /** `catalogue.find(t => t.name === name)?.id`: the id of the first entry with this name. */
  function IdOf(catalogue: seq<Store.Named>, name: string): (r: Option<int>)
    ensures r.Some? <==> exists k :: 0 <= k < |catalogue| && catalogue[k].name == name
    ensures r.Some? ==> exists k :: 0 <= k < |catalogue| && catalogue[k] == Store.Named(r.value, name)
  {
    if catalogue == [] then None
    else if catalogue[0].name == name then Some(catalogue[0].id)
    else
      var r := IdOf(catalogue[1..], name);
      assert forall k :: 1 <= k < |catalogue| ==> catalogue[k] == catalogue[1..][k - 1];
      r
  }

  /** selectedTagNames: each id's name, in order, dropping ids with no entry and empty names (`.filter(Boolean)`). */
  function NamesForIds(catalogue: seq<Store.Named>, ids: seq<int>): (r: seq<string>)
    ensures |r| <= |ids|
    ensures forall i :: 0 <= i < |r| ==> r[i] != "" && exists k :: 0 <= k < |catalogue| && catalogue[k].name == r[i]
  {
    if ids == [] then []
    else
      var n := NameOf(catalogue, ids[0]);
      (if n.Some? && n.value != "" then [n.value] else []) + NamesForIds(catalogue, ids[1..])
  }

  /** handleTagsChange: each name's id, in order, dropping names with no entry and the id 0 (`.filter(Boolean)`). */
  function IdsForNames(catalogue: seq<Store.Named>, names: seq<string>): (r: seq<int>)
    ensures |r| <= |names|
    ensures forall i :: 0 <= i < |r| ==> r[i] != 0 && exists k :: 0 <= k < |catalogue| && catalogue[k].id == r[i]
  {
    if names == [] then []
    else
      var d := IdOf(catalogue, names[0]);
      (if d.Some? && d.value != 0 then [d.value] else []) + IdsForNames(catalogue, names[1..])
  }

  /** A catalogue the pickers translate faithfully: ids and names are unique, ids non-zero and names non-empty. */
  predicate Faithful(catalogue: seq<Store.Named>)
  {
    && (forall i, j :: 0 <= i < j < |catalogue| ==> catalogue[i].id != catalogue[j].id)
    && (forall i, j :: 0 <= i < j < |catalogue| ==> catalogue[i].name != catalogue[j].name)
    && (forall i :: 0 <= i < |catalogue| ==> catalogue[i].id != 0 && catalogue[i].name != "")
  }

  lemma NameOfFaithful(catalogue: seq<Store.Named>, k: int)
    requires Faithful(catalogue) && 0 <= k < |catalogue|
    ensures NameOf(catalogue, catalogue[k].id) == Some(catalogue[k].name)
    ensures IdOf(catalogue, catalogue[k].name) == Some(catalogue[k].id)
  {
  }

  /** Ids the catalogue knows survive the trip to names (what the picker shows) and back (what it reports). */
  lemma {:induction false} IdsNamesRoundTrip(catalogue: seq<Store.Named>, ids: seq<int>)
    requires Faithful(catalogue)
    requires forall i :: 0 <= i < |ids| ==> exists k :: 0 <= k < |catalogue| && catalogue[k].id == ids[i]
    ensures IdsForNames(catalogue, NamesForIds(catalogue, ids)) == ids
  {
    if ids != [] {
      var k :| 0 <= k < |catalogue| && catalogue[k].id == ids[0];
      IdsNamesRoundTrip(catalogue, ids[1..]);
      IdsNamesStep(catalogue, ids, k);
    }
  }

  /** One known id in front of a list that already round-trips. */
  lemma IdsNamesStep(catalogue: seq<Store.Named>, ids: seq<int>, k: int)
    requires Faithful(catalogue) && ids != [] && 0 <= k < |catalogue| && catalogue[k].id == ids[0]
    requires IdsForNames(catalogue, NamesForIds(catalogue, ids[1..])) == ids[1..]
    ensures IdsForNames(catalogue, NamesForIds(catalogue, ids)) == ids
  {
    NameOfFaithful(catalogue, k);
    var rest := NamesForIds(catalogue, ids[1..]);
    assert NamesForIds(catalogue, ids) == [catalogue[k].name] + rest;
    assert ([catalogue[k].name] + rest)[1..] == rest;
    assert IdsForNames(catalogue, [catalogue[k].name] + rest) == [ids[0]] + IdsForNames(catalogue, rest);
    assert ids == [ids[0]] + ids[1..];
  }

  /** Names the catalogue knows survive the trip to ids and back. */
  lemma {:induction false} NamesIdsRoundTrip(catalogue: seq<Store.Named>, names: seq<string>)
    requires Faithful(catalogue)
    requires forall i :: 0 <= i < |names| ==> exists k :: 0 <= k < |catalogue| && catalogue[k].name == names[i]
    ensures NamesForIds(catalogue, IdsForNames(catalogue, names)) == names
  {
    if names != [] {
      var k :| 0 <= k < |catalogue| && catalogue[k].name == names[0];
      assert forall i :: 0 <= i < |names[1..]| ==> names[1..][i] == names[i + 1];
      NamesIdsRoundTrip(catalogue, names[1..]);
      NamesIdsStep(catalogue, names, k);
    }
  }

  /** One known name in front of a list that already round-trips. */
  lemma NamesIdsStep(catalogue: seq<Store.Named>, names: seq<string>, k: int)
    requires Faithful(catalogue) && names != [] && 0 <= k < |catalogue| && catalogue[k].name == names[0]
    requires NamesForIds(catalogue, IdsForNames(catalogue, names[1..])) == names[1..]
    ensures NamesForIds(catalogue, IdsForNames(catalogue, names)) == names
  {
    NameOfFaithful(catalogue, k);
    var rest := IdsForNames(catalogue, names[1..]);
    var d := catalogue[k].id;
    assert IdsForNames(catalogue, names) == [d] + rest;
    assert ([d] + rest)[1..] == rest;
    assert NamesForIds(catalogue, [d] + rest) == [names[0]] + NamesForIds(catalogue, rest);
  }

  // ---------------------------------------------------------------- the controls

  /** An edit of one control of the bar. */
  datatype Edit =
    | Search(text: string)
    | Status(value: string)
    | Tags(names: seq<string>)
    | TagsMode(value: string)
    | Lists(names: seq<string>)
    | ListsMode(value: string)
    | Npa(text: string)
    | NpaMin(text: string)
    | NpaMax(text: string)
    | Reset

  /** The arguments the control passes to onFilterChange (updateFilters): the update, and whether to load at once. */
  function Handle(tagCatalogue: seq<Store.Named>, listCatalogue: seq<Store.Named>, e: Edit): (Update, bool)
  {
    match e
    case Search(v) => (NoUpdate.(search := Some(v)), false)
    case Status(v) => (NoUpdate.(status := Some(v)), true)
    case Tags(names) => (NoUpdate.(tags := Some(IdsForNames(tagCatalogue, names))), true)
    case TagsMode(v) => (NoUpdate.(tagsMode := Some(v)), true)
    case Lists(names) => (NoUpdate.(lists := Some(IdsForNames(listCatalogue, names))), true)
    case ListsMode(v) => (NoUpdate.(listsMode := Some(v)), true)
    case Npa(v) => (NoUpdate.(npa := Some(v), npaMin := Some(""), npaMax := Some("")), false)
    case NpaMin(v) => (NoUpdate.(npaMin := Some(v), npa := Some("")), false)
    case NpaMax(v) => (NoUpdate.(npaMax := Some(v), npa := Some("")), false)
    case Reset =>
      (Update(Some(1), None, Some(""), Some(""), Some([]), Some("any"), Some([]), Some("any"),
              Some(""), Some(""), Some(""), None, None), true)
  }

  /** Typing in the search box or an NPA box is debounced; every other control reloads at once. */
  lemma ImmediateRule(tagCatalogue: seq<Store.Named>, listCatalogue: seq<Store.Named>, e: Edit)
    ensures !Handle(tagCatalogue, listCatalogue, e).1 <==> e.Search? || e.Npa? || e.NpaMin? || e.NpaMax?
  {
  }

  /** Every control of the bar edits a filter key, so each edit sends the listing back to page 1. */
  lemma EveryEditResetsPage(tagCatalogue: seq<Store.Named>, listCatalogue: seq<Store.Named>, e: Edit, prev: Filters)
    ensures SubscribersHook.IsFilterChange(Handle(tagCatalogue, listCatalogue, e).0)
    ensures SubscribersHook.NextFilters(prev, Handle(tagCatalogue, listCatalogue, e).0).page == 1
  {
    SubscribersHook.PageResetRule(prev, Handle(tagCatalogue, listCatalogue, e).0);
  }

  /** An exact NPA and an NPA bound are never both set. */
  predicate NpaExclusive(f: Filters)
  {
    !(f.npa != "" && (f.npaMin != "" || f.npaMax != ""))
  }

  /**
   * Editing the exact NPA clears both bounds and editing a bound clears the exact value, so after any
   * NPA edit the two are exclusive whatever came before; every other edit keeps them as they were.
   */
  lemma NpaEditsExclusive(tagCatalogue: seq<Store.Named>, listCatalogue: seq<Store.Named>, e: Edit, prev: Filters)
    ensures var next := SubscribersHook.NextFilters(prev, Handle(tagCatalogue, listCatalogue, e).0);
            && (e.Npa? || e.NpaMin? || e.NpaMax? || e.Reset? ==> NpaExclusive(next))
            && (e.Npa? ==> next.npa == e.text && next.npaMin == "" && next.npaMax == "")
            && (e.NpaMin? ==> next.npaMin == e.text && next.npa == "" && next.npaMax == prev.npaMax)
            && (e.NpaMax? ==> next.npaMax == e.text && next.npa == "" && next.npaMin == prev.npaMin)
            && (!(e.Npa? || e.NpaMin? || e.NpaMax? || e.Reset?) ==>
                  next.npa == prev.npa && next.npaMin == prev.npaMin && next.npaMax == prev.npaMax)
  {
  }

  /** The initial filters have no NPA value at all. */
  lemma DefaultsNpaExclusive()
    ensures NpaExclusive(DefaultFilters)
  {
  }

  /** Reset returns every filter and the page to their initial values and keeps the page size and the sort. */
  lemma ResetRestoresDefaults(tagCatalogue: seq<Store.Named>, listCatalogue: seq<Store.Named>, prev: Filters)
    ensures Handle(tagCatalogue, listCatalogue, Reset).1
    ensures SubscribersHook.NextFilters(prev, Handle(tagCatalogue, listCatalogue, Reset).0) ==
            DefaultFilters.(perPage := prev.perPage, sort := prev.sort, order := prev.order)
  {
    SubscribersHook.PageResetRule(prev, Handle(tagCatalogue, listCatalogue, Reset).0);
  }

  /** Picking tags by name stores exactly their ids and touches no other filter; lists likewise. */
  lemma PickersStoreIds(tagCatalogue: seq<Store.Named>, listCatalogue: seq<Store.Named>, names: seq<string>, prev: Filters)
    ensures SubscribersHook.NextFilters(prev, Handle(tagCatalogue, listCatalogue, Tags(names)).0) ==
            prev.(tags := IdsForNames(tagCatalogue, names), page := 1)
    ensures SubscribersHook.NextFilters(prev, Handle(tagCatalogue, listCatalogue, Lists(names)).0) ==
            prev.(lists := IdsForNames(listCatalogue, names), page := 1)
  {
    SubscribersHook.PageResetRule(prev, Handle(tagCatalogue, listCatalogue, Tags(names)).0);
    SubscribersHook.PageResetRule(prev, Handle(tagCatalogue, listCatalogue, Lists(names)).0);
  }
}
