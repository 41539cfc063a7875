/** The menu item list, `components/menu/ListaItems.tsx`: the category filter,
    the text search, clearing it, the effect that re-filters while the search box
    is blank, and what the list shows. */
module ListaItems {
  import opened Wrappers
  import opened Types
  import opened Text
  import opened Catalog

  const LOAD_ERROR: string := "Error al cargar el menú. Intenta de nuevo."
  const SEARCH_ERROR: string := "Error al buscar. Intenta de nuevo."
  const NO_RESULTS_MESSAGE: string := "No se encontraron resultados"
  const EMPTY_CATEGORY_MESSAGE: string := "No hay items disponibles en esta categoría"

  datatype View = View(
    items: seq<Item>,
    filteredItems: seq<Item>,
    selectedCategory: CategoryFilter,
    searchText: string,
    loading: bool,
    error: string)

  const INITIAL: View := View([], [], TODOS, "", true, "")

  /** `loadItems`: the fetched items become both the full and the shown list. */
  function LoadItems(v: View, response: Remote<seq<Item>>): (r: View)
    ensures !r.loading && r.selectedCategory == v.selectedCategory && r.searchText == v.searchText
    ensures response.Ok? ==> r.items == response.value && r.filteredItems == response.value && r.error == ""
    ensures response.Failed? ==> r.items == v.items && r.filteredItems == v.filteredItems && r.error == LOAD_ERROR
  {
    match response
    case Ok(data) => v.(items := data, filteredItems := data, loading := false, error := "")
    case Failed(_, _) => v.(loading := false, error := LOAD_ERROR)
  }

  /** `filterItems`: the shown list becomes the items of the selected category, in order. */
  function FilterItems(v: View): (r: View)
    ensures r.selectedCategory == TODOS ==> r.filteredItems == v.items
    ensures r.selectedCategory.Only? ==>
      forall x :: x in r.filteredItems <==> x in v.items && x.categoria == r.selectedCategory.categoria
    ensures r == v.(filteredItems := r.filteredItems)
  {
    v.(filteredItems := FilterByCategory(v.items, v.selectedCategory))
  }

  /** `handleSearch`: a blank text filters by category without any call; otherwise
      the search is sent with the text as typed, and its results replace the shown
      list and reset the category to 'TODOS', or its failure sets the search error. */
  function HandleSearch(v: View, response: Remote<seq<Item>>): (r: (Option<string>, View))
    ensures r.0.None? <==> IsBlank(v.searchText)
    ensures r.0.None? ==> r.1 == FilterItems(v)
    ensures r.0.Some? ==> r.0.value == v.searchText
    ensures r.0.Some? && response.Ok? ==>
      r.1 == v.(filteredItems := response.value, selectedCategory := TODOS)
    ensures r.0.Some? && response.Failed? ==> r.1 == v.(error := SEARCH_ERROR)
  {
    TrimEmptyIffBlank(v.searchText);
    if Trim(v.searchText) == [] then (None, FilterItems(v))
    else match response
      case Ok(results) => (Some(v.searchText), v.(filteredItems := results, selectedCategory := TODOS))
      case Failed(_, _) => (Some(v.searchText), v.(error := SEARCH_ERROR))
  }

  /** `handleClearSearch`: the text is emptied and the category filter reapplied
      with the category still selected. */
  function ClearSearch(v: View): (r: View)
    ensures r.searchText == ""
    ensures r.filteredItems == FilterByCategory(v.items, v.selectedCategory)
    ensures r == v.(searchText := "", filteredItems := r.filteredItems)
  {
    FilterItems(v.(searchText := ""))
  }

  /** The effect on category, items and search text: while the text is blank the
      filter is reapplied; otherwise the shown list is left alone. */
  function RefilterEffect(v: View): (r: View)
    ensures IsBlank(v.searchText) ==> r == FilterItems(v)
    ensures !IsBlank(v.searchText) ==> r == v
  {
    TrimEmptyIffBlank(v.searchText);
    if Trim(v.searchText) == [] then FilterItems(v) else v
  }

  /** Search results survive the effect that the category reset triggers, since
      the search text that produced them is not blank. */
  lemma SearchResultsSurviveEffect(v: View, results: seq<Item>)
    requires !IsBlank(v.searchText)
    ensures RefilterEffect(HandleSearch(v, Ok(results)).1).filteredItems == results
  {
  }

  /** After clearing, the effect changes nothing more: it computes the same list. */
  lemma ClearThenEffectIsStable(v: View)
    ensures RefilterEffect(ClearSearch(v)) == ClearSearch(v)
  {
    assert IsBlank(ClearSearch(v).searchText);
  }

  /** The add-to-cart button is enabled exactly for available items. */
  function AddEnabled(item: Item): (enabled: bool)
    ensures enabled <==> item.disponibilidad
  {
    item.disponibilidad
  }

  /** The text under an empty list: search wording exactly when the search text is non-empty. */
  function EmptyMessage(v: View): (m: Option<string>)
    ensures m.Some? <==> v.filteredItems == []
    ensures m == Some(NO_RESULTS_MESSAGE) <==> v.filteredItems == [] && v.searchText != ""
    ensures m == Some(EMPTY_CATEGORY_MESSAGE) <==> v.filteredItems == [] && v.searchText == ""
  {
    if v.filteredItems != [] then None
    else if v.searchText != "" then Some(NO_RESULTS_MESSAGE)
    else Some(EMPTY_CATEGORY_MESSAGE)
  }
}
