/** Category filtering of menu items, as both menu views do it. */
module Catalog {
  import opened Constants
  import opened Types
  import Seqs

  /** The category selector: 'TODOS' or one category. */
  datatype CategoryFilter = TODOS | Only(categoria: Categoria)

  /** `category === 'TODOS' ? items : items.filter(i => i.categoria === category)`. */
  function FilterByCategory(items: seq<Item>, f: CategoryFilter): (r: seq<Item>)
    ensures f == TODOS ==> r == items
    ensures f.Only? ==> forall x :: x in r <==> x in items && x.categoria == f.categoria
    ensures f.Only? ==> r == Seqs.Filter(items, (x: Item) => x.categoria == f.categoria)
    ensures |r| <= |items|
  {
    match f
    case TODOS => items
    case Only(c) => Seqs.Filter(items, (x: Item) => x.categoria == c)
  }

  /** Filtering the concatenation of two lists filters each one in turn: the kept
      items stay in the order they had. */
  lemma FilterKeepsOrder(a: seq<Item>, b: seq<Item>, f: CategoryFilter)
    ensures FilterByCategory(a + b, f) == FilterByCategory(a, f) + FilterByCategory(b, f)
  {
    if f.Only? {
      Seqs.FilterAppend(a, b, (x: Item) => x.categoria == f.categoria);
    }
  }

  /** Applying the same category filter twice is the same as applying it once. */
  lemma FilterIdempotent(items: seq<Item>, f: CategoryFilter)
    ensures FilterByCategory(FilterByCategory(items, f), f) == FilterByCategory(items, f)
  {
  }
}
