/** The product list page: search over id, name, category and sub-category with a
    category select, 10 per page, and the stock counts. */
module ProductList {
  import opened Lists

  /** The fields of a product the page searches, filters and counts by; `status` is its
      stock state. */
  datatype Product = Product(id: string, name: string, category: string, subCategory: string, status: string)

  function SearchFields(p: Product): seq<SearchField>
  {
    [CaseInsensitive(p.id), CaseInsensitive(p.name), CaseInsensitive(p.category), CaseInsensitive(p.subCategory)]
  }

  /** The select filters by category, not by status. */
  predicate Matches(p: Product, q: Query)
    requires |q.filters| == 1
  {
    RowMatches(SearchFields(p), [p.category], q.searchTerm, q.filters)
  }

  /** Id, name, category or sub-category contain the term (ignoring case), and the
      category select is 'all' or equal. */
  lemma MatchesSpelledOut(p: Product, q: Query)
    requires |q.filters| == 1
    ensures Matches(p, q) <==>
              (FieldMatches(CaseInsensitive(p.id), q.searchTerm) || FieldMatches(CaseInsensitive(p.name), q.searchTerm)
               || FieldMatches(CaseInsensitive(p.category), q.searchTerm)
               || FieldMatches(CaseInsensitive(p.subCategory), q.searchTerm))
              && SelectMatches(q.filters[0], p.category)
  {
    AnyOfFour(CaseInsensitive(p.id), CaseInsensitive(p.name), CaseInsensitive(p.category),
              CaseInsensitive(p.subCategory), q.searchTerm);
    assert q.filters == [q.filters[0]];
    OneSelect(q.filters[0], p.category);
  }

  /** With a category picked, every product listed is of that category. */
  lemma CategoryFilterKeepsOnlyIt(data: seq<Product>, q: Query, p: Product)
    requires |q.filters| == 1 && q.filters[0] != "all" && p in Filtered(data, q)
    ensures p.category == q.filters[0]
  {
    MatchesSpelledOut(p, q);
  }

  /** `filteredProducts`. */
  function Filtered(data: seq<Product>, q: Query): (r: seq<Product>)
    requires |q.filters| == 1
    ensures IsSubsequence(r, data)
    ensures forall p :: p in r <==> p in data && Matches(p, q)
    ensures forall p :: multiset(r)[p] == if Matches(p, q) then multiset(data)[p] else 0
  {
    Filter(data, (p: Product) => Matches(p, q))
  }

  /** `currentProducts`. */
  function Visible(data: seq<Product>, q: Query): (r: seq<Product>)
    requires |q.filters| == 1
    ensures |r| <= ITEMS_PER_PAGE
    ensures forall p :: p in r ==> p in data && Matches(p, q)
    ensures q.currentPage >= 1 ==> (r == [] <==> StartIndex(q.currentPage) >= |Filtered(data, q)|)
  {
    PageItems(Filtered(data, q), q.currentPage)
  }

  function Statuses(data: seq<Product>): (s: seq<string>)
    ensures |s| == |data| && forall i :: 0 <= i < |data| ==> s[i] == data[i].status
  {
    seq(|data|, i requires 0 <= i < |data| => data[i].status)
  }

  datatype Stats = Stats(total: nat, inStock: nat, lowStock: nat, outOfStock: nat)

  /** `stats`, over the unfiltered products: a product in none of the three states counts
      only in the total. */
  function StatsOf(data: seq<Product>): (s: Stats)
    ensures s.total == |data|
    ensures s.inStock == CountOf(Statuses(data), "In Stock") && s.lowStock == CountOf(Statuses(data), "Low Stock")
    ensures s.outOfStock == CountOf(Statuses(data), "Out of Stock")
    ensures s.inStock + s.lowStock + s.outOfStock <= s.total
  {
    var st := Statuses(data);
    ThreeCountsAtMostLength(st, "In Stock", "Low Stock", "Out of Stock");
    Stats(|data|, CountOf(st, "In Stock"), CountOf(st, "Low Stock"), CountOf(st, "Out of Stock"))
  }
}
