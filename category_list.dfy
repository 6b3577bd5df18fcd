/** The category list page: parents filtered by search, status and type, each expanded
    parent followed by its sub-categories, 10 rows per page, and the header statistics. */
module CategoryList {
  import opened Lists
  import SeqOps

  /** A category record; `kind` is its `type` ('Parent' or 'Sub'). A missing
      `subCategories` is the empty list: both add no rows and count 0. */
  datatype Category = Category(id: string, name: string, slug: string, kind: string, status: string,
                               productsCount: nat, subCategories: seq<Category>)

  const STATUS_FILTER: nat := 0
  const TYPE_FILTER: nat := 1

  function SearchFields(c: Category): seq<SearchField>
  {
    [CaseInsensitive(c.name), CaseInsensitive(c.slug), CaseInsensitive(c.id)]
  }

  /** The row's values for the status and the type select. */
  function SelectValues(c: Category): seq<string>
  {
    [c.status, c.kind]
  }

  predicate Matches(c: Category, q: Query)
    requires |q.filters| == 2
  {
    RowMatches(SearchFields(c), SelectValues(c), q.searchTerm, q.filters)
  }

  /** The page's own `filter` callback: name, slug or id contain the term (ignoring case),
      and each select is 'all' or equal. */
  lemma MatchesSpelledOut(c: Category, q: Query)
    requires |q.filters| == 2
    ensures Matches(c, q) <==>
              (FieldMatches(CaseInsensitive(c.name), q.searchTerm) || FieldMatches(CaseInsensitive(c.slug), q.searchTerm)
               || FieldMatches(CaseInsensitive(c.id), q.searchTerm))
              && SelectMatches(q.filters[STATUS_FILTER], c.status) && SelectMatches(q.filters[TYPE_FILTER], c.kind)
  {
    AnyOfThree(CaseInsensitive(c.name), CaseInsensitive(c.slug), CaseInsensitive(c.id), q.searchTerm);
    TwoSelects(q.filters, c.status, c.kind);
  }

  /** `filteredCategories`: top-level entries only. */
  function Filtered(data: seq<Category>, q: Query): (r: seq<Category>)
    requires |q.filters| == 2
    ensures IsSubsequence(r, data)
    ensures forall c :: c in r <==> c in data && Matches(c, q)
    ensures forall c :: multiset(r)[c] == if Matches(c, q) then multiset(data)[c] else 0
  {
    Filter(data, (c: Category) => Matches(c, q))
  }

  /** `toggleCategory`. */
  function ToggleCategory(expanded: seq<string>, id: string): (r: seq<string>)
    ensures id in r <==> id !in expanded
    ensures forall other :: other != id ==> (other in r <==> other in expanded)
  {
    SeqOps.Toggle(expanded, id)
  }

  /** Toggling twice restores which categories are expanded. */
  lemma ToggleTwiceRestores(expanded: seq<string>, id: string)
    ensures forall x :: x in ToggleCategory(ToggleCategory(expanded, id), id) <==> x in expanded
  {
  }

  /** The rows one category contributes to the flattened list. */
  function Entry(c: Category, expanded: seq<string>): seq<Category>
  {
    [c] + (if c.id in expanded then c.subCategories else [])
  }

  /** What `flattenCategories` returns. */
  function Flattened(cs: seq<Category>, expanded: seq<string>): seq<Category>
    decreases |cs|
  {
    if cs == [] then [] else Entry(cs[0], expanded) + Flattened(cs[1..], expanded)
  }

  lemma {:induction false} FlattenedAppend(a: seq<Category>, b: seq<Category>, expanded: seq<string>)
    ensures Flattened(a + b, expanded) == Flattened(a, expanded) + Flattened(b, expanded)
    decreases |a|
  {
    if a == [] {
      assert a + b == b;
    } else {
      assert (a + b)[0] == a[0];
      assert (a + b)[1..] == a[1..] + b;
      FlattenedAppend(a[1..], b, expanded);
    }
  }

  lemma FlattenedCons(c: Category, rest: seq<Category>, expanded: seq<string>)
    ensures Flattened([c] + rest, expanded) == Entry(c, expanded) + Flattened(rest, expanded)
  {
    assert ([c] + rest)[0] == c;
    assert ([c] + rest)[1..] == rest;
  }

  /** `flattenCategories`: one push per category, then its sub-categories when it is
      expanded. */
  method Flatten(cs: seq<Category>, expanded: seq<string>) returns (result: seq<Category>)
    ensures result == Flattened(cs, expanded)
  {
    result := [];
    var i := 0;
    while i < |cs|
      invariant 0 <= i <= |cs|
      invariant result == Flattened(cs[..i], expanded)
    {
      var category := cs[i];
      ghost var before := result;
      result := result + [category];
      if category.id in expanded {
        result := result + category.subCategories;
      }
      assert result == before + Entry(category, expanded);
      assert cs[..i + 1] == cs[..i] + [category];
      FlattenedAppend(cs[..i], [category], expanded);
      FlattenedCons(category, [], expanded);
      assert [category] + [] == [category];
      i := i + 1;
    }
    assert cs[..|cs|] == cs;
  }

  /** Each category is immediately followed by its sub-categories when expanded, with the
      categories before it and after it in their order. */
  lemma ChildrenFollowParent(cs: seq<Category>, expanded: seq<string>, i: nat)
    requires i < |cs|
    ensures Flattened(cs, expanded) ==
              Flattened(cs[..i], expanded) + [cs[i]] + (if cs[i].id in expanded then cs[i].subCategories else [])
              + Flattened(cs[i + 1..], expanded)
  {
    var left, c, right := cs[..i], cs[i], cs[i + 1..];
    var subs := if c.id in expanded then c.subCategories else [];
    calc {
      Flattened(cs, expanded);
    == { assert cs == left + ([c] + right); }
      Flattened(left + ([c] + right), expanded);
    == { FlattenedAppend(left, [c] + right, expanded); }
      Flattened(left, expanded) + Flattened([c] + right, expanded);
    == { FlattenedCons(c, right, expanded); }
      Flattened(left, expanded) + (([c] + subs) + Flattened(right, expanded));
    ==
      Flattened(left, expanded) + [c] + subs + Flattened(right, expanded);
    }
  }

  /** With nothing expanded the rows are the filtered categories themselves. */
  lemma {:induction false} NothingExpanded(cs: seq<Category>)
    ensures Flattened(cs, []) == cs
    decreases |cs|
  {
    if cs != [] {
      NothingExpanded(cs[1..]);
      assert cs == [cs[0]] + cs[1..];
    }
  }

  /** The sub-categories of the expanded categories, counted. */
  function ExpandedSubCount(cs: seq<Category>, expanded: seq<string>): nat
    decreases |cs|
  {
    if cs == [] then 0
    else (if cs[0].id in expanded then |cs[0].subCategories| else 0) + ExpandedSubCount(cs[1..], expanded)
  }

  /** The flattened length is the number of categories plus the sub-categories of the
      expanded ones. */
  lemma {:induction false} FlattenedLength(cs: seq<Category>, expanded: seq<string>)
    ensures |Flattened(cs, expanded)| == |cs| + ExpandedSubCount(cs, expanded)
    decreases |cs|
  {
    if cs != [] {
      FlattenedLength(cs[1..], expanded);
    }
  }

  /** `totalSubCategories`: `cat.subCategories?.length || 0`, added up. */
  function TotalSubCategories(data: seq<Category>): nat
    decreases |data|
  {
    if data == [] then 0 else |data[0].subCategories| + TotalSubCategories(data[1..])
  }

  function TotalProducts(data: seq<Category>): nat
    decreases |data|
  {
    if data == [] then 0 else data[0].productsCount + TotalProducts(data[1..])
  }

  function Statuses(data: seq<Category>): (s: seq<string>)
    ensures |s| == |data| && forall i :: 0 <= i < |data| ==> s[i] == data[i].status
  {
    seq(|data|, i requires 0 <= i < |data| => data[i].status)
  }

  /** The four header cards, from the unfiltered data. */
  datatype Stats = Stats(totalCategories: nat, subCategories: nat, totalProducts: nat, active: nat)

  function StatsOf(data: seq<Category>): (s: Stats)
    ensures s.totalCategories == |data| && s.active <= s.totalCategories
    ensures s.subCategories == TotalSubCategories(data) && s.totalProducts == TotalProducts(data)
    ensures s.active == CountOf(Statuses(data), "Active")
  {
    Stats(|data|, TotalSubCategories(data), TotalProducts(data), CountOf(Statuses(data), "Active"))
  }

  /** No more sub-category rows are shown than the header counts, and with every category
      expanded and nothing filtered out the rows are exactly the header's two totals. */
  lemma {:induction false} ExpandedCountBounded(cs: seq<Category>, expanded: seq<string>)
    ensures ExpandedSubCount(cs, expanded) <= TotalSubCategories(cs)
    ensures (forall i :: 0 <= i < |cs| ==> cs[i].id in expanded) ==>
              ExpandedSubCount(cs, expanded) == TotalSubCategories(cs)
    decreases |cs|
  {
    if cs != [] {
      ExpandedCountBounded(cs[1..], expanded);
      if forall i :: 0 <= i < |cs| ==> cs[i].id in expanded {
        assert forall i :: 0 <= i < |cs[1..]| ==> cs[1..][i] == cs[i + 1];
      }
    }
  }

  /** The rows of the table, before paging. */
  function Rows(data: seq<Category>, expanded: seq<string>, q: Query): seq<Category>
    requires |q.filters| == 2
  {
    Flattened(Filtered(data, q), expanded)
  }

  /** `currentCategories`: the rows of the current page, at most 10, in order. */
  function Visible(data: seq<Category>, expanded: seq<string>, q: Query): (r: seq<Category>)
    requires |q.filters| == 2
    ensures |r| <= ITEMS_PER_PAGE
    ensures q.currentPage >= 1 ==> (r == [] <==> StartIndex(q.currentPage) >= |Rows(data, expanded, q)|)
  {
    PageItems(Rows(data, expanded, q), q.currentPage)
  }

  /** The sub-categories of an expanded parent are shown whether or not they match the
      search: the filter applies to top-level entries only. */
  lemma SubCategoriesBypassFilter(data: seq<Category>, expanded: seq<string>, q: Query, i: nat, s: Category)
    requires |q.filters| == 2
    requires i < |data| && Matches(data[i], q) && data[i].id in expanded && s in data[i].subCategories
    ensures s in Rows(data, expanded, q)
  {
    var f := Filtered(data, q);
    assert data[i] in f;
    var k :| 0 <= k < |f| && f[k] == data[i];
    ChildrenFollowParent(f, expanded, k);
  }
}
