/** The sub-category list page: the `parent` query parameter picks either the parent
    selection grid or the table of that parent's sub-categories (filtered by search and
    status, 10 per page, with statistics over the parent's whole list). */
module SubCategoryList {
  import opened Text
  import opened Lists

  datatype SubCategory = SubCategory(id: string, name: string, slug: string, status: string, featured: bool,
                                     productsCount: nat)

  datatype Parent = Parent(id: string, name: string, status: string, productsCount: nat)

  const PARENT_LINK_PREFIX: string := "/category/sub-cat?parent="

  /** `parentId ? ... : ...`: a missing parameter and an empty one are both falsy. */
  predicate HasParent(parentId: Option<string>)
  {
    parentId.Some? && parentId.value != ""
  }

  /** `parentCategories[parentId]`, the parents keyed by their own id, in their written
      order. */
  function LookupParent(parents: seq<Parent>, id: string): (r: Option<Parent>)
    ensures r.Some? ==> r.value in parents && r.value.id == id
    ensures r.None? <==> forall i :: 0 <= i < |parents| ==> parents[i].id != id
    decreases |parents|
  {
    if parents == [] then None
    else if parents[0].id == id then Some(parents[0])
    else
      var r := LookupParent(parents[1..], id);
      assert forall i :: 1 <= i < |parents| ==> parents[i] == parents[1..][i - 1];
      r
  }

  /** `parentCategory`. */
  function ParentCategory(parents: seq<Parent>, parentId: Option<string>): (r: Option<Parent>)
    ensures !HasParent(parentId) ==> r.None?
    ensures HasParent(parentId) ==> r == LookupParent(parents, parentId.value)
  {
    if HasParent(parentId) then LookupParent(parents, parentId.value) else None
  }

  /** `subCategories`: `allSubCategories[parentId] || []`. */
  function SubCategoriesOf(all: map<string, seq<SubCategory>>, parentId: Option<string>): (r: seq<SubCategory>)
    ensures !HasParent(parentId) ==> r == []
    ensures HasParent(parentId) && parentId.value !in all ==> r == []
    ensures HasParent(parentId) && parentId.value in all ==> r == all[parentId.value]
  {
    if HasParent(parentId) && parentId.value in all then all[parentId.value] else []
  }

  function SearchFields(c: SubCategory): seq<SearchField>
  {
    [CaseInsensitive(c.name), CaseInsensitive(c.slug), CaseInsensitive(c.id)]
  }

  predicate Matches(c: SubCategory, q: Query)
    requires |q.filters| == 1
  {
    RowMatches(SearchFields(c), [c.status], q.searchTerm, q.filters)
  }

  /** Name, slug or id contain the term (ignoring case), and the status select is 'all' or
      equal. */
  lemma MatchesSpelledOut(c: SubCategory, q: Query)
    requires |q.filters| == 1
    ensures Matches(c, q) <==>
              (FieldMatches(CaseInsensitive(c.name), q.searchTerm) || FieldMatches(CaseInsensitive(c.slug), q.searchTerm)
               || FieldMatches(CaseInsensitive(c.id), q.searchTerm))
              && SelectMatches(q.filters[0], c.status)
  {
    AnyOfThree(CaseInsensitive(c.name), CaseInsensitive(c.slug), CaseInsensitive(c.id), q.searchTerm);
    assert q.filters == [q.filters[0]];
    OneSelect(q.filters[0], c.status);
  }

  /** `filteredSubCategories`. */
  function Filtered(subs: seq<SubCategory>, q: Query): (r: seq<SubCategory>)
    requires |q.filters| == 1
    ensures IsSubsequence(r, subs)
    ensures forall c :: c in r <==> c in subs && Matches(c, q)
    ensures forall c :: multiset(r)[c] == if Matches(c, q) then multiset(subs)[c] else 0
  {
    Filter(subs, (c: SubCategory) => Matches(c, q))
  }

  function Statuses(subs: seq<SubCategory>): (s: seq<string>)
    ensures |s| == |subs| && forall i :: 0 <= i < |subs| ==> s[i] == subs[i].status
  {
    seq(|subs|, i requires 0 <= i < |subs| => subs[i].status)
  }

  function FeaturedCount(subs: seq<SubCategory>): (n: nat)
    ensures n <= |subs|
    decreases |subs|
  {
    if subs == [] then 0 else (if subs[0].featured then 1 else 0) + FeaturedCount(subs[1..])
  }

  function TotalProducts(subs: seq<SubCategory>): nat
    decreases |subs|
  {
    if subs == [] then 0 else subs[0].productsCount + TotalProducts(subs[1..])
  }

  datatype Stats = Stats(total: nat, active: nat, featured: nat, totalProducts: nat)

  /** The four cards, over the parent's whole list. */
  function StatsOf(subs: seq<SubCategory>): (s: Stats)
    ensures s.total == |subs| && s.active <= s.total && s.featured <= s.total
    ensures s.active == CountOf(Statuses(subs), "Active") && s.totalProducts == TotalProducts(subs)
  {
    Stats(|subs|, CountOf(Statuses(subs), "Active"), FeaturedCount(subs), TotalProducts(subs))
  }

  /** A card of the parent selection grid. */
  datatype ParentCard = ParentCard(parent: Parent, subCount: nat, link: string)

  /** `allSubCategories[parent.id]?.length || 0` for each parent, in order. */
  function ParentCards(parents: seq<Parent>, all: map<string, seq<SubCategory>>): (cards: seq<ParentCard>)
    ensures |cards| == |parents|
    ensures forall i :: 0 <= i < |parents| ==>
              cards[i].parent == parents[i] && cards[i].link == PARENT_LINK_PREFIX + parents[i].id
              && cards[i].subCount == (if parents[i].id in all then |all[parents[i].id]| else 0)
  {
    seq(|parents|, i requires 0 <= i < |parents| =>
      ParentCard(parents[i], if parents[i].id in all then |all[parents[i].id]| else 0, PARENT_LINK_PREFIX + parents[i].id))
  }

  /** What the page renders. */
  datatype View =
    | ParentSelection(cards: seq<ParentCard>)
    | SubCategoryTable(parent: Option<Parent>, rows: seq<SubCategory>, stats: Stats, pagerShown: bool)

  function Render(parents: seq<Parent>, all: map<string, seq<SubCategory>>, parentId: Option<string>, q: Query): (v: View)
    requires |q.filters| == 1
    ensures v.ParentSelection? <==> !HasParent(parentId)
    ensures v.ParentSelection? ==> v.cards == ParentCards(parents, all)
    ensures v.SubCategoryTable? ==>
              v.parent == ParentCategory(parents, parentId)
              && v.rows == PageItems(Filtered(SubCategoriesOf(all, parentId), q), q.currentPage)
              && v.stats == StatsOf(SubCategoriesOf(all, parentId))
              && (v.pagerShown <==> |Filtered(SubCategoriesOf(all, parentId), q)| > ITEMS_PER_PAGE)
  {
    if !HasParent(parentId) then ParentSelection(ParentCards(parents, all))
    else
      var subs := SubCategoriesOf(all, parentId);
      var filtered := Filtered(subs, q);
      SubCategoryTable(ParentCategory(parents, parentId), PageItems(filtered, q.currentPage), StatsOf(subs),
                       PagerShown(|filtered|))
  }

  /** A parent id with no list (or an unknown one) shows an empty table with zero
      statistics, whatever the search. */
  lemma UnknownParentIsEmpty(parents: seq<Parent>, all: map<string, seq<SubCategory>>, id: string, q: Query)
    requires |q.filters| == 1 && id != "" && id !in all
    ensures var v := Render(parents, all, Some(id), q);
            v.SubCategoryTable? && v.rows == [] && v.stats == Stats(0, 0, 0, 0) && !v.pagerShown
  {
    assert Statuses([]) == [];
  }

  /** Each card of the grid links to that parent's table, and that table lists exactly the
      parent's sub-categories (before filtering) that the card counts. */
  lemma CardLeadsToItsList(parents: seq<Parent>, all: map<string, seq<SubCategory>>, i: nat)
    requires i < |parents| && parents[i].id != ""
    ensures |SubCategoriesOf(all, Some(parents[i].id))| == ParentCards(parents, all)[i].subCount
    ensures ParentCards(parents, all)[i].link == PARENT_LINK_PREFIX + parents[i].id
  {
  }
}
