/** What every list page does with its rows: a search term matched as a substring of some
    field, exact-or-'all' select filters, 10-per-page slicing with JavaScript's
    `Array.prototype.slice`, and counts of rows by a status value. Each page supplies its
    own field lists. */
module Lists {
  import opened Text

  const ITEMS_PER_PAGE: nat := 10

  /** A searchable field: matched with both sides lower-cased, or (the order phone
      number) as it is. */
  datatype SearchField = CaseInsensitive(text: string) | CaseSensitive(text: string)

  /** `field.toLowerCase().includes(term.toLowerCase())`, or `field.includes(term)`. */
  predicate FieldMatches(f: SearchField, term: string)
  {
    match f {
      case CaseInsensitive(t) => Contains(LowerStr(t), LowerStr(term))
      case CaseSensitive(t) => Contains(t, term)
    }
  }

  /** The `||` chain of a page's `matchesSearch`. */
  predicate AnyFieldMatches(fields: seq<SearchField>, term: string)
    decreases |fields|
  {
    fields != [] && (FieldMatches(fields[0], term) || AnyFieldMatches(fields[1..], term))
  }

  lemma {:induction false} AnyFieldMatchesIff(fields: seq<SearchField>, term: string)
    ensures AnyFieldMatches(fields, term) <==> exists i :: 0 <= i < |fields| && FieldMatches(fields[i], term)
    decreases |fields|
  {
    if fields != [] {
      AnyFieldMatchesIff(fields[1..], term);
      if AnyFieldMatches(fields[1..], term) {
        var i :| 0 <= i < |fields[1..]| && FieldMatches(fields[1..][i], term);
        assert FieldMatches(fields[i + 1], term);
      }
      if exists i :: 0 <= i < |fields| && FieldMatches(fields[i], term) {
        var i :| 0 <= i < |fields| && FieldMatches(fields[i], term);
        if i > 0 {
          assert fields[1..][i - 1] == fields[i];
        }
      }
    }
  }

  /** The first field is tried first, then the rest. */
  lemma AnyFieldMatchesCons(f: SearchField, fs: seq<SearchField>, term: string)
    ensures AnyFieldMatches([f] + fs, term) <==> FieldMatches(f, term) || AnyFieldMatches(fs, term)
  {
    assert ([f] + fs)[0] == f && ([f] + fs)[1..] == fs;
  }

  lemma AnyOfThree(a: SearchField, b: SearchField, c: SearchField, term: string)
    ensures AnyFieldMatches([a, b, c], term) <==> FieldMatches(a, term) || FieldMatches(b, term) || FieldMatches(c, term)
  {
    AnyFieldMatchesCons(a, [b, c], term);
    AnyFieldMatchesCons(b, [c], term);
    AnyFieldMatchesCons(c, [], term);
    assert [a, b, c] == [a] + [b, c] && [b, c] == [b] + [c] && [c] == [c] + [];
  }

  lemma AnyOfFour(a: SearchField, b: SearchField, c: SearchField, d: SearchField, term: string)
    ensures AnyFieldMatches([a, b, c, d], term) <==>
              FieldMatches(a, term) || FieldMatches(b, term) || FieldMatches(c, term) || FieldMatches(d, term)
  {
    AnyFieldMatchesCons(a, [b, c, d], term);
    AnyOfThree(b, c, d, term);
    assert [a, b, c, d] == [a] + [b, c, d];
  }

  lemma AnyOfFive(a: SearchField, b: SearchField, c: SearchField, d: SearchField, e: SearchField, term: string)
    ensures AnyFieldMatches([a, b, c, d, e], term) <==>
              FieldMatches(a, term) || FieldMatches(b, term) || FieldMatches(c, term) || FieldMatches(d, term)
              || FieldMatches(e, term)
  {
    AnyFieldMatchesCons(a, [b, c, d, e], term);
    AnyOfFour(b, c, d, e, term);
    assert [a, b, c, d, e] == [a] + [b, c, d, e];
  }

  /** The empty search keeps every row that has a field. */
  lemma EmptySearchMatches(fields: seq<SearchField>)
    requires fields != []
    ensures AnyFieldMatches(fields, "")
  {
    ContainsEmpty(fields[0].text);
    assert LowerStr("") == "";
    ContainsEmpty(LowerStr(fields[0].text));
  }

  /** A lower-cased field ignores the case of the search term. */
  lemma CaseInsensitiveIgnoresTermCase(t: string, term: string)
    ensures FieldMatches(CaseInsensitive(t), LowerStr(term)) == FieldMatches(CaseInsensitive(t), term)
  {
    LowerStrIdempotent(term);
  }

  /** `filter === 'all' || value === filter`. */
  predicate SelectMatches(filter: string, value: string)
  {
    filter == "all" || value == filter
  }

  /** Every select filter of a page against the row's value for it. */
  predicate AllSelectsMatch(filters: seq<string>, values: seq<string>)
    requires |filters| == |values|
  {
    forall i :: 0 <= i < |filters| ==> SelectMatches(filters[i], values[i])
  }

  lemma OneSelect(filter: string, value: string)
    ensures AllSelectsMatch([filter], [value]) <==> SelectMatches(filter, value)
  {
    assert [filter][0] == filter && [value][0] == value;
  }

  lemma TwoSelects(filters: seq<string>, v0: string, v1: string)
    requires |filters| == 2
    ensures AllSelectsMatch(filters, [v0, v1]) <==> SelectMatches(filters[0], v0) && SelectMatches(filters[1], v1)
  {
    assert [v0, v1][0] == v0 && [v0, v1][1] == v1;
  }

  /** `matchesSearch && matchesStatus && ...`. */
  predicate RowMatches(fields: seq<SearchField>, values: seq<string>, term: string, filters: seq<string>)
    requires |filters| == |values|
  {
    AnyFieldMatches(fields, term) && AllSelectsMatch(filters, values)
  }

  /** `r` is `xs` with some elements dropped and the rest in their order. */
  predicate IsSubsequence<T(==)>(r: seq<T>, xs: seq<T>)
    decreases |xs|
  {
    if r == [] then true
    else if xs == [] then false
    else (r[0] == xs[0] && IsSubsequence(r[1..], xs[1..])) || IsSubsequence(r, xs[1..])
  }

  /** `xs.filter(keep)`. */
  function Filter<T(==,!new)>(xs: seq<T>, keep: T -> bool): (r: seq<T>)
    ensures |r| <= |xs|
    ensures forall x :: x in r <==> x in xs && keep(x)
    ensures IsSubsequence(r, xs)
    ensures (forall x :: x in xs ==> keep(x)) ==> r == xs
    // every kept value keeps all its occurrences
    ensures forall x :: multiset(r)[x] == if keep(x) then multiset(xs)[x] else 0
    decreases |xs|
  {
    if xs == [] then []
    else
      var rest := Filter(xs[1..], keep);
      assert forall x :: x in xs <==> x == xs[0] || x in xs[1..];
      assert xs == [xs[0]] + xs[1..];
      assert multiset(xs) == multiset{xs[0]} + multiset(xs[1..]);
      if keep(xs[0]) then
        assert ([xs[0]] + rest)[1..] == rest;
        [xs[0]] + rest
      else rest
  }

  /** The number of entries equal to `v`: `rows.filter(r => r.status === v).length`. */
  function CountOf(xs: seq<string>, v: string): (n: nat)
    ensures n <= |xs|
    ensures n == multiset(xs)[v]
    decreases |xs|
  {
    if xs == [] then 0
    else
      assert xs == [xs[0]] + xs[1..];
      (if xs[0] == v then 1 else 0) + CountOf(xs[1..], v)
  }

  /** The counts of several statuses, added up. */
  function SumCounts(xs: seq<string>, vs: seq<string>): nat
    decreases |vs|
  {
    if vs == [] then 0 else CountOf(xs, vs[0]) + SumCounts(xs, vs[1..])
  }

  predicate Distinct(vs: seq<string>)
  {
    forall i, j :: 0 <= i < j < |vs| ==> vs[i] != vs[j]
  }

  /** Counts of different statuses never add up to more than the rows there are. */
  lemma {:induction false} SumCountsAtMostLength(xs: seq<string>, vs: seq<string>)
    requires Distinct(vs)
    ensures SumCounts(xs, vs) <= |xs|
    decreases |xs|
  {
    if xs != [] {
      SumCountsAtMostLength(xs[1..], vs);
      SumCountsStep(xs, vs);
      OneStatusEach(xs[0], vs);
    } else {
      SumCountsOfNothing(vs);
    }
  }

  lemma {:induction false} SumCountsOfNothing(vs: seq<string>)
    ensures SumCounts([], vs) == 0
    decreases |vs|
  {
    if vs != [] {
      SumCountsOfNothing(vs[1..]);
    }
  }

  /** One status value, counted against several distinct ones. */
  function Hits(x: string, vs: seq<string>): nat
    decreases |vs|
  {
    if vs == [] then 0 else (if x == vs[0] then 1 else 0) + Hits(x, vs[1..])
  }

  lemma {:induction false} OneStatusEach(x: string, vs: seq<string>)
    requires Distinct(vs)
    ensures Hits(x, vs) <= 1
    ensures x !in vs ==> Hits(x, vs) == 0
    decreases |vs|
  {
    if vs != [] {
      assert Distinct(vs[1..]) by {
        forall i, j | 0 <= i < j < |vs[1..]| ensures vs[1..][i] != vs[1..][j] {
          assert vs[1..][i] == vs[i + 1] && vs[1..][j] == vs[j + 1];
        }
      }
      OneStatusEach(x, vs[1..]);
      if x == vs[0] {
        assert x !in vs[1..] by {
          forall k | 0 <= k < |vs[1..]| ensures vs[1..][k] != x {
            assert vs[1..][k] == vs[k + 1];
          }
        }
      }
    }
  }

  lemma {:induction false} SumCountsStep(xs: seq<string>, vs: seq<string>)
    requires xs != []
    ensures SumCounts(xs, vs) == Hits(xs[0], vs) + SumCounts(xs[1..], vs)
    decreases |vs|
  {
    if vs != [] {
      SumCountsStep(xs, vs[1..]);
    }
  }

  /** Three different statuses never count more rows than there are. */
  lemma ThreeCountsAtMostLength(xs: seq<string>, a: string, b: string, c: string)
    requires a != b && a != c && b != c
    ensures CountOf(xs, a) + CountOf(xs, b) + CountOf(xs, c) <= |xs|
  {
    assert [a, b, c][1..] == [b, c] && [b, c][1..] == [c] && [c][1..] == [];
    SumCountsAtMostLength(xs, [a, b, c]);
  }

  /** Four different statuses never count more rows than there are. */
  lemma FourCountsAtMostLength(xs: seq<string>, a: string, b: string, c: string, d: string)
    requires a != b && a != c && a != d && b != c && b != d && c != d
    ensures CountOf(xs, a) + CountOf(xs, b) + CountOf(xs, c) + CountOf(xs, d) <= |xs|
  {
    var vs := [a, b, c, d];
    assert Distinct(vs);
    SumCountsAtMostLength(xs, vs);
    assert vs[1..] == [b, c, d] && [b, c, d][1..] == [c, d] && [c, d][1..] == [d] && [d][1..] == [];
    assert SumCounts(xs, [d]) == CountOf(xs, d);
    assert SumCounts(xs, [c, d]) == CountOf(xs, c) + CountOf(xs, d);
    assert SumCounts(xs, [b, c, d]) == CountOf(xs, b) + CountOf(xs, c) + CountOf(xs, d);
  }

  /** `Math.ceil(n / 10)`. */
  function TotalPages(n: nat): (t: nat)
    ensures t * ITEMS_PER_PAGE >= n
    ensures t == 0 || (t - 1) * ITEMS_PER_PAGE < n
    ensures t == 0 <==> n == 0
  {
    (n + ITEMS_PER_PAGE - 1) / ITEMS_PER_PAGE
  }

  /** `Array.prototype.slice(start, end)`: negative positions count from the end, and
      both positions are clipped to the length. */
  function Slice<T>(xs: seq<T>, start: int, end: int): (r: seq<T>)
    ensures |r| <= |xs|
    ensures 0 <= start <= end <= |xs| ==> r == xs[start..end]
    ensures -|xs| <= start < 0 && end >= |xs| ==> r == xs[|xs| + start..]
    ensures end <= start && (0 <= end || start < 0) ==> r == []
  {
    var s := Clip(start, |xs|);
    var e := Clip(end, |xs|);
    if e <= s then [] else xs[s..e]
  }

  function Clip(i: int, n: nat): (c: nat)
    ensures c <= n
    ensures 0 <= i <= n ==> c == i
    ensures i > n ==> c == n
  {
    if i < 0 then (if n + i < 0 then 0 else n + i) else if i > n then n else i
  }

  function StartIndex(page: int): int
  {
    (page - 1) * ITEMS_PER_PAGE
  }

  /** `rows.slice(startIndex, endIndex)` for the current page. */
  function PageItems<T>(xs: seq<T>, page: int): (r: seq<T>)
    ensures |r| <= ITEMS_PER_PAGE
    ensures page >= 1 ==> r == xs[Clip(StartIndex(page), |xs|)..Clip(StartIndex(page) + ITEMS_PER_PAGE, |xs|)]
    ensures page >= 1 ==> (r == [] <==> StartIndex(page) >= |xs|)
  {
    Slice(xs, StartIndex(page), StartIndex(page) + ITEMS_PER_PAGE)
  }

  /** Every row is on exactly one page: row `i` is entry `i % 10` of page `i / 10 + 1`,
      and that page is within `TotalPages`. */
  lemma RowIsOnItsPage<T>(xs: seq<T>, i: nat)
    requires i < |xs|
    ensures 1 <= i / ITEMS_PER_PAGE + 1 <= TotalPages(|xs|)
    ensures i % ITEMS_PER_PAGE < |PageItems(xs, i / ITEMS_PER_PAGE + 1)|
    ensures PageItems(xs, i / ITEMS_PER_PAGE + 1)[i % ITEMS_PER_PAGE] == xs[i]
  {
    var p := i / ITEMS_PER_PAGE + 1;
    assert StartIndex(p) == i - i % ITEMS_PER_PAGE;
  }

  /** The pages from 1 to `TotalPages` are the non-empty ones. */
  lemma PagesInRange<T>(xs: seq<T>, page: int)
    requires page >= 1
    ensures PageItems(xs, page) != [] <==> page <= TotalPages(|xs|)
  {
  }

  /** The pagination control is rendered only when there is more than one page. */
  predicate PagerShown(n: nat)
  {
    n > ITEMS_PER_PAGE
  }

  lemma PagerShownIffSeveralPages(n: nat)
    ensures PagerShown(n) <==> TotalPages(n) >= 2
  {
  }

  /** The list state the pages keep: `searchTerm`, the select filters and `currentPage`. */
  datatype Query = Query(searchTerm: string, filters: seq<string>, currentPage: int)

  /** The initial state: empty search, every filter on 'all', page 1. */
  function InitialQuery(filterCount: nat): (q: Query)
    ensures q.searchTerm == "" && q.currentPage == 1 && |q.filters| == filterCount
    ensures forall i :: 0 <= i < filterCount ==> q.filters[i] == "all"
  {
    Query("", seq(filterCount, _ => "all"), 1)
  }

  /** `onChange={(e) => setSearchTerm(e.target.value)}`: the current page is kept. */
  function SetSearch(q: Query, term: string): (r: Query)
    ensures r.searchTerm == term && r.filters == q.filters && r.currentPage == q.currentPage
  {
    q.(searchTerm := term)
  }

  /** A select's `onChange`: the current page is kept. */
  function SetFilter(q: Query, i: nat, value: string): (r: Query)
    ensures i < |q.filters| ==> r.filters == q.filters[i := value]
    ensures i >= |q.filters| ==> r.filters == q.filters
    ensures r.searchTerm == q.searchTerm && r.currentPage == q.currentPage
  {
    if i < |q.filters| then q.(filters := q.filters[i := value]) else q
  }

  /** `handlePageChange`. */
  function SetPage(q: Query, page: int): (r: Query)
    ensures r.currentPage == page && r.searchTerm == q.searchTerm && r.filters == q.filters
  {
    q.(currentPage := page)
  }

  /** A search change that also returns to the first page. */
  function SetSearchCorrected(q: Query, term: string): (r: Query)
    ensures r.searchTerm == term && r.filters == q.filters && r.currentPage == 1
  {
    q.(searchTerm := term, currentPage := 1)
  }

  /** A filter change that also returns to the first page. */
  function SetFilterCorrected(q: Query, i: nat, value: string): (r: Query)
    ensures r.searchTerm == q.searchTerm && r.currentPage == 1
    ensures i < |q.filters| ==> r.filters == q.filters[i := value]
  {
    SetFilter(q, i, value).(currentPage := 1)
  }

  /** As written, a page left behind by a narrower search shows no rows although some
      match, and with ten matches or fewer the control that could lead back is hidden. */
  lemma StalePageHidesMatches<T>(matches: seq<T>, page: int)
    requires 0 < |matches| <= ITEMS_PER_PAGE && page >= 2
    ensures PageItems(matches, page) == []
    ensures !PagerShown(|matches|)
  {
  }

  /** The state is reachable: 15 matching rows, the second page, then a search that keeps
      3 of them. */
  lemma StalePageReachable()
    ensures var before := seq(15, i => i);
            var q := SetPage(InitialQuery(1), 2);
            PagerShown(|before|) && 2 <= TotalPages(|before|) && PageItems(before, q.currentPage) != []
            && SetSearch(q, "x").currentPage == 2 && PageItems(before[..3], SetSearch(q, "x").currentPage) == []
  {
    var before := seq(15, i => i);
    assert |before[..3]| == 3;
    assert PageItems(before, 2) == before[10..15];
  }

  /** With the page reset, the rows shown after a search are its first matches, and they
      are empty only when nothing matches. */
  lemma CorrectedSearchShowsFirstPage<T>(q: Query, term: string, matches: seq<T>)
    ensures var r := SetSearchCorrected(q, term);
            PageItems(matches, r.currentPage) == matches[..Clip(ITEMS_PER_PAGE, |matches|)]
            && (PageItems(matches, r.currentPage) == [] <==> matches == [])
  {
  }
}
