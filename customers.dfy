/** The customers page: search over five fields with status and type selects, 10 per
    page, the header counts, the type badge, and the top-spender card, which sorts the
    customer array in place by amount spent and shows its first three. */
module Customers {
  import opened Lists

  /** `totalSpent` is held in cents. */
  datatype Customer = Customer(id: string, name: string, email: string, phone: string, location: string,
                               kind: string, status: string, totalSpentCents: nat)

  const STATUS_FILTER: nat := 0
  const TYPE_FILTER: nat := 1
  const TOP_SPENDERS: nat := 3

  function SearchFields(c: Customer): seq<SearchField>
  {
    [CaseInsensitive(c.name), CaseInsensitive(c.email), CaseInsensitive(c.phone), CaseInsensitive(c.id),
     CaseInsensitive(c.location)]
  }

  predicate Matches(c: Customer, q: Query)
    requires |q.filters| == 2
  {
    RowMatches(SearchFields(c), [c.status, c.kind], q.searchTerm, q.filters)
  }

  /** Name, email, phone, id or location contain the term (ignoring case), and both
      selects are 'all' or equal. */
  lemma MatchesSpelledOut(c: Customer, q: Query)
    requires |q.filters| == 2
    ensures Matches(c, q) <==>
              (FieldMatches(CaseInsensitive(c.name), q.searchTerm) || FieldMatches(CaseInsensitive(c.email), q.searchTerm)
               || FieldMatches(CaseInsensitive(c.phone), q.searchTerm) || FieldMatches(CaseInsensitive(c.id), q.searchTerm)
               || FieldMatches(CaseInsensitive(c.location), q.searchTerm))
              && SelectMatches(q.filters[STATUS_FILTER], c.status) && SelectMatches(q.filters[TYPE_FILTER], c.kind)
  {
    AnyOfFive(CaseInsensitive(c.name), CaseInsensitive(c.email), CaseInsensitive(c.phone), CaseInsensitive(c.id),
              CaseInsensitive(c.location), q.searchTerm);
    TwoSelects(q.filters, c.status, c.kind);
  }

  /** `filteredCustomers`. */
  function Filtered(data: seq<Customer>, q: Query): (r: seq<Customer>)
    requires |q.filters| == 2
    ensures IsSubsequence(r, data)
    ensures forall c :: c in r <==> c in data && Matches(c, q)
    ensures forall c :: multiset(r)[c] == if Matches(c, q) then multiset(data)[c] else 0
  {
    Filter(data, (c: Customer) => Matches(c, q))
  }

  /** `currentCustomers`. */
  function Visible(data: seq<Customer>, q: Query): (r: seq<Customer>)
    requires |q.filters| == 2
    ensures |r| <= ITEMS_PER_PAGE
    ensures forall c :: c in r ==> c in data && Matches(c, q)
  {
    PageItems(Filtered(data, q), q.currentPage)
  }

  function Statuses(data: seq<Customer>): (s: seq<string>)
    ensures |s| == |data| && forall i :: 0 <= i < |data| ==> s[i] == data[i].status
  {
    seq(|data|, i requires 0 <= i < |data| => data[i].status)
  }

  function Kinds(data: seq<Customer>): (s: seq<string>)
    ensures |s| == |data| && forall i :: 0 <= i < |data| ==> s[i] == data[i].kind
  {
    seq(|data|, i requires 0 <= i < |data| => data[i].kind)
  }

  datatype Counts = Counts(total: nat, active: nat, vip: nat, revenueCents: nat)

  /** `customersData.reduce((sum, c) => sum + c.totalSpent, 0)`, in cents. */
  function Revenue(data: seq<Customer>): nat
    decreases |data|
  {
    if data == [] then 0 else data[0].totalSpentCents + Revenue(data[1..])
  }

  /** The revenue of two runs of customers is the sum of their revenues. */
  lemma {:induction false} RevenueAppend(a: seq<Customer>, b: seq<Customer>)
    ensures Revenue(a + b) == Revenue(a) + Revenue(b)
    decreases |a|
  {
    if a == [] {
      assert a + b == b;
    } else {
      assert (a + b)[0] == a[0];
      assert (a + b)[1..] == a[1..] + b;
      RevenueAppend(a[1..], b);
    }
  }

  /** Cutting out position `k` takes one copy of `b[k]` out of the multiset. */
  lemma CutOne(b: seq<Customer>, k: nat)
    requires k < |b|
    ensures multiset(b[..k] + b[k + 1..]) == multiset(b) - multiset{b[k]}
  {
    assert b == b[..k] + [b[k]] + b[k + 1..];
  }

  /** The revenue of `b` is `b[k]`'s spending plus the revenue of the others. */
  lemma RevenueCut(b: seq<Customer>, k: nat)
    requires k < |b|
    ensures Revenue(b) == b[k].totalSpentCents + Revenue(b[..k] + b[k + 1..])
  {
    var left, right := b[..k], b[k + 1..];
    assert b == left + ([b[k]] + right);
    RevenueAppend(left, [b[k]] + right);
    RevenueAppend([b[k]], right);
    RevenueAppend(left, right);
    assert [b[k]][1..] == [];
  }

  /** The revenue depends only on which customers there are, not on their order, so the
      in-place sort of the top-spender card leaves it as it was. */
  lemma {:induction false} RevenuePermutation(a: seq<Customer>, b: seq<Customer>)
    requires multiset(a) == multiset(b)
    ensures Revenue(a) == Revenue(b)
    decreases |a|
  {
    if a == [] {
      assert |b| == |multiset(b)| == 0;
    } else {
      var x := a[0];
      assert x in multiset(b);
      assert x in b;
      var k :| 0 <= k < |b| && b[k] == x;
      var others := b[..k] + b[k + 1..];
      calc {
        multiset(a[1..]);
      == { assert a[..0] + a[1..] == a[1..]; }
        multiset(a[..0] + a[1..]);
      == { CutOne(a, 0); }
        multiset(a) - multiset{x};
      ==
        multiset(b) - multiset{b[k]};
      == { CutOne(b, k); }
        multiset(others);
      }
      RevenuePermutation(a[1..], others);
      RevenueCut(b, k);
    }
  }

  /** No customer spends more than the revenue of all of them. */
  lemma {:induction false} SpentAtMostRevenue(data: seq<Customer>, i: nat)
    requires i < |data|
    ensures data[i].totalSpentCents <= Revenue(data)
    decreases |data|
  {
    if i > 0 {
      SpentAtMostRevenue(data[1..], i - 1);
    }
  }

  /** `totalCustomers`, `activeCustomers`, `vipCustomers` and `totalRevenue`, over the
      unfiltered data. */
  function CountsOf(data: seq<Customer>): (c: Counts)
    ensures c.total == |data| && c.active <= c.total && c.vip <= c.total
    ensures c.active == CountOf(Statuses(data), "Active") && c.vip == CountOf(Kinds(data), "VIP")
    ensures c.revenueCents == Revenue(data)
    ensures forall i :: 0 <= i < |data| ==> data[i].totalSpentCents <= c.revenueCents
  {
    forall i | 0 <= i < |data|
      ensures data[i].totalSpentCents <= Revenue(data)
    {
      SpentAtMostRevenue(data, i);
    }
    Counts(|data|, CountOf(Statuses(data), "Active"), CountOf(Kinds(data), "VIP"), Revenue(data))
  }

  const VIP_BADGE: string := "bg-yellow-100 text-yellow-800 border-yellow-300"
  const PREMIUM_BADGE: string := "bg-purple-100 text-purple-800 border-purple-300"
  const REGULAR_BADGE: string := "bg-blue-100 text-blue-800 border-blue-300"
  const OTHER_BADGE: string := "bg-gray-100 text-gray-800 border-gray-300"

  /** `getTypeBadgeColor`. */
  function TypeBadgeColor(kind: string): (c: string)
    ensures c != OTHER_BADGE <==> kind in {"VIP", "Premium", "Regular"}
    ensures kind == "VIP" ==> c == VIP_BADGE
    ensures kind == "Premium" ==> c == PREMIUM_BADGE
    ensures kind == "Regular" ==> c == REGULAR_BADGE
  {
    if kind == "VIP" then VIP_BADGE
    else if kind == "Premium" then PREMIUM_BADGE
    else if kind == "Regular" then REGULAR_BADGE
    else OTHER_BADGE
  }

  /** Non-increasing by amount spent, the order `(a, b) => b.totalSpent - a.totalSpent`
      asks for. */
  ghost predicate SpentDescending(s: seq<Customer>)
  {
    forall i, j :: 0 <= i < j < |s| ==> s[i].totalSpentCents >= s[j].totalSpentCents
  }

  /** `customersData.sort(...)`, in place. Elements move left past strictly smaller
      amounts only, so customers with equal amounts keep their order. */
  method SortBySpent(a: array<Customer>)
    modifies a
    ensures SpentDescending(a[..])
    ensures multiset(a[..]) == multiset(old(a[..]))
  {
    var i := 0;
    while i < a.Length
      invariant 0 <= i <= a.Length
      invariant SpentDescending(a[..i])
      invariant multiset(a[..]) == multiset(old(a[..]))
    {
      InsertLeft(a, i);
      i := i + 1;
    }
    assert a[..a.Length] == a[..];
  }

  /** Swaps the neighbours at `j - 1` and `j`. */
  function Swapped(s: seq<Customer>, j: nat): (r: seq<Customer>)
    requires 0 < j < |s|
    ensures |r| == |s| && multiset(r) == multiset(s)
    ensures r[j - 1] == s[j] && r[j] == s[j - 1]
    ensures forall k :: 0 <= k < |s| && k != j - 1 && k != j ==> r[k] == s[k]
  {
    s[j - 1 := s[j]][j := s[j - 1]]
  }

  /** During the pass that inserts `s[i]`, it sits at `j`: the rest of `s[..i + 1]` is in
      order, and everything after `j` spends strictly less. */
  ghost predicate Inserting(s: seq<Customer>, i: nat, j: nat)
  {
    j <= i < |s|
    && (forall k, l :: 0 <= k < l <= i && k != j && l != j ==> s[k].totalSpentCents >= s[l].totalSpentCents)
    && (forall l :: j < l <= i ==> s[j].totalSpentCents > s[l].totalSpentCents)
  }

  lemma SwapStep(s: seq<Customer>, i: nat, j: nat)
    requires Inserting(s, i, j) && 0 < j && s[j - 1].totalSpentCents < s[j].totalSpentCents
    ensures Inserting(Swapped(s, j), i, j - 1)
  {
  }

  lemma InsertionDone(s: seq<Customer>, i: nat, j: nat)
    requires Inserting(s, i, j) && (j == 0 || s[j - 1].totalSpentCents >= s[j].totalSpentCents)
    ensures SpentDescending(s[..i + 1])
  {
  }

  /** One pass of the sort: `a[i]` moves left into the sorted prefix `a[..i]`. */
  method InsertLeft(a: array<Customer>, i: nat)
    requires i < a.Length && SpentDescending(a[..i])
    modifies a
    ensures SpentDescending(a[..i + 1])
    ensures multiset(a[..]) == multiset(old(a[..]))
  {
    var j: nat := i;
    while j > 0 && a[j - 1].totalSpentCents < a[j].totalSpentCents
      invariant Inserting(a[..], i, j)
      invariant multiset(a[..]) == multiset(old(a[..]))
    {
      ghost var s := a[..];
      SwapStep(s, i, j);
      a[j - 1], a[j] := a[j], a[j - 1];
      assert a[..] == Swapped(s, j);
      j := j - 1;
    }
    InsertionDone(a[..], i, j);
  }

  /** The top-spender card: the array sorted in place, then `.slice(0, 3)`. At most three
      customers, in non-increasing order, each spending at least as much as every customer
      left out. */
  method TopSpenders(a: array<Customer>) returns (top: seq<Customer>)
    modifies a
    ensures multiset(a[..]) == multiset(old(a[..]))
    ensures |top| == if a.Length < TOP_SPENDERS then a.Length else TOP_SPENDERS
    ensures top == a[..|top|]
    ensures SpentDescending(top)
    ensures forall c, d :: c in top && d in a[|top|..] ==> c.totalSpentCents >= d.totalSpentCents
    ensures Revenue(a[..]) == Revenue(old(a[..]))
  {
    SortBySpent(a);
    RevenuePermutation(a[..], old(a[..]));
    top := a[..if a.Length < TOP_SPENDERS then a.Length else TOP_SPENDERS];
    forall c, d | c in top && d in a[|top|..]
      ensures c.totalSpentCents >= d.totalSpentCents
    {
      var k :| 0 <= k < |top| && top[k] == c;
      var l :| 0 <= l < |a[|top|..]| && a[|top|..][l] == d;
      assert a[..][k] == c && a[..][|top| + l] == d;
    }
  }
}
