/** The orders page: search over order id, customer name, phone and payment id with a
    status select, 10 per page, and the header counts by status. */
module Orders {
  import opened Text
  import opened Lists

  /** The fields of an order the page searches, filters and counts by. */
  datatype Order = Order(orderId: string, paymentId: string, name: string, phone: string, status: string)

  /** The phone number is matched as typed; the other three fields ignore case. */
  function SearchFields(o: Order): seq<SearchField>
  {
    [CaseInsensitive(o.orderId), CaseInsensitive(o.name), CaseSensitive(o.phone), CaseInsensitive(o.paymentId)]
  }

  predicate Matches(o: Order, q: Query)
    requires |q.filters| == 1
  {
    RowMatches(SearchFields(o), [o.status], q.searchTerm, q.filters)
  }

  /** Order id, name or payment id contain the term ignoring case, or the phone contains it
      exactly, and the status select is 'all' or equal. */
  lemma MatchesSpelledOut(o: Order, q: Query)
    requires |q.filters| == 1
    ensures Matches(o, q) <==>
              (FieldMatches(CaseInsensitive(o.orderId), q.searchTerm) || FieldMatches(CaseInsensitive(o.name), q.searchTerm)
               || FieldMatches(CaseSensitive(o.phone), q.searchTerm) || FieldMatches(CaseInsensitive(o.paymentId), q.searchTerm))
              && SelectMatches(q.filters[0], o.status)
  {
    AnyOfFour(CaseInsensitive(o.orderId), CaseInsensitive(o.name), CaseSensitive(o.phone),
              CaseInsensitive(o.paymentId), q.searchTerm);
    assert q.filters == [q.filters[0]];
    OneSelect(q.filters[0], o.status);
  }

  /** A term in the wrong case finds an order by its other fields but not by its phone. */
  lemma PhoneIsCaseSensitive()
    ensures !Matches(Order("", "", "", "ext", "Pending"), Query("EXT", ["all"], 1))
    ensures Matches(Order("", "", "ext", "", "Pending"), Query("EXT", ["all"], 1))
  {
    var term := "EXT";
    assert LowerStr(term) == "ext";
    assert LowerStr("") == "";
    assert !Contains("ext", term) by {
      ContainsIffOccurrence("ext", term);
      assert "ext"[0..3] != term;
    }
    assert Contains("ext", "ext") by {
      assert "ext"[..3] == "ext";
    }
    MatchesSpelledOut(Order("", "", "", "ext", "Pending"), Query(term, ["all"], 1));
    MatchesSpelledOut(Order("", "", "ext", "", "Pending"), Query(term, ["all"], 1));
  }

  /** `filteredOrders`. */
  function Filtered(data: seq<Order>, q: Query): (r: seq<Order>)
    requires |q.filters| == 1
    ensures IsSubsequence(r, data)
    ensures forall o :: o in r <==> o in data && Matches(o, q)
    ensures forall o :: multiset(r)[o] == if Matches(o, q) then multiset(data)[o] else 0
  {
    Filter(data, (o: Order) => Matches(o, q))
  }

  /** `currentOrders`. */
  function Visible(data: seq<Order>, q: Query): (r: seq<Order>)
    requires |q.filters| == 1
    ensures |r| <= ITEMS_PER_PAGE
    ensures forall o :: o in r ==> o in data && Matches(o, q)
    ensures q.currentPage >= 1 ==> (r == [] <==> StartIndex(q.currentPage) >= |Filtered(data, q)|)
  {
    PageItems(Filtered(data, q), q.currentPage)
  }

  function Statuses(data: seq<Order>): (s: seq<string>)
    ensures |s| == |data| && forall i :: 0 <= i < |data| ==> s[i] == data[i].status
  {
    seq(|data|, i requires 0 <= i < |data| => data[i].status)
  }

  datatype Stats = Stats(total: nat, pending: nat, processing: nat, delivered: nat, cancelled: nat)

  /** The five cards, over the unfiltered orders. 'Shipped' has no card, so the four status
      cards may add up to less than the total, never to more. */
  function StatsOf(data: seq<Order>): (s: Stats)
    ensures s.total == |data|
    ensures s.pending == CountOf(Statuses(data), "Pending") && s.processing == CountOf(Statuses(data), "Processing")
    ensures s.delivered == CountOf(Statuses(data), "Delivered") && s.cancelled == CountOf(Statuses(data), "Cancelled")
    ensures s.pending + s.processing + s.delivered + s.cancelled <= s.total
  {
    var st := Statuses(data);
    FourCountsAtMostLength(st, "Pending", "Processing", "Delivered", "Cancelled");
    Stats(|data|, CountOf(st, "Pending"), CountOf(st, "Processing"), CountOf(st, "Delivered"), CountOf(st, "Cancelled"))
  }

  /** The pager shows only when the filtered orders fill more than one page. */
  function PagerShownFor(data: seq<Order>, q: Query): (b: bool)
    requires |q.filters| == 1
    ensures b <==> TotalPages(|Filtered(data, q)|) > 1
  {
    PagerShownIffSeveralPages(|Filtered(data, q)|);
    PagerShown(|Filtered(data, q)|)
  }
}
