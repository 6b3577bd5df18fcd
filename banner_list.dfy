/** The home slider banner list: search over title, subtitle and id with a status
    select, 10 per page, the header counts and the page's own status badge. */
module BannerList {
  import opened Text
  import opened Lists

  /** The fields of a banner the page searches, filters and counts by. */
  datatype Banner = Banner(id: string, title: string, subtitle: string, status: string)

  function SearchFields(b: Banner): seq<SearchField>
  {
    [CaseInsensitive(b.title), CaseInsensitive(b.subtitle), CaseInsensitive(b.id)]
  }

  predicate Matches(b: Banner, q: Query)
    requires |q.filters| == 1
  {
    RowMatches(SearchFields(b), [b.status], q.searchTerm, q.filters)
  }

  /** Title, subtitle or id contain the term (ignoring case), and the status select is
      'all' or equal. */
  lemma MatchesSpelledOut(b: Banner, q: Query)
    requires |q.filters| == 1
    ensures Matches(b, q) <==>
              (FieldMatches(CaseInsensitive(b.title), q.searchTerm) || FieldMatches(CaseInsensitive(b.subtitle), q.searchTerm)
               || FieldMatches(CaseInsensitive(b.id), q.searchTerm))
              && SelectMatches(q.filters[0], b.status)
  {
    AnyOfThree(CaseInsensitive(b.title), CaseInsensitive(b.subtitle), CaseInsensitive(b.id), q.searchTerm);
    assert q.filters == [q.filters[0]];
    OneSelect(q.filters[0], b.status);
  }

  /** `filteredBanners`. */
  function Filtered(data: seq<Banner>, q: Query): (r: seq<Banner>)
    requires |q.filters| == 1
    ensures IsSubsequence(r, data)
    ensures forall b :: b in r <==> b in data && Matches(b, q)
    ensures forall b :: multiset(r)[b] == if Matches(b, q) then multiset(data)[b] else 0
  {
    Filter(data, (b: Banner) => Matches(b, q))
  }

  /** `currentBanners`. */
  function Visible(data: seq<Banner>, q: Query): (r: seq<Banner>)
    requires |q.filters| == 1
    ensures |r| <= ITEMS_PER_PAGE
    ensures forall b :: b in r ==> b in data && Matches(b, q)
    ensures q.currentPage >= 1 ==> (r == [] <==> StartIndex(q.currentPage) >= |Filtered(data, q)|)
  {
    PageItems(Filtered(data, q), q.currentPage)
  }

  function Statuses(data: seq<Banner>): (s: seq<string>)
    ensures |s| == |data| && forall i :: 0 <= i < |data| ==> s[i] == data[i].status
  {
    seq(|data|, i requires 0 <= i < |data| => data[i].status)
  }

  datatype Stats = Stats(total: nat, active: nat, scheduled: nat, inactive: nat)

  /** The four cards, over the unfiltered banners. */
  function StatsOf(data: seq<Banner>): (s: Stats)
    ensures s.total == |data|
    ensures s.active == CountOf(Statuses(data), "Active") && s.scheduled == CountOf(Statuses(data), "Scheduled")
    ensures s.inactive == CountOf(Statuses(data), "Inactive")
    ensures s.active + s.scheduled + s.inactive <= s.total
  {
    var st := Statuses(data);
    ThreeCountsAtMostLength(st, "Active", "Scheduled", "Inactive");
    Stats(|data|, CountOf(st, "Active"), CountOf(st, "Scheduled"), CountOf(st, "Inactive"))
  }

  const BADGE_BASE: string := "inline-flex px-3 py-1.5 text-xs font-semibold rounded-full "

  /** `colors[status]`: `None` where the object has no such key. */
  function StatusColor(status: string): (c: Option<string>)
    ensures c.Some? <==> status in {"Active", "Inactive", "Scheduled"}
    ensures status == "Active" ==> c == Some("bg-green-100 text-green-800")
    ensures status == "Inactive" ==> c == Some("bg-red-100 text-red-800")
    ensures status == "Scheduled" ==> c == Some("bg-yellow-100 text-yellow-800")
  {
    if status == "Active" then Some("bg-green-100 text-green-800")
    else if status == "Inactive" then Some("bg-red-100 text-red-800")
    else if status == "Scheduled" then Some("bg-yellow-100 text-yellow-800")
    else None
  }

  /** `getStatusBadge`: the template literal turns a missing colour into the text
      'undefined'; the badge's text is the status itself. */
  function StatusBadgeClass(status: string): (cls: string)
    ensures IsPrefix(BADGE_BASE, cls)
    ensures StatusColor(status).Some? ==> cls == BADGE_BASE + StatusColor(status).value
    ensures StatusColor(status).None? ==> cls == BADGE_BASE + "undefined"
  {
    match StatusColor(status) {
      case Some(c) => BADGE_BASE + c
      case None => BADGE_BASE + "undefined"
    }
  }

  /** Different statuses the page knows get different badge classes. */
  lemma KnownBadgesDiffer(s: string, t: string)
    requires StatusColor(s).Some? && StatusColor(t).Some? && s != t
    ensures StatusBadgeClass(s) != StatusBadgeClass(t)
  {
    var cs, ct := StatusColor(s).value, StatusColor(t).value;
    assert cs[3] != ct[3];
    assert StatusBadgeClass(s)[|BADGE_BASE|..] == cs;
    assert StatusBadgeClass(t)[|BADGE_BASE|..] == ct;
  }
}
