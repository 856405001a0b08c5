/** The customer table (`app/dashboard/kunden/components/customer-list.tsx`):
    a query that is not blank is sent to the search; otherwise the overview
    is loaded, its missing aggregates are defaulted and it is sorted by
    "last name first name". Each row shows at most three tags. */
module CustomerList {
  import opened Base
  import opened Text
  import opened Types

  // ---------------------------------------------------------------------
  // Search or overview

  /** `query.trim()` is truthy: the search is used. */
  predicate UsesSearch(query: string)
    ensures UsesSearch(query) <==> !IsBlank(query)
  {
    Trim(query) != ""
  }

  /** The title of the empty list tests the query itself, not its trim. */
  function EmptyTitle(query: string): (title: string)
    ensures title == "Keine Ergebnisse" <==> query != ""
    ensures title == "Noch keine Kundinnen" <==> query == ""
  {
    if query != "" then "Keine Ergebnisse" else "Noch keine Kundinnen"
  }

  /** A query of white space only loads the overview, yet an empty result
      is titled as a failed search. */
  lemma BlankQueryTitledAsSearch(query: string)
    requires query != "" && IsBlank(query)
    ensures !UsesSearch(query) && EmptyTitle(query) == "Keine Ergebnisse"
  {
  }

  /** A query with a visible character uses the search, and an empty list
      is titled as a failed search. */
  lemma VisibleQuerySearches(query: string, i: int)
    requires 0 <= i < |query| && !IsSpace(query[i])
    ensures UsesSearch(query) && EmptyTitle(query) == "Keine Ergebnisse"
  {
  }

  // ---------------------------------------------------------------------
  // Overview rows

  /** A row of the customer overview view; its aggregates may be missing. */
  datatype OverviewRow = OverviewRow(
    customer: Customer,
    total_appointments: Option<int>,
    last_appointment_date: Option<string>,
    next_appointment_date: Option<string>,
    total_revenue: Option<real>)

  /** `Number(x || 0)` of a numeric aggregate. */
  function NumberOrZero(x: Option<int>): (n: int)
    ensures x.None? ==> n == 0
    ensures x.Some? ==> n == x.value
  {
    if x.Some? then x.value else 0
  }

  /** `Number(x || 0)` of an amount in euros, which may have cents. */
  function AmountOrZero(x: Option<real>): (n: real)
    ensures x.None? ==> n == 0.0
    ensures x.Some? ==> n == x.value
  {
    if x.Some? then x.value else 0.0
  }

  /** `(x as string) || null` of a date: an empty date is missing too. */
  function DateOrNull(x: Option<string>): (d: Option<string>)
    ensures d.None? <==> x.None? || x.value == ""
    ensures d.Some? ==> d.value == x.value
  {
    if x.Some? && x.value != "" then x else None
  }

  /** The overview row as a search result: missing totals are 0, missing or
      empty dates are null, and the similarity is 1. */
  function FromOverview(row: OverviewRow): (r: CustomerSearchResult)
    ensures r.customer == row.customer && r.similarity == 1.0
    ensures r.total_appointments == NumberOrZero(row.total_appointments)
    ensures r.total_revenue == AmountOrZero(row.total_revenue)
    ensures r.last_appointment_date == DateOrNull(row.last_appointment_date)
    ensures r.next_appointment_date == DateOrNull(row.next_appointment_date)
  {
    CustomerSearchResult(row.customer, NumberOrZero(row.total_appointments),
      DateOrNull(row.last_appointment_date), DateOrNull(row.next_appointment_date),
      AmountOrZero(row.total_revenue), 1.0)
  }

  function MapOverview(rows: seq<OverviewRow>): (r: seq<CustomerSearchResult>)
    ensures |r| == |rows|
    ensures forall i :: 0 <= i < |rows| ==> r[i] == FromOverview(rows[i])
  {
    seq(|rows|, i requires 0 <= i < |rows| => FromOverview(rows[i]))
  }

  /** The sort key `${last_name} ${first_name}`. */
  function NameKey(r: CustomerSearchResult): (key: string)
    ensures var n := |r.customer.last_name|;
      && |key| == n + 1 + |r.customer.first_name|
      && key[..n] == r.customer.last_name && key[n] == ' ' && key[n + 1..] == r.customer.first_name
  {
    r.customer.last_name + " " + r.customer.first_name
  }

  /** The comparator of `mapped.sort`: `collate(a, b)` says that
      `a.localeCompare(b, 'de') <= 0`; German collation itself is not
      modelled. */
  function ByName(collate: (string, string) -> bool): (le: (CustomerSearchResult, CustomerSearchResult) -> bool)
    ensures forall a, b, c :: NameKey(b) == NameKey(c) ==> (le(a, b) <==> le(a, c)) && (le(b, a) <==> le(c, a))
  {
    (a: CustomerSearchResult, b: CustomerSearchResult) => collate(NameKey(a), NameKey(b))
  }

  /** A consistent collation orders the rows consistently. */
  lemma ByNameIsTotalPreorder(collate: (string, string) -> bool)
    requires TotalPreorder(collate)
    ensures TotalPreorder(ByName(collate))
  {
    var le := ByName(collate);
    forall a, b ensures le(a, b) || le(b, a) {
      assert collate(NameKey(a), NameKey(b)) || collate(NameKey(b), NameKey(a));
    }
    forall a, b, c | le(a, b) && le(b, c) ensures le(a, c) {
      assert collate(NameKey(a), NameKey(b)) && collate(NameKey(b), NameKey(c));
    }
  }

  /** The overview as listed: every row mapped, then sorted by name key. */
  function SortedOverview(rows: seq<OverviewRow>, collate: (string, string) -> bool): (r: seq<CustomerSearchResult>)
    requires TotalPreorder(collate)
    ensures multiset(r) == multiset(MapOverview(rows))
    ensures forall i, j :: 0 <= i < j < |r| ==> collate(NameKey(r[i]), NameKey(r[j]))
  {
    ByNameIsTotalPreorder(collate);
    var sorted := SortBy(MapOverview(rows), ByName(collate));
    assert forall i, j :: 0 <= i < j < |sorted| ==> ByName(collate)(sorted[i], sorted[j]);
    sorted
  }

  /** The sort is stable: rows whose name keys collate as equal stay in
      overview order. */
  lemma SortedOverviewStable(rows: seq<OverviewRow>, collate: (string, string) -> bool, x: CustomerSearchResult)
    requires TotalPreorder(collate)
    ensures Filter(SortedOverview(rows, collate), EquivTo(ByName(collate), x))
      == Filter(MapOverview(rows), EquivTo(ByName(collate), x))
  {
    ByNameIsTotalPreorder(collate);
    SortByStable(MapOverview(rows), ByName(collate), x);
  }

  /** The list's state. */
  class ListView {
    var customers: seq<CustomerSearchResult>
    var loading: bool

    constructor ()
      ensures customers == [] && loading
    {
      customers := [];
      loading := true;
    }

    /** `load`. `search` answers for the query as typed (not trimmed) with the
        results or a failure; `overview` is the overview's rows (`None` for a
        null answer) or a failure. Any failure empties the list. */
    method Load(query: string, search: string -> Result<seq<CustomerSearchResult>>,
                overview: Result<Option<seq<OverviewRow>>>, collate: (string, string) -> bool)
      requires TotalPreorder(collate)
      modifies this
      ensures !loading
      ensures UsesSearch(query) ==>
        customers == (if search(query).Ok? then search(query).value else [])
      ensures !UsesSearch(query) && overview.Err? ==> customers == []
      ensures !UsesSearch(query) && overview.Ok? ==>
        customers == SortedOverview(if overview.value.Some? then overview.value.value else [], collate)
    {
      loading := true;
      if Trim(query) != "" {
        var results := search(query);
        customers := if results.Ok? then results.value else [];
      } else if overview.Err? {
        customers := [];
      } else {
        var rows := if overview.value.Some? then overview.value.value else [];
        customers := SortedOverview(rows, collate);
      }
      loading := false;
    }
  }

  // ---------------------------------------------------------------------
  // Tags

  /** The tag cell of a row: the tags shown, the "+k" badge, the dash. */
  datatype TagCell = TagCell(shown: seq<string>, more: Option<string>, dash: bool)

  /** The first three tags (all of them when there are fewer), a "+k" badge
      for the k others, and a dash when there are none. */
  function TagCellOf(tags: seq<string>): (cell: TagCell)
    ensures cell.shown <= tags && |cell.shown| == if |tags| <= 3 then |tags| else 3
    ensures |tags| <= 3 ==> cell.shown == tags
    ensures cell.more.Some? <==> |tags| > 3
    ensures |tags| > 3 ==> cell.more == Some("+" + NatToString(|tags| - 3))
    ensures cell.dash <==> tags == []
  {
    var shown := if |tags| <= 3 then tags else tags[..3];
    var more := if |tags| > 3 then Some("+" + NatToString(|tags| - 3)) else None;
    TagCell(shown, more, |tags| == 0)
  }

  /** No tag goes unaccounted for: the tags shown plus the number read back
      from the badge are all the tags. */
  lemma TagCellCountsAll(tags: seq<string>)
    ensures var cell := TagCellOf(tags);
      && (cell.more.Some? ==> |cell.more.value| >= 2 && cell.more.value[0] == '+' && AllDigits(cell.more.value[1..]))
      && |cell.shown| + (if cell.more.Some? then DigitsValue(cell.more.value[1..]) else 0) == |tags|
  {
    var cell := TagCellOf(tags);
    if |tags| > 3 {
      assert cell.more.value[1..] == NatToString(|tags| - 3);
    }
  }
}
