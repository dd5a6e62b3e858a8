/** The order-history screen: the stored history newest first, search and date-range filters,
    summary figures, pagination and the avatar helpers. */
module OrderHistory {
  import opened Wrappers
  import opened Text
  import opened Seqs
  import opened Orders

  /** One day in milliseconds: `endDate.add(1, 'day')`. */
  const DayMs: int := 86400000

  /** The search test of `applyFilters`: the lower-cased term occurs in the lower-cased customer
      name, in the table text as typed (not lower-cased), or in the decimal id. */
  predicate MatchesSearch(o: Order, searchTerm: string) {
    var term := Lower(searchTerm);
    Includes(Lower(o.customerName), term) || Includes(o.tableNumber, term)
    || Includes(NatToString(o.id), term)
  }

  /** The date test: strictly after the start and strictly before the day after the end. */
  predicate InDateRange(o: Order, startDate: int, endDate: int) {
    startDate < o.date && o.date < endDate + DayMs
  }

  /** An order passes the filters that are set: the search when the term is non-empty, the date
      range when both ends are chosen. */
  predicate Keep(o: Order, searchTerm: string, startDate: Option<int>, endDate: Option<int>) {
    && (searchTerm != "" ==> MatchesSearch(o, searchTerm))
    && (startDate.Some? && endDate.Some? ==> InDateRange(o, startDate.value, endDate.value))
  }

  function Criteria(searchTerm: string, startDate: Option<int>, endDate: Option<int>): Order -> bool {
    (o: Order) => Keep(o, searchTerm, startDate, endDate)
  }

  function SearchFilter(searchTerm: string): Order -> bool {
    (o: Order) => MatchesSearch(o, searchTerm)
  }

  function DateFilter(startDate: int, endDate: int): Order -> bool {
    (o: Order) => InDateRange(o, startDate, endDate)
  }

  /** The computation of `applyFilters`, stage by stage, shown to agree with filtering once by
      `Keep`. */
  method FilterOrders(orders: seq<Order>, searchTerm: string, startDate: Option<int>,
                      endDate: Option<int>) returns (result: seq<Order>)
    ensures result == Filter(Criteria(searchTerm, startDate, endDate), orders)
  {
    var keep := Criteria(searchTerm, startDate, endDate);
    result := orders;
    if searchTerm != "" {
      result := Filter(SearchFilter(searchTerm), result);
    }
    if startDate.Some? && endDate.Some? {
      var s, e := startDate.value, endDate.value;
      if searchTerm != "" {
        FilterFilter(SearchFilter(searchTerm), DateFilter(s, e), keep, orders);
      } else {
        FilterExt(DateFilter(s, e), keep, orders);
      }
      result := Filter(DateFilter(s, e), result);
    } else if searchTerm != "" {
      FilterExt(SearchFilter(searchTerm), keep, orders);
    } else {
      FilterAll(keep, orders);
    }
  }

  /** With an empty term and a date range not fully set, the list is left as it is. */
  lemma {:induction false} NoFilterKeepsAll(orders: seq<Order>, startDate: Option<int>, endDate: Option<int>)
    requires startDate.None? || endDate.None?
    ensures Filter(Criteria("", startDate, endDate), orders) == orders
  {
    FilterAll(Criteria("", startDate, endDate), orders);
  }

  /** Whatever the criteria, the result keeps exactly the orders that pass them, each as often as it
      occurs, in history order. */
  lemma FilterResultExact(orders: seq<Order>, searchTerm: string, startDate: Option<int>,
                          endDate: Option<int>, o: Order)
    ensures IsSubsequence(Filter(Criteria(searchTerm, startDate, endDate), orders), orders)
    ensures multiset(Filter(Criteria(searchTerm, startDate, endDate), orders))[o]
            == if Keep(o, searchTerm, startDate, endDate) then multiset(orders)[o] else 0
  {
    FilterIsSubsequence(Criteria(searchTerm, startDate, endDate), orders);
    FilterCount(Criteria(searchTerm, startDate, endDate), orders, o);
  }

  /** Searching for an order's id, as the digits shown in the table, always finds it. */
  lemma SearchFindsId(o: Order)
    ensures MatchesSearch(o, NatToString(o.id))
  {
    var s := NatToString(o.id);
    assert Lower(s) == s;
    assert StartsWith(s, s);
  }

  /** Search is case-insensitive on the name: any casing of a name finds it. */
  lemma SearchIgnoresNameCase(o: Order, searchTerm: string)
    requires Lower(searchTerm) == Lower(o.customerName)
    ensures MatchesSearch(o, searchTerm)
  {
    var n := Lower(o.customerName);
    assert StartsWith(n, n);
  }

  /** The table text is not lower-cased: searching for the default table label "Takeaway" as it is
      displayed does not find a guest order by its table. */
  lemma SearchTableIsCaseSensitive(o: Order)
    requires o.customerName == "Guest" && o.tableNumber == "Takeaway"
    ensures !MatchesSearch(o, "Takeaway")
  {
    var term := Lower("Takeaway");
    LowerTakeaway();
    NotIncludedWhenShorter(Lower(o.customerName), term);
    NotIncludedWhenFirstCharAbsent(o.tableNumber, term);
    NotIncludedWhenFirstCharAbsent(NatToString(o.id), term);
  }

  /** "Takeaway" lower-cases to an eight-letter word starting with "t", a letter it lacks itself. */
  lemma LowerTakeaway()
    ensures |Lower("Takeaway")| == 8 && Lower("Takeaway")[0] == 't'
    ensures forall i :: 0 <= i < |"Takeaway"| ==> "Takeaway"[i] != 't'
  {
    assert "Takeaway"[0] == 'T';
  }

  lemma {:induction false} NotIncludedWhenShorter(s: string, t: string)
    requires |s| < |t|
    ensures !Includes(s, t)
  {
    if s != [] {
      NotIncludedWhenShorter(s[1..], t);
    }
  }

  lemma {:induction false} NotIncludedWhenFirstCharAbsent(s: string, t: string)
    requires t != [] && forall i :: 0 <= i < |s| ==> s[i] != t[0]
    ensures !Includes(s, t)
  {
    if s != [] {
      NotIncludedWhenFirstCharAbsent(s[1..], t);
      if |t| <= |s| {
        assert s[..|t|][0] == s[0];
      }
    }
  }

  /** The end day is inclusive: an order in the last millisecond of the end day is kept, one at the
      very start instant or a full day after the end is not. */
  lemma DateRangeBounds(o: Order, startDate: int, endDate: int)
    ensures o.date == endDate + DayMs - 1 && startDate < o.date ==> InDateRange(o, startDate, endDate)
    ensures o.date == startDate ==> !InDateRange(o, startDate, endDate)
    ensures o.date == endDate + DayMs ==> !InDateRange(o, startDate, endDate)
  {
  }

  /** What `calculateSummary` returns. */
  datatype Summary = Summary(subtotal: real, vat: real, total: real, count: nat)

  const EmptySummary := Summary(0.0, 0.0, 0.0, 0)

  /** One step of the reduce: add the order's fields, a missing field counting as zero. */
  function AddOrder(acc: Summary, o: Order): Summary {
    Summary(acc.subtotal + o.subtotal.GetOr(0.0), acc.vat + o.vat.GetOr(0.0),
            acc.total + o.total.GetOr(0.0), acc.count + 1)
  }

  /** The reduce over the list, folded from the left: one count per order. */
  function SummaryOf(orders: seq<Order>): (r: Summary)
    ensures r.count == |orders|
  {
    if orders == [] then EmptySummary else AddOrder(SummaryOf(orders[..|orders| - 1]), orders[|orders| - 1])
  }

  /** `calculateSummary`: the accumulator is updated field by field for each filtered order. */
  method CalculateSummary(filteredOrders: seq<Order>) returns (acc: Summary)
    ensures acc == SummaryOf(filteredOrders)
    ensures acc.count == |filteredOrders|
  {
    acc := EmptySummary;
    var i := 0;
    while i < |filteredOrders|
      invariant 0 <= i <= |filteredOrders|
      invariant acc == SummaryOf(filteredOrders[..i])
      invariant acc.count == i
    {
      var order := filteredOrders[i];
      assert filteredOrders[..i + 1][..i] == filteredOrders[..i];
      acc := acc.(subtotal := acc.subtotal + order.subtotal.GetOr(0.0));
      acc := acc.(vat := acc.vat + order.vat.GetOr(0.0));
      acc := acc.(total := acc.total + order.total.GetOr(0.0));
      acc := acc.(count := acc.count + 1);
      i := i + 1;
    }
    assert filteredOrders[..i] == filteredOrders;
  }

  /** The sums split over a concatenation. */
  lemma {:induction false} SummaryAppend(a: seq<Order>, b: seq<Order>)
    ensures SummaryOf(a + b) == Summary(SummaryOf(a).subtotal + SummaryOf(b).subtotal,
                                        SummaryOf(a).vat + SummaryOf(b).vat,
                                        SummaryOf(a).total + SummaryOf(b).total,
                                        SummaryOf(a).count + SummaryOf(b).count)
  {
    if b == [] {
      assert a + b == a;
    } else {
      assert (a + b)[..|a + b| - 1] == a + b[..|b| - 1];
      SummaryAppend(a, b[..|b| - 1]);
    }
  }

  /** A list of records that all carry a total of 115% of their subtotal, as the order screen with
      service charge saves them, sums to a total of 115% of its summed subtotal. */
  lemma {:induction false} SummaryOfServiceChargedOrders(orders: seq<Order>)
    requires forall i :: 0 <= i < |orders| ==>
      orders[i].subtotal.Some? && orders[i].total == Some(orders[i].subtotal.value * 1.15)
    ensures SummaryOf(orders).total == SummaryOf(orders).subtotal * 1.15
  {
    if orders != [] {
      SummaryOfServiceChargedOrders(orders[..|orders| - 1]);
    }
  }

  /** `slice(page * rows, page * rows + rows)`: at most `rows` consecutive orders of the list. */
  function PageSlice(orders: seq<Order>, page: nat, rowsPerPage: nat): (r: seq<Order>)
    ensures |r| <= rowsPerPage
    ensures forall k :: 0 <= k < |r| ==> page * rowsPerPage + k < |orders|
                                         && r[k] == orders[page * rowsPerPage + k]
  {
    Slice(orders, page * rowsPerPage, page * rowsPerPage + rowsPerPage)
  }

  /** The first `n` pages, one after another. */
  function Pages(orders: seq<Order>, rowsPerPage: nat, n: nat): seq<Order> {
    if n == 0 then [] else Pages(orders, rowsPerPage, n - 1) + PageSlice(orders, n - 1, rowsPerPage)
  }

  /** Paging neither skips nor repeats: the first `n` pages are the first `n * rows` orders. */
  lemma {:induction false} PagesCover(orders: seq<Order>, rowsPerPage: nat, n: nat)
    ensures Pages(orders, rowsPerPage, n) == orders[..Min(n * rowsPerPage, |orders|)]
  {
    if n > 0 {
      PagesCover(orders, rowsPerPage, n - 1);
      var lo := (n - 1) * rowsPerPage;
      assert lo + rowsPerPage == n * rowsPerPage;
      if lo < |orders| {
        assert orders[..Min(n * rowsPerPage, |orders|)]
               == orders[..lo] + orders[lo..Min(n * rowsPerPage, |orders|)];
      } else {
        assert n * rowsPerPage >= lo;
      }
    }
  }

  /** `getInitials`: "G" for an empty name or "Walk-in", otherwise the upper-cased first
      characters of the space-separated words (an empty word contributes nothing). */
  function GetInitials(name: string): (r: string)
    ensures name == "" || name == "Walk-in" ==> r == "G"
    ensures forall i :: 0 <= i < |r| ==> !('a' <= r[i] <= 'z')
  {
    if name == "" || name == "Walk-in" then "G" else Upper(FirstLetters(Split(name)))
  }

  function FirstLetters(words: seq<string>): string {
    if words == [] then "" else (if words[0] == "" then "" else [words[0][0]]) + FirstLetters(words[1..])
  }

  lemma {:induction false} FirstLettersAppend(a: seq<string>, b: seq<string>)
    ensures FirstLetters(a + b) == FirstLetters(a) + FirstLetters(b)
  {
    if a == [] {
      assert a + b == b;
    } else {
      assert (a + b)[1..] == a[1..] + b;
      FirstLettersAppend(a[1..], b);
    }
  }

  /** For two words joined by a space, the initials are the first letter of each, upper-cased. */
  lemma InitialsOfTwoWords(first: string, last: string)
    requires first != "" && last != ""
    requires forall i :: 0 <= i < |first| ==> first[i] != ' '
    requires forall i :: 0 <= i < |last| ==> last[i] != ' '
    ensures GetInitials(first + " " + last) == [UpperChar(first[0]), UpperChar(last[0])]
  {
    SplitAtSpace(first, last);
    SplitWord(first);
    SplitWord(last);
    FirstLettersAppend([first], [last]);
    assert [first] + [last] == [first, last];
    assert first + " " + last != "Walk-in" by {
      assert |first + " " + last| >= 3;
      if |first + " " + last| == 7 {
        assert (first + " " + last)[|first|] == ' ';
      }
    }
  }

  /** For any non-empty words without spaces joined by single spaces (other than "Walk-in"),
      the initials are the upper-cased first letter of each word, in order. */
  lemma InitialsOfWords(ws: seq<string>)
    requires ws != [] && JoinWords(ws) != "Walk-in"
    requires forall k :: 0 <= k < |ws| ==> ws[k] != "" && NoSpace(ws[k])
    ensures |GetInitials(JoinWords(ws))| == |ws|
    ensures forall k :: 0 <= k < |ws| ==> GetInitials(JoinWords(ws))[k] == UpperChar(ws[k][0])
  {
    SplitJoinWords(ws);
    FirstLettersOfWords(ws);
  }

  /** For every name other than "" and "Walk-in", the initials are the upper-cased first letter
      of each non-empty piece of `split(' ')`, in order: the empty pieces that a leading,
      trailing or doubled space leaves contribute nothing, as `undefined` joins as "". */
  lemma InitialsOfName(name: string)
    requires name != "" && name != "Walk-in"
    ensures var words := Filter(NonEmpty, Split(name));
            (forall k :: 0 <= k < |words| ==> words[k] != "")
            && |GetInitials(name)| == |words|
            && forall k :: 0 <= k < |words| ==> GetInitials(name)[k] == UpperChar(words[k][0])
  {
    var words := Filter(NonEmpty, Split(name));
    FirstLettersSkipsEmpty(Split(name));
    assert forall k :: 0 <= k < |words| ==> words[k] != "" by {
      forall k | 0 <= k < |words| ensures words[k] != "" {
        assert words[k] in words;
      }
    }
    FirstLettersOfWords(words);
  }

  predicate NonEmpty(w: string) { w != "" }

  /** Empty words add no letter. */
  lemma {:induction false} FirstLettersSkipsEmpty(ws: seq<string>)
    ensures FirstLetters(ws) == FirstLetters(Filter(NonEmpty, ws))
  {
    if ws != [] {
      FirstLettersSkipsEmpty(ws[1..]);
      var rest := Filter(NonEmpty, ws[1..]);
      if ws[0] != "" {
        assert Filter(NonEmpty, ws) == [ws[0]] + rest;
        FirstLettersAppend([ws[0]], rest);
        assert [ws[0]][1..] == [];
      } else {
        assert Filter(NonEmpty, ws) == rest;
      }
    }
  }

  lemma {:induction false} FirstLettersOfWords(ws: seq<string>)
    requires forall k :: 0 <= k < |ws| ==> ws[k] != ""
    ensures |FirstLetters(ws)| == |ws|
    ensures forall k :: 0 <= k < |ws| ==> FirstLetters(ws)[k] == ws[k][0]
  {
    if ws != [] {
      FirstLettersOfWords(ws[1..]);
    }
  }

  /** Initials are never longer than the name plus one: one letter per word, or the single "G"
      that stands in for an empty name. */
  lemma InitialsShape(name: string)
    ensures |GetInitials(name)| <= |name| + 1
    ensures name != "" && name != "Walk-in" ==> |GetInitials(name)| <= |name|
  {
    if name != "" && name != "Walk-in" {
      FirstLettersBound(name);
    }
  }

  lemma {:induction false} FirstLettersBound(s: string)
    ensures |FirstLetters(Split(s))| <= |s|
  {
    if s != [] {
      FirstLettersBound(s[1..]);
      var rest := Split(s[1..]);
      assert rest == [rest[0]] + rest[1..];
      FirstLettersAppend([rest[0]], rest[1..]);
      if s[0] == ' ' {
        FirstLettersAppend([""], rest);
      } else {
        FirstLettersAppend([[s[0]] + rest[0]], rest[1..]);
      }
    }
  }

  const Palette: seq<string> := ["#FF5252", "#FF4081", "#E040FB", "#7C4DFF",
                                 "#536DFE", "#448AFF", "#40C4FF", "#18FFFF"]

  /** `getRandomColor`: the palette entry at `id % 8`, so always one of the eight colours. */
  function GetRandomColor(id: nat): (c: string)
    ensures c in Palette
  {
    Palette[id % |Palette|]
  }

  /** The screen's state. */
  class OrderHistoryView {
    var orders: seq<Order>
    var filteredOrders: seq<Order>
    var searchTerm: string
    var startDate: Option<int>
    var endDate: Option<int>
    var loading: bool
    var page: nat
    var rowsPerPage: nat

    /** After every handler, the effect on the criteria has run: the shown list is the stored list
        filtered by the current criteria. */
    ghost predicate Valid()
      reads this
    {
      filteredOrders == Filter(Criteria(searchTerm, startDate, endDate), orders)
    }

    constructor ()
      ensures Valid()
      ensures orders == [] && filteredOrders == [] && searchTerm == ""
      ensures startDate == None && endDate == None && loading && page == 0 && rowsPerPage == 10
    {
      orders, filteredOrders := [], [];
      searchTerm := "";
      startDate, endDate := None, None;
      loading := true;
      page, rowsPerPage := 0, 10;
    }

    /** `applyFilters`. */
    method ApplyFilters()
      modifies this`filteredOrders, this`page
      ensures Valid() && page == 0
    {
      filteredOrders := FilterOrders(orders, searchTerm, startDate, endDate);
      page := 0;
    }

    /** The load: a stored history is shown newest first and the filters are re-applied; with none
        stored nothing but the loading flag changes. */
    method Load(stored: Option<seq<Order>>)
      requires Valid()
      modifies this
      ensures Valid() && !loading
      ensures stored.Some? ==> orders == Reverse(stored.value) && page == 0
      ensures stored.None? ==> orders == old(orders) && filteredOrders == old(filteredOrders)
                               && page == old(page)
      ensures searchTerm == old(searchTerm) && startDate == old(startDate) && endDate == old(endDate)
      ensures rowsPerPage == old(rowsPerPage)
    {
      if stored.Some? {
        var sortedOrders := Reverse(stored.value);
        orders := sortedOrders;
        filteredOrders := sortedOrders;
        ApplyFilters();
      }
      loading := false;
    }

    method SetSearchTerm(term: string)
      modifies this`searchTerm, this`filteredOrders, this`page
      ensures Valid() && searchTerm == term && page == 0
    {
      searchTerm := term;
      ApplyFilters();
    }

    method SetStartDate(date: Option<int>)
      modifies this`startDate, this`filteredOrders, this`page
      ensures Valid() && startDate == date && page == 0
    {
      startDate := date;
      ApplyFilters();
    }

    method SetEndDate(date: Option<int>)
      modifies this`endDate, this`filteredOrders, this`page
      ensures Valid() && endDate == date && page == 0
    {
      endDate := date;
      ApplyFilters();
    }

    /** `resetFilters`: clears both filters, after which every stored order is shown again. */
    method ResetFilters()
      modifies this`searchTerm, this`startDate, this`endDate, this`filteredOrders, this`page
      ensures Valid() && searchTerm == "" && startDate == None && endDate == None && page == 0
      ensures filteredOrders == orders
    {
      searchTerm := "";
      startDate, endDate := None, None;
      ApplyFilters();
      NoFilterKeepsAll(orders, startDate, endDate);
    }

    method ChangePage(newPage: nat)
      modifies this`page
      ensures page == newPage
    {
      page := newPage;
    }

    /** `handleChangeRowsPerPage`: the new page size, and back to the first page. */
    method ChangeRowsPerPage(rows: nat)
      modifies this`rowsPerPage, this`page
      ensures rowsPerPage == rows && page == 0
    {
      rowsPerPage := rows;
      page := 0;
    }

    /** The rows of the table. */
    function VisibleOrders(): (r: seq<Order>)
      reads this
      ensures |r| <= rowsPerPage
      ensures forall k :: 0 <= k < |r| ==> page * rowsPerPage + k < |filteredOrders|
                                           && r[k] == filteredOrders[page * rowsPerPage + k]
    {
      PageSlice(filteredOrders, page, rowsPerPage)
    }
  }

  /** Newest first: the order saved last is shown first, and the one saved first is shown last. */
  lemma NewestFirst(history: seq<Order>, latest: Order)
    ensures Reverse(history + [latest])[0] == latest
    ensures history != [] ==> Reverse(history)[|history| - 1] == history[0]
  {
  }
}
