/**
 * The sales list (src/pages/sales/SalesPage.tsx): the search, status and date filter, and
 * the invoice number shown for each sale.
 */
module SalesPage {
  import opened Base
  import opened Schema
  import Seqs
  import Text

  /** The status as stored: `pending`, `completed` or `cancelled`. */
  function StatusName(s: SaleStatus): (name: string)
  {
    match s
    case Pending => "pending"
    case Completed => "completed"
    case Cancelled => "cancelled"
  }

  /** The search: the customer's name or the sale id contains the term, ignoring case. */
  predicate MatchesSearch(s: Sale, term: string)
  {
    Text.ContainsIgnoringCase(s.customerName, term) || Text.ContainsIgnoringCase(s.id, term)
  }

  /** The status select: `all`, or the sale's stored status. */
  predicate MatchesStatus(s: Sale, status: string)
  {
    status == "all" || StatusName(s.status) == status
  }

  /**
   * The date select: `today` keeps the current local calendar day, `week` the last seven
   * days, `month` the last calendar month; any other value keeps everything.
   */
  predicate MatchesDate(s: Sale, date: string, clock: Clock)
  {
    if date == "today" then clock.todayStart <= s.createdAt < clock.tomorrowStart
    else if date == "week" then s.createdAt >= clock.now - 7 * DAY
    else if date == "month" then s.createdAt >= clock.oneMonthAgo
    else true
  }

  function Shown(term: string, status: string, date: string, clock: Clock): (keep: Sale -> bool)
  {
    (s: Sale) => MatchesSearch(s, term) && MatchesStatus(s, status) && MatchesDate(s, date, clock)
  }

  /** `getFilteredSales` */
  function FilteredSales(sales: seq<Sale>, term: string, status: string, date: string, clock: Clock): (r: seq<Sale>)
  {
    Seqs.Filter(sales, Shown(term, status, date, clock))
  }

  /**
   * The list shown is the sub-list, in order, of the sales passing all three filters; with
   * an empty term and `all` everywhere, it is every sale.
   */
  lemma FilteredSalesSpec(sales: seq<Sale>, term: string, status: string, date: string, clock: Clock)
    ensures forall s :: s in FilteredSales(sales, term, status, date, clock) <==>
      s in sales && MatchesSearch(s, term) && MatchesStatus(s, status) && MatchesDate(s, date, clock)
    ensures Seqs.IsSubsequence(FilteredSales(sales, term, status, date, clock), sales)
    ensures FilteredSales(sales, "", "all", "all", clock) == sales
  {
    forall s ensures s in FilteredSales(sales, term, status, date, clock) <==>
      s in sales && MatchesSearch(s, term) && MatchesStatus(s, status) && MatchesDate(s, date, clock)
    {
      Seqs.FilterMembership(sales, Shown(term, status, date, clock), s);
    }
    Seqs.FilterIsSubsequence(sales, Shown(term, status, date, clock));
    forall i | 0 <= i < |sales| ensures Shown("", "all", "all", clock)(sales[i]) {
      Text.EmptyTermMatches(sales[i].customerName);
    }
    Seqs.FilterAll(sales, Shown("", "all", "all", clock));
  }

  /**
   * The filters are conjoined, so narrowing one never adds rows: a chosen status or date
   * shows a sub-list of what `all` shows, and today lies within the week, which lies within
   * the month.
   */
  lemma NarrowingNeverAdds(sales: seq<Sale>, term: string, status: string, date: string, clock: Clock)
    requires ClockValid(clock)
    ensures Seqs.IsSubsequence(FilteredSales(sales, term, status, date, clock), FilteredSales(sales, term, "all", date, clock))
    ensures Seqs.IsSubsequence(FilteredSales(sales, term, status, date, clock), FilteredSales(sales, term, status, "all", clock))
    ensures Seqs.IsSubsequence(FilteredSales(sales, term, status, "today", clock), FilteredSales(sales, term, status, "week", clock))
    ensures Seqs.IsSubsequence(FilteredSales(sales, term, status, "week", clock), FilteredSales(sales, term, status, "month", clock))
  {
    Seqs.FilterNarrowing(sales, Shown(term, status, date, clock), Shown(term, "all", date, clock));
    Seqs.FilterNarrowing(sales, Shown(term, status, date, clock), Shown(term, status, "all", clock));
    Seqs.FilterNarrowing(sales, Shown(term, status, "today", clock), Shown(term, status, "week", clock));
    Seqs.FilterNarrowing(sales, Shown(term, status, "week", clock), Shown(term, status, "month", clock));
  }

  /** The invoice number: the id's first eight characters, upper-cased. */
  function InvoiceLabel(id: string): (r: string)
  {
    Text.ToUpper(if |id| <= 8 then id else id[..8])
  }

  /**
   * The label is as long as the id up to eight characters, upper-cases the id's characters
   * one for one, holds no lower-case letter, and is unchanged by upper-casing again.
   */
  lemma InvoiceLabelSpec(id: string)
    ensures |InvoiceLabel(id)| == if |id| <= 8 then |id| else 8
    ensures forall i :: 0 <= i < |InvoiceLabel(id)| ==> InvoiceLabel(id)[i] == Text.UpperChar(id[i])
    ensures forall i :: 0 <= i < |InvoiceLabel(id)| ==> !('a' <= InvoiceLabel(id)[i] <= 'z')
    ensures InvoiceLabel(InvoiceLabel(id)) == InvoiceLabel(id)
  {
    var prefix := if |id| <= 8 then id else id[..8];
    Text.ToUpperHasNoLower(prefix);
    var shown := InvoiceLabel(id);
    assert forall i :: 0 <= i < |shown| ==> Text.UpperChar(shown[i]) == shown[i];
  }

  /** A uuid-shaped sale id shows as its first eight characters in capitals. */
  lemma InvoiceLabelExample()
    ensures InvoiceLabel("3f9a2c1e-77b0-4d2e-9c41-0a5b6e7d8f90") == "3F9A2C1E"
  {
    var id := "3f9a2c1e-77b0-4d2e-9c41-0a5b6e7d8f90";
    assert id[..8] == "3f9a2c1e";
    var u := Text.ToUpper("3f9a2c1e");
    assert u[0] == '3' && u[1] == 'F' && u[2] == '9' && u[3] == 'A';
    assert u[4] == '2' && u[5] == 'C' && u[6] == '1' && u[7] == 'E';
    assert u == "3F9A2C1E";
  }
}
