/** The invoice list (components/invoices/invoices-content.tsx): a search
    over customer ids and sale ids, and one row per listed sale with its
    number, amount, status and the links to its view, print and download
    pages. */
module InvoicesList {
  import opened Common
  import opened Catalog
  import opened Sales
  import opened InvoiceView

  /** A sale is listed when its customer id or its sale id contains the term, ignoring case. */
  predicate Listed(sale: Sale, term: string)
  {
    Matches(sale.customerId, term) || Matches(sale.saleId, term)
  }

  /** filteredSales of the invoice list. */
  function FilteredInvoices(sales: seq<Sale>, term: string): (r: seq<Sale>)
    ensures forall i :: 0 <= i < |r| ==> r[i] in sales && Listed(r[i], term)
    ensures forall i :: 0 <= i < |sales| && Listed(sales[i], term) ==> sales[i] in r
  {
    Filter(sales, (s: Sale) => Listed(s, term))
  }

  /** Every listed sale keeps all of its occurrences; every other sale loses all of them. */
  lemma FilteredInvoicesCount(sales: seq<Sale>, term: string, sale: Sale)
    ensures multiset(FilteredInvoices(sales, term))[sale] ==
            if Listed(sale, term) then multiset(sales)[sale] else 0
  {
    FilterCount(sales, (s: Sale) => Listed(s, term), sale);
  }

  /** An empty search term lists every sale. */
  lemma FilteredInvoicesEmptyTerm(sales: seq<Sale>)
    ensures FilteredInvoices(sales, "") == sales
  {
    forall i | 0 <= i < |sales| ensures Listed(sales[i], "") {
      IncludesEmpty(Lower(sales[i].customerId));
    }
    FilterKeepsAll(sales, (s: Sale) => Listed(s, ""));
  }

  /** The search only drops sales and keeps the order of the rest. */
  lemma FilteredInvoicesKeepsOrder(sales: seq<Sale>, term: string)
    ensures IsSubsequence(FilteredInvoices(sales, term), sales)
  {
    FilterIsSubsequence(sales, (s: Sale) => Listed(s, term));
  }

  /** The invoice search finds everything the sales page's customer search
      finds, and, when the term matches no sale id, exactly that. */
  lemma InvoiceSearchWidensSalesSearch(sales: seq<Sale>, term: string)
    ensures forall i :: 0 <= i < |FilteredSales(sales, term)| ==>
              FilteredSales(sales, term)[i] in FilteredInvoices(sales, term)
    ensures (forall i :: 0 <= i < |sales| ==> !Matches(sales[i].saleId, term)) ==>
              FilteredInvoices(sales, term) == FilteredSales(sales, term)
  {
    if forall i :: 0 <= i < |sales| ==> !Matches(sales[i].saleId, term) {
      FilterSame(sales, (s: Sale) => Listed(s, term), (s: Sale) => Matches(s.customerId, term));
    }
  }

  // ---------------------------------------------------------------- rows

  /** One row of the list: Invoice #, Customer, Date, Amount, Status, and
      the targets of its View, Print and Download actions. */
  datatype ListRow = ListRow(
    number: string,
    customer: string,
    date: string,
    amount: real,
    status: string,
    view: string,
    printAction: seq<Effect>,
    downloadAction: seq<Effect>)

  function ListRowOf(sale: Sale): ListRow
  {
    ListRow(InvoiceNumber(sale.saleId), sale.customerId, sale.createdAt, sale.totalAmount, PaidStatus,
            ViewUrl(sale.saleId), HandlePrint(sale.saleId), HandleDownload(sale.saleId))
  }

  /** The table body: one row per listed sale, in order. */
  function ListRows(sales: seq<Sale>): (rows: seq<ListRow>)
    ensures |rows| == |sales|
    ensures forall i :: 0 <= i < |sales| ==>
              rows[i].number == InvoiceNumber(sales[i].saleId) &&
              rows[i].customer == sales[i].customerId && rows[i].date == sales[i].createdAt &&
              rows[i].amount == sales[i].totalAmount && rows[i].status == "Paid" &&
              rows[i].view == ViewUrl(sales[i].saleId) &&
              rows[i].printAction == HandlePrint(sales[i].saleId) &&
              rows[i].downloadAction == HandleDownload(sales[i].saleId)
  {
    if |sales| == 0 then [] else [ListRowOf(sales[0])] + ListRows(sales[1..])
  }

  /** The Amount column adds up to the Total Revenue of the sales page: the
      undiscounted totals. */
  lemma {:induction false} ListAmountsAreRevenue(sales: seq<Sale>)
    ensures SumBy(ListRows(sales), (r: ListRow) => r.amount) == TotalRevenue(sales)
  {
    SumByPointwise(ListRows(sales), (r: ListRow) => r.amount, sales, (s: Sale) => s.totalAmount);
  }

  datatype ListScreen = LoadingList | NoInvoices | Rows(rows: seq<ListRow>)

  /** The sales the list holds after its fetch: a failed fetch leaves the
      initial empty list, and loading ends either way. */
  function ListSales(fetched: Option<Fetched>): (sales: seq<Sale>)
    ensures fetched.None? ==> sales == []
    ensures fetched.Some? ==> sales == fetched.value.sales
  {
    if fetched.Some? then fetched.value.sales else []
  }

  /** What the list renders. */
  function ListScreenOf(loading: bool, sales: seq<Sale>, term: string): (s: ListScreen)
    ensures loading <==> s.LoadingList?
    ensures s.NoInvoices? <==> !loading && FilteredInvoices(sales, term) == []
    ensures s.Rows? ==> s.rows == ListRows(FilteredInvoices(sales, term)) && s.rows != []
  {
    if loading then LoadingList
    else
      var listed := FilteredInvoices(sales, term);
      if |listed| == 0 then NoInvoices else Rows(ListRows(listed))
  }

  /** After a failed fetch the list says "No invoices found", whatever the term. */
  lemma FailedFetchShowsNoInvoices(term: string)
    ensures ListScreenOf(false, ListSales(None), term) == NoInvoices
  {
  }
}
