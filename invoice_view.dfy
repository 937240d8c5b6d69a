/** The invoice as the detail screen (components/invoices/invoice-detail.tsx)
    and the print page (components/invoices/invoice-print.tsx) render it:
    item rows resolved from the product list, a summary block that shows the
    stored totals, the labels built from the id, and the two page flows
    (not-found redirect, automatic print). The row builder is shared with
    the PDF renderers, which differ only in how they name a product. */
module InvoiceView {
  import opened Common
  import opened Catalog
  import opened Sales

  // ------------------------------------------------------------------ rows

  const TableHead := ["Item", "Quantity", "Unit Price", "Amount"]

  /** One item row: Item, Quantity, Unit Price, Amount. */
  datatype Row = Row(name: string, quantity: int, unitPrice: real, amount: real)

  function RowOf(item: SaleItem, nameOf: string -> string): Row
  {
    Row(nameOf(item.productId), item.quantity, item.price, LineAmount(item))
  }

  /** `sale.saleItems.map(...)`: one row per line, in order, named by `nameOf`. */
  function Rows(items: seq<SaleItem>, nameOf: string -> string): (rows: seq<Row>)
    ensures |rows| == |items|
    ensures forall i :: 0 <= i < |items| ==>
              rows[i].name == nameOf(items[i].productId) &&
              rows[i].quantity == items[i].quantity &&
              rows[i].unitPrice == items[i].price &&
              rows[i].amount == LineAmount(items[i])
  {
    if |items| == 0 then []
    else
      assert forall i :: 1 <= i < |items| ==> items[i] == items[1..][i - 1];
      [RowOf(items[0], nameOf)] + Rows(items[1..], nameOf)
  }

  /** The Amount column adds up to what the sale form computed as the subtotal. */
  lemma RowAmountsAddUpToSubtotal(items: seq<SaleItem>, nameOf: string -> string)
    ensures SumBy(Rows(items, nameOf), (r: Row) => r.amount) == Subtotal(items)
  {
    SumByPointwise(Rows(items, nameOf), (r: Row) => r.amount, items, LineAmount);
  }

  /** The rows of the detail and print screens: names by getProductName. */
  function DisplayRows(items: seq<SaleItem>, products: seq<Product>): seq<Row>
  {
    Rows(items, (id: string) => ProductName(products, id))
  }

  // --------------------------------------------------------------- summary

  /** Subtotal, Discount (pct%), Total. */
  datatype Summary = Summary(subtotal: real, discountPercentage: real, discount: real, total: real)

  /** The summary block. Subtotal and Total are the amounts stored with the
      sale; only the discount line is computed, from the stored total. */
  function SummaryOf(sale: Sale): (s: Summary)
    ensures s.subtotal == sale.totalAmount && s.total == sale.finalAmount
    ensures s.discountPercentage == sale.discountPercentage
    ensures s.discount == sale.totalAmount * (sale.discountPercentage / 100.0)
    ensures 0.0 <= sale.discountPercentage <= 100.0 && 0.0 <= sale.totalAmount ==>
              0.0 <= s.discount <= s.subtotal
  {
    Summary(sale.totalAmount, sale.discountPercentage,
            DiscountAmount(sale.totalAmount, sale.discountPercentage), sale.finalAmount)
  }

  /** When the stored final amount is what the sale form would have computed,
      the three lines of the summary agree: Subtotal - Discount = Total. */
  lemma SummaryAgreesWithForm(sale: Sale)
    requires sale.finalAmount == FinalAmount(sale.totalAmount, Some(sale.discountPercentage))
    ensures SummaryOf(sale).subtotal - SummaryOf(sale).discount == SummaryOf(sale).total
  {
  }

  // ------------------------------------------------------- labels and urls

  const PaidStatus := "Paid"

  /** `INV-${id.substring(0, 8)}` */
  function InvoiceNumber(id: string): (r: string)
    ensures |r| == 4 + (if |id| < 8 then |id| else 8)
    ensures r[..4] == "INV-" && r[4..] <= id
  {
    "INV-" + Take(id, 8)
  }

  /** `Invoice #${id.substring(0, 8)}`, the heading of the detail screen. */
  function InvoiceHeading(id: string): (r: string)
    ensures |r| == 9 + (if |id| < 8 then |id| else 8)
    ensures r[..9] == "Invoice #" && r[9..] <= id
  {
    "Invoice #" + Take(id, 8)
  }

  /** `/invoices/${id}` */
  function ViewUrl(id: string): (r: string)
    ensures |r| == |id| + 10 && r[..10] == "/invoices/" && r[10..] == id
  {
    "/invoices/" + id
  }

  /** `/invoices/${id}/print` */
  function PrintUrl(id: string): (r: string)
    ensures |r| == |id| + 16 && r[..|r| - 6] == ViewUrl(id) && r[|r| - 6..] == "/print"
  {
    ViewUrl(id) + "/print"
  }

  /** `/invoices/${id}/download` */
  function DownloadUrl(id: string): (r: string)
    ensures |r| == |id| + 19 && r[..|r| - 9] == ViewUrl(id) && r[|r| - 9..] == "/download"
  {
    ViewUrl(id) + "/download"
  }

  /** The print and download links identify the invoice and never collide. */
  lemma {:induction false} UrlsIdentifyInvoice(a: string, b: string)
    ensures PrintUrl(a) == PrintUrl(b) ==> a == b
    ensures DownloadUrl(a) == DownloadUrl(b) ==> a == b
    ensures PrintUrl(a) != DownloadUrl(b)
  {
    var pa, pb, da, db := PrintUrl(a), PrintUrl(b), DownloadUrl(a), DownloadUrl(b);
    if pa == pb {
      assert ViewUrl(a) == pa[..|pa| - 6] == ViewUrl(b);
      assert a == ViewUrl(a)[10..];
    }
    if da == db {
      assert ViewUrl(a) == da[..|da| - 9] == ViewUrl(b);
      assert a == ViewUrl(a)[10..];
    }
    assert pa[|pa| - 1] == "/print"[5] == 't';
    assert db[|db| - 1] == "/download"[8] == 'd';
  }

  // ------------------------------------------------------------ the screen

  /** Everything the invoice body shows, in order. */
  datatype Invoice = Invoice(
    number: string,
    customerId: string,
    createdAt: string,
    paymentMethod: string,
    rows: seq<Row>,
    summary: Summary,
    status: string)

  /** The invoice body of the detail and print screens for the sale found under `id`. */
  function Assemble(id: string, sale: Sale, products: seq<Product>): Invoice
  {
    Invoice(InvoiceNumber(id), sale.customerId, sale.createdAt, sale.paymentMethod,
            DisplayRows(sale.saleItems, products), SummaryOf(sale), PaidStatus)
  }

  datatype Screen = Loading | NotFound | Shown(heading: Option<string>, invoice: Invoice)

  /** Side effects a flow asks the browser for. */
  datatype Effect = Toast(title: string) | Navigate(path: string) | OpenTab(url: string)

  /** The state the detail screen's fetch leaves behind. */
  datatype Loaded = Loaded(sale: Option<Sale>, products: seq<Product>, effects: seq<Effect>)

  /** The fetch of the detail screen. `fetched` is None when a request or its
      parsing failed. An unknown id raises a toast and navigates back to the
      list, leaving no sale. */
  function DetailLoad(fetched: Option<Fetched>, id: string): (r: Loaded)
    ensures r.sale.Some? <==> fetched.Some? && exists i :: 0 <= i < |fetched.value.sales| && fetched.value.sales[i].saleId == id
    ensures r.sale.Some? ==> r.sale.value in fetched.value.sales && r.sale.value.saleId == id && r.effects == []
    ensures fetched.Some? ==> r.sale == FindSale(fetched.value.sales, id)
    ensures r.sale.Some? ==> exists k :: 0 <= k < |fetched.value.sales| && fetched.value.sales[k] == r.sale.value &&
                                         forall j :: 0 <= j < k ==> fetched.value.sales[j].saleId != id
    ensures fetched.Some? && r.sale.None? ==> r.effects == [Toast("Invoice not found"), Navigate("/invoices")]
    ensures fetched.Some? ==> r.products == fetched.value.products
    ensures fetched.None? ==> r.products == [] && r.effects == [Toast("Error")]
  {
    match fetched
    case None => Loaded(None, [], [Toast("Error")])
    case Some(data) =>
      match FindSale(data.sales, id)
      case Some(sale) => Loaded(Some(sale), data.products, [])
      case None => Loaded(None, data.products, [Toast("Invoice not found"), Navigate("/invoices")])
  }

  /** What the detail screen renders. */
  function DetailScreen(id: string, loading: bool, state: Loaded): Screen
  {
    if loading then Loading
    else match state.sale
         case None => NotFound
         case Some(sale) => Shown(Some(InvoiceHeading(id)), Assemble(id, sale, state.products))
  }

  /** Once loading ends, an id no sale carries renders "Invoice not found"
      after the redirect to the list; a known id renders its invoice. */
  lemma DetailOutcome(fetched: Fetched, id: string)
    ensures var state := DetailLoad(Some(fetched), id);
            var screen := DetailScreen(id, false, state);
            (screen.NotFound? <==> forall i :: 0 <= i < |fetched.sales| ==> fetched.sales[i].saleId != id) &&
            (screen.NotFound? ==> Navigate("/invoices") in state.effects) &&
            (screen.Shown? ==> screen.invoice.summary.total == FindSale(fetched.sales, id).value.finalAmount)
  {
  }

  /** handlePrint */
  function HandlePrint(id: string): (effects: seq<Effect>)
    ensures |effects| == 2 && effects[0] == Toast("Print initiated") && effects[1] == OpenTab(PrintUrl(id))
  {
    [Toast("Print initiated"), OpenTab(PrintUrl(id))]
  }

  /** handleDownload */
  function HandleDownload(id: string): (effects: seq<Effect>)
    ensures |effects| == 2 && effects[0] == Toast("Download started") && effects[1] == OpenTab(DownloadUrl(id))
  {
    [Toast("Download started"), OpenTab(DownloadUrl(id))]
  }

  // -------------------------------------------------------- the print page

  /** The print page. Its effect on (sale, loading) schedules the browser's
      print dialog; `printsScheduled` counts how often it did. */
  class InvoicePrintPage {
    const id: string
    var sale: Option<Sale>
    var products: seq<Product>
    var loading: bool
    var printsScheduled: nat

    constructor (id: string)
      ensures this.id == id && sale.None? && products == [] && loading && printsScheduled == 0
    {
      this.id := id;
      sale, products, loading, printsScheduled := None, [], true, 0;
    }

    /** The effect: print only when a sale is shown and loading is over. */
    method PrintEffect()
      modifies this`printsScheduled
      ensures printsScheduled == old(printsScheduled) + if sale.Some? && !loading then 1 else 0
    {
      if sale.Some? && !loading {
        printsScheduled := printsScheduled + 1;
      }
    }

    /** The fetch on mount, followed by the effect run its state change causes.
        A sale is stored only when one carries the id; a failed fetch stores nothing. */
    method Load(fetched: Option<Fetched>)
      modifies this`sale, this`products, this`loading, this`printsScheduled
      ensures !loading
      ensures fetched.Some? && FindSale(fetched.value.sales, id).Some? ==>
                sale == FindSale(fetched.value.sales, id)
      ensures !(fetched.Some? && FindSale(fetched.value.sales, id).Some?) ==> sale == old(sale)
      ensures products == if fetched.Some? then fetched.value.products else old(products)
      ensures printsScheduled == old(printsScheduled) + if sale.Some? then 1 else 0
    {
      if fetched.Some? {
        var found := FindSale(fetched.value.sales, id);
        if found.Some? {
          sale := found;
        }
        products := fetched.value.products;
      }
      loading := false;
      PrintEffect();
    }

    /** What the print page renders. */
    function Screen(): Screen
      reads this
    {
      if loading then Loading
      else match sale
           case None => NotFound
           case Some(s) => Shown(None, Assemble(id, s, products))
    }
  }

  /** The print page's whole life: mount, fetch, effect. The print dialog is
      scheduled exactly once for a known id and never for an unknown one, which
      then renders "Invoice not found". */
  method OpenPrintPage(id: string, fetched: Option<Fetched>) returns (printsScheduled: nat, screen: Screen)
    ensures var known := fetched.Some? && exists i :: 0 <= i < |fetched.value.sales| && fetched.value.sales[i].saleId == id;
            printsScheduled == (if known then 1 else 0) &&
            (known <==> screen.Shown?) && (!known <==> screen.NotFound?)
  {
    var page := new InvoicePrintPage(id);
    page.Load(fetched);
    printsScheduled, screen := page.printsScheduled, page.Screen();
  }
}
