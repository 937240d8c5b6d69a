/** The download page (components/invoices/invoice-pdf-generator.tsx): it
    fetches the sales and products, builds a record from product id to name,
    draws the same invoice as the shared PDF renderer and saves it as
    `invoice-<first 8 characters of the id>.pdf`. Its product lookup differs
    from the one of the screens: the record keeps the last product written
    under an id, and an empty name falls back to "Unknown Product". */
module PdfGenerator {
  import opened Common
  import opened Catalog
  import opened InvoiceView
  import opened Pdf

  // ------------------------------------------------------ the product record

  /** The record the forEach leaves behind: every product in turn writes its
      name under its id. */
  function NameMap(ps: seq<Product>): (m: map<string, string>)
    ensures m.Keys == set i | 0 <= i < |ps| :: ps[i].id
    ensures forall k :: k in m ==> exists i :: 0 <= i < |ps| && ps[i].id == k && ps[i].name == m[k]
  {
    if |ps| == 0 then map[]
    else
      var last := ps[|ps| - 1];
      var m := NameMap(ps[..|ps| - 1]);
      assert forall k :: k in m ==> exists i :: 0 <= i < |ps| - 1 && ps[i].id == k && ps[i].name == m[k];
      m[last.id := last.name]
  }

  /** With duplicate ids, the last product carrying the id wins. */
  lemma {:induction false} NameMapLastWins(ps: seq<Product>, i: nat)
    requires i < |ps|
    requires forall j :: i < j < |ps| ==> ps[j].id != ps[i].id
    ensures ps[i].id in NameMap(ps) && NameMap(ps)[ps[i].id] == ps[i].name
  {
    if i < |ps| - 1 {
      var init := ps[..|ps| - 1];
      assert init[i] == ps[i];
      NameMapLastWins(init, i);
    }
  }

  /** The forEach loop filling the record. */
  method BuildProductNameMap(ps: seq<Product>) returns (m: map<string, string>)
    ensures m == NameMap(ps)
  {
    m := map[];
    var i := 0;
    while i < |ps|
      invariant 0 <= i <= |ps|
      invariant m == NameMap(ps[..i])
    {
      assert ps[..i + 1][..i] == ps[..i];
      m := m[ps[i].id := ps[i].name];
      i := i + 1;
    }
    assert ps[..i] == ps;
  }

  /** `productMap[id] || "Unknown Product"`: a missing id and an empty name
      both give the fallback, so a row is never unnamed. */
  function PdfRowName(m: map<string, string>, id: string): (name: string)
    ensures name != ""
    ensures id in m && m[id] != "" ==> name == m[id]
    ensures id !in m || m[id] == "" ==> name == UnknownProduct
  {
    if id in m && m[id] != "" then m[id] else UnknownProduct
  }

  /** The rows of the downloaded PDF. */
  function PdfRows(items: seq<SaleItem>, m: map<string, string>): seq<Row>
  {
    Rows(items, (id: string) => PdfRowName(m, id))
  }

  /** With unique ids and non-empty names, the download names every product
      as the screens do. */
  lemma LookupsAgree(ps: seq<Product>, id: string)
    requires forall i, j :: 0 <= i < j < |ps| ==> ps[i].id != ps[j].id
    requires forall i :: 0 <= i < |ps| ==> ps[i].name != ""
    ensures PdfRowName(NameMap(ps), id) == ProductName(ps, id)
  {
    if i :| 0 <= i < |ps| && ps[i].id == id {
      LookupFound(ps, i);
    } else {
      LookupMissing(ps, id);
    }
  }

  /** The case of LookupsAgree where no product carries the id. */
  lemma LookupMissing(ps: seq<Product>, id: string)
    requires forall i :: 0 <= i < |ps| ==> ps[i].id != id
    ensures PdfRowName(NameMap(ps), id) == UnknownProduct == ProductName(ps, id)
  {
    assert id !in NameMap(ps);
  }

  /** The case of LookupsAgree where some product carries the id. */
  lemma LookupFound(ps: seq<Product>, i: nat)
    requires i < |ps|
    requires forall i, j :: 0 <= i < j < |ps| ==> ps[i].id != ps[j].id
    requires ps[i].name != ""
    ensures PdfRowName(NameMap(ps), ps[i].id) == ps[i].name == ProductName(ps, ps[i].id)
  {
    assert forall j :: i < j < |ps| ==> ps[j].id != ps[i].id;
    NameMapLastWins(ps, i);
    assert forall j :: 0 <= j < i ==> ps[j].id != ps[i].id;
  }

  /** ... and so its table rows are those of the detail and print screens. */
  lemma RowsAgree(ps: seq<Product>, items: seq<SaleItem>)
    requires forall i, j :: 0 <= i < j < |ps| ==> ps[i].id != ps[j].id
    requires forall i :: 0 <= i < |ps| ==> ps[i].name != ""
    ensures PdfRows(items, NameMap(ps)) == DisplayRows(items, ps)
  {
    forall k | 0 <= k < |items|
      ensures PdfRows(items, NameMap(ps))[k] == DisplayRows(items, ps)[k]
    {
      LookupsAgree(ps, items[k].productId);
    }
  }

  /** A product with an empty name: the screens show the empty name, the
      download shows "Unknown Product". */
  lemma EmptyNameDiffers(p: Product)
    requires p.name == ""
    ensures ProductName([p], p.id) == ""
    ensures PdfRowName(NameMap([p]), p.id) == UnknownProduct
  {
    NameMapLastWins([p], 0);
  }

  /** Two products under one id: the screens show the first, the download the last. */
  lemma DuplicateIdDiffers(p: Product, q: Product)
    requires p.id == q.id && q.name != ""
    ensures ProductName([p, q], p.id) == p.name
    ensures PdfRowName(NameMap([p, q]), p.id) == q.name
  {
    NameMapLastWins([p, q], 1);
  }

  // ---------------------------------------------------------- the download

  /** `invoice-${saleId.substring(0, 8)}.pdf`: the same id prefix as the
      invoice number. */
  function FileName(saleId: string): (r: string)
    ensures 12 <= |r| <= 20 && r[..8] == "invoice-" && r[|r| - 4..] == ".pdf"
    ensures r[8..|r| - 4] == InvoiceNumber(saleId)[4..]
  {
    "invoice-" + Take(saleId, 8) + ".pdf"
  }

  /** generatePDF: the shared drawing with rows named through the record,
      then saved under the file name. */
  method GeneratePdf(sale: Sale, productMap: map<string, string>, tableEnd: real) returns (doc: PdfDoc)
    ensures fresh(doc)
    ensures doc.commands == InvoiceCommands(sale, PdfRows(sale.saleItems, productMap), tableEnd)
    ensures doc.savedAs == Some(FileName(sale.saleId))
  {
    doc := GenerateInvoicePdf(sale, [], (id: string) => PdfRowName(productMap, id), tableEnd);
    doc.Save(FileName(sale.saleId));
  }

  /** A saved file: its name and what was drawn in it. */
  datatype Download = Download(fileName: string, commands: seq<DrawCmd>)

  /** "Generating PDF...", "Invoice not found" or "PDF Generated". */
  datatype Status = Generating | Missing | Generated

  class InvoiceDownloadPage {
    const id: string
    var sale: Option<Sale>
    var products: seq<Product>
    var loading: bool
    var productMap: map<string, string>
    var toasts: seq<string>
    var downloads: seq<Download>

    constructor (id: string)
      ensures this.id == id && sale.None? && products == [] && loading && productMap == map[]
      ensures toasts == [] && downloads == []
    {
      this.id := id;
      sale, products, loading, productMap := None, [], true, map[];
      toasts, downloads := [], [];
    }

    /** fetchData followed by its timer. `fetched` is None when a request or
        its parsing failed. An unknown id ends loading with a toast and
        saves nothing. `completes` says whether jsPDF draws and saves without
        throwing; when it throws, generatePDF's catch raises an error toast,
        no file is saved, and the page still shows its data as generated. */
    method FetchData(fetched: Option<Fetched>, tableEnd: real, completes: bool)
      modifies this`sale, this`products, this`loading, this`productMap, this`toasts, this`downloads
      ensures !loading
      ensures fetched.None? ==>
                toasts == old(toasts) + ["Error"] && downloads == old(downloads) &&
                sale == old(sale) && products == old(products) && productMap == old(productMap)
      ensures fetched.Some? && FindSale(fetched.value.sales, id).None? ==>
                toasts == old(toasts) + ["Invoice not found"] && downloads == old(downloads) &&
                sale == old(sale) && products == old(products) && productMap == old(productMap)
      ensures fetched.Some? && FindSale(fetched.value.sales, id).Some? ==>
                var found := FindSale(fetched.value.sales, id).value;
                sale == Some(found) && products == fetched.value.products &&
                productMap == NameMap(fetched.value.products)
      ensures fetched.Some? && FindSale(fetched.value.sales, id).Some? && completes ==>
                var found := FindSale(fetched.value.sales, id).value;
                toasts == old(toasts) + ["PDF Generated"] &&
                downloads == old(downloads) +
                  [Download(FileName(found.saleId), InvoiceCommands(found, PdfRows(found.saleItems, productMap), tableEnd))]
      ensures fetched.Some? && FindSale(fetched.value.sales, id).Some? && !completes ==>
                toasts == old(toasts) + ["Error"] && downloads == old(downloads)
    {
      if fetched.None? {
        toasts := toasts + ["Error"];
        loading := false;
        return;
      }
      var data := fetched.value;
      var found := FindSale(data.sales, id);
      if found.None? {
        toasts := toasts + ["Invoice not found"];
        loading := false;
        return;
      }
      var nameMap := BuildProductNameMap(data.products);
      sale, products, productMap := found, data.products, nameMap;
      if completes {
        var doc := GeneratePdf(found.value, nameMap, tableEnd);
        downloads := downloads + [Download(doc.savedAs.value, doc.commands)];
        toasts := toasts + ["PDF Generated"];
      } else {
        toasts := toasts + ["Error"];
      }
      loading := false;
    }

    function Status(): Status
      reads this`loading, this`sale
    {
      if loading then Generating else if sale.None? then Missing else Generated
    }
  }

  /** The download page's whole life. A known id yields exactly one file,
      named after it and holding its invoice, unless jsPDF throws; an unknown
      id yields none and renders "Invoice not found". A throwing jsPDF still
      renders "PDF Generated", next to an error toast. */
  method OpenDownloadPage(id: string, fetched: Option<Fetched>, tableEnd: real, completes: bool)
    returns (downloads: seq<Download>, toasts: seq<string>, status: Status)
    ensures var known := fetched.Some? && FindSale(fetched.value.sales, id).Some?;
            (known <==> status == Generated) && (!known <==> status == Missing) &&
            (known && completes <==> |downloads| == 1) && (!(known && completes) <==> downloads == [])
    ensures fetched.Some? && FindSale(fetched.value.sales, id).Some? && !completes ==> toasts == ["Error"]
    ensures fetched.Some? && FindSale(fetched.value.sales, id).Some? && completes ==>
              var sale := FindSale(fetched.value.sales, id).value;
              downloads == [Download(FileName(id),
                                     InvoiceCommands(sale, PdfRows(sale.saleItems, NameMap(fetched.value.products)), tableEnd))] &&
              toasts == ["PDF Generated"]
    ensures fetched.Some? && FindSale(fetched.value.sales, id).None? ==> toasts == ["Invoice not found"]
    ensures fetched.None? ==> toasts == ["Error"]
  {
    var page := new InvoiceDownloadPage(id);
    page.FetchData(fetched, tableEnd, completes);
    downloads, toasts, status := page.downloads, page.toasts, page.Status();
  }
}
