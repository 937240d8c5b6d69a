/** The Sales screen (components/sales/sales-content.tsx): the new-sale form
    with its editable line items, the live subtotal and discounted total,
    the checks made before a sale is posted, and the filtered sales list
    with its summary cards. */
module Sales {
  import opened Common
  import opened Catalog

  // ------------------------------------------------------------- pricing

  /** A fresh line of the form: no product picked, quantity 1, price 0. */
  const BlankItem := SaleItem("", 1, 0.0)

  const DefaultPaymentMethod := "Credit Card"

  /** `item.price * item.quantity` */
  function LineAmount(item: SaleItem): real
  {
    item.price * (item.quantity as real)
  }

  /** calculateTotal: the reduce of `total + item.price * item.quantity` from 0. */
  function Subtotal(items: seq<SaleItem>): real
  {
    SumBy(items, LineAmount)
  }

  lemma SubtotalEmpty()
    ensures Subtotal([]) == 0.0
  {
  }

  /** Adding a line adds exactly its amount to the subtotal. */
  lemma SubtotalAppend(items: seq<SaleItem>, item: SaleItem)
    ensures Subtotal(items + [item]) == Subtotal(items) + LineAmount(item)
  {
    assert (items + [item])[..|items|] == items;
  }

  /** The subtotal does not depend on the order of the lines. */
  lemma SubtotalOrderIndependent(items: seq<SaleItem>, reordered: seq<SaleItem>)
    requires multiset(items) == multiset(reordered)
    ensures Subtotal(items) == Subtotal(reordered)
  {
    SumByPermutation(items, reordered, LineAmount);
  }

  /** `total * (discount / 100)`: the amount taken off, with no range check on the percentage. */
  function DiscountAmount(total: real, percentage: real): real
  {
    total * (percentage / 100.0)
  }

  /** `Number.parseFloat(discountPercentage) || 0`, given the parse result (None for NaN). */
  function DiscountOrZero(parsed: Option<real>): (d: real)
    ensures parsed.None? ==> d == 0.0
    ensures parsed.Some? ==> d == parsed.value
  {
    match parsed
    case None => 0.0
    case Some(x) => if x == 0.0 then 0.0 else x
  }

  /** calculateFinalAmount: the subtotal less the discount. */
  function FinalAmount(total: real, parsed: Option<real>): (r: real)
    ensures r == total * (1.0 - DiscountOrZero(parsed) / 100.0)
    ensures parsed.None? || parsed == Some(0.0) ==> r == total
    ensures parsed == Some(100.0) ==> r == 0.0
    ensures parsed.Some? && 0.0 <= parsed.value <= 100.0 && 0.0 <= total ==> 0.0 <= r <= total
    ensures parsed.Some? && parsed.value > 100.0 && total > 0.0 ==> r < 0.0
    ensures parsed.Some? && parsed.value < 0.0 && total > 0.0 ==> r > total
  {
    var d := DiscountOrZero(parsed);
    var r := total - DiscountAmount(total, d);
    assert r == total * (1.0 - d / 100.0);
    assert d > 100.0 ==> 1.0 - d / 100.0 < 0.0;
    assert d < 0.0 ==> 1.0 - d / 100.0 > 1.0;
    assert 0.0 <= d <= 100.0 ==> 0.0 <= 1.0 - d / 100.0 <= 1.0;
    ScaleBounds(total, 1.0 - d / 100.0);
    r
  }

  /** Scaling an amount by a factor: below 0 turns it negative,
      above 1 enlarges it, and between 0 and 1 keeps it within [0, amount]. */
  lemma ScaleBounds(t: real, f: real)
    ensures f < 0.0 && t > 0.0 ==> t * f < 0.0
    ensures f > 1.0 && t > 0.0 ==> t * f > t
    ensures 0.0 <= f <= 1.0 && 0.0 <= t ==> 0.0 <= t * f <= t
  {
    if f < 0.0 && t > 0.0 {
      assert t * (0.0 - f) > 0.0;
    } else if f > 1.0 && t > 0.0 {
      assert t * (f - 1.0) > 0.0;
    } else if 0.0 <= f <= 1.0 && 0.0 <= t {
      assert t * (1.0 - f) >= 0.0;
    }
  }

  /** The worked example: 2 x 10.00 and 1 x 5.50 at 10% give 25.50, 2.55 off, 22.95. */
  lemma ExampleSale()
    ensures var items := [SaleItem("P1", 2, 10.0), SaleItem("P2", 1, 5.5)];
            Subtotal(items) == 25.5 && DiscountAmount(25.5, 10.0) == 2.55 &&
            FinalAmount(Subtotal(items), Some(10.0)) == 22.95
  {
    var items := [SaleItem("P1", 2, 10.0), SaleItem("P2", 1, 5.5)];
    assert items[..1][..0] == [];
    assert SumBy(items[..1], LineAmount) == 20.0;
    assert Subtotal(items) == 20.0 + 5.5;
  }

  /** `Number.parseInt(quantity) || 1`, given the parse result (None for NaN). */
  function QuantityOrOne(parsed: Option<int>): (q: int)
    ensures q != 0
    ensures parsed.Some? && parsed.value != 0 ==> q == parsed.value
    ensures parsed.None? || parsed == Some(0) ==> q == 1
  {
    match parsed
    case Some(n) => if n == 0 then 1 else n
    case None => 1
  }

  // ---------------------------------------------------------- validation

  datatype FormError = MissingCustomer | MissingProduct

  /** The two checks of handleSubmit, in order; None means the sale may be posted. */
  function Validate(customerId: string, items: seq<SaleItem>): (r: Option<FormError>)
    ensures r.None? <==> customerId != "" && forall i :: 0 <= i < |items| ==> items[i].productId != ""
    ensures r == Some(MissingCustomer) <==> customerId == ""
  {
    if customerId == "" then Some(MissingCustomer)
    else if exists i :: 0 <= i < |items| && items[i].productId == "" then Some(MissingProduct)
    else None
  }

  /** The body of the POST /sales request. */
  datatype SaleRequest = SaleRequest(
    customerId: string,
    saleItems: seq<SaleItem>,
    paymentMethod: string,
    discountPercentage: real)

  /** What a press of "Create Sale" did: refused locally, or posted (and whether the service accepted it). */
  datatype SubmitOutcome = Refused(error: FormError) | Posted(request: SaleRequest, accepted: bool)

  // -------------------------------------------------------- the list view

  /** filteredSales: the sales whose customer id contains the search term, ignoring case. */
  function FilteredSales(sales: seq<Sale>, term: string): (r: seq<Sale>)
    ensures forall i :: 0 <= i < |r| ==> r[i] in sales && Matches(r[i].customerId, term)
    ensures forall i :: 0 <= i < |sales| && Matches(sales[i].customerId, term) ==> sales[i] in r
  {
    Filter(sales, (s: Sale) => Matches(s.customerId, term))
  }

  /** An empty search term keeps the whole list. */
  lemma FilteredSalesEmptyTerm(sales: seq<Sale>)
    ensures FilteredSales(sales, "") == sales
  {
    forall i | 0 <= i < |sales| ensures Matches(sales[i].customerId, "") {
      IncludesEmpty(Lower(sales[i].customerId));
    }
    FilterKeepsAll(sales, (s: Sale) => Matches(s.customerId, ""));
  }

  /** The filter only drops sales; the ones it keeps stay in their order. */
  lemma FilteredSalesKeepsOrder(sales: seq<Sale>, term: string)
    ensures IsSubsequence(FilteredSales(sales, term), sales)
  {
    FilterIsSubsequence(sales, (s: Sale) => Matches(s.customerId, term));
  }

  /** Total Revenue: the sum of `totalAmount` (before discount) over the listed sales. */
  function TotalRevenue(sales: seq<Sale>): real
  {
    SumBy(sales, (s: Sale) => s.totalAmount)
  }

  /** Total Revenue adds the undiscounted total of each sale, whatever was charged. */
  lemma TotalRevenueAppend(sales: seq<Sale>, sale: Sale)
    ensures TotalRevenue(sales + [sale]) == TotalRevenue(sales) + sale.totalAmount
  {
    assert (sales + [sale])[..|sales|] == sales;
  }

  /** Average Sale, shown only when the list is not empty. */
  function AverageSale(sales: seq<Sale>): (r: real)
    requires |sales| > 0
    ensures r * (|sales| as real) == TotalRevenue(sales)
  {
    TotalRevenue(sales) / (|sales| as real)
  }

  /** The quantity of all lines of one sale. */
  function SaleQuantity(sale: Sale): int
  {
    SumInt(sale.saleItems, (item: SaleItem) => item.quantity)
  }

  /** Items Sold: every line's quantity over every listed sale. */
  function ItemsSold(sales: seq<Sale>): int
  {
    SumInt(sales, SaleQuantity)
  }

  lemma ItemsSoldAppend(sales: seq<Sale>, sale: Sale)
    ensures ItemsSold(sales + [sale]) == ItemsSold(sales) + SaleQuantity(sale)
  {
    assert (sales + [sale])[..|sales|] == sales;
  }

  lemma {:induction false} ItemsSoldSplit(a: seq<Sale>, b: seq<Sale>)
    ensures ItemsSold(a + b) == ItemsSold(a) + ItemsSold(b)
  {
    SumIntAppend(a, b, SaleQuantity);
  }

  /** The four summary cards under the list. */
  datatype Cards = Cards(totalSales: nat, totalRevenue: real, averageSale: real, itemsSold: int)

  /** The cards are shown only when the search leaves some sale, and then
      describe exactly the sales listed. */
  function SummaryCards(sales: seq<Sale>, term: string): (r: Option<Cards>)
    ensures r.None? <==> FilteredSales(sales, term) == []
    ensures r.Some? ==>
              var listed := FilteredSales(sales, term);
              r.value.totalSales == |listed| > 0 &&
              r.value.totalRevenue == TotalRevenue(listed) &&
              r.value.averageSale * (|listed| as real) == r.value.totalRevenue &&
              r.value.itemsSold == ItemsSold(listed)
  {
    var listed := FilteredSales(sales, term);
    if |listed| == 0 then None
    else Some(Cards(|listed|, TotalRevenue(listed), AverageSale(listed), ItemsSold(listed)))
  }

  // -------------------------------------------------------- the page state

  /** The state of the Sales screen. The discount field holds text; `discount`
      is what `Number.parseFloat` makes of it (None for NaN). */
  class SalesPage {
    var sales: seq<Sale>
    var products: seq<Product>
    var searchTerm: string
    var newSaleId: Option<string>
    var customerId: string
    var paymentMethod: string
    var discount: Option<real>
    var items: seq<SaleItem>

    /** The form always shows at least one line. */
    ghost predicate Valid()
      reads this
    {
      |items| >= 1
    }

    constructor ()
      ensures Valid()
      ensures sales == [] && products == [] && searchTerm == "" && newSaleId.None?
      ensures customerId == "" && paymentMethod == DefaultPaymentMethod
      ensures discount == Some(0.0) && items == [BlankItem]
    {
      sales, products, searchTerm, newSaleId := [], [], "", None;
      customerId, paymentMethod, discount, items := "", DefaultPaymentMethod, Some(0.0), [BlankItem];
    }

    /** The initial fetch delivered the sales and the products. */
    method Receive(data: Fetched)
      modifies this
      ensures sales == data.sales && products == data.products
      ensures searchTerm == old(searchTerm) && newSaleId == old(newSaleId)
      ensures customerId == old(customerId) && paymentMethod == old(paymentMethod)
      ensures discount == old(discount) && items == old(items)
    {
      sales, products := data.sales, data.products;
    }

    /** resetForm */
    method ResetForm()
      modifies this
      ensures Valid()
      ensures customerId == "" && paymentMethod == DefaultPaymentMethod
      ensures discount == Some(0.0) && items == [BlankItem] && newSaleId.None?
      ensures sales == old(sales) && products == old(products) && searchTerm == old(searchTerm)
    {
      customerId := "";
      paymentMethod := DefaultPaymentMethod;
      discount := Some(0.0);
      items := [BlankItem];
      newSaleId := None;
    }

    /** handleProductChange: line `index` gets the product and that product's
        current price (0 when no product has the id); nothing else changes. */
    method HandleProductChange(index: nat, productId: string)
      requires Valid() && index < |items|
      modifies this`items
      ensures Valid() && |items| == old(|items|)
      ensures items[index].productId == productId
      ensures items[index].quantity == old(items[index].quantity)
      ensures items[index].price == match FindProduct(products, productId)
                                    case Some(p) => p.price
                                    case None => 0.0
      ensures forall j :: 0 <= j < |items| && j != index ==> items[j] == old(items[j])
    {
      var product := FindProduct(products, productId);
      var price := match product case Some(p) => p.price case None => 0.0;
      items := items[index := items[index].(productId := productId, price := price)];
    }

    /** handleQuantityChange: line `index` gets the parsed quantity, or 1; nothing else changes. */
    method HandleQuantityChange(index: nat, parsed: Option<int>)
      requires Valid() && index < |items|
      modifies this`items
      ensures Valid() && |items| == old(|items|)
      ensures items[index] == old(items[index]).(quantity := QuantityOrOne(parsed))
      ensures forall j :: 0 <= j < |items| && j != index ==> items[j] == old(items[j])
    {
      items := items[index := items[index].(quantity := QuantityOrOne(parsed))];
    }

    /** addSaleItem */
    method AddSaleItem()
      requires Valid()
      modifies this`items
      ensures Valid()
      ensures items == old(items) + [BlankItem]
    {
      items := items + [BlankItem];
    }

    /** removeSaleItem: drops line `index` unless it is the only line; a
        splice past the end removes nothing. */
    method RemoveSaleItem(index: nat)
      requires Valid()
      modifies this`items
      ensures Valid()
      ensures old(|items|) > 1 && index < old(|items|) ==> items == old(items[..index] + items[index + 1..])
      ensures old(|items|) <= 1 || index >= old(|items|) ==> items == old(items)
    {
      if |items| > 1 && index < |items| {
        items := items[..index] + items[index + 1..];
      }
    }

    /** handleSubmit. `response` is what the service answered to the POST
        (None when the request failed). A refused form sends nothing and
        changes nothing; an accepted sale is appended to the list and the
        form is reset, which also clears the id of the new sale again. */
    method HandleSubmit(response: Option<Sale>) returns (outcome: SubmitOutcome)
      requires Valid()
      modifies this
      ensures Valid()
      ensures Validate(old(customerId), old(items)).Some? ==>
                outcome == Refused(Validate(old(customerId), old(items)).value)
      ensures Validate(old(customerId), old(items)).None? ==>
                outcome == Posted(SaleRequest(old(customerId), old(items), old(paymentMethod),
                                              DiscountOrZero(old(discount))),
                                  response.Some?)
      ensures outcome.Posted? && response.Some? ==>
                sales == old(sales) + [response.value] &&
                customerId == "" && paymentMethod == DefaultPaymentMethod &&
                discount == Some(0.0) && items == [BlankItem] && newSaleId.None?
      ensures !(outcome.Posted? && response.Some?) ==>
                sales == old(sales) && customerId == old(customerId) &&
                paymentMethod == old(paymentMethod) && discount == old(discount) &&
                items == old(items) && newSaleId == old(newSaleId)
      ensures products == old(products) && searchTerm == old(searchTerm)
    {
      var error := Validate(customerId, items);
      if error.Some? {
        return Refused(error.value);
      }
      var request := SaleRequest(customerId, items, paymentMethod, DiscountOrZero(discount));
      outcome := Posted(request, response.Some?);
      if response.Some? {
        sales := sales + [response.value];
        newSaleId := Some(response.value.saleId);
        ResetForm();
      }
    }

    /** The live Subtotal line of the form. */
    function FormSubtotal(): real
      reads this
    {
      Subtotal(items)
    }

    /** The live Total line of the form. */
    function FormTotal(): real
      reads this
    {
      FinalAmount(Subtotal(items), discount)
    }
  }
}
