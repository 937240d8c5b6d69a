/** The records the console receives from the REST service (products,
    categories, sales and their line items) and the lookups by id that
    every screen performs on them. */
module Catalog {
  import opened Common

  /** Base address of the REST service. */
  const ApiBase := "http://localhost:8080/api/v1"

  const UnknownProduct := "Unknown Product"

  datatype Product = Product(
    id: string,
    name: string,
    price: real,
    description: string,
    stock: int,
    categoryId: string)

  /** A category as the service returns it, with the products filed under it. */
  datatype Category = Category(id: string, name: string, products: seq<Product>)

  /** One line of a sale: the product, how many, and the unit price captured
      when the product was picked. */
  datatype SaleItem = SaleItem(productId: string, quantity: int, price: real)

  /** A stored sale. `totalAmount` and `finalAmount` are computed by the
      service; the screens only display them. */
  datatype Sale = Sale(
    saleId: string,
    customerId: string,
    saleItems: seq<SaleItem>,
    totalAmount: real,
    discountPercentage: real,
    finalAmount: real,
    paymentMethod: string,
    createdAt: string,
    updatedAt: string)

  /** What a page's initial fetch of `/sales` and `/products` delivered. */
  datatype Fetched = Fetched(sales: seq<Sale>, products: seq<Product>)

  /** `products.find((p) => p.id === productId)` */
  function FindProduct(products: seq<Product>, productId: string): Option<Product>
  {
    Find(products, (p: Product) => p.id == productId)
  }

  /** `salesData.find((s) => s.saleId === id)` */
  function FindSale(sales: seq<Sale>, id: string): (r: Option<Sale>)
    ensures r.Some? ==> r.value in sales && r.value.saleId == id
    ensures r.Some? ==> exists k :: 0 <= k < |sales| && sales[k] == r.value &&
                                    forall j :: 0 <= j < k ==> sales[j].saleId != id
    ensures r.None? <==> forall i :: 0 <= i < |sales| ==> sales[i].saleId != id
  {
    Find(sales, (s: Sale) => s.saleId == id)
  }

  /** getProductName of the sales, invoice and print screens: the name of the
      first product with that id (even an empty one), else "Unknown Product". */
  function ProductName(products: seq<Product>, productId: string): (name: string)
    ensures (forall i :: 0 <= i < |products| ==> products[i].id != productId) ==> name == UnknownProduct
    ensures forall i ::
              (0 <= i < |products| && products[i].id == productId &&
               forall j :: 0 <= j < i ==> products[j].id != productId) ==> name == products[i].name
  {
    match FindProduct(products, productId)
    case Some(p) => p.name
    case None => UnknownProduct
  }
}
