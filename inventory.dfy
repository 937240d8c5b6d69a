/** The inventory page (components/inventory/inventory-content.tsx): the
    product list with its name search and category filter, the product form
    shared by create and edit, and the list updates that follow a successful
    delete, update or create. */
module Inventory {
  import opened Common
  import opened Catalog

  // ------------------------------------------------------------ list views

  /** filteredProducts: the products whose name contains the term, ignoring case. */
  function FilteredProducts(products: seq<Product>, term: string): (r: seq<Product>)
    ensures forall i :: 0 <= i < |r| ==> r[i] in products && Matches(r[i].name, term)
    ensures forall i :: 0 <= i < |products| && Matches(products[i].name, term) ==> products[i] in r
  {
    Filter(products, (p: Product) => Matches(p.name, term))
  }

  lemma FilteredProductsEmptyTerm(products: seq<Product>)
    ensures FilteredProducts(products, "") == products
  {
    forall i | 0 <= i < |products| ensures Matches(products[i].name, "") {
      IncludesEmpty(Lower(products[i].name));
    }
    FilterKeepsAll(products, (p: Product) => Matches(p.name, ""));
  }

  lemma FilteredProductsKeepsOrder(products: seq<Product>, term: string)
    ensures IsSubsequence(FilteredProducts(products, term), products)
  {
    FilterIsSubsequence(products, (p: Product) => Matches(p.name, term));
  }

  /** The search ignores case in the term as well as in the names. */
  lemma FilteredProductsIgnoresCase(products: seq<Product>, term: string)
    ensures FilteredProducts(products, Lower(term)) == FilteredProducts(products, term)
  {
    LowerIdempotent(term);
    FilterSame(products, (p: Product) => Matches(p.name, Lower(term)), (p: Product) => Matches(p.name, term));
  }

  const UnknownCategory := "Unknown"

  /** getCategoryName: the name of the first category with that id, else "Unknown". */
  function CategoryName(categories: seq<Category>, categoryId: string): (name: string)
    ensures (forall i :: 0 <= i < |categories| ==> categories[i].id != categoryId) ==> name == UnknownCategory
    ensures forall i ::
              (0 <= i < |categories| && categories[i].id == categoryId &&
               forall j :: 0 <= j < i ==> categories[j].id != categoryId) ==> name == categories[i].name
  {
    match FirstIndex(categories, (c: Category) => c.id == categoryId)
    case Some(k) => categories[k].name
    case None => UnknownCategory
  }

  /** The value of the category selector that stands for every category. */
  const AllCategories := "all"

  /** The address fetchProductsByCategory reads. */
  function ProductsUrl(categoryId: string): (url: string)
    ensures categoryId == AllCategories ==> url == ApiBase + "/products"
    ensures categoryId != AllCategories ==> url == ApiBase + "/products/category/" + categoryId
  {
    if categoryId == AllCategories then ApiBase + "/products"
    else ApiBase + "/products/category/" + categoryId
  }

  /** Different selections read different addresses. */
  lemma {:induction false} ProductsUrlInjective(c: string, d: string)
    requires ProductsUrl(c) == ProductsUrl(d)
    ensures c == d
  {
    if c != AllCategories && d != AllCategories {
      var prefix := ApiBase + "/products/category/";
      assert c == ProductsUrl(c)[|prefix|..];
      assert d == ProductsUrl(d)[|prefix|..];
    }
  }

  // ---------------------------------------------------------- list updates

  /** After a successful delete: every product with that id is gone. */
  function RemoveProduct(products: seq<Product>, id: string): (r: seq<Product>)
    ensures forall i :: 0 <= i < |r| ==> r[i].id != id && r[i] in products
    ensures forall i :: 0 <= i < |products| && products[i].id != id ==> products[i] in r
  {
    Filter(products, (p: Product) => p.id != id)
  }

  /** The delete removes exactly the products with that id, all their
      copies, and keeps every other product as often as it was listed, in order. */
  lemma RemoveProductExact(products: seq<Product>, id: string, p: Product)
    ensures multiset(RemoveProduct(products, id))[p] == if p.id == id then 0 else multiset(products)[p]
    ensures IsSubsequence(RemoveProduct(products, id), products)
  {
    FilterCount(products, (q: Product) => q.id != id, p);
    FilterIsSubsequence(products, (q: Product) => q.id != id);
  }

  /** After a successful update: the product under the edited id is replaced
      by the one the service returned; every other position is untouched. */
  function ReplaceProduct(products: seq<Product>, id: string, updated: Product): (r: seq<Product>)
    ensures |r| == |products|
    ensures forall i :: 0 <= i < |products| ==> r[i] == if products[i].id == id then updated else products[i]
  {
    if |products| == 0 then []
    else [if products[0].id == id then updated else products[0]] + ReplaceProduct(products[1..], id, updated)
  }

  /** When the service keeps the id, the update changes no id of the list,
      and a second identical update changes nothing. */
  lemma ReplaceProductKeepsIds(products: seq<Product>, id: string, updated: Product)
    requires updated.id == id
    ensures forall i :: 0 <= i < |products| ==> ReplaceProduct(products, id, updated)[i].id == products[i].id
    ensures ReplaceProduct(ReplaceProduct(products, id, updated), id, updated) == ReplaceProduct(products, id, updated)
  {
  }

  /** Deleting a product after the service updated it in place leaves the
      list a delete alone would have left. */
  lemma {:induction false} RemoveAfterReplace(products: seq<Product>, id: string, updated: Product)
    requires updated.id == id
    ensures RemoveProduct(ReplaceProduct(products, id, updated), id) == RemoveProduct(products, id)
  {
    if |products| > 0 {
      RemoveAfterReplace(products[1..], id, updated);
      assert ReplaceProduct(products, id, updated)[1..] == ReplaceProduct(products[1..], id, updated);
    }
  }

  // ------------------------------------------------------------- the form

  /** A number field of the form: either what the user typed, or the text
      `toString` made of a stored number of type N (a real price or an
      integer stock). */
  datatype NumberText<N> = Typed(s: string) | Printed(v: N)

  /** The five form fields, all text. */
  datatype ProductForm = ProductForm(
    name: string,
    price: NumberText<real>,
    description: string,
    stock: NumberText<int>,
    categoryId: string)

  const EmptyForm := ProductForm("", Typed(""), "", Typed(""), "")

  /** The form field an input event names. */
  datatype FormField = NameField | PriceField | DescriptionField | StockField

  /** What parseFloat (for the price) or parseInt (for the stock) makes of a
      field. Typed text is read by the given parser; a printed number reads
      back as itself. */
  function ParseNumber<N>(t: NumberText<N>, parse: string -> Option<N>): (r: Option<N>)
    ensures t.Printed? ==> r == Some(t.v)
    ensures t.Typed? ==> r == parse(t.s)
  {
    match t
    case Typed(s) => parse(s)
    case Printed(v) => Some(v)
  }

  /** The body of the PUT or POST: `None` stands for the NaN of an unparsable field. */
  datatype ProductData = ProductData(
    name: string,
    price: Option<real>,
    description: string,
    stock: Option<int>,
    categoryId: string)

  datatype Request = Put(url: string, data: ProductData) | Post(url: string, data: ProductData)

  /** The request handleSubmit sends: a PUT to the edited product's address,
      or a POST to the collection. The price is read with `parseFloat`, the
      stock with `parseInt`. */
  function SubmitRequest(editing: Option<Product>, form: ProductForm,
                         parseFloat: string -> Option<real>, parseInt: string -> Option<int>): (r: Request)
    ensures editing.Some? <==> r.Put?
    ensures editing.Some? ==> r.url == ApiBase + "/products/" + editing.value.id
    ensures editing.None? ==> r.url == ApiBase + "/products"
    ensures r.data.name == form.name && r.data.description == form.description && r.data.categoryId == form.categoryId
    ensures r.data.price == ParseNumber(form.price, parseFloat) && r.data.stock == ParseNumber(form.stock, parseInt)
  {
    var data := ProductData(form.name, ParseNumber(form.price, parseFloat), form.description,
                            ParseNumber(form.stock, parseInt), form.categoryId);
    match editing
    case Some(p) => Put(ApiBase + "/products/" + p.id, data)
    case None => Post(ApiBase + "/products", data)
  }

  /** handleEdit's form: the product's fields, its numbers printed. */
  function FormOf(p: Product): ProductForm
  {
    ProductForm(p.name, Printed(p.price), p.description, Printed(p.stock), p.categoryId)
  }

  /** Opening a product for edit and saving without a change sends the
      product back as it is, whatever the parsers do with typed text. */
  lemma EditThenSaveSendsProduct(p: Product, parseFloat: string -> Option<real>, parseInt: string -> Option<int>)
    ensures var r := SubmitRequest(Some(p), FormOf(p), parseFloat, parseInt);
            r == Put(ApiBase + "/products/" + p.id,
                     ProductData(p.name, Some(p.price), p.description, Some(p.stock), p.categoryId))
  {
  }

  // ------------------------------------------------------------- the page

  class InventoryPage {
    var products: seq<Product>
    var categories: seq<Category>
    var loading: bool
    var searchTerm: string
    var selectedCategory: string
    var editing: Option<Product>
    var form: ProductForm
    var toasts: seq<string>

    constructor ()
      ensures products == [] && categories == [] && loading && searchTerm == ""
      ensures selectedCategory == AllCategories && editing.None? && form == EmptyForm && toasts == []
    {
      products, categories, loading, searchTerm := [], [], true, "";
      selectedCategory, editing, form, toasts := AllCategories, None, EmptyForm, [];
    }

    /** The initial fetch of products and categories; loading ends either way. */
    method FetchData(fetched: Option<(seq<Product>, seq<Category>)>)
      modifies this`products, this`categories, this`loading
      ensures !loading
      ensures fetched.Some? ==> products == fetched.value.0 && categories == fetched.value.1
      ensures fetched.None? ==> products == old(products) && categories == old(categories)
    {
      if fetched.Some? {
        products, categories := fetched.value.0, fetched.value.1;
      }
      loading := false;
    }

    /** fetchProductsByCategory: reads the address for the selection; on
        failure the list is kept and an error toast raised. */
    method FetchProductsByCategory(categoryId: string, fetched: Option<seq<Product>>) returns (url: string)
      modifies this`products, this`loading, this`toasts
      ensures url == ProductsUrl(categoryId)
      ensures !loading
      ensures fetched.Some? ==> products == fetched.value && toasts == old(toasts)
      ensures fetched.None? ==> products == old(products) && toasts == old(toasts) + ["Error"]
    {
      loading := true;
      url := ProductsUrl(categoryId);
      if fetched.Some? {
        products := fetched.value;
      } else {
        toasts := toasts + ["Error"];
      }
      loading := false;
    }

    method HandleCategoryChange(value: string, fetched: Option<seq<Product>>) returns (url: string)
      modifies this`selectedCategory, this`products, this`loading, this`toasts
      ensures selectedCategory == value && url == ProductsUrl(value)
      ensures !loading
      ensures fetched.Some? ==> products == fetched.value && toasts == old(toasts)
      ensures fetched.None? ==> products == old(products) && toasts == old(toasts) + ["Error"]
    {
      selectedCategory := value;
      url := FetchProductsByCategory(value, fetched);
    }

    /** handleInputChange: the named field takes the typed value, the others stay. */
    method HandleInputChange(field: FormField, value: string)
      modifies this`form
      ensures form == match field
                      case NameField => old(form).(name := value)
                      case PriceField => old(form).(price := Typed(value))
                      case DescriptionField => old(form).(description := value)
                      case StockField => old(form).(stock := Typed(value))
    {
      match field
      case NameField => form := form.(name := value);
      case PriceField => form := form.(price := Typed(value));
      case DescriptionField => form := form.(description := value);
      case StockField => form := form.(stock := Typed(value));
    }

    /** handleSelectChange */
    method HandleSelectChange(value: string)
      modifies this`form
      ensures form == old(form).(categoryId := value)
    {
      form := form.(categoryId := value);
    }

    method ResetForm()
      modifies this`form, this`editing
      ensures form == EmptyForm && editing.None?
    {
      form := EmptyForm;
      editing := None;
    }

    method HandleEdit(p: Product)
      modifies this`form, this`editing
      ensures editing == Some(p) && form == FormOf(p)
    {
      editing := Some(p);
      form := FormOf(p);
    }

    /** handleDelete: nothing unless confirmed; the list changes only when
        the service accepted the delete. */
    method HandleDelete(id: string, confirmed: bool, accepted: bool)
      modifies this`products, this`toasts
      ensures !confirmed ==> products == old(products) && toasts == old(toasts)
      ensures confirmed && accepted ==> products == RemoveProduct(old(products), id) && toasts == old(toasts) + ["Product deleted"]
      ensures confirmed && !accepted ==> products == old(products) && toasts == old(toasts) + ["Error"]
    {
      if confirmed {
        if accepted {
          products := RemoveProduct(products, id);
          toasts := toasts + ["Product deleted"];
        } else {
          toasts := toasts + ["Error"];
        }
      }
    }

    /** handleSubmit. `response` is the product the service returned, None
        when the request failed. A success updates or appends, resets the
        form and asks for a refetch when a category is selected; a failure
        keeps the form for another try. */
    method HandleSubmit(parseFloat: string -> Option<real>, parseInt: string -> Option<int>, response: Option<Product>)
      returns (request: Request, refetch: Option<string>)
      modifies this`products, this`form, this`editing, this`toasts
      ensures request == SubmitRequest(old(editing), old(form), parseFloat, parseInt)
      ensures response.Some? && old(editing).Some? ==>
                products == ReplaceProduct(old(products), old(editing).value.id, response.value) &&
                toasts == old(toasts) + ["Product updated"]
      ensures response.Some? && old(editing).None? ==>
                products == old(products) + [response.value] && toasts == old(toasts) + ["Product created"]
      ensures response.Some? ==> form == EmptyForm && editing.None?
      ensures response.Some? ==> refetch == if selectedCategory != AllCategories then Some(selectedCategory) else None
      ensures response.None? ==>
                products == old(products) && form == old(form) && editing == old(editing) &&
                toasts == old(toasts) + ["Error"] && refetch.None?
    {
      request := SubmitRequest(editing, form, parseFloat, parseInt);
      refetch := None;
      if response.None? {
        toasts := toasts + ["Error"];
        return;
      }
      if editing.Some? {
        products := ReplaceProduct(products, editing.value.id, response.value);
        toasts := toasts + ["Product updated"];
      } else {
        products := products + [response.value];
        toasts := toasts + ["Product created"];
      }
      ResetForm();
      if selectedCategory != AllCategories {
        refetch := Some(selectedCategory);
      }
    }
  }
}
