/** The categories page (components/categories/categories-content.tsx): the
    name search, the category form, and the delete that is refused while the
    category still holds products. */
module Categories {
  import opened Common
  import opened Catalog

  /** filteredCategories: the categories whose name contains the term, ignoring case. */
  function FilteredCategories(categories: seq<Category>, term: string): (r: seq<Category>)
    ensures forall i :: 0 <= i < |r| ==> r[i] in categories && Matches(r[i].name, term)
    ensures forall i :: 0 <= i < |categories| && Matches(categories[i].name, term) ==> categories[i] in r
  {
    Filter(categories, (c: Category) => Matches(c.name, term))
  }

  lemma FilteredCategoriesEmptyTerm(categories: seq<Category>)
    ensures FilteredCategories(categories, "") == categories
  {
    forall i | 0 <= i < |categories| ensures Matches(categories[i].name, "") {
      IncludesEmpty(Lower(categories[i].name));
    }
    FilterKeepsAll(categories, (c: Category) => Matches(c.name, ""));
  }

  lemma FilteredCategoriesKeepsOrder(categories: seq<Category>, term: string)
    ensures IsSubsequence(FilteredCategories(categories, term), categories)
  {
    FilterIsSubsequence(categories, (c: Category) => Matches(c.name, term));
  }

  // ------------------------------------------------------------ the delete

  /** The guard of handleDelete: the first category with the id is found and
      holds products. An id no category carries passes. */
  function DeleteBlocked(categories: seq<Category>, id: string): (blocked: bool)
    ensures blocked <==>
              exists i :: 0 <= i < |categories| && categories[i].id == id &&
                          (forall j :: 0 <= j < i ==> categories[j].id != id) &&
                          |categories[i].products| > 0
    ensures (forall i :: 0 <= i < |categories| ==> categories[i].id != id) ==> !blocked
  {
    match FirstIndex(categories, (c: Category) => c.id == id)
    case Some(k) => |categories[k].products| > 0
    case None => false
  }

  /** After a successful delete: every category with that id is gone, every
      other one kept as often as it was listed, in order. */
  function RemoveCategory(categories: seq<Category>, id: string): (r: seq<Category>)
    ensures forall i :: 0 <= i < |r| ==> r[i].id != id && r[i] in categories
    ensures forall i :: 0 <= i < |categories| && categories[i].id != id ==> categories[i] in r
  {
    Filter(categories, (c: Category) => c.id != id)
  }

  lemma RemoveCategoryExact(categories: seq<Category>, id: string, c: Category)
    ensures multiset(RemoveCategory(categories, id))[c] == if c.id == id then 0 else multiset(categories)[c]
    ensures IsSubsequence(RemoveCategory(categories, id), categories)
  {
    FilterCount(categories, (d: Category) => d.id != id, c);
    FilterIsSubsequence(categories, (d: Category) => d.id != id);
  }

  /** The number of products filed under the listed categories. */
  function ProductCount(categories: seq<Category>): int
  {
    SumInt(categories, (c: Category) => |c.products|)
  }

  /** With unique ids, a delete the guard lets through never drops a product
      from the listed categories. */
  lemma GuardedDeleteKeepsProducts(categories: seq<Category>, id: string)
    requires forall i, j :: 0 <= i < j < |categories| ==> categories[i].id != categories[j].id
    requires !DeleteBlocked(categories, id)
    ensures ProductCount(RemoveCategory(categories, id)) == ProductCount(categories)
  {
    forall i | 0 <= i < |categories| && categories[i].id == id
      ensures |categories[i].products| == 0
    {
      assert forall j :: 0 <= j < i ==> categories[j].id != id;
    }
    FilterSumInt(categories, (c: Category) => c.id != id, (c: Category) => |c.products|);
  }

  /** Without unique ids the guard looks at the first category only: an
      empty category listed before a full one under the same id lets the
      delete through, and the full one is removed with it. */
  lemma DuplicateIdPassesGuard(empty: Category, full: Category)
    requires empty.id == full.id && empty.products == [] && full.products != []
    ensures !DeleteBlocked([empty, full], empty.id)
    ensures RemoveCategory([empty, full], empty.id) == []
  {
    assert FirstIndex([empty, full], (c: Category) => c.id == empty.id) == Some(0);
    var keep := (c: Category) => c.id != empty.id;
    assert [empty, full][1..] == [full];
    assert Filter([full], keep) == Filter([full][1..], keep) == [];
    assert Filter([empty, full], keep) == Filter([full], keep);
  }

  // ------------------------------------------------------------- the page

  datatype CategoryRequest = Put(url: string, name: string) | Post(url: string, name: string)

  /** The request handleSubmit sends for the form's name. */
  function SubmitRequest(editing: Option<Category>, name: string): (r: CategoryRequest)
    ensures r.name == name
    ensures editing.Some? <==> r.Put?
    ensures editing.Some? ==> r.url == ApiBase + "/categories/" + editing.value.id
    ensures editing.None? ==> r.url == ApiBase + "/categories"
  {
    match editing
    case Some(c) => Put(ApiBase + "/categories/" + c.id, name)
    case None => Post(ApiBase + "/categories", name)
  }

  datatype DeleteOutcome = Blocked | Cancelled | Failed | Deleted

  class CategoriesPage {
    var categories: seq<Category>
    var loading: bool
    var searchTerm: string
    var editing: Option<Category>
    var categoryName: string
    var toasts: seq<string>

    constructor ()
      ensures categories == [] && loading && searchTerm == "" && editing.None? && categoryName == "" && toasts == []
    {
      categories, loading, searchTerm := [], true, "";
      editing, categoryName, toasts := None, "", [];
    }

    /** fetchCategories: the list is replaced on success and kept on failure;
        loading ends either way. */
    method FetchCategories(fetched: Option<seq<Category>>)
      modifies this`categories, this`loading
      ensures !loading
      ensures categories == if fetched.Some? then fetched.value else old(categories)
    {
      if fetched.Some? {
        categories := fetched.value;
      }
      loading := false;
    }

    method HandleEdit(c: Category)
      modifies this`editing, this`categoryName
      ensures editing == Some(c) && categoryName == c.name
    {
      editing := Some(c);
      categoryName := c.name;
    }

    method ResetForm()
      modifies this`editing, this`categoryName
      ensures editing.None? && categoryName == ""
    {
      categoryName := "";
      editing := None;
    }

    /** handleSubmit. On success the list is refetched (`refetch`), the form
        reset, and the toast names what was done before the reset. */
    method HandleSubmit(accepted: bool) returns (request: CategoryRequest, refetch: bool)
      modifies this`editing, this`categoryName, this`toasts
      ensures request == SubmitRequest(old(editing), old(categoryName))
      ensures refetch == accepted
      ensures accepted ==>
                editing.None? && categoryName == "" &&
                toasts == old(toasts) + [if old(editing).Some? then "Category updated" else "Category created"]
      ensures !accepted ==>
                editing == old(editing) && categoryName == old(categoryName) &&
                toasts == old(toasts) + ["Error"]
    {
      var wasEditing := editing.Some?;
      request := SubmitRequest(editing, categoryName);
      refetch := accepted;
      if accepted {
        ResetForm();
        toasts := toasts + [if wasEditing then "Category updated" else "Category created"];
      } else {
        toasts := toasts + ["Error"];
      }
    }

    /** handleDelete: refused before any request while the category holds
        products; otherwise asks for confirmation and removes the category
        only when the service accepted the delete. */
    method HandleDelete(id: string, confirmed: bool, accepted: bool) returns (outcome: DeleteOutcome)
      modifies this`categories, this`toasts
      ensures outcome == Blocked <==> DeleteBlocked(old(categories), id)
      ensures outcome == Blocked ==> toasts == old(toasts) + ["Cannot delete category"]
      ensures outcome == Deleted <==> !DeleteBlocked(old(categories), id) && confirmed && accepted
      ensures outcome == Deleted ==>
                categories == RemoveCategory(old(categories), id) && toasts == old(toasts) + ["Category deleted"]
      ensures outcome == Cancelled <==> !DeleteBlocked(old(categories), id) && !confirmed
      ensures outcome == Cancelled ==> toasts == old(toasts)
      ensures outcome == Failed ==> toasts == old(toasts) + ["Error"]
      ensures outcome != Deleted ==> categories == old(categories)
    {
      if DeleteBlocked(categories, id) {
        toasts := toasts + ["Cannot delete category"];
        return Blocked;
      }
      if !confirmed {
        return Cancelled;
      }
      if accepted {
        categories := RemoveCategory(categories, id);
        toasts := toasts + ["Category deleted"];
        return Deleted;
      }
      toasts := toasts + ["Error"];
      return Failed;
    }
  }
}
