/**
 The admin inventory page (src/pages/admin/ManageProducts.jsx): the
 desktop-only guard, the product modal's form, the category sanitisation
 of a save, the choice between update and insert, and the local list after
 a fetch or a delete.

 The database calls are not modelled: a write the page asks for is a
 `Write` value, and whether it succeeded is a parameter. The server-side
 title/category search and the 500 ms debounce are left out.
 */
module ManageProducts {
  import opened Js
  import opened Text
  import opened Seqs
  import opened ProductContext

  /** The guard's breakpoint: narrower windows get the "Desktop Only" screen. */
  const MobileBreakpoint: int := 768

  /** `window.innerWidth < 768`, evaluated at mount and on every resize. */
  function IsMobile(width: int): (b: bool)
    ensures b <==> width <= MobileBreakpoint - 1
  {
    width < MobileBreakpoint
  }

  /** The modal's form. `price` and `stock` are `None` while the input is
      blank. */
  datatype ProductForm = ProductForm(
    title: string,
    price: Option<real>,
    stock: Option<int>,
    brand: string,
    category: string,
    thumbnail: string,
    description: string)

  /** The empty form of the "create" mode. */
  function BlankForm(): ProductForm {
    ProductForm("", None, None, "", "", "", "")
  }

  /** The modal's state: open or not, the product being edited (`None` in
      create mode), and the form. */
  datatype Modal = Modal(open: bool, editing: Option<Product>, form: ProductForm)

  /** `openModal`: with a product the form is prefilled from it (a missing
      description becomes ""); without one the form is blank and the modal
      is in create mode. Either way it opens. */
  function OpenModal(product: Option<Product>): (m: Modal)
    ensures m.open && m.editing == product
    ensures product.None? ==> m.form == BlankForm()
    ensures product.Some? ==>
      var p := product.value;
      && m.form.title == p.title && m.form.price == Some(p.price) && m.form.stock == Some(p.stock)
      && m.form.brand == p.brand && m.form.category == p.category && m.form.thumbnail == p.thumbnail
      && m.form.description == (if Truthy(p.description) then p.description.value else "")
  {
    match product
    case None => Modal(true, None, BlankForm())
    case Some(p) =>
      Modal(true, product,
        ProductForm(p.title, Some(p.price), Some(p.stock), p.brand, p.category, p.thumbnail, OrElse(p.description, "")))
  }

  /** `r` is the lower-cased form of the stretch of `c` that has only
      whitespace around it and none at its own ends. */
  ghost predicate LowerTrimOf(c: string, r: string) {
    exists t :: Padded(c, t) && IsTrimmed(t) && r == Lower(t)
  }

  /** `category.trim().toLowerCase()`: the lower-cased stretch of `c` left
      once the whitespace before and after it is cut off. The result has no
      surrounding whitespace and no upper-case letter, and it is empty
      exactly when `c` is all whitespace. */
  function SanitiseCategory(c: string): (r: string)
    ensures LowerTrimOf(c, r)
    ensures r == "" <==> AllSpace(c)
    ensures IsTrimmed(r)
    ensures forall i :: 0 <= i < |r| ==> !IsUpper(r[i])
    ensures |r| <= |c|
  {
    var t := Trim(c);
    LowerKeepsTrimmed(t);
    Lower(t)
  }

  /** The contract of `SanitiseCategory` fixes its result: the lower-cased
      form of any stretch of `c` with only whitespace around it and none at
      its own ends is the sanitised category. */
  lemma SanitiseCategoryDetermined(c: string, t: string)
    requires Padded(c, t) && IsTrimmed(t)
    ensures SanitiseCategory(c) == Lower(t)
  {
    TrimDetermined(c, t);
  }

  /** Sanitising a sanitised category changes nothing. */
  lemma SanitiseCategoryIdempotent(c: string)
    ensures SanitiseCategory(SanitiseCategory(c)) == SanitiseCategory(c)
  {
    var r := SanitiseCategory(c);
    TrimOfTrimmed(r);
    LowerIdempotent(Trim(c));
  }

  /** The values of the category select (the disabled placeholder "" is not
      selectable). */
  const CategoryOptions: seq<string> := [
    "smartphones", "laptops", "fragrances", "skincare", "groceries",
    "home-decoration", "furniture", "tops", "womens-dresses", "womens-shoes",
    "mens-shirts", "mens-shoes", "mens-watches", "womens-watches", "womens-bags",
    "womens-jewellery", "sunglasses", "automotive", "motorcycle", "lighting"]

  /** A string that sanitisation leaves as it is. */
  predicate Sanitised(c: string) {
    IsTrimmed(c) && forall i :: 0 <= i < |c| ==> !IsUpper(c[i])
  }

  lemma SanitisedIsFixed(c: string)
    requires Sanitised(c)
    ensures SanitiseCategory(c) == c
  {
    TrimOfTrimmed(c);
  }

  /** A slug: lower-case ASCII letters and hyphens. */
  predicate Slug(c: string) {
    forall i :: 0 <= i < |c| ==> 'a' <= c[i] <= 'z' || c[i] == '-'
  }

  lemma SlugIsSanitised(c: string)
    requires Slug(c)
    ensures Sanitised(c)
  {
    if |c| > 0 {
      assert !IsSpace(c[0]) && !IsSpace(c[|c| - 1]);
    }
  }

  /** The options are slugs, five at a time (one proof for all twenty is
      too large for the solver). */
  lemma SlugOptions0To4(k: int)
    requires 0 <= k < 5
    ensures Slug(CategoryOptions[k])
  {
    assert CategoryOptions[0] == "smartphones";
    assert CategoryOptions[1] == "laptops";
    assert CategoryOptions[2] == "fragrances";
    assert CategoryOptions[3] == "skincare";
    assert CategoryOptions[4] == "groceries";
  }

  lemma SlugOptions5To9(k: int)
    requires 5 <= k < 10
    ensures Slug(CategoryOptions[k])
  {
    assert CategoryOptions[5] == "home-decoration";
    assert CategoryOptions[6] == "furniture";
    assert CategoryOptions[7] == "tops";
    assert CategoryOptions[8] == "womens-dresses";
    assert CategoryOptions[9] == "womens-shoes";
  }

  lemma SlugOptions10To14(k: int)
    requires 10 <= k < 15
    ensures Slug(CategoryOptions[k])
  {
    assert CategoryOptions[10] == "mens-shirts";
    assert CategoryOptions[11] == "mens-shoes";
    assert CategoryOptions[12] == "mens-watches";
    assert CategoryOptions[13] == "womens-watches";
    assert CategoryOptions[14] == "womens-bags";
  }

  lemma SlugOptions15To19(k: int)
    requires 15 <= k < 20
    ensures Slug(CategoryOptions[k])
  {
    assert CategoryOptions[15] == "womens-jewellery";
    assert CategoryOptions[16] == "sunglasses";
    assert CategoryOptions[17] == "automotive";
    assert CategoryOptions[18] == "motorcycle";
    assert CategoryOptions[19] == "lighting";
  }

  /** Every option of the select is already sanitised, so picking one saves
      exactly that value. */
  lemma OptionsAreSanitised()
    ensures forall c :: c in CategoryOptions ==> SanitiseCategory(c) == c
  {
    forall k | 0 <= k < |CategoryOptions|
      ensures Slug(CategoryOptions[k])
    {
      if k < 5 {
        SlugOptions0To4(k);
      } else if k < 10 {
        SlugOptions5To9(k);
      } else if k < 15 {
        SlugOptions10To14(k);
      } else {
        SlugOptions15To19(k);
      }
    }
    forall c | c in CategoryOptions
      ensures SanitiseCategory(c) == c
    {
      SlugIsSanitised(c);
      SanitisedIsFixed(c);
    }
  }

  /** The option "skincare" is saved as it is offered. */
  lemma SkincareSavedAsOffered()
    ensures "skincare" in CategoryOptions
    ensures SanitiseCategory("skincare") == "skincare"
  {
    assert CategoryOptions[3] == "skincare";
    SlugIsSanitised("skincare");
    SanitisedIsFixed("skincare");
  }

  /** The payload of a save: the form with its category sanitised and every
      other field as it stands. */
  function Payload(form: ProductForm): (p: ProductForm)
    ensures p.(category := form.category) == form
    ensures p.category == SanitiseCategory(form.category)
    ensures Sanitised(p.category)
  {
    form.(category := SanitiseCategory(form.category))
  }

  /** The write a save asks for. */
  datatype Write = UpdateRow(id: int, payload: ProductForm) | InsertRow(payload: ProductForm)

  /** `handleSubmit`: in edit mode the row with the edited product's id is
      updated; in create mode a new row is inserted. */
  function Submit(editing: Option<Product>, form: ProductForm): (w: Write)
    ensures w.UpdateRow? <==> editing.Some?
    ensures w.UpdateRow? ==> w.id == editing.value.id
    ensures w.payload == Payload(form)
  {
    match editing
    case Some(p) => UpdateRow(p.id, Payload(form))
    case None => InsertRow(Payload(form))
  }

  /** The modal closes (and the list is refetched) only after a successful
      write; a failed one leaves it open with the form as typed. */
  function AfterSubmit(m: Modal, succeeded: bool): (r: Modal)
    ensures r.open <==> m.open && !succeeded
    ensures r.form == m.form && r.editing == m.editing
  {
    if succeeded then m.(open := false) else m
  }

  /** Opening a product and saving the form untouched updates that same row
      with the product's own values, provided its category is already
      sanitised; saving a blank form inserts a row. */
  lemma EditUnchangedWritesBack(p: Product)
    requires Sanitised(p.category)
    ensures var m := OpenModal(Some(p));
      && Submit(m.editing, m.form) == UpdateRow(p.id, m.form)
      && m.form.category == p.category
    ensures Submit(OpenModal(None).editing, OpenModal(None).form).InsertRow?
  {
    SanitisedIsFixed(p.category);
  }

  /** `products.filter(p => p.id !== id)` after a confirmed, successful
      delete; a cancelled or failed delete keeps the list. */
  function AfterDelete(products: seq<Product>, id: int, confirmed: bool, succeeded: bool): (r: seq<Product>)
    ensures !(confirmed && succeeded) ==> r == products
    ensures confirmed && succeeded ==> forall p :: p in r <==> p in products && p.id != id
  {
    if confirmed && succeeded then Filter(products, (p: Product) => p.id != id) else products
  }

  /** A delete removes every product with that id and nothing else: the
      rest keep their order and their multiplicity. */
  lemma DeleteKeepsOthers(products: seq<Product>, id: int)
    ensures IsSubseq(AfterDelete(products, id, true, true), products)
    ensures forall p: Product :: p.id != id ==>
      multiset(AfterDelete(products, id, true, true))[p] == multiset(products)[p]
    ensures (forall p :: p in products ==> p.id != id) ==> AfterDelete(products, id, true, true) == products
  {
    var keep := (p: Product) => p.id != id;
    FilterIsSubseq(products, keep);
    forall p: Product | p.id != id
      ensures multiset(Filter(products, keep))[p] == multiset(products)[p]
    {
      FilterCounts(products, keep, p);
    }
    if forall p :: p in products ==> p.id != id {
      FilterAllPass(products, keep);
    }
  }

  /** `fetchProducts`: the rows replace the list (`null` data gives an
      empty list); an error keeps the list. */
  function AfterFetch(products: seq<Product>, response: Response<Option<seq<Product>>>): (r: seq<Product>)
    ensures response.Error? ==> r == products
    ensures response.Data? && response.value.Some? ==> r == response.value.value
    ensures response.Data? && response.value.None? ==> r == []
  {
    match response
    case Error(_) => products
    case Data(rows) => if rows.Some? then rows.value else []
  }
}
