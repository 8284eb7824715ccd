/** The two admin editors. The inventory editor holds a selected product
    (or none, for a new item) and a partial-product form; saving either
    merges the form into every product with the selected id or appends the
    form as a new product with id `p<stamp>`. The service editor holds a
    selected category (or none), the category's name and description, and
    an editable list of service rows; saving sends the name, description
    and whole row list, either as an update of the selected id or as a new
    category with id `cat_<stamp>`. */
module Admin {
  import opened Domain
  import opened Keyed
  import opened Patches
  import opened Provider

  // ------------------------------------------------------- service-row edits

  /** One keystroke into one field of a service row. */
  datatype RowEdit = SetId(id: string) | SetName(name: string) | SetPrice(price: int) | SetDescription(description: string)

  /** `{ ...item, [field]: value }`. */
  function ApplyEdit(item: ServiceItem, e: RowEdit): ServiceItem {
    match e
    case SetId(v) => item.(id := v)
    case SetName(v) => item.(name := v)
    case SetPrice(v) => item.(price := v)
    case SetDescription(v) => item.(description := v)
  }

  /** The edit that writes back the value a row already holds in the field
      `e` targets. */
  function CurrentValue(item: ServiceItem, e: RowEdit): RowEdit {
    match e
    case SetId(_) => SetId(item.id)
    case SetName(_) => SetName(item.name)
    case SetPrice(_) => SetPrice(item.price)
    case SetDescription(_) => SetDescription(item.description)
  }

  /** Two edits aim at the same field. */
  predicate SameField(e1: RowEdit, e2: RowEdit) {
    (e1.SetId? && e2.SetId?) || (e1.SetName? && e2.SetName?)
    || (e1.SetPrice? && e2.SetPrice?) || (e1.SetDescription? && e2.SetDescription?)
  }

  /** Change one field of row `i`: the list keeps its length and order, row
      `i` takes the new value in that one field, every other row is the same
      value as before. */
  function ChangeRow(rows: seq<ServiceItem>, i: int, e: RowEdit): (r: seq<ServiceItem>)
    requires 0 <= i < |rows|
    ensures |r| == |rows|
    ensures forall j :: 0 <= j < |rows| && j != i ==> r[j] == rows[j]
    ensures r[i] == ApplyEdit(rows[i], e)
  {
    rows[i := ApplyEdit(rows[i], e)]
  }

  /** The blank row "Add Service" appends. */
  function BlankRow(stamp: string): ServiceItem {
    ServiceItem("srv_" + stamp, "", 0, "")
  }

  /** Append a blank row with id `srv_<stamp>`; the existing rows stay. */
  function AddServiceRow(rows: seq<ServiceItem>, stamp: string): (r: seq<ServiceItem>)
    ensures |r| == |rows| + 1
    ensures r[..|rows|] == rows
    ensures r[|rows|].id == "srv_" + stamp && r[|rows|].name == "" && r[|rows|].price == 0 && r[|rows|].description == ""
  {
    rows + [BlankRow(stamp)]
  }

  /** Keep every row whose position is not `i`. Exactly row `i` goes when
      `i` is a position of the list; any other `i` leaves the list as it
      was. */
  function RemoveRow(rows: seq<ServiceItem>, i: int): (r: seq<ServiceItem>)
    ensures 0 <= i < |rows| ==> r == rows[..i] + rows[i + 1..]
    ensures !(0 <= i < |rows|) ==> r == rows
    decreases |rows|
  {
    if |rows| == 0 then []
    else
      var rest := RemoveRow(rows[1..], i - 1);
      if i == 0 then rest
      else
        assert 0 < i < |rows| ==> rows[1..][..i - 1] == rows[1..i] && rows[1..][i..] == rows[i + 1..];
        assert 0 < i < |rows| ==> rows[..i] == [rows[0]] + rows[1..i];
        assert !(0 <= i < |rows|) ==> [rows[0]] + rows[1..] == rows;
        [rows[0]] + rest
  }

  // -------------------------------------------------------- service editor

  /** The service editor's state. */
  datatype ServiceEditor = ServiceEditor(
    isEditing: bool,
    selected: Option<ServiceCategory>,
    category: string,
    description: string,
    rows: seq<ServiceItem>)

  /** Open the editor on a category (its name, description and own service
      list are loaded) or on a blank new category. */
  function OpenEditor(cat: Option<ServiceCategory>): (ed: ServiceEditor)
    ensures ed.isEditing && ed.selected == cat
    ensures cat.Some? ==> ed.category == cat.value.category && ed.description == cat.value.description
                          && ed.rows == cat.value.services
    ensures cat.None? ==> ed.category == "" && ed.description == "" && ed.rows == []
  {
    match cat
    case Some(c) => ServiceEditor(true, cat, c.category, c.description, c.services)
    case None => ServiceEditor(true, None, "", "", [])
  }

  /** Save the service editor. With a selected category every category
      carrying its id is rewritten to the form's name, description and
      rows (the whole list, in the form's order) while keeping the store's
      own id; without one, a new category `cat_<stamp>` holding the form is
      appended. The editor closes and keeps its fields. */
  function SaveCategory(s: Store, ed: ServiceEditor, stamp: string): (r: (Store, ServiceEditor))
    ensures r.1 == ed.(isEditing := false)
    ensures r.0.(services := s.services) == s
    ensures ed.selected.Some? ==>
              && |r.0.services| == |s.services|
              && (forall i :: 0 <= i < |s.services| && s.services[i].id == ed.selected.value.id ==>
                    r.0.services[i] == ServiceCategory(s.services[i].id, ed.category, ed.description, ed.rows))
              && (forall i :: 0 <= i < |s.services| && s.services[i].id != ed.selected.value.id ==>
                    r.0.services[i] == s.services[i])
    ensures ed.selected.None? ==>
              r.0.services == s.services + [ServiceCategory("cat_" + stamp, ed.category, ed.description, ed.rows)]
  {
    var payload := CategoryPayload(ed.category, ed.description, ed.rows);
    match ed.selected
    case Some(c) =>
      var s' := UpdateServiceCategory(s, c.id, payload);
      assert forall i :: 0 <= i < |s.services| && s.services[i].id == c.id ==>
        s'.services[i] == ServiceCategory(s.services[i].id, ed.category, ed.description, ed.rows);
      (s', ed.(isEditing := false))
    case None =>
      var s' := AddServiceCategory(s, ServiceCategory("cat_" + stamp, ed.category, ed.description, ed.rows));
      assert s'.services == s'.services[..|s.services|] + [s'.services[|s.services|]];
      (s', ed.(isEditing := false))
  }

  // ------------------------------------------------------ inventory editor

  /** One keystroke into the inventory form. */
  datatype FormEdit = EditName(name: string) | EditPrice(price: int) | EditStock(stock: int) | EditImage(image: string)

  /** The browser submits the inventory form only when each of its four
      `required` inputs holds something: a name and an image URL that are
      not empty, and a price and a stock (a number input shows 0 until
      typed into, but an untouched key of a fresh form is empty). */
  predicate Submittable(form: ProductPatch) {
    && form.name.Some? && form.name.value != ""
    && form.price.Some?
    && form.stock.Some?
    && form.image.Some? && form.image.value != ""
  }

  /** The product field a form keystroke sets, applied to a whole product. */
  function SetField(p: Product, e: FormEdit): Product {
    match e
    case EditName(v) => p.(name := v)
    case EditPrice(v) => p.(price := v)
    case EditStock(v) => p.(stock := v)
    case EditImage(v) => p.(image := v)
  }

  /** `{ ...form, [field]: value }` on the inventory form: the edited key
      is carried with the typed value, every other key is as it was. */
  function ApplyFormEdit(form: ProductPatch, e: FormEdit): (r: ProductPatch)
    ensures r.name == (if e.EditName? then Some(e.name) else form.name)
    ensures r.price == (if e.EditPrice? then Some(e.price) else form.price)
    ensures r.stock == (if e.EditStock? then Some(e.stock) else form.stock)
    ensures r.image == (if e.EditImage? then Some(e.image) else form.image)
    ensures r.(name := form.name, price := form.price, stock := form.stock, image := form.image) == form
  {
    match e
    case EditName(v) => form.(name := Some(v))
    case EditPrice(v) => form.(price := Some(v))
    case EditStock(v) => form.(stock := Some(v))
    case EditImage(v) => form.(image := Some(v))
  }

  /** The inventory editor's state. */
  datatype ProductEditor = ProductEditor(isEditing: bool, selected: Option<Product>, form: ProductPatch)

  /** The form the editor is reset to: name, price, stock and image blank. */
  const ResetForm := NoProductChanges.(name := Some(""), price := Some(0), stock := Some(0), image := Some(""))

  /** "New Item": nothing selected and an empty form. */
  const NewItem := ProductEditor(true, None, NoProductChanges)

  /** The edit button on `p`: `p` selected and loaded whole into the form.
      The form carries every key of `p`, so merging it into any product
      yields `p`, except that a product keeps its own specs when `p` has
      none. */
  function EditItem(p: Product): (ed: ProductEditor)
    ensures ed.isEditing && ed.selected == Some(p)
    ensures forall q :: MergeProduct(q, ed.form) == p.(specs := if p.specs.Some? then p.specs else q.specs)
  {
    WholeFormOverwrites(p);
    ProductEditor(true, Some(p), ProductAsPatch(p))
  }

  /** Merging the whole of `p` into any product overwrites it with `p`. */
  lemma WholeFormOverwrites(p: Product)
    ensures forall q :: MergeProduct(q, ProductAsPatch(p)) == p.(specs := if p.specs.Some? then p.specs else q.specs)
  {
    forall q {
      MergeWholeProduct(q, p);
    }
  }

  /** The product every field of which the form does not carry falls back to
      when a new item is saved. */
  const BlankProduct := Product("", "", "", Laptop, OtherBrand, New, 0, 0, "", "", None)

  /** The product a new-item save appends: the form's fields with the id
      `p<stamp>`, whatever id the form carried. */
  function NewProduct(form: ProductPatch, stamp: string): (p: Product)
    ensures p.id == "p" + stamp
    ensures form.name.Some? ==> p.name == form.name.value
    ensures form.price.Some? ==> p.price == form.price.value
    ensures form.stock.Some? ==> p.stock == form.stock.value
    ensures form.image.Some? ==> p.image == form.image.value
    ensures form.category.Some? ==> p.category == form.category.value
    ensures form.productType.Some? ==> p.productType == form.productType.value
    ensures form.brand.Some? ==> p.brand == form.brand.value
    ensures form.condition.Some? ==> p.condition == form.condition.value
    ensures form.description.Some? ==> p.description == form.description.value
    ensures p.specs == form.specs
  {
    MergeProduct(BlankProduct, form).(id := "p" + stamp)
  }

  /** Save the inventory editor. With a selected product the form is
      merged into every product carrying the selected id (the others are
      untouched); without one, `NewProduct(form, stamp)` is appended. The
      editor then closes, drops its selection and resets its form. */
  function SaveProduct(s: Store, ed: ProductEditor, stamp: string): (r: (Store, ProductEditor))
    ensures r.1 == ProductEditor(false, None, ResetForm)
    ensures r.0.(products := s.products) == s
    ensures ed.selected.Some? ==>
              && |r.0.products| == |s.products|
              && (forall i :: 0 <= i < |s.products| && s.products[i].id == ed.selected.value.id ==>
                    r.0.products[i] == MergeProduct(s.products[i], ed.form))
              && (forall i :: 0 <= i < |s.products| && s.products[i].id != ed.selected.value.id ==>
                    r.0.products[i] == s.products[i])
    ensures ed.selected.None? ==> r.0.products == s.products + [NewProduct(ed.form, stamp)]
  {
    var s' := match ed.selected
      case Some(p) => UpdateProduct(s, p.id, ed.form)
      case None => AddProduct(s, NewProduct(ed.form, stamp));
    assert ed.selected.None? ==> s'.products == s'.products[..|s.products|] + [s'.products[|s.products|]];
    (s', ProductEditor(false, None, ResetForm))
  }

  // ------------------------------------------------------------------ lemmas

  /** Writing a row's current value back into a field changes nothing. */
  lemma ApplyCurrentValue(item: ServiceItem, e: RowEdit)
    ensures ApplyEdit(item, CurrentValue(item, e)) == item
  {
  }

  /** Of two edits to the same field of the same row, the later wins. */
  lemma LastRowEditWins(rows: seq<ServiceItem>, i: int, e1: RowEdit, e2: RowEdit)
    requires 0 <= i < |rows|
    requires SameField(e1, e2)
    ensures ChangeRow(ChangeRow(rows, i, e1), i, e2) == ChangeRow(rows, i, e2)
  {
  }

  /** Edits to different rows commute. */
  lemma RowEditsCommute(rows: seq<ServiceItem>, i: int, j: int, e1: RowEdit, e2: RowEdit)
    requires 0 <= i < |rows| && 0 <= j < |rows| && i != j
    ensures ChangeRow(ChangeRow(rows, i, e1), j, e2) == ChangeRow(ChangeRow(rows, j, e2), i, e1)
  {
  }

  /** Removing the row just added restores the list. */
  lemma RemoveAddedRow(rows: seq<ServiceItem>, stamp: string)
    ensures RemoveRow(AddServiceRow(rows, stamp), |rows|) == rows
  {
    var r := AddServiceRow(rows, stamp);
    assert r[..|rows|] == rows;
  }

  /** Removing row `i` keeps every other row, in order: the rows before it
      sit where they were and the rows after it move up by one. */
  lemma RemoveRowPositions(rows: seq<ServiceItem>, i: int)
    requires 0 <= i < |rows|
    ensures |RemoveRow(rows, i)| == |rows| - 1
    ensures forall j :: 0 <= j < i ==> RemoveRow(rows, i)[j] == rows[j]
    ensures forall j :: i < j < |rows| ==> RemoveRow(rows, i)[j - 1] == rows[j]
  {
    var r := RemoveRow(rows, i);
    assert r == rows[..i] + rows[i + 1..];
    forall j | i < j < |rows|
      ensures r[j - 1] == rows[j]
    {
      assert r[j - 1] == rows[i + 1..][j - 1 - i];
    }
  }

  /** Opening a stored category and saving it without edits leaves the
      store as it was, when category ids are distinct. */
  lemma SaveUneditedCategory(s: Store, i: int, stamp: string)
    requires DistinctKeys(s.services, CategoryId)
    requires 0 <= i < |s.services|
    ensures SaveCategory(s, OpenEditor(Some(s.services[i])), stamp).0 == s
  {
    var r := SaveCategory(s, OpenEditor(Some(s.services[i])), stamp).0;
    assert r.services == s.services;
  }

  /** An editing session on a stored category: remove its row `k`, change
      a field of the row now at `j`, save. The category at `i` ends up
      with exactly the remaining rows, the one edit applied, and keeps its
      id; every other category is untouched, when category ids are
      distinct. */
  lemma EditorSession(s: Store, i: int, k: int, j: int, e: RowEdit, stamp: string)
    requires DistinctKeys(s.services, CategoryId)
    requires 0 <= i < |s.services|
    requires 0 <= k < |s.services[i].services|
    requires 0 <= j < |s.services[i].services| - 1
    ensures var c := s.services[i];
            var ed0 := OpenEditor(Some(c));
            var ed1 := ed0.(rows := RemoveRow(ed0.rows, k));
            var ed2 := ed1.(rows := ChangeRow(ed1.rows, j, e));
            var r := SaveCategory(s, ed2, stamp).0;
            && r.services[i].id == c.id
            && r.services[i].services == (c.services[..k] + c.services[k + 1..])[j := ApplyEdit((c.services[..k] + c.services[k + 1..])[j], e)]
            && forall m :: 0 <= m < |s.services| && m != i ==> r.services[m] == s.services[m]
  {
  }

  /** Opening a product for editing and saving it without edits leaves the
      store as it was, when product ids are distinct. */
  lemma SaveUneditedProduct(s: Store, i: int, stamp: string)
    requires DistinctKeys(s.products, ProductId)
    requires 0 <= i < |s.products|
    ensures SaveProduct(s, EditItem(s.products[i]), stamp).0 == s
  {
    var r := SaveProduct(s, EditItem(s.products[i]), stamp).0;
    assert r.products == s.products;
  }

  /** Editing the price of a stored product and saving changes that
      product's price and nothing else in the catalog, when product ids
      are distinct. */
  lemma RepriceProduct(s: Store, i: int, price: int, stamp: string)
    requires DistinctKeys(s.products, ProductId)
    requires 0 <= i < |s.products|
    ensures var ed := EditItem(s.products[i]);
            var r := SaveProduct(s, ed.(form := ApplyFormEdit(ed.form, EditPrice(price))), stamp).0;
            r.products == s.products[i := s.products[i].(price := price)]
  {
    var p := s.products[i];
    var ed := EditItem(p);
    var form := ApplyFormEdit(ed.form, EditPrice(price));
    var r := SaveProduct(s, ed.(form := form), stamp).0;
    FormEditThenMerge(p, ed.form, EditPrice(price));
    assert MergeProduct(p, ed.form) == p;
    forall j | 0 <= j < |s.products| && j != i
      ensures r.products[j] == s.products[j]
    {
      assert s.products[j].id != p.id;
    }
    assert r.products[i] == p.(price := price);
  }

  /** Merging an edited form into a product is merging the form before the
      edit and then setting the edited field. */
  lemma FormEditThenMerge(q: Product, form: ProductPatch, e: FormEdit)
    ensures MergeProduct(q, ApplyFormEdit(form, e)) == SetField(MergeProduct(q, form), e)
  {
  }

  /** "New Item", fill in the four inputs, save: the page submits exactly
      when the typed name and image are not empty, and then one product is
      appended, with id `p<stamp>` and the typed values; the rest of the
      catalog is as it was. */
  lemma NewItemSession(s: Store, name: string, price: int, stock: int, image: string, stamp: string)
    ensures var form := ApplyFormEdit(ApplyFormEdit(ApplyFormEdit(ApplyFormEdit(NewItem.form,
                          EditName(name)), EditPrice(price)), EditStock(stock)), EditImage(image));
            var r := SaveProduct(s, NewItem.(form := form), stamp).0;
            && (Submittable(form) <==> name != "" && image != "")
            && |r.products| == |s.products| + 1
            && r.products[..|s.products|] == s.products
            && r.products[|s.products|].id == "p" + stamp
            && r.products[|s.products|].name == name
            && r.products[|s.products|].price == price
            && r.products[|s.products|].stock == stock
            && r.products[|s.products|].image == image
  {
    var form := ApplyFormEdit(ApplyFormEdit(ApplyFormEdit(ApplyFormEdit(NewItem.form,
              EditName(name)), EditPrice(price)), EditStock(stock)), EditImage(image));
    var r := SaveProduct(s, NewItem.(form := form), stamp).0;
    assert r.products[..|s.products|] == s.products;
  }

  /** A "New Item" form with only a name and a price typed in is refused:
      its stock and image inputs are still empty. */
  lemma PartialNewItemRefused(name: string, price: int)
    ensures !Submittable(ApplyFormEdit(ApplyFormEdit(NewItem.form, EditName(name)), EditPrice(price)))
  {
  }

  /** A new item saved twice at two different clock readings gives two
      products with different ids. */
  lemma NewItemIdsFollowStamps(form: ProductPatch, stamp1: string, stamp2: string)
    requires stamp1 != stamp2
    ensures NewProduct(form, stamp1).id != NewProduct(form, stamp2).id
  {
    assert ("p" + stamp1)[1..] == stamp1 && ("p" + stamp2)[1..] == stamp2;
  }
}
