/**
 * The product form (src/pages/products/ProductFormPage.tsx): the form's state, its
 * per-field error map, the edit handler that clears a field's error, and the submit that
 * validates, looks the category up and then updates or adds one product.
 */
module ProductForm {
  import opened Base
  import opened Schema
  import Text
  import Db

  /** The editable fields of a product. */
  datatype FormData = FormData(
    name: string,
    price: real,
    stock: int,
    categoryId: string,
    barcode: string,
    lowStockAlert: int,
    active: bool)

  /** The keys of the error map: the form's field names. */
  datatype Field = Name | Price | Stock | CategoryId | Barcode | LowStockAlert | Active

  /**
   * One change event, its value already parsed for number inputs. The status select hands
   * `handleChange` a copy of its target made by object spread, which keeps only the element's
   * own properties; `name` and `type` live on the element's prototype, so the copy has neither.
   */
  datatype Edit =
    | EditName(name: string)
    | EditPrice(price: real)
    | EditStock(stock: int)
    | EditCategory(categoryId: string)
    | EditBarcode(barcode: string)
    | EditLowStockAlert(level: int)
    | EditStatus(active: bool)

  /** The field name `handleChange` reads from the event's target: none for the status select's copy. */
  function FieldOf(e: Edit): (f: Option<Field>)
  {
    match e
    case EditName(_) => Some(Name)
    case EditPrice(_) => Some(Price)
    case EditStock(_) => Some(Stock)
    case EditCategory(_) => Some(CategoryId)
    case EditBarcode(_) => Some(Barcode)
    case EditLowStockAlert(_) => Some(LowStockAlert)
    case EditStatus(_) => None
  }

  /**
   * The form after one change: the named field takes the new value. The status select's event
   * carries no name, so its value lands under the key `undefined`, which is no form field.
   */
  function ApplyEdit(form: FormData, e: Edit): (r: FormData)
  {
    match e
    case EditName(v) => form.(name := v)
    case EditPrice(v) => form.(price := v)
    case EditStock(v) => form.(stock := v)
    case EditCategory(v) => form.(categoryId := v)
    case EditBarcode(v) => form.(barcode := v)
    case EditLowStockAlert(v) => form.(lowStockAlert := v)
    case EditStatus(_) => form
  }

  /** The form after a run of change events, in order. */
  function ApplyEdits(form: FormData, edits: seq<Edit>): (r: FormData)
    decreases |edits|
  {
    if edits == [] then form else ApplyEdits(ApplyEdit(form, edits[0]), edits[1..])
  }

  /**
   * A change writes exactly the field its event names and leaves every other field as it was;
   * an event without a name, the status select's, changes nothing.
   */
  lemma ApplyEditSpec(form: FormData, e: Edit)
    ensures FieldOf(e).None? ==> ApplyEdit(form, e) == form
    ensures ApplyEdit(form, e).active == form.active
    ensures e.EditName? ==> ApplyEdit(form, e).name == e.name && ApplyEdit(form, e).(name := form.name) == form
    ensures e.EditPrice? ==> ApplyEdit(form, e).price == e.price && ApplyEdit(form, e).(price := form.price) == form
    ensures e.EditStock? ==> ApplyEdit(form, e).stock == e.stock && ApplyEdit(form, e).(stock := form.stock) == form
    ensures e.EditCategory? ==>
      ApplyEdit(form, e).categoryId == e.categoryId && ApplyEdit(form, e).(categoryId := form.categoryId) == form
    ensures e.EditBarcode? ==>
      ApplyEdit(form, e).barcode == e.barcode && ApplyEdit(form, e).(barcode := form.barcode) == form
    ensures e.EditLowStockAlert? ==>
      ApplyEdit(form, e).lowStockAlert == e.level && ApplyEdit(form, e).(lowStockAlert := form.lowStockAlert) == form
  {
  }

  /**
   * No run of change events reaches the status: the form keeps the `active` value it was
   * loaded with, whatever the user picks in the status select.
   */
  lemma {:induction false} StatusNeverChanges(form: FormData, edits: seq<Edit>)
    ensures ApplyEdits(form, edits).active == form.active
    decreases |edits|
  {
    if edits != [] {
      StatusNeverChanges(ApplyEdit(form, edits[0]), edits[1..]);
    }
  }

  /** The initial form state. */
  const DefaultForm := FormData("", 0.0, 0, "", "", 5, true)

  function FormOf(p: Product): (form: FormData)
  {
    FormData(p.name, p.price, p.stock, p.categoryId, p.barcode, p.lowStockAlert, p.active)
  }

  /** The messages `validateForm` shows. */
  const NameRequired: string := "Name is required"
  const PriceNotPositive: string := "Price must be greater than 0"
  const StockNegative: string := "Stock cannot be negative"
  const CategoryRequired: string := "Category is required"
  const BarcodeRequired: string := "Barcode is required"
  const AlertNegative: string := "Low stock alert cannot be negative"

  /** The message the check on one field raises, if that check fails. */
  function Message(form: FormData, f: Field): (m: Option<string>)
  {
    match f
    case Name => if Text.IsBlank(form.name) then Some(NameRequired) else None
    case Price => if form.price <= 0.0 then Some(PriceNotPositive) else None
    case Stock => if form.stock < 0 then Some(StockNegative) else None
    case CategoryId => if form.categoryId == "" then Some(CategoryRequired) else None
    case Barcode => if Text.IsBlank(form.barcode) then Some(BarcodeRequired) else None
    case LowStockAlert => if form.lowStockAlert < 0 then Some(AlertNegative) else None
    case Active => None
  }


  /** One check of `validateForm`: its message is added under its field when it fails. */
  function AddIfFails(errors: map<Field, string>, form: FormData, f: Field): (r: map<Field, string>)
  {
    if Message(form, f).Some? then errors[f := Message(form, f).value] else errors
  }

  /** The error map `validateForm` builds, check by check in the page's order. */
  function FormErrors(form: FormData): (errors: map<Field, string>)
  {
    var e1 := AddIfFails(map[], form, Name);
    var e2 := AddIfFails(e1, form, Price);
    var e3 := AddIfFails(e2, form, Stock);
    var e4 := AddIfFails(e3, form, CategoryId);
    var e5 := AddIfFails(e4, form, Barcode);
    AddIfFails(e5, form, LowStockAlert)
  }

  /** A form the page accepts. */
  predicate IsValid(form: FormData)
  {
    && !Text.IsBlank(form.name)
    && form.price > 0.0
    && form.stock >= 0
    && form.categoryId != ""
    && !Text.IsBlank(form.barcode)
    && form.lowStockAlert >= 0
  }

  /** One check touches its own field only, and adds its message there exactly when it fails. */
  lemma AddIfFailsSpec(errors: map<Field, string>, form: FormData, f: Field, g: Field)
    ensures var r := AddIfFails(errors, form, f);
      && (g in r <==> g in errors || (g == f && Message(form, f).Some?))
      && (g in r ==> r[g] == if g == f && Message(form, f).Some? then Message(form, f).value else errors[g])
  {
  }

  /**
   * A field carries an error exactly when its own check fails, and then that check's message
   * (the status field has no check, so it never carries one).
   */
  lemma FormErrorsSpec(form: FormData)
    ensures forall f :: f in FormErrors(form) <==> Message(form, f).Some?
    ensures forall f :: f in FormErrors(form) ==> FormErrors(form)[f] == Message(form, f).value
    ensures Active !in FormErrors(form)
  {
    var e1 := AddIfFails(map[], form, Name);
    var e2 := AddIfFails(e1, form, Price);
    var e3 := AddIfFails(e2, form, Stock);
    var e4 := AddIfFails(e3, form, CategoryId);
    var e5 := AddIfFails(e4, form, Barcode);
    var e6 := AddIfFails(e5, form, LowStockAlert);
    forall g ensures (g in e6 <==> Message(form, g).Some?) && (g in e6 ==> e6[g] == Message(form, g).value) {
      AddIfFailsSpec(map[], form, Name, g);
      AddIfFailsSpec(e1, form, Price, g);
      AddIfFailsSpec(e2, form, Stock, g);
      AddIfFailsSpec(e3, form, CategoryId, g);
      AddIfFailsSpec(e4, form, Barcode, g);
      AddIfFailsSpec(e5, form, LowStockAlert, g);
    }
  }

  /** The form is accepted exactly when no check fails. */
  lemma NoErrorsIffValid(form: FormData)
    ensures FormErrors(form) == map[] <==> IsValid(form)
  {
    FormErrorsSpec(form);
    if IsValid(form) {
      forall f ensures f !in FormErrors(form) {
        assert Message(form, f).None?;
      }
    } else {
      var f :| f in {Name, Price, Stock, CategoryId, Barcode, LowStockAlert} && Message(form, f).Some?;
      assert f in FormErrors(form);
    }
  }

  /** A blank name and a negative stock raise exactly those two errors. */
  lemma TwoErrors()
    ensures FormErrors(FormData(" ", 2.0, -1, "c1", "123", 5, true)) ==
      map[Name := NameRequired, Stock := StockNegative]
  {
    assert Text.IsBlank(" ") by {
      Text.BlankIffAllWhitespace(" ");
    }
    assert !Text.IsBlank("123") by {
      Text.BlankIffAllWhitespace("123");
    }
  }

  datatype SubmitResult = Invalid | CategoryNotFound | Updated | Added(id: string) | SaveFailed

  /** The record an edit writes: the form's fields, the category's name and a new `updatedAt`, over the stored row. */
  function Revised(p: Product, form: FormData, categoryName: string, now: Instant): (r: Product)
  {
    p.(name := form.name, price := form.price, stock := form.stock, categoryId := form.categoryId,
       barcode := form.barcode, lowStockAlert := form.lowStockAlert, active := form.active,
       categoryName := categoryName, updatedAt := now)
  }

  /** The record a create adds under the new key. */
  function Created(id: string, form: FormData, categoryName: string, now: Instant): (r: Product)
  {
    Product(id, form.name, form.price, form.stock, form.categoryId, categoryName, form.barcode,
            form.lowStockAlert, form.active, None, now, now)
  }

  /**
   * `handleSubmit` on the products table. `editId` is the route's id, empty when creating;
   * an update of a key that is no longer stored changes nothing and still reports success.
   */
  function Submit(editId: string, form: FormData, categories: map<string, Category>,
                  products: map<string, Product>, freshKey: string, now: Instant)
    : (r: (SubmitResult, map<string, Product>))
  {
    if !IsValid(form) then (Invalid, products)
    else if form.categoryId !in categories then (CategoryNotFound, products)
    else
      var categoryName := categories[form.categoryId].name;
      if editId != "" then
        (Updated, if editId in products then products[editId := Revised(products[editId], form, categoryName, now)] else products)
      else if freshKey in products then (SaveFailed, products)
      else (Added(freshKey), products[freshKey := Created(freshKey, form, categoryName, now)])
  }

  /**
   * No product is written unless the form is valid and its category exists; a written
   * product always carries the looked-up category's name. An edit keeps the key set and
   * refreshes `updatedAt`, leaving `createdAt` alone; a create adds exactly one row with both
   * timestamps set to now.
   */
  lemma SubmitSpec(editId: string, form: FormData, categories: map<string, Category>,
                   products: map<string, Product>, freshKey: string, now: Instant)
    ensures var (r, products') := Submit(editId, form, categories, products, freshKey, now);
      && (!IsValid(form) || form.categoryId !in categories ==> products' == products && r != Updated && !r.Added?)
      && (r == Updated ==>
            products'.Keys == products.Keys &&
            forall id :: id in products && id != editId ==> products'[id] == products[id])
      && (r == Updated && editId in products ==>
            products'[editId].categoryName == categories[form.categoryId].name &&
            FormOf(products'[editId]) == form &&
            products'[editId].updatedAt == now && products'[editId].createdAt == products[editId].createdAt &&
            products'[editId].id == products[editId].id)
      && (r.Added? ==>
            r.id !in products && products'.Keys == products.Keys + {r.id} &&
            products'[r.id].categoryName == categories[form.categoryId].name &&
            FormOf(products'[r.id]) == form && products'[r.id].id == r.id &&
            products'[r.id].createdAt == now && products'[r.id].updatedAt == now &&
            forall id :: id in products ==> products'[id] == products[id])
  {
  }

  /** The form page's state. */
  class ProductFormPage {
    /** The route's product id; empty in create mode. */
    var editId: string
    var formData: FormData
    var errors: map<Field, string>

    /**
     * Mounting the form. In edit mode the stored product's fields are loaded (a missing
     * product leaves the defaults, and the page navigates away). In create mode the barcode
     * is pre-filled from the generator; `generated` is None when that call fails, which
     * leaves the barcode empty.
     */
    constructor (editId: string, products: map<string, Product>, generated: Option<string>)
      ensures this.editId == editId && errors == map[]
      ensures editId != "" && editId in products ==> formData == FormOf(products[editId])
      ensures editId != "" && editId !in products ==> formData == DefaultForm
      ensures editId == "" ==> formData == DefaultForm.(barcode := if generated.Some? then generated.value else "")
      ensures editId == "" ==> formData.lowStockAlert == 5 && formData.active && formData.price == 0.0
    {
      this.editId := editId;
      errors := map[];
      if editId != "" {
        formData := if editId in products then FormOf(products[editId]) else DefaultForm;
      } else if generated.Some? {
        formData := DefaultForm.(barcode := generated.value);
      } else {
        formData := DefaultForm;
      }
    }

    /**
     * `handleChange`: the named field takes the new value and an error shown under it is
     * cleared to empty, others staying; the status select's event names no field, so it
     * changes neither the form's fields nor the errors.
     */
    method HandleChange(e: Edit)
      modifies this`formData, this`errors
      ensures formData == ApplyEdit(old(formData), e)
      ensures formData.active == old(formData).active
      ensures errors.Keys == old(errors).Keys
      ensures FieldOf(e).Some? && FieldOf(e).value in errors ==> errors[FieldOf(e).value] == ""
      ensures forall f :: f in errors && Some(f) != FieldOf(e) ==> errors[f] == old(errors)[f]
    {
      formData := ApplyEdit(formData, e);
      var name := FieldOf(e);
      if name.Some? && name.value in errors && errors[name.value] != "" {
        errors := errors[name.value := ""];
      }
    }

    /** `validateForm`: the checks run one by one, each adding its message under its own field. */
    method ValidateForm() returns (valid: bool)
      modifies this`errors
      ensures errors == FormErrors(formData)
      ensures valid <==> IsValid(formData)
    {
      var form := formData;
      var newErrors: map<Field, string> := map[];
      if Text.IsBlank(form.name) {
        newErrors := newErrors[Name := NameRequired];
      }
      assert newErrors == AddIfFails(map[], formData, Name);
      ghost var e := newErrors;
      if form.price <= 0.0 {
        newErrors := newErrors[Price := PriceNotPositive];
      }
      assert newErrors == AddIfFails(e, formData, Price);
      e := newErrors;
      if form.stock < 0 {
        newErrors := newErrors[Stock := StockNegative];
      }
      assert newErrors == AddIfFails(e, formData, Stock);
      e := newErrors;
      if form.categoryId == "" {
        newErrors := newErrors[CategoryId := CategoryRequired];
      }
      assert newErrors == AddIfFails(e, formData, CategoryId);
      e := newErrors;
      if Text.IsBlank(form.barcode) {
        newErrors := newErrors[Barcode := BarcodeRequired];
      }
      assert newErrors == AddIfFails(e, formData, Barcode);
      e := newErrors;
      if form.lowStockAlert < 0 {
        newErrors := newErrors[LowStockAlert := AlertNegative];
      }
      assert newErrors == AddIfFails(e, formData, LowStockAlert);
      errors := newErrors;
      NoErrorsIffValid(form);
      valid := newErrors == map[];
    }

    /** `handleSubmit`, writing through the shared store; `freshKey` is the key a create is stored under. */
    method HandleSubmit(db: Db.AppDatabase, freshKey: string, now: Instant) returns (r: SubmitResult)
      modifies this`errors, db`products
      ensures errors == FormErrors(formData)
      ensures (r, db.products) == Submit(editId, formData, db.categories, old(db.products), freshKey, now)
    {
      var valid := ValidateForm();
      if !valid {
        return Invalid;
      }
      if formData.categoryId !in db.categories {
        return CategoryNotFound;
      }
      var categoryName := db.categories[formData.categoryId].name;
      if editId != "" {
        if editId in db.products {
          db.products := db.products[editId := Revised(db.products[editId], formData, categoryName, now)];
        }
        r := Updated;
      } else if freshKey in db.products {
        r := SaveFailed;
      } else {
        db.products := db.products[freshKey := Created(freshKey, formData, categoryName, now)];
        r := Added(freshKey);
      }
    }
  }
}
