/**
 * The new-sale page (src/pages/sales/NewSalePage.tsx) as an object: its state fields, the
 * cart handlers, and `handleSaveSale`, which checks every line against the product list
 * loaded when the page opened, inserts one completed sale, then lowers each product's stock.
 */
module NewSale {
  import opened Base
  import opened Schema
  import opened Cart
  import Text
  import Db
  import Seqs

  /** `products.find(p => p.id === id)`: the first product with that id. */
  function FindProduct(products: seq<Product>, id: string): (r: Option<Product>)
    ensures r.None? <==> forall i :: 0 <= i < |products| ==> products[i].id != id
    ensures r.Some? ==> exists i :: 0 <= i < |products| && products[i] == r.value && r.value.id == id &&
                                    forall j :: 0 <= j < i ==> products[j].id != id
  {
    Seqs.FindFirst(products, (p: Product) => p.id == id)
  }

  /** `products.find(p => p.barcode === code)`: the first product with that barcode (barcodes need not be unique). */
  function FindByBarcode(products: seq<Product>, code: string): (r: Option<Product>)
    ensures r.None? <==> forall i :: 0 <= i < |products| ==> products[i].barcode != code
    ensures r.Some? ==> exists i :: 0 <= i < |products| && products[i] == r.value && r.value.barcode == code &&
                                    forall j :: 0 <= j < i ==> products[j].barcode != code
  {
    Seqs.FindFirst(products, (p: Product) => p.barcode == code)
  }

  /** `customers.find(c => c.id === id)`: the first customer with that id. */
  function FindCustomer(customers: seq<Customer>, id: string): (r: Option<Customer>)
    ensures r.None? <==> forall i :: 0 <= i < |customers| ==> customers[i].id != id
    ensures r.Some? ==> exists i :: 0 <= i < |customers| && customers[i] == r.value && r.value.id == id &&
                                    forall j :: 0 <= j < i ==> customers[j].id != id
  {
    Seqs.FindFirst(customers, (c: Customer) => c.id == id)
  }

  /** A line passes the stock check unless its product is in the list with less stock than the line's quantity. */
  predicate LineInStock(item: SaleItem, products: seq<Product>)
  {
    match FindProduct(products, item.productId)
    case None => true
    case Some(p) => p.stock >= item.quantity
  }

  /** The product of the first line that fails the stock check, if any. */
  function FirstShortage(cart: seq<SaleItem>, products: seq<Product>): (r: Option<Product>)
  {
    if cart == [] then None
    else if !LineInStock(cart[0], products) then FindProduct(products, cart[0].productId)
    else FirstShortage(cart[1..], products)
  }

  /** No shortage exactly when every line passes; otherwise the shortage is the product of the first line that fails. */
  lemma {:induction false} FirstShortageSpec(cart: seq<SaleItem>, products: seq<Product>)
    ensures FirstShortage(cart, products).None? <==> forall i :: 0 <= i < |cart| ==> LineInStock(cart[i], products)
    ensures forall i :: 0 <= i < |cart| && !LineInStock(cart[i], products) &&
                        (forall j :: 0 <= j < i ==> LineInStock(cart[j], products)) ==>
                        FirstShortage(cart, products) == FindProduct(products, cart[i].productId)
  {
    if cart != [] && LineInStock(cart[0], products) {
      var tail := cart[1..];
      FirstShortageSpec(tail, products);
      forall i | 1 <= i < |cart| ensures cart[i] == tail[i - 1] { }
      forall i | 0 <= i < |cart| && !LineInStock(cart[i], products) &&
                 (forall j :: 0 <= j < i ==> LineInStock(cart[j], products))
        ensures FirstShortage(cart, products) == FindProduct(products, cart[i].productId)
      {
        assert i >= 1;
        assert forall j :: 0 <= j < i - 1 ==> LineInStock(tail[j], products) by {
          forall j | 0 <= j < i - 1 ensures LineInStock(tail[j], products) {
            assert tail[j] == cart[j + 1];
          }
        }
      }
    }
  }

  /** The stock-check loop of `handleSaveSale`: it stops at the first line that asks for more than there is. */
  method CheckStock(cart: seq<SaleItem>, products: seq<Product>) returns (shortage: Option<Product>)
    ensures shortage == FirstShortage(cart, products)
    ensures shortage.Some? ==> exists i :: 0 <= i < |cart| && shortage.value.stock < cart[i].quantity
  {
    FirstShortageSpec(cart, products);
    for i := 0 to |cart|
      invariant forall j :: 0 <= j < i ==> LineInStock(cart[j], products)
    {
      var product := FindProduct(products, cart[i].productId);
      if product.Some? && product.value.stock < cart[i].quantity {
        assert !LineInStock(cart[i], products);
        return product;
      }
      assert LineInStock(cart[i], products);
    }
    return None;
  }

  /** One write of the stock-update loop: a product that is still there loses the line's quantity. */
  function Decrement(products: map<string, Product>, item: SaleItem, now: Instant): (r: map<string, Product>)
  {
    if item.productId in products then
      var p := products[item.productId];
      products[item.productId := p.(stock := p.stock - item.quantity, updatedAt := now)]
    else products
  }

  /** The stock-update loop over the lines, in order. */
  function ApplyDecrements(products: map<string, Product>, items: seq<SaleItem>, now: Instant): (r: map<string, Product>)
  {
    if items == [] then products
    else Decrement(ApplyDecrements(products, items[..|items| - 1], now), items[|items| - 1], now)
  }

  /** Units the lines ask of one product. */
  function UnitsFor(items: seq<SaleItem>, productId: string): (n: int)
  {
    if items == [] then 0
    else UnitsFor(items[..|items| - 1], productId) +
         (if items[|items| - 1].productId == productId then items[|items| - 1].quantity else 0)
  }

  /**
   * After the loop, each product still present has lost exactly the units its lines asked
   * for (repeated lines add up); products without lines are untouched; none appear or vanish.
   */
  lemma {:induction false} ApplyDecrementsSpec(products: map<string, Product>, items: seq<SaleItem>, now: Instant)
    ensures ApplyDecrements(products, items, now).Keys == products.Keys
    ensures forall id :: id in products ==>
      ApplyDecrements(products, items, now)[id].stock == products[id].stock - UnitsFor(items, id)
    ensures forall id :: id in products ==>
      ApplyDecrements(products, items, now)[id] ==
        products[id].(stock := ApplyDecrements(products, items, now)[id].stock,
                      updatedAt := ApplyDecrements(products, items, now)[id].updatedAt)
    ensures forall id :: id in products && (forall k :: 0 <= k < |items| ==> items[k].productId != id) ==>
      ApplyDecrements(products, items, now)[id] == products[id]
  {
    if items != [] {
      var init := items[..|items| - 1];
      ApplyDecrementsSpec(products, init, now);
      forall id | id in products && (forall k :: 0 <= k < |items| ==> items[k].productId != id)
        ensures forall k :: 0 <= k < |init| ==> init[k].productId != id
      {
        forall k | 0 <= k < |init| ensures init[k].productId != id {
          assert init[k] == items[k];
        }
      }
    }
  }

  /** With one line per product, the units asked of a product are that line's quantity, or none. */
  lemma {:induction false} UnitsForSingleLine(items: seq<SaleItem>, productId: string)
    requires OneLinePerProduct(items)
    ensures forall k :: 0 <= k < |items| && items[k].productId == productId ==> UnitsFor(items, productId) == items[k].quantity
    ensures (forall k :: 0 <= k < |items| ==> items[k].productId != productId) ==> UnitsFor(items, productId) == 0
  {
    if items != [] {
      var init := items[..|items| - 1];
      assert OneLinePerProduct(init);
      UnitsForSingleLine(init, productId);
      forall k | 0 <= k < |init| ensures init[k] == items[k] { }
    }
  }

  datatype SaleError = EmptyCart | NoCustomer | NotEnoughStock(productName: string) | SaveFailed

  datatype SaveResult = Saved(saleId: string) | Rejected(error: SaleError)

  /** What `handleSaveSale` reads from the page. */
  datatype Checkout = Checkout(
    snapshot: seq<Product>,
    customerId: string,
    customer: Option<Customer>,
    cart: seq<SaleItem>,
    paymentMethod: PaymentMethod,
    discount: real,
    taxRate: real)

  /** `validateSale`: an empty cart, then a missing customer, are refused. */
  function ValidateSale(c: Checkout): (r: Option<SaleError>)
  {
    if c.cart == [] then Some(EmptyCart)
    else if c.customerId == "" then Some(NoCustomer)
    else None
  }

  /** The sale record written on success, carrying the cart and the page's totals. */
  function SaleRecord(c: Checkout, saleId: string, now: Instant): (s: Sale)
  {
    var t := ComputeTotals(c.cart, c.discount, c.taxRate);
    Sale(saleId, c.customerId, if c.customer.Some? then c.customer.value.name else "",
         c.cart, t.subtotal, t.tax, c.discount, t.total, c.paymentMethod, Completed, now, now)
  }

  /** `handleSaveSale` on the two tables it writes: the result, then the new sales and products tables. */
  function FinalizeSale(c: Checkout, sales: map<string, Sale>, products: map<string, Product>,
                        saleId: string, now: Instant)
    : (r: (SaveResult, map<string, Sale>, map<string, Product>))
  {
    if ValidateSale(c).Some? then (Rejected(ValidateSale(c).value), sales, products)
    else match FirstShortage(c.cart, c.snapshot)
      case Some(p) => (Rejected(NotEnoughStock(p.name)), sales, products)
      case None =>
        if saleId in sales then (Rejected(SaveFailed), sales, products)
        else (Saved(saleId), sales[saleId := SaleRecord(c, saleId, now)], ApplyDecrements(products, c.cart, now))
  }

  /** A refused sale writes nothing: no sale row and no stock change. */
  lemma RejectedWritesNothing(c: Checkout, sales: map<string, Sale>, products: map<string, Product>, saleId: string, now: Instant)
    ensures FinalizeSale(c, sales, products, saleId, now).0.Rejected? ==>
      FinalizeSale(c, sales, products, saleId, now).1 == sales &&
      FinalizeSale(c, sales, products, saleId, now).2 == products
    ensures c.cart == [] ==> FinalizeSale(c, sales, products, saleId, now).0 == Rejected(EmptyCart)
    ensures c.cart != [] && c.customerId == "" ==> FinalizeSale(c, sales, products, saleId, now).0 == Rejected(NoCustomer)
    ensures (exists i :: 0 <= i < |c.cart| && !LineInStock(c.cart[i], c.snapshot)) ==>
      FinalizeSale(c, sales, products, saleId, now).0.Rejected?
  {
    FirstShortageSpec(c.cart, c.snapshot);
  }

  /**
   * A successful save inserts exactly one sale, under the new key: completed, for the chosen
   * customer (never the empty id: there is no sale without a customer) and payment method,
   * stamped now, holding the cart's lines, the subtotal Σ quantity × price, the page's
   * discount, tax on the discounted subtotal at the page's rate, and
   * total = subtotal − discount + tax. Every product then loses the units its lines ask
   * for, and no other field of it changes but `updatedAt`.
   */
  lemma SavedSale(c: Checkout, sales: map<string, Sale>, products: map<string, Product>, saleId: string, now: Instant)
    requires AllLinesConsistent(c.cart)
    requires FinalizeSale(c, sales, products, saleId, now).0.Saved?
    ensures var (r, sales', products') := FinalizeSale(c, sales, products, saleId, now);
      && saleId !in sales
      && sales' == sales[saleId := sales'[saleId]]
      && sales'[saleId].status == Completed
      && sales'[saleId].items == c.cart
      && sales'[saleId].id == saleId
      && sales'[saleId].customerId == c.customerId
      && c.customerId != ""
      && sales'[saleId].customerName == (if c.customer.Some? then c.customer.value.name else "")
      && sales'[saleId].paymentMethod == c.paymentMethod
      && sales'[saleId].createdAt == now && sales'[saleId].updatedAt == now
      && sales'[saleId].subtotal == LineValue(c.cart)
      && sales'[saleId].discount == c.discount
      && sales'[saleId].tax == (LineValue(c.cart) - c.discount) * (c.taxRate / 100.0)
      && sales'[saleId].total == sales'[saleId].subtotal - sales'[saleId].discount + sales'[saleId].tax
      && sales'[saleId].total == (LineValue(c.cart) - c.discount) * (1.0 + c.taxRate / 100.0)
      && products'.Keys == products.Keys
      && (forall id :: id in products ==> products'[id].stock == products[id].stock - UnitsFor(c.cart, id))
      && forall id :: id in products ==>
           products'[id].(stock := products[id].stock, updatedAt := products[id].updatedAt) == products[id]
  {
    SubtotalIsLineValue(c.cart);
    ApplyDecrementsSpec(products, c.cart, now);
  }

  /** The snapshot the page checks against holds every stored product with its current stock. */
  predicate SnapshotCurrent(snapshot: seq<Product>, products: map<string, Product>)
  {
    forall id :: id in products ==>
      FindProduct(snapshot, id).Some? && FindProduct(snapshot, id).value.stock == products[id].stock
  }

  /**
   * Stock never goes negative through a sale: if the page's product list is current, the cart
   * has one line per product (which the cart operations keep) and every stock is non-negative,
   * then after a successful save every stock is still non-negative.
   */
  lemma StockStaysNonNegative(c: Checkout, sales: map<string, Sale>, products: map<string, Product>, saleId: string, now: Instant)
    requires SnapshotCurrent(c.snapshot, products)
    requires OneLinePerProduct(c.cart)
    requires forall id :: id in products ==> products[id].stock >= 0
    ensures var products' := FinalizeSale(c, sales, products, saleId, now).2;
      forall id :: id in products' ==> products'[id].stock >= 0
  {
    var r := FinalizeSale(c, sales, products, saleId, now);
    if r.0.Saved? {
      FirstShortageSpec(c.cart, c.snapshot);
      ApplyDecrementsSpec(products, c.cart, now);
      forall id | id in products ensures products[id].stock - UnitsFor(c.cart, id) >= 0 {
        UnitsWithinStock(c.cart, c.snapshot, products, id);
      }
    }
  }

  /** A product's units across a cart that passed the stock check fit within its current stock. */
  lemma UnitsWithinStock(cart: seq<SaleItem>, snapshot: seq<Product>, products: map<string, Product>, id: string)
    requires SnapshotCurrent(snapshot, products)
    requires OneLinePerProduct(cart)
    requires forall i :: 0 <= i < |cart| ==> LineInStock(cart[i], snapshot)
    requires id in products && products[id].stock >= 0
    ensures products[id].stock - UnitsFor(cart, id) >= 0
  {
    UnitsForSingleLine(cart, id);
    if k :| 0 <= k < |cart| && cart[k].productId == id {
      assert LineInStock(cart[k], snapshot);
    }
  }

  /** Product P has 3 in stock; a cart asking for 5 of it is refused and nothing is written. */
  lemma OversellRejected(p: Product, line: SaleItem, sales: map<string, Sale>, products: map<string, Product>, saleId: string, now: Instant)
    requires p.stock == 3 && line.productId == p.id && line.quantity == 5
    ensures var c := Checkout([p], "customer-1", None, [line], Cash, 0.0, 18.0);
      FinalizeSale(c, sales, products, saleId, now) == (Rejected(NotEnoughStock(p.name)), sales, products)
  {
  }

  /**
   * Product P at 10.00 with 10 in stock; two units, tax 18%, no discount: subtotal 20.00,
   * tax 3.60, total 23.60, and P's stock becomes 8.
   */
  lemma SuccessfulSale(p: Product, sales: map<string, Sale>, saleId: string, now: Instant)
    requires p.price == 10.0 && p.stock == 10
    requires saleId !in sales
    ensures var line := SaleItem("line-1", p.id, p.name, 2, 10.0, 20.0);
      var c := Checkout([p], "customer-1", None, [line], Cash, 0.0, 18.0);
      var (r, sales', products') := FinalizeSale(c, sales, map[p.id := p], saleId, now);
      && r == Saved(saleId)
      && sales'[saleId].subtotal == 20.0 && sales'[saleId].tax == 3.6 && sales'[saleId].total == 23.6
      && p.id in products' && products'[p.id].stock == 8
  {
    var line := SaleItem("line-1", p.id, p.name, 2, 10.0, 20.0);
    assert [line][..0] == [];
    assert Subtotal([line]) == 20.0;
    assert UnitsFor([line], p.id) == 2;
    ApplyDecrementsSpec(map[p.id := p], [line], now);
    assert LineInStock(line, [p]);
    assert FirstShortage([line], [p]) == None;
    assert ComputeTotals([line], 0.0, 18.0) == Totals(20.0, 3.6, 23.6);
  }

  /** The notice `handleBarcodeSubmit` ends with. */
  datatype BarcodeResult = Ignored | Added(product: Product) | NotFound

  /** The page's state, updated in place by its handlers. */
  class NewSalePage {
    var products: seq<Product>
    var customers: seq<Customer>
    var selectedCustomerId: string
    var selectedCustomer: Option<Customer>
    var cartItems: seq<SaleItem>
    var barcode: string
    var paymentMethod: PaymentMethod
    var discount: real
    var taxRate: real

    /** The cart never holds two lines for one product, and each line's total is quantity × price. */
    ghost predicate Valid()
      reads this
    {
      OneLinePerProduct(cartItems) && AllLinesConsistent(cartItems)
    }

    /** Subtotal, tax and total as the totals effect keeps them. */
    function CurrentTotals(): (t: Totals)
      reads this
    {
      ComputeTotals(cartItems, discount, taxRate)
    }

    function State(): (c: Checkout)
      reads this
    {
      Checkout(products, selectedCustomerId, selectedCustomer, cartItems, paymentMethod, discount, taxRate)
    }

    /** Mounting the page: the product and customer lists are loaded, and the tax rate from settings row 1 (10 without it). */
    constructor (products: seq<Product>, customers: seq<Customer>, settings: map<int, Settings>)
      ensures Valid()
      ensures this.products == products && this.customers == customers
      ensures cartItems == [] && barcode == "" && selectedCustomerId == "" && selectedCustomer == None
      ensures paymentMethod == Cash && discount == 0.0
      ensures taxRate == if 1 in settings then settings[1].taxRate else 10.0
    {
      this.products := products;
      this.customers := customers;
      selectedCustomerId, selectedCustomer := "", None;
      cartItems, barcode := [], "";
      paymentMethod, discount := Cash, 0.0;
      taxRate := if 1 in settings then settings[1].taxRate else 10.0;
    }

    /** Choosing a customer; the effect looks the customer up by id. */
    method SelectCustomer(id: string)
      modifies this`selectedCustomerId, this`selectedCustomer
      ensures selectedCustomerId == id
      ensures selectedCustomer == if id == "" then None else FindCustomer(customers, id)
    {
      selectedCustomerId := id;
      selectedCustomer := if id == "" then None else FindCustomer(customers, id);
    }

    method SetPaymentMethod(m: PaymentMethod)
      modifies this`paymentMethod
      ensures paymentMethod == m
    {
      paymentMethod := m;
    }

    /** `addProductToCart`: the existing line is changed in place, or a line with a fresh id is appended. */
    method AddProductToCart(product: Product, lineId: string)
      requires Valid()
      modifies this`cartItems
      ensures Valid()
      ensures cartItems == AddToCart(old(cartItems), product, lineId)
    {
      AddKeepsInvariants(cartItems, product, lineId);
      cartItems := AddToCart(cartItems, product, lineId);
    }

    /** `handleProductSelect`: add the product picked from the list, if it is there. */
    method HandleProductSelect(productId: string, lineId: string)
      requires Valid()
      modifies this`cartItems
      ensures Valid()
      ensures cartItems == match FindProduct(products, productId)
                           case Some(p) => AddToCart(old(cartItems), p, lineId)
                           case None => old(cartItems)
    {
      var product := FindProduct(products, productId);
      if product.Some? {
        AddProductToCart(product.value, lineId);
      }
    }

    /**
     * `handleBarcodeSubmit`: a blank code does nothing; a known code adds its product and
     * clears the field; an unknown code leaves cart and field as they were.
     */
    method HandleBarcodeSubmit(lineId: string) returns (r: BarcodeResult)
      requires Valid()
      modifies this`cartItems, this`barcode
      ensures Valid()
      ensures Text.IsBlank(old(barcode)) ==> r == Ignored && cartItems == old(cartItems) && barcode == old(barcode)
      ensures !Text.IsBlank(old(barcode)) && FindByBarcode(products, Text.Trim(old(barcode))).None? ==>
        r == NotFound && cartItems == old(cartItems) && barcode == old(barcode)
      ensures !Text.IsBlank(old(barcode)) && FindByBarcode(products, Text.Trim(old(barcode))).Some? ==>
        var p := FindByBarcode(products, Text.Trim(old(barcode))).value;
        r == Added(p) && cartItems == AddToCart(old(cartItems), p, lineId) && barcode == ""
    {
      if Text.IsBlank(barcode) {
        return Ignored;
      }
      var product := FindByBarcode(products, Text.Trim(barcode));
      if product.Some? {
        AddProductToCart(product.value, lineId);
        barcode := "";
        r := Added(product.value);
      } else {
        r := NotFound;
      }
    }

    /** `updateItemQuantity`: zero or less removes the line; otherwise only that line changes. */
    method UpdateItemQuantity(itemId: string, quantity: int)
      requires Valid()
      modifies this`cartItems
      ensures Valid()
      ensures cartItems == SetQuantity(old(cartItems), itemId, quantity)
    {
      SetQuantitySpec(cartItems, itemId, quantity);
      if quantity <= 0 {
        RemoveItem(itemId);
        return;
      }
      cartItems := SetQuantity(cartItems, itemId, quantity);
    }

    /** `removeItem`: the discount is left as it was, even if it now exceeds the smaller subtotal. */
    method RemoveItem(itemId: string)
      requires Valid()
      modifies this`cartItems
      ensures Valid()
      ensures cartItems == RemoveLine(old(cartItems), itemId)
    {
      RemoveLineSpec(cartItems, itemId);
      SubsequenceKeepsInvariants(RemoveLine(cartItems, itemId), cartItems);
      cartItems := RemoveLine(cartItems, itemId);
    }

    /** `handleDiscountChange`: the entered value, capped by the current subtotal. */
    method HandleDiscountChange(value: real)
      modifies this`discount
      ensures discount == ClampDiscount(value, Subtotal(cartItems))
      ensures discount <= Subtotal(cartItems)
    {
      discount := if value <= Subtotal(cartItems) then value else Subtotal(cartItems);
    }

    /** `handleSaveSale`, writing through the shared store. */
    method HandleSaveSale(db: Db.AppDatabase, saleId: string, now: Instant) returns (r: SaveResult)
      modifies db`sales, db`products
      ensures (r, db.sales, db.products) == FinalizeSale(State(), old(db.sales), old(db.products), saleId, now)
    {
      if cartItems == [] {
        return Rejected(EmptyCart);
      }
      if selectedCustomerId == "" {
        return Rejected(NoCustomer);
      }
      var shortage := CheckStock(cartItems, products);
      if shortage.Some? {
        return Rejected(NotEnoughStock(shortage.value.name));
      }
      if saleId in db.sales {
        return Rejected(SaveFailed);
      }
      db.sales := db.sales[saleId := SaleRecord(State(), saleId, now)];
      for i := 0 to |cartItems|
        invariant db.products == ApplyDecrements(old(db.products), cartItems[..i], now)
        invariant db.sales == old(db.sales)[saleId := SaleRecord(State(), saleId, now)]
      {
        assert cartItems[..i + 1][..i] == cartItems[..i];
        var item := cartItems[i];
        if item.productId in db.products {
          var product := db.products[item.productId];
          db.products := db.products[item.productId := product.(stock := product.stock - item.quantity, updatedAt := now)];
        }
      }
      assert cartItems[..|cartItems|] == cartItems;
      r := Saved(saleId);
    }
  }

  /**
   * The discount is clamped only when it is entered: shrinking the cart afterwards keeps it,
   * so a discount of 100 set on a subtotal of 100 stays 100 when the cart is emptied, and
   * the total then goes negative.
   */
  lemma DiscountNotReclamped(taxRate: real)
    requires taxRate >= 0.0
    ensures ClampDiscount(100.0, 100.0) == 100.0
    ensures ComputeTotals([], 100.0, taxRate).total < 0.0
  {
  }
}
