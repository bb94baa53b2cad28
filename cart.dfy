/**
 * The cart of the new-sale page (src/pages/sales/NewSalePage.tsx) as values: adding a
 * product, changing a line's quantity, removing a line, and the derived totals.
 */
module Cart {
  import opened Base
  import opened Schema
  import Seqs

  /** A line's total is its quantity times its unit price. */
  predicate LineConsistent(item: SaleItem)
  {
    item.total == item.quantity as real * item.price
  }

  predicate AllLinesConsistent(cart: seq<SaleItem>)
  {
    forall i :: 0 <= i < |cart| ==> LineConsistent(cart[i])
  }

  predicate OneLinePerProduct(cart: seq<SaleItem>)
  {
    forall i, j :: 0 <= i < j < |cart| ==> cart[i].productId != cart[j].productId
  }

  /** `cartItems.findIndex(item => item.productId === productId)`. */
  function FindLine(cart: seq<SaleItem>, productId: string): (index: int)
    ensures -1 <= index < |cart|
    ensures index == -1 <==> forall i :: 0 <= i < |cart| ==> cart[i].productId != productId
    ensures index >= 0 ==> cart[index].productId == productId &&
                           forall i :: 0 <= i < index ==> cart[i].productId != productId
  {
    if cart == [] then -1
    else if cart[0].productId == productId then 0
    else
      var k := FindLine(cart[1..], productId);
      if k == -1 then -1 else k + 1
  }

  /** The line a product gets when it first enters the cart. */
  function NewLine(product: Product, lineId: string): (item: SaleItem)
  {
    SaleItem(lineId, product.id, product.name, 1, product.price, product.price)
  }

  /** A line with one more unit, its total recomputed from its own unit price. */
  function OneMore(item: SaleItem): (r: SaleItem)
  {
    var q := item.quantity + 1;
    item.(quantity := q, total := q as real * item.price)
  }

  /** `addProductToCart`: a repeat adds one to the existing line; a new product appends a line. */
  function AddToCart(cart: seq<SaleItem>, product: Product, lineId: string): (r: seq<SaleItem>)
  {
    var i := FindLine(cart, product.id);
    if i >= 0 then cart[i := OneMore(cart[i])]
    else
      cart + [NewLine(product, lineId)]
  }

  /** `removeItem`: drop every line with that line id. */
  function RemoveLine(cart: seq<SaleItem>, itemId: string): (r: seq<SaleItem>)
  {
    Seqs.Filter(cart, (item: SaleItem) => item.id != itemId)
  }

  /** `updateItemQuantity`: a quantity of zero or less removes the line, otherwise it is set. */
  function SetQuantity(cart: seq<SaleItem>, itemId: string, quantity: int): (r: seq<SaleItem>)
  {
    if quantity <= 0 then RemoveLine(cart, itemId)
    else seq(|cart|, i requires 0 <= i < |cart| =>
           if cart[i].id == itemId then cart[i].(quantity := quantity, total := quantity as real * cart[i].price)
           else cart[i])
  }

  /** `cartItems.reduce((sum, item) => sum + item.total, 0)`. */
  function Subtotal(cart: seq<SaleItem>): (r: real)
  {
    if cart == [] then 0.0 else cart[0].total + Subtotal(cart[1..])
  }

  /** Σ quantity × price over the lines: what the subtotal should be. */
  function LineValue(cart: seq<SaleItem>): (r: real)
  {
    if cart == [] then 0.0 else cart[0].quantity as real * cart[0].price + LineValue(cart[1..])
  }

  datatype Totals = Totals(subtotal: real, tax: real, total: real)

  /** The totals effect: tax on the discounted subtotal, at a percentage rate. */
  function ComputeTotals(cart: seq<SaleItem>, discount: real, taxRate: real): (t: Totals)
  {
    var subtotal := Subtotal(cart);
    var tax := (subtotal - discount) * (taxRate / 100.0);
    Totals(subtotal, tax, subtotal - discount + tax)
  }

  /** `handleDiscountChange`: the new discount is capped by the current subtotal, from above only. */
  function ClampDiscount(value: real, subtotal: real): (d: real)
  {
    if value <= subtotal then value else subtotal
  }

  // ---- properties ----

  /**
   * Adding a product already in the cart raises that line by one unit and recomputes its total
   * from the line's own unit price, not the product's current one; nothing else changes.
   */
  lemma AddExisting(cart: seq<SaleItem>, product: Product, lineId: string)
    requires FindLine(cart, product.id) >= 0
    ensures var i := FindLine(cart, product.id);
      && |AddToCart(cart, product, lineId)| == |cart|
      && AddToCart(cart, product, lineId)[i] ==
           cart[i].(quantity := cart[i].quantity + 1, total := (cart[i].quantity + 1) as real * cart[i].price)
      && LineConsistent(AddToCart(cart, product, lineId)[i])
      && AddToCart(cart, product, lineId)[i].productId == product.id
      && (forall j :: 0 <= j < |cart| && j != i ==> AddToCart(cart, product, lineId)[j] == cart[j])
  {
  }

  /** Adding a product not in the cart appends one line of quantity 1 at its price; the rest is untouched. */
  lemma AddNew(cart: seq<SaleItem>, product: Product, lineId: string)
    requires forall j :: 0 <= j < |cart| ==> cart[j].productId != product.id
    ensures AddToCart(cart, product, lineId) == cart + [NewLine(product, lineId)]
    ensures NewLine(product, lineId).quantity == 1 && NewLine(product, lineId).total == product.price
  {
  }

  /** The cart never holds two lines for one product, and every line's total stays quantity × price. */
  lemma AddKeepsInvariants(cart: seq<SaleItem>, product: Product, lineId: string)
    requires OneLinePerProduct(cart) && AllLinesConsistent(cart)
    ensures OneLinePerProduct(AddToCart(cart, product, lineId))
    ensures AllLinesConsistent(AddToCart(cart, product, lineId))
  {
    var i := FindLine(cart, product.id);
    if i < 0 {
      var r := cart + [NewLine(product, lineId)];
      assert forall j :: 0 <= j < |cart| ==> r[j] == cart[j];
    }
  }

  lemma RemoveLineSpec(cart: seq<SaleItem>, itemId: string)
    ensures forall x :: x in RemoveLine(cart, itemId) <==> x in cart && x.id != itemId
    ensures Seqs.IsSubsequence(RemoveLine(cart, itemId), cart)
  {
    forall x ensures x in RemoveLine(cart, itemId) <==> x in cart && x.id != itemId {
      Seqs.FilterMembership(cart, (item: SaleItem) => item.id != itemId, x);
    }
    Seqs.FilterIsSubsequence(cart, (item: SaleItem) => item.id != itemId);
  }

  /** Removing a line id that is not in the cart changes nothing; removing twice is removing once. */
  lemma RemoveLineAbsent(cart: seq<SaleItem>, itemId: string)
    requires forall j :: 0 <= j < |cart| ==> cart[j].id != itemId
    ensures RemoveLine(cart, itemId) == cart
  {
    Seqs.FilterAll(cart, (item: SaleItem) => item.id != itemId);
  }

  lemma RemoveLineIdempotent(cart: seq<SaleItem>, itemId: string)
    ensures RemoveLine(RemoveLine(cart, itemId), itemId) == RemoveLine(cart, itemId)
  {
    var r := RemoveLine(cart, itemId);
    RemoveLineSpec(cart, itemId);
    forall j | 0 <= j < |r| ensures r[j].id != itemId {
      assert r[j] in r;
    }
    RemoveLineAbsent(r, itemId);
  }

  /** Removal keeps the cart's invariants: it only drops lines. */
  lemma {:induction false} SubsequenceKeepsInvariants(a: seq<SaleItem>, b: seq<SaleItem>)
    requires Seqs.IsSubsequence(a, b)
    requires OneLinePerProduct(b) && AllLinesConsistent(b)
    ensures OneLinePerProduct(a) && AllLinesConsistent(a)
    decreases |b|
  {
    if a != [] {
      if a[0] == b[0] && Seqs.IsSubsequence(a[1..], b[1..]) {
        SubsequenceKeepsInvariants(a[1..], b[1..]);
        Seqs.SubsequenceMembers(a[1..], b[1..]);
        assert forall y :: y in b[1..] ==> y.productId != b[0].productId;
        assert a == [a[0]] + a[1..];
      } else {
        SubsequenceKeepsInvariants(a, b[1..]);
      }
    }
  }

  /**
   * A positive quantity changes only the lines with that id, to that quantity and a total of
   * quantity × the line's own unit price, keeping its id, product and price; a quantity of
   * zero or less removes them.
   */
  lemma SetQuantitySpec(cart: seq<SaleItem>, itemId: string, quantity: int)
    requires OneLinePerProduct(cart) && AllLinesConsistent(cart)
    ensures quantity <= 0 ==> SetQuantity(cart, itemId, quantity) == RemoveLine(cart, itemId)
    ensures quantity > 0 ==> |SetQuantity(cart, itemId, quantity)| == |cart|
    ensures quantity > 0 ==> forall j :: 0 <= j < |cart| ==>
      (cart[j].id == itemId ==>
         SetQuantity(cart, itemId, quantity)[j] == cart[j].(quantity := quantity, total := quantity as real * cart[j].price)) &&
      (cart[j].id != itemId ==> SetQuantity(cart, itemId, quantity)[j] == cart[j])
    ensures OneLinePerProduct(SetQuantity(cart, itemId, quantity))
    ensures AllLinesConsistent(SetQuantity(cart, itemId, quantity))
  {
    if quantity <= 0 {
      RemoveLineSpec(cart, itemId);
      SubsequenceKeepsInvariants(RemoveLine(cart, itemId), cart);
    }
  }

  lemma {:induction false} SubtotalUpdate(cart: seq<SaleItem>, i: nat, x: SaleItem)
    requires i < |cart|
    ensures Subtotal(cart[i := x]) == Subtotal(cart) - cart[i].total + x.total
  {
    if i > 0 {
      SubtotalUpdate(cart[1..], i - 1, x);
      assert cart[i := x][1..] == cart[1..][i - 1 := x];
    }
  }

  lemma {:induction false} SubtotalAppend(cart: seq<SaleItem>, x: SaleItem)
    ensures Subtotal(cart + [x]) == Subtotal(cart) + x.total
  {
    if cart != [] {
      SubtotalAppend(cart[1..], x);
      assert (cart + [x])[1..] == cart[1..] + [x];
    }
  }

  lemma AddExistingSubtotal(cart: seq<SaleItem>, product: Product, lineId: string, i: int)
    requires i == FindLine(cart, product.id) && i >= 0
    requires LineConsistent(cart[i])
    ensures Subtotal(AddToCart(cart, product, lineId)) == Subtotal(cart) + cart[i].price
  {
    var line := cart[i];
    OneMoreUnit(line.quantity, line.price);
    assert OneMore(line).total == line.total + line.price;
    assert AddToCart(cart, product, lineId) == cart[i := OneMore(line)];
    SubtotalUpdate(cart, i, OneMore(line));
  }

  /**
   * Adding a product to a consistent cart raises the subtotal by one unit price: the price
   * stored on the product's line, or the product's price for a new line.
   */
  lemma AddRaisesSubtotalByPrice(cart: seq<SaleItem>, product: Product, lineId: string)
    requires AllLinesConsistent(cart)
    ensures var i := FindLine(cart, product.id);
      Subtotal(AddToCart(cart, product, lineId)) ==
      Subtotal(cart) + (if i >= 0 then cart[i].price else product.price)
  {
    var i := FindLine(cart, product.id);
    if i >= 0 {
      AddExistingSubtotal(cart, product, lineId, i);
    } else {
      SubtotalAppend(cart, NewLine(product, lineId));
    }
  }

  lemma OneMoreUnit(q: int, p: real)
    ensures (q + 1) as real * p == q as real * p + p
  {
  }

  /** When every line is consistent, the subtotal is Σ quantity × price. */
  lemma {:induction false} SubtotalIsLineValue(cart: seq<SaleItem>)
    requires AllLinesConsistent(cart)
    ensures Subtotal(cart) == LineValue(cart)
  {
    if cart != [] {
      SubtotalIsLineValue(cart[1..]);
    }
  }

  /** total = subtotal − discount + tax, which is the discounted subtotal grown by the tax rate. */
  lemma TotalsSpec(cart: seq<SaleItem>, discount: real, taxRate: real)
    ensures ComputeTotals(cart, discount, taxRate).subtotal == Subtotal(cart)
    ensures ComputeTotals(cart, discount, taxRate).total ==
      ComputeTotals(cart, discount, taxRate).subtotal - discount + ComputeTotals(cart, discount, taxRate).tax
    ensures ComputeTotals(cart, discount, taxRate).total ==
      (Subtotal(cart) - discount) * (1.0 + taxRate / 100.0)
  {
  }

  /** The clamp never lets the discount exceed the subtotal and leaves smaller values (negative ones too) as they are. */
  lemma ClampSpec(value: real, subtotal: real)
    ensures ClampDiscount(value, subtotal) <= subtotal
    ensures ClampDiscount(value, subtotal) <= value
    ensures ClampDiscount(value, subtotal) == value || ClampDiscount(value, subtotal) == subtotal
    ensures value <= subtotal ==> ClampDiscount(value, subtotal) == value
  {
  }
}
