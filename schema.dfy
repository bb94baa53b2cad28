/**
 * The records kept in the eight tables of the store (src/db/db.ts).
 * Dates are `Instant`s; money is `real`; counts of units are `int`.
 */
module Schema {
  import opened Base

  datatype Role = Admin | Manager | Cashier

  datatype PaymentMethod = Cash | Card | Bank

  datatype SaleStatus = Pending | Completed | Cancelled

  datatype User = User(
    id: string,
    name: string,
    username: string,
    password: string,
    email: string,
    role: Role,
    active: bool,
    lastLogin: Option<Instant>,
    createdAt: Instant,
    updatedAt: Instant)

  datatype Category = Category(
    id: string,
    name: string,
    description: string,
    active: bool,
    createdAt: Instant,
    updatedAt: Instant)

  /**
   * `category` is not a declared field of the record: the product list reads it all the
   * same, so it is kept here as an optional field that no write path ever sets.
   */
  datatype Product = Product(
    id: string,
    name: string,
    price: real,
    stock: int,
    categoryId: string,
    categoryName: string,
    barcode: string,
    lowStockAlert: int,
    active: bool,
    category: Option<string>,
    createdAt: Instant,
    updatedAt: Instant)

  datatype Customer = Customer(
    id: string,
    name: string,
    email: string,
    phone: string,
    address: string,
    createdAt: Instant,
    updatedAt: Instant)

  datatype Supplier = Supplier(
    id: string,
    name: string,
    email: string,
    phone: string,
    address: string,
    createdAt: Instant,
    updatedAt: Instant)

  datatype SaleItem = SaleItem(
    id: string,
    productId: string,
    productName: string,
    quantity: int,
    price: real,
    total: real)

  datatype Sale = Sale(
    id: string,
    customerId: string,
    customerName: string,
    items: seq<SaleItem>,
    subtotal: real,
    tax: real,
    discount: real,
    total: real,
    paymentMethod: PaymentMethod,
    status: SaleStatus,
    createdAt: Instant,
    updatedAt: Instant)

  datatype PurchaseItem = PurchaseItem(
    productId: string,
    productName: string,
    quantity: int,
    price: real,
    total: real)

  datatype Purchase = Purchase(
    id: string,
    supplierId: string,
    supplierName: string,
    items: seq<PurchaseItem>,
    subtotal: real,
    tax: real,
    total: real,
    status: SaleStatus,
    createdAt: Instant,
    updatedAt: Instant)

  datatype Settings = Settings(
    id: int,
    companyName: string,
    address: string,
    phone: string,
    email: string,
    taxRate: real,
    currency: string,
    currencySymbol: string,
    createdAt: Instant,
    updatedAt: Instant)
}
