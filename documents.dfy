// Documents the stock engine writes besides inventory records and movements:
// products, expenses, sales and clients, with the enums of their schemas
// (models/Product.js, models/Expense.js, models/Sale.js, models/Client.js).

module Documents {
  import opened Common

  // ---------------------------------------------------------------- products

  datatype ProductType = SealedProduct | PreparedProduct | BothProduct

  /** The product `type` enum: `['sealed', 'prepared', 'both']`. */
  function ParseProductType(s: string): Option<ProductType>
  {
    if s == "sealed" then Some(SealedProduct)
    else if s == "prepared" then Some(PreparedProduct)
    else if s == "both" then Some(BothProduct)
    else None
  }

  datatype Product = Product(
    ptype: ProductType, name: string, brand: Option<string>, category: string,
    portions: Option<int>, portionSize: Option<string>, portionPrice: Option<int>,
    salePrice: Option<int>, purchasePrice: int, flavor: Option<string>, imageUrl: Option<string>,
    clubId: Id, userId: Id, archived: bool, createdAt: int)

  // ---------------------------------------------------------------- expenses

  /** An expense; `category` and `description` are optional, `product` only set for purchases. */
  datatype Expense = Expense(
    clubId: Id, product: Option<Id>, category: Option<string>, amount: int,
    description: Option<string>, date: int, user: Id)

  // ---------------------------------------------------------------- sales

  /** The sale item `type` enum: `['sealed', 'prepared']`. */
  datatype SaleItemType = SealedItem | PreparedItem

  datatype SaleItem = SaleItem(productId: Id, itype: SaleItemType, quantity: int, unitPrice: int)

  datatype SaleGroup = SaleGroup(name: string, items: seq<SaleItem>)

  datatype SaleStatus = Completed | PendingInventoryAdjustment | Cancelled

  datatype Sale = Sale(
    itemGroups: seq<SaleGroup>, total: int, client: Option<Id>, status: SaleStatus,
    employee: Id, clubId: Id, createdAt: int)

  // ---------------------------------------------------------------- clients

  datatype ClientType = Regular | Wholesale | Occasional

  /** A client; email and phone default to the empty string, counters to 0. */
  datatype Client = Client(
    clubId: Id, name: string, email: string, phone: string, ctype: ClientType,
    totalSpent: int, visitCount: int, lastPurchase: Option<int>, createdAt: int, updatedAt: int)
}
