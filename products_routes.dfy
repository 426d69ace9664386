// routes/products.js: product creation with the per-type seeding of its
// inventory record, the two searches with their `||` defaults, the single
// product read with its stock fallback, and archiving.

module ProductsRoutes {
  import opened Common
  import opened JsStrings
  import opened InventorySchema
  import opened Documents
  import opened Ledger
  import InventoryRoutes

  /** The request body of `POST /`; an absent JSON field is `None`. */
  datatype ProductRequest = ProductRequest(
    ptype: Option<string>, name: Option<string>, brand: Option<string>, category: Option<string>,
    portions: Option<int>, portionSize: Option<string>, portionPrice: Option<int>, salePrice: Option<int>,
    purchasePrice: Option<int>, flavor: Option<string>, imageUrl: Option<string>, clubId: Option<Id>)

  datatype Response =
    | Created(id: Id, product: Product) // 201 'Producto creado correctamente'
    | BadRequest(message: string)       // 400
    | Failed(message: string)           // 500

  const ClubRequired := "El ID del club es requerido"
  const ServerError := "Error en el servidor"

  /**
   * `new Product({...}).save()`: type in its enum, a non-empty name and category and a purchase
   * price are required; `None` is a validation error.
   */
  function ValidateProduct(req: ProductRequest, userId: Id, now: int): (r: Option<Product>)
    requires req.clubId.Some?
    ensures r.Some? <==>
      req.ptype.Some? && ParseProductType(req.ptype.value).Some?
      && InventoryRoutes.Truthy(req.name) && InventoryRoutes.Truthy(req.category) && req.purchasePrice.Some?
    ensures r.Some? ==>
      r.value.ptype == ParseProductType(req.ptype.value).value && r.value.name == req.name.value
      && r.value.portions == req.portions && r.value.clubId == req.clubId.value && r.value.userId == userId
      && !r.value.archived && r.value.createdAt == now
  {
    if req.ptype.None? || !InventoryRoutes.Truthy(req.name) || !InventoryRoutes.Truthy(req.category)
       || req.purchasePrice.None? then None
    else
      match ParseProductType(req.ptype.value)
      case None => None
      case Some(t) =>
        Some(Product(t, req.name.value, req.brand, req.category.value, req.portions, req.portionSize,
                     req.portionPrice, req.salePrice, req.purchasePrice.value, req.flavor, req.imageUrl,
                     req.clubId.value, userId, false, now))
  }

  /** `portions || 0`. */
  function PortionsOrZero(portions: Option<int>): int
  {
    if portions.Some? then portions.value else 0
  }

  /**
   * The `inventoryData` built for a new product: every balance 0; 'prepared' and 'both' set the
   * portions per unit (`portions || 0`), price and size of a portion. A 'sealed' product sets no
   * preparation, so the schema's nested defaults (all zero) apply.
   */
  function SeedRecord(id: Id, p: Product, now: int): (r: Record)
    ensures r.product == id && r.clubId == p.clubId && r.updatedAt == now
    ensures r.sealed == 0 && r.preparation.units == 0 && r.preparation.currentPortions == 0
    ensures p.ptype == SealedProduct ==> r.preparation == ZeroPreparation
    ensures p.ptype != SealedProduct ==>
      r.preparation.portionsPerUnit == PortionsOrZero(p.portions)
      && r.preparation.portionPrice == p.portionPrice && r.preparation.portionSize == p.portionSize
  {
    var inventoryData := DefaultRecord(Key(id, p.clubId), now);
    match p.ptype
    case SealedProduct => inventoryData.(sealed := 0)
    case PreparedProduct =>
      inventoryData.(preparation := Preparation(0, PortionsOrZero(p.portions), 0, p.portionPrice, p.portionSize))
    case BothProduct =>
      inventoryData.(sealed := 0,
                     preparation := Preparation(0, PortionsOrZero(p.portions), 0, p.portionPrice, p.portionSize))
  }

  /** A seeded record is a fresh record that differs from the zero record at most in its portion data. */
  lemma SeedIsZeroStock(id: Id, p: Product, now: int)
    ensures SeedRecord(id, p, now) == DefaultRecord(Key(id, p.clubId), now).(preparation := SeedRecord(id, p, now).preparation)
    ensures p.ptype == SealedProduct ==> SeedRecord(id, p, now) == DefaultRecord(Key(id, p.clubId), now)
  {
  }

  /**
   * `POST /`. `newId` is the fresh id the database assigns: it names no product and no record.
   * On success exactly one product and one inventory record are written.
   */
  method CreateProduct(st: Store, req: ProductRequest, userId: Id, now: int, newId: Id) returns (resp: Response)
    requires st.Valid()
    requires newId !in st.products && forall k :: k in st.inventory ==> k.product != newId
    modifies st
    ensures st.Valid()
    ensures st.movements == old(st.movements) && st.expenses == old(st.expenses)
    ensures st.sales == old(st.sales) && st.clients == old(st.clients)
    ensures req.clubId.None? ==> resp == BadRequest(ClubRequired)
    ensures req.clubId.Some? && ValidateProduct(req, userId, now).None? ==> resp == Failed(ServerError)
    ensures st.applied == old(st.applied)
    ensures req.clubId.None? || ValidateProduct(req, userId, now).None? ==>
      st.products == old(st.products) && st.inventory == old(st.inventory) && st.origin == old(st.origin)
    ensures req.clubId.Some? && ValidateProduct(req, userId, now).Some? ==>
      var p := ValidateProduct(req, userId, now).value;
      resp == Created(newId, p)
      && st.products == old(st.products)[newId := p]
      && st.inventory == old(st.inventory)[Key(newId, p.clubId) := SeedRecord(newId, p, now)]
      && st.origin == old(st.origin)[Key(newId, p.clubId) := SeedRecord(newId, p, now)]
  {
    if req.clubId.None? {
      return BadRequest(ClubRequired);
    }
    var checked := ValidateProduct(req, userId, now);
    if checked.None? {
      return Failed(ServerError);
    }
    var product := checked.value;
    st.products := st.products[newId := product];
    var inventory := SeedRecord(newId, product, now);
    st.SaveUnchanged(inventory);
    resp := Created(newId, product);
  }

  // ---------------------------------------------------------------- searches

  /** `!clubId || !query || query.trim().length < 1`: the 400 of `GET /search`. */
  predicate SearchRefused(clubId: Option<Id>, query: Option<string>)
  {
    clubId.None? || !InventoryRoutes.Truthy(query) || |Trim(query.value)| < 1
  }

  /** The search is refused exactly when the club is missing or the query is blank. */
  lemma SearchRefusedIff(clubId: Option<Id>, query: Option<string>)
    ensures SearchRefused(clubId, query) <==>
      clubId.None? || query.None? || forall i :: 0 <= i < |query.value| ==> IsWhitespace(query.value[i])
  {
    if query.Some? {
      TrimEmptyIff(query.value);
    }
  }

  /** The zero stock object both searches and the product read fall back on. */
  datatype Stock = Stock(sealed: int, preparation: Preparation)

  const ZeroStock := Stock(0, ZeroPreparation)

  /** One row of `GET /search`. */
  datatype SearchRow = SearchRow(
    id: Id, flavor: Option<string>, name: string, catalogPrice: int, ptype: ProductType, stock: Stock)

  /**
   * The row formatting of `GET /search`: `flavor || null`, `purchasePrice || 0`. The query selects a
   * `stock` field the product schema does not have, so `p.stock || {...}` is always the zero stock.
   */
  function SearchRowOf(id: Id, p: Product): (row: SearchRow)
    ensures row.id == id && row.name == p.name && row.ptype == p.ptype && row.catalogPrice == p.purchasePrice
    ensures row.flavor.Some? <==> InventoryRoutes.Truthy(p.flavor)
    ensures row.stock == ZeroStock
  {
    SearchRow(id, if InventoryRoutes.Truthy(p.flavor) then p.flavor else None, p.name, p.purchasePrice, p.ptype, ZeroStock)
  }

  /** The query filter: the club's product, not archived, with a matching name. */
  predicate Kept(c: (Id, Product), clubId: Id, matches: string -> bool)
  {
    c.1.clubId == clubId && !c.1.archived && matches(c.1.name)
  }

  /** The products the query filter keeps, in database order. */
  function Matching(candidates: seq<(Id, Product)>, clubId: Id, matches: string -> bool): (r: seq<(Id, Product)>)
    ensures |r| <= |candidates|
    ensures forall i :: 0 <= i < |r| ==> r[i] in candidates && Kept(r[i], clubId, matches)
    ensures forall i :: 0 <= i < |candidates| && Kept(candidates[i], clubId, matches) ==> candidates[i] in r
  {
    if candidates == [] then []
    else
      var rest := Matching(candidates[..|candidates| - 1], clubId, matches);
      var c := candidates[|candidates| - 1];
      if c.1.clubId == clubId && !c.1.archived && matches(c.1.name) then rest + [c] else rest
  }

  /** Filtering keeps the database order: the matches of a concatenation are the concatenated matches. */
  lemma {:induction false} MatchingAppend(a: seq<(Id, Product)>, b: seq<(Id, Product)>, clubId: Id, matches: string -> bool)
    ensures Matching(a + b, clubId, matches) == Matching(a, clubId, matches) + Matching(b, clubId, matches)
    decreases |b|
  {
    if b != [] {
      var b0 := b[..|b| - 1];
      MatchingAppend(a, b0, clubId, matches);
      assert (a + b)[..|a + b| - 1] == a + b0;
      assert (a + b)[|a + b| - 1] == b[|b| - 1];
    } else {
      assert a + b == a;
    }
  }

  /** At most this many rows come back from `GET /search`. */
  const SearchLimit := 10

  /** The answers of `GET /search`. */
  datatype SearchAnswer =
    | SearchRows(rows: seq<SearchRow>) // 200
    | SearchBadRequest                 // 400 'Se requieren clubId y al menos 1 carácter para la búsqueda'
    | SearchError                      // 500 'Error en la búsqueda'

  /**
   * `GET /search` over the products in database order. The trimmed query is used unescaped as the
   * case-insensitive regular expression `^query`: `pattern` is its language, or `None` when the
   * text is not a valid regular expression, which the database refuses.
   */
  function Search(candidates: seq<(Id, Product)>, clubId: Option<Id>, query: Option<string>, pattern: Option<string -> bool>)
    : (r: SearchAnswer)
    ensures r == SearchBadRequest <==> SearchRefused(clubId, query)
    ensures r == SearchError <==> !SearchRefused(clubId, query) && pattern.None?
    ensures r.SearchRows? ==>
      var kept := Matching(candidates, clubId.value, pattern.value);
      |r.rows| <= SearchLimit
      && |r.rows| == (if |kept| < SearchLimit then |kept| else SearchLimit)
      && forall i :: 0 <= i < |r.rows| ==> r.rows[i] == SearchRowOf(kept[i].0, kept[i].1)
  {
    if SearchRefused(clubId, query) then SearchBadRequest
    else if pattern.None? then SearchError
    else
      var kept := Matching(candidates, clubId.value, pattern.value);
      var limited := if |kept| <= SearchLimit then kept else kept[..SearchLimit];
      SearchRows(seq(|limited|, i requires 0 <= i < |limited| => SearchRowOf(limited[i].0, limited[i].1)))
  }

  /** The search rows never report stock: every row carries the zero stock object. */
  lemma SearchStockIsAlwaysZero(candidates: seq<(Id, Product)>, clubId: Option<Id>, query: Option<string>, pattern: Option<string -> bool>)
    requires Search(candidates, clubId, query, pattern).SearchRows?
    ensures forall i :: 0 <= i < |Search(candidates, clubId, query, pattern).rows| ==>
      Search(candidates, clubId, query, pattern).rows[i].stock == ZeroStock
  {
  }

  /** The stock figures of `GET /search/sales/`: `sealed || 0`, `units || 0`, `currentPortions || 0`, or zeros without a record. */
  datatype StockInfo = StockInfo(sealed: int, prepared: int, portions: int)

  function StockInfoOf(inventory: map<Key, Record>, k: Key): (s: StockInfo)
    ensures k !in inventory ==> s == StockInfo(0, 0, 0)
    ensures k in inventory ==>
      s == StockInfo(inventory[k].sealed, inventory[k].preparation.units, inventory[k].preparation.currentPortions)
  {
    if k in inventory then
      var r := inventory[k];
      StockInfo(r.sealed, r.preparation.units, r.preparation.currentPortions)
    else StockInfo(0, 0, 0)
  }

  /** One row of `GET /search/sales/`. */
  datatype SalesRow = SalesRow(
    id: Id, name: string, ptype: ProductType, price: Option<int>, stock: int, portions: int, portionPrice: int)

  function SalesRowOf(inventory: map<Key, Record>, clubId: Id, id: Id, p: Product): SalesRow
  {
    var info := StockInfoOf(inventory, Key(id, clubId));
    SalesRow(id, p.name, p.ptype, p.salePrice, info.sealed, info.portions,
             if p.portionPrice.Some? then p.portionPrice.value else 0)
  }

  /**
   * The sales search reports the stored balance of the product's record in the requested club,
   * and zeros when there is none; the balance may be negative.
   */
  lemma SalesRowReportsLedger(inventory: map<Key, Record>, clubId: Id, id: Id, p: Product, now: int)
    ensures SalesRowOf(inventory, clubId, id, p).stock == LookupIn(inventory, Key(id, clubId), now).sealed
    ensures SalesRowOf(inventory, clubId, id, p).portions
         == LookupIn(inventory, Key(id, clubId), now).preparation.currentPortions
  {
  }

  // ---------------------------------------------------------------- GET /:id and archive

  /**
   * `GET /:id`: the product and the stock of its record in the product's own club, or the zero
   * stock when there is none; `None` is the 404.
   */
  function ProductWithStock(products: map<Id, Product>, inventory: map<Key, Record>, id: Id)
    : (r: Option<(Product, Stock)>)
    ensures r.None? <==> id !in products
    ensures r.Some? ==> r.value.0 == products[id]
    ensures r.Some? && Key(id, products[id].clubId) !in inventory ==> r.value.1 == ZeroStock
    ensures r.Some? && Key(id, products[id].clubId) in inventory ==>
      var rec := inventory[Key(id, products[id].clubId)];
      r.value.1 == Stock(rec.sealed, rec.preparation)
  {
    if id !in products then None
    else
      var p := products[id];
      var k := Key(id, p.clubId);
      Some((p, if k in inventory then Stock(inventory[k].sealed, inventory[k].preparation) else ZeroStock))
  }

  /** `findByIdAndUpdate(id, { archived: true })` on the product map; `None` is the 404. */
  function Archived(products: map<Id, Product>, id: Id): (r: Option<map<Id, Product>>)
    ensures r.None? <==> id !in products
    ensures r.Some? ==>
      r.value.Keys == products.Keys && r.value[id] == products[id].(archived := true)
      && forall j :: j in products && j != id ==> r.value[j] == products[j]
  {
    if id !in products then None else Some(products[id := products[id].(archived := true)])
  }

  /** Archiving twice is archiving once. */
  lemma ArchiveIdempotent(products: map<Id, Product>, id: Id)
    requires id in products
    ensures Archived(Archived(products, id).value, id) == Archived(products, id)
  {
    var once := Archived(products, id).value;
    assert once[id].(archived := true) == once[id];
    assert once[id := once[id]] == once;
  }

  /** `PATCH /:id/archive`. The product is returned as updated. */
  method ArchiveProduct(st: Store, id: Id) returns (r: Option<Product>)
    modifies st`products
    ensures Archived(old(st.products), id).None? ==> r.None? && st.products == old(st.products)
    ensures Archived(old(st.products), id).Some? ==>
      st.products == Archived(old(st.products), id).value && r == Some(st.products[id])
  {
    var updated := Archived(st.products, id);
    if updated.None? {
      return None;
    }
    st.products := updated.value;
    r := Some(st.products[id]);
  }
}
