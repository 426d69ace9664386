// routes/clients.js: client creation and update with their checks, the KPIs of a club's clients
// (two arg-max reductions and a latest date), and a client's sale history with the items of all
// groups flattened and labelled with their product.

module ClientsRoutes {
  import opened Common
  import opened Documents
  import opened Ledger
  import SalesRoutes

  const NameRequired := "El nombre es obligatorio"
  const ContactRequired := "Debes proporcionar al menos un método de contacto"
  const ClubRequired := "Club id es requerido"
  const ClientNotFound := "Cliente no encontrado"

  datatype Response =
    | Created(client: Client)
    | Updated(client: Client)
    | BadRequest(message: string)
    | NotFound(message: string)
    | ServerError

  /** The client `type` enum: `['regular', 'wholesale', 'occasional']`. */
  function ParseClientType(s: string): (r: Option<ClientType>)
    ensures r == Some(Regular) <==> s == "regular"
    ensures r == Some(Wholesale) <==> s == "wholesale"
    ensures r == Some(Occasional) <==> s == "occasional"
  {
    if s == "regular" then Some(Regular)
    else if s == "wholesale" then Some(Wholesale)
    else if s == "occasional" then Some(Occasional)
    else None
  }

  /** A non-empty string was given. */
  predicate Given(s: Option<string>)
  {
    s.Some? && s.value != ""
  }

  /** The checks of `POST /` and `PUT /:id`, in order: a name, a way of contact, a club. */
  function Refusal(name: Option<string>, email: Option<string>, phone: Option<string>, clubId: Option<Id>)
    : (r: Option<string>)
    ensures r.None? <==> Given(name) && (Given(email) || Given(phone)) && clubId.Some?
    ensures !Given(name) ==> r == Some(NameRequired)
    ensures Given(name) && !Given(email) && !Given(phone) ==> r == Some(ContactRequired)
    ensures Given(name) && (Given(email) || Given(phone)) && clubId.None? ==> r == Some(ClubRequired)
  {
    if !Given(name) then Some(NameRequired)
    else if !Given(email) && !Given(phone) then Some(ContactRequired)
    else if clubId.None? then Some(ClubRequired)
    else None
  }

  /**
   * `POST /` at time `now`; `newId` is the id the database gives the client. A type outside the
   * enum fails the save.
   */
  method CreateClient(
    st: Store, name: Option<string>, email: Option<string>, phone: Option<string>, ctype: Option<string>,
    clubId: Option<Id>, newId: Id, now: int) returns (resp: Response)
    requires newId !in st.clients
    modifies st`clients
    ensures Refusal(name, email, phone, clubId).Some? ==>
      resp == BadRequest(Refusal(name, email, phone, clubId).value) && st.clients == old(st.clients)
    ensures Refusal(name, email, phone, clubId).None? && ctype.Some? && ParseClientType(ctype.value).None? ==>
      resp == ServerError && st.clients == old(st.clients)
    ensures Refusal(name, email, phone, clubId).None? && (ctype.None? || ParseClientType(ctype.value).Some?) ==>
      var t := if ctype.None? then Regular else ParseClientType(ctype.value).value;
      var c := Client(clubId.value, name.value, email.GetOr(""), phone.GetOr(""), t, 0, 0, None, now, now);
      resp == Created(c) && st.clients == old(st.clients)[newId := c]
  {
    var refusal := Refusal(name, email, phone, clubId);
    if refusal.Some? {
      return BadRequest(refusal.value);
    }
    var t := Regular;
    if ctype.Some? {
      var parsed := ParseClientType(ctype.value);
      if parsed.None? {
        return ServerError;
      }
      t := parsed.value;
    }
    var c := Client(clubId.value, name.value, email.GetOr(""), phone.GetOr(""), t, 0, 0, None, now, now);
    st.clients := st.clients[newId := c];
    resp := Created(c);
  }

  /**
   * `PUT /:id` at time `now`: `findOneAndUpdate({ _id: id, clubId }, ...)`. Fields the request leaves
   * out keep their value.
   */
  method UpdateClient(
    st: Store, id: Id, name: Option<string>, email: Option<string>, phone: Option<string>,
    ctype: Option<ClientType>, clubId: Option<Id>, now: int) returns (resp: Response)
    modifies st`clients
    ensures Refusal(name, email, phone, clubId).Some? ==>
      resp == BadRequest(Refusal(name, email, phone, clubId).value) && st.clients == old(st.clients)
    // A client of another club is not found.
    ensures Refusal(name, email, phone, clubId).None? && (id !in old(st.clients) || old(st.clients)[id].clubId != clubId.value) ==>
      resp == NotFound(ClientNotFound) && st.clients == old(st.clients)
    ensures Refusal(name, email, phone, clubId).None? && id in old(st.clients) && old(st.clients)[id].clubId == clubId.value ==>
      var c := old(st.clients)[id];
      var c' := c.(name := name.value, email := email.GetOr(c.email), phone := phone.GetOr(c.phone),
                   ctype := ctype.GetOr(c.ctype), updatedAt := now);
      resp == Updated(c') && st.clients == old(st.clients)[id := c']
  {
    var refusal := Refusal(name, email, phone, clubId);
    if refusal.Some? {
      return BadRequest(refusal.value);
    }
    if id !in st.clients || st.clients[id].clubId != clubId.value {
      return NotFound(ClientNotFound);
    }
    var c := st.clients[id];
    c := c.(name := name.value, email := email.GetOr(c.email), phone := phone.GetOr(c.phone),
            ctype := ctype.GetOr(c.ctype), updatedAt := now);
    st.clients := st.clients[id := c];
    resp := Updated(c);
  }

  // ---------------------------------------------------------------- KPIs

  /**
   * `clients.reduce((prev, cur) => key(cur) > (key(prev) || 0) ? cur : prev, {})`: the position of
   * the client the reduction ends on, `None` when it ends on the initial `{}`.
   */
  function Best(cs: seq<Client>, key: Client -> int): (r: Option<nat>)
    // The first client of largest key, provided that key is positive.
    ensures r.Some? ==> r.value < |cs| && key(cs[r.value]) > 0
    ensures r.Some? ==> forall j :: 0 <= j < |cs| ==> key(cs[j]) <= key(cs[r.value])
    ensures r.Some? ==> forall j :: 0 <= j < r.value ==> key(cs[j]) < key(cs[r.value])
    ensures r.None? <==> forall j :: 0 <= j < |cs| ==> key(cs[j]) <= 0
    decreases |cs|
  {
    if cs == [] then None
    else
      var p := Best(cs[..|cs| - 1], key);
      var pk := if p.None? then 0 else key(cs[..|cs| - 1][p.value]);
      if key(cs[|cs| - 1]) > pk then Some(|cs| - 1) else p
  }

  /** The client types, in order. */
  function TypesOf(cs: seq<Client>): (ts: seq<ClientType>)
    ensures |ts| == |cs| && forall j :: 0 <= j < |cs| ==> ts[j] == cs[j].ctype
  {
    seq(|cs|, j requires 0 <= j < |cs| => cs[j].ctype)
  }

  /** The number of clients of type 'regular': how often 'regular' occurs among the types. */
  function CountRegular(cs: seq<Client>): (n: nat)
    ensures n <= |cs|
    ensures n == multiset(TypesOf(cs))[Regular]
  {
    if cs == [] then 0
    else
      assert TypesOf(cs) == [cs[0].ctype] + TypesOf(cs[1..]);
      (if cs[0].ctype == Regular then 1 else 0) + CountRegular(cs[1..])
  }

  lemma {:induction false} CountRegularAppend(a: seq<Client>, b: seq<Client>)
    ensures CountRegular(a + b) == CountRegular(a) + CountRegular(b)
    decreases |a|
  {
    if a == [] {
      assert a + b == b;
    } else {
      assert (a + b)[1..] == a[1..] + b;
      CountRegularAppend(a[1..], b);
    }
  }

  /** All clients are frequent exactly when all are 'regular'. */
  lemma {:induction false} CountRegularAll(cs: seq<Client>)
    ensures CountRegular(cs) == |cs| <==> forall j :: 0 <= j < |cs| ==> cs[j].ctype == Regular
    decreases |cs|
  {
    if cs != [] {
      CountRegularAll(cs[1..]);
      assert forall j :: 1 <= j < |cs| ==> cs[j] == cs[1..][j - 1];
    }
  }

  /** The latest `last_purchase`, `None` when no client has one. */
  function Latest(cs: seq<Client>): (r: Option<int>)
    ensures r.None? <==> forall j :: 0 <= j < |cs| ==> cs[j].lastPurchase.None?
    ensures r.Some? ==> exists j :: 0 <= j < |cs| && cs[j].lastPurchase == r
    ensures r.Some? ==> forall j :: 0 <= j < |cs| && cs[j].lastPurchase.Some? ==> cs[j].lastPurchase.value <= r.value
    decreases |cs|
  {
    if cs == [] then None
    else
      var rest := Latest(cs[1..]);
      assert forall j :: 1 <= j < |cs| ==> cs[j] == cs[1..][j - 1];
      match cs[0].lastPurchase
      case None => rest
      case Some(t) =>
        if rest.None? || rest.value < t then Some(t)
        else
          assert exists j :: 1 <= j < |cs| && cs[j].lastPurchase == rest by {
            var j :| 0 <= j < |cs[1..]| && cs[1..][j].lastPurchase == rest;
            assert cs[j + 1] == cs[1..][j];
          }
          rest
  }

  function TotalSpent(c: Client): int { c.totalSpent }

  function Visits(c: Client): int { c.visitCount }

  datatype Kpis = Kpis(
    totalClientes: nat, clientesFrecuentes: nat, mejorCliente: Option<Client>, clienteAsiduo: Option<Client>,
    ultimaCompra: Option<int>)

  function At(cs: seq<Client>, i: Option<nat>): Option<Client>
  {
    if i.Some? && i.value < |cs| then Some(cs[i.value]) else None
  }

  /** `GET /kpis` on the clients of the club, in the order the database returns them. */
  function KpisOf(cs: seq<Client>): Kpis
  {
    Kpis(|cs|, CountRegular(cs), At(cs, Best(cs, TotalSpent)), At(cs, Best(cs, Visits)), Latest(cs))
  }

  /** Without spending, there is no best client; without visits, no frequent one. */
  lemma NoKpiWinner(cs: seq<Client>)
    requires forall j :: 0 <= j < |cs| ==> cs[j].totalSpent == 0 && cs[j].visitCount == 0
    ensures KpisOf(cs).mejorCliente.None? && KpisOf(cs).clienteAsiduo.None?
  {
    assert forall j :: 0 <= j < |cs| ==> TotalSpent(cs[j]) <= 0 && Visits(cs[j]) <= 0;
  }

  /** Ties go to the client the database returns first: a later client with the same total is never the best. */
  lemma TieGoesToFirst(cs: seq<Client>, i: nat, j: nat)
    requires i < j < |cs| && cs[i].totalSpent == cs[j].totalSpent
    ensures Best(cs, TotalSpent) != Some(j)
  {
  }

  // ---------------------------------------------------------------- sale history

  /** An item of the history, with the name and flavour shown for its product. */
  datatype ItemView = ItemView(item: SaleItem, productName: string, flavor: string)

  datatype SaleView = SaleView(sale: Sale, items: seq<ItemView>)

  /** The product's name and flavour (`flavor || 'Sin sabor'`), or 'Desconocido' for a missing product. */
  function ViewOf(item: SaleItem, products: map<Id, Product>): (v: ItemView)
    ensures v.item == item
    ensures item.productId !in products ==> v.productName == "Desconocido" && v.flavor == "Sin sabor"
    ensures item.productId in products ==>
      v.productName == products[item.productId].name
      && v.flavor == (var f := products[item.productId].flavor; if f.Some? && f.value != "" then f.value else "Sin sabor")
  {
    if item.productId !in products then ItemView(item, "Desconocido", "Sin sabor")
    else
      var p := products[item.productId];
      ItemView(item, p.name, if p.flavor.Some? && p.flavor.value != "" then p.flavor.value else "Sin sabor")
  }

  function ViewsOf(items: seq<SaleItem>, products: map<Id, Product>): (vs: seq<ItemView>)
    ensures |vs| == |items|
    ensures forall k :: 0 <= k < |items| ==> vs[k] == ViewOf(items[k], products)
  {
    seq(|items|, k requires 0 <= k < |items| => ViewOf(items[k], products))
  }

  lemma ViewsOfAppend(a: seq<SaleItem>, b: seq<SaleItem>, products: map<Id, Product>)
    ensures ViewsOf(a + b, products) == ViewsOf(a, products) + ViewsOf(b, products)
  {
    assert forall k :: 0 <= k < |a + b| ==> (a + b)[k] == if k < |a| then a[k] else b[k - |a|];
  }

  /** Looking products up only among the ones the sales name changes no label. */
  lemma RestrictedLookup(item: SaleItem, products: map<Id, Product>, ids: set<Id>)
    requires item.productId in ids
    ensures ViewOf(item, map p | p in products && p in ids :: products[p]) == ViewOf(item, products)
  {
  }

  /** The `flatItems` of one sale: every item of every group, in order, with its product's labels. */
  method FlattenSale(sale: Sale, products: map<Id, Product>) returns (flat: seq<ItemView>)
    ensures flat == ViewsOf(SalesRoutes.FlatItems(sale.itemGroups), products)
  {
    var groups := sale.itemGroups;
    flat := [];
    var g := 0;
    assert SalesRoutes.FlatItems(groups[..0]) == [];
    while g < |groups|
      invariant 0 <= g <= |groups|
      invariant flat == ViewsOf(SalesRoutes.FlatItems(groups[..g]), products)
    {
      var items := groups[g].items;
      var i := 0;
      while i < |items|
        invariant 0 <= i <= |items|
        invariant flat == ViewsOf(SalesRoutes.FlatItems(groups[..g]), products) + ViewsOf(items[..i], products)
      {
        ViewsOfAppend(items[..i], [items[i]], products);
        assert items[..i + 1] == items[..i] + [items[i]];
        flat := flat + [ViewOf(items[i], products)];
        i := i + 1;
      }
      assert items[..i] == items;
      SalesRoutes.GroupDone(groups, g);
      ViewsOfAppend(SalesRoutes.FlatItems(groups[..g]), items, products);
      g := g + 1;
    }
    assert groups[..g] == groups;
  }

  /** `GET /client/:clientId` on the client's sales of the club, in the order found. */
  method History(sales: seq<Sale>, products: map<Id, Product>) returns (views: seq<SaleView>)
    ensures |views| == |sales|
    ensures forall k :: 0 <= k < |sales| ==>
      views[k] == SaleView(sales[k], ViewsOf(SalesRoutes.FlatItems(sales[k].itemGroups), products))
  {
    views := [];
    for n := 0 to |sales|
      invariant |views| == n
      invariant forall k :: 0 <= k < n ==> views[k] == SaleView(sales[k], ViewsOf(SalesRoutes.FlatItems(sales[k].itemGroups), products))
    {
      var flat := FlattenSale(sales[n], products);
      views := views + [SaleView(sales[n], flat)];
    }
  }

  /** The history shows as many items for a sale as its groups hold together. */
  lemma {:induction false} HistoryCountsItems(groups: seq<SaleGroup>, products: map<Id, Product>)
    ensures |ViewsOf(SalesRoutes.FlatItems(groups), products)| == ItemCount(groups)
    decreases |groups|
  {
    if groups != [] {
      HistoryCountsItems(groups[1..], products);
      assert |SalesRoutes.FlatItems(groups)| == |groups[0].items| + |SalesRoutes.FlatItems(groups[1..])|;
    }
  }

  function ItemCount(groups: seq<SaleGroup>): nat
  {
    if groups == [] then 0 else |groups[0].items| + ItemCount(groups[1..])
  }
}
