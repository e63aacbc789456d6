/** The cart of the storefront: joining the server's cart records with the
    product catalogue, the two totals, and what the cart view offers. */
module Cart {
  import opened Common

  /** A product of the catalogue. Everything but `qty` is fixed once the
      catalogue is fetched; `qty` is absent until the cart join writes the
      quantity of a matching cart record onto the product itself. */
  class Product {
    const id: string
    const name: string
    const category: string
    const cost: int
    const rating: int
    const image: string
    var qty: Option<int>

    constructor (id: string, name: string, category: string, cost: int, rating: int, image: string)
      ensures this.id == id && this.name == name && this.category == category
      ensures this.cost == cost && this.rating == rating && this.image == image
      ensures qty == None
    {
      this.id := id;
      this.name := name;
      this.category := category;
      this.cost := cost;
      this.rating := rating;
      this.image := image;
      qty := None;
    }
  }

  /** One line of the user's cart as the server keeps it. */
  datatype CartRecord = CartRecord(productId: string, qty: int)

  /** The position of the first record naming `id`, or `|records|` when no
      record does. */
  function FirstMatch(records: seq<CartRecord>, id: string): (k: nat)
    ensures k <= |records|
    ensures k < |records| ==> records[k].productId == id
    ensures forall j :: 0 <= j < k ==> records[j].productId != id
  {
    if records == [] then 0
    else if records[0].productId == id then 0
    else 1 + FirstMatch(records[1..], id)
  }

  /** Some cart record names the product `id`. */
  predicate InCart(records: seq<CartRecord>, id: string)
  {
    FirstMatch(records, id) < |records|
  }

  /** The quantity a product in the cart is given: that of the first record
      naming it. */
  function QtyFor(records: seq<CartRecord>, id: string): int
    requires InCart(records, id)
  {
    records[FirstMatch(records, id)].qty
  }

  /** The products of `catalog` that some record names, in catalogue order:
      what the join returns. */
  function CartProducts(records: seq<CartRecord>, catalog: seq<Product>): seq<Product>
  {
    if catalog == [] then []
    else
      var last := catalog[|catalog| - 1];
      CartProducts(records, catalog[..|catalog| - 1]) + (if InCart(records, last.id) then [last] else [])
  }

  lemma InCartIff(records: seq<CartRecord>, id: string)
    ensures InCart(records, id) <==> exists k :: 0 <= k < |records| && records[k].productId == id
  {
  }

  /** The record whose quantity the join uses is the earliest one naming the
      product, and it exists exactly when some record names it. */
  lemma QtyForIsFirstRecord(records: seq<CartRecord>, id: string, k: nat)
    requires k < |records| && records[k].productId == id
    requires forall j :: 0 <= j < k ==> records[j].productId != id
    ensures InCart(records, id) && QtyFor(records, id) == records[k].qty
  {
  }

  /** The catalogue positions whose product some record names, in order. */
  function Positions(records: seq<CartRecord>, catalog: seq<Product>): seq<nat>
  {
    if catalog == [] then []
    else
      var n := |catalog| - 1;
      Positions(records, catalog[..n]) + (if InCart(records, catalog[n].id) then [n] else [])
  }

  lemma {:induction false} PositionsIndex(records: seq<CartRecord>, catalog: seq<Product>)
    ensures |Positions(records, catalog)| == |CartProducts(records, catalog)|
    ensures forall i :: 0 <= i < |Positions(records, catalog)| ==>
      Positions(records, catalog)[i] < |catalog| &&
      CartProducts(records, catalog)[i] == catalog[Positions(records, catalog)[i]]
  {
    if catalog != [] {
      var n := |catalog| - 1;
      var front := catalog[..n];
      PositionsIndex(records, front);
      var rest := Positions(records, front);
      var out := CartProducts(records, front);
      assert forall i :: 0 <= i < |rest| ==> catalog[rest[i]] == front[rest[i]];
      if InCart(records, catalog[n].id) {
        assert forall i :: 0 <= i < |rest| ==> (rest + [n])[i] == rest[i] && (out + [catalog[n]])[i] == out[i];
      }
    }
  }

  lemma {:induction false} PositionsIncreasing(records: seq<CartRecord>, catalog: seq<Product>)
    ensures forall i :: 0 <= i < |Positions(records, catalog)| ==> Positions(records, catalog)[i] < |catalog|
    ensures forall i, j :: 0 <= i < j < |Positions(records, catalog)| ==>
      Positions(records, catalog)[i] < Positions(records, catalog)[j]
  {
    if catalog != [] {
      var n := |catalog| - 1;
      PositionsIncreasing(records, catalog[..n]);
      var rest := Positions(records, catalog[..n]);
      if InCart(records, catalog[n].id) {
        assert forall i :: 0 <= i < |rest| ==> (rest + [n])[i] == rest[i];
      }
    }
  }

  lemma {:induction false} PositionsCover(records: seq<CartRecord>, catalog: seq<Product>)
    ensures forall j :: 0 <= j < |catalog| ==> (j in Positions(records, catalog) <==> InCart(records, catalog[j].id))
  {
    if catalog != [] {
      var n := |catalog| - 1;
      var front := catalog[..n];
      PositionsCover(records, front);
      PositionsIncreasing(records, front);
      var rest := Positions(records, front);
      assert n !in rest;
      forall j | 0 <= j < n
        ensures j in rest <==> InCart(records, catalog[j].id)
      {
        assert catalog[j] == front[j];
      }
    }
  }

  /** The join's output is the subsequence of the catalogue at exactly the
      positions `idx` whose product some record names: every item comes from
      the catalogue, at increasing positions, and none is skipped. */
  lemma CartProductsPositions(records: seq<CartRecord>, catalog: seq<Product>) returns (idx: seq<nat>)
    ensures |idx| == |CartProducts(records, catalog)|
    ensures forall i :: 0 <= i < |idx| ==> idx[i] < |catalog| && CartProducts(records, catalog)[i] == catalog[idx[i]]
    ensures forall i, j :: 0 <= i < j < |idx| ==> idx[i] < idx[j]
    ensures forall j :: 0 <= j < |catalog| ==> (j in idx <==> InCart(records, catalog[j].id))
  {
    idx := Positions(records, catalog);
    PositionsIndex(records, catalog);
    PositionsIncreasing(records, catalog);
    PositionsCover(records, catalog);
  }

  /** A product object is in the join's output exactly when it is in the
      catalogue and some record names it; records with no catalogue match
      therefore contribute nothing. */
  lemma {:induction false} CartProductsMembership(records: seq<CartRecord>, catalog: seq<Product>, p: Product)
    ensures p in CartProducts(records, catalog) <==> p in catalog && InCart(records, p.id)
  {
    if catalog != [] {
      var n := |catalog| - 1;
      CartProductsMembership(records, catalog[..n], p);
      assert catalog == catalog[..n] + [catalog[n]];
    }
  }

  /** With no cart records, or with an empty catalogue, the join is empty. */
  lemma {:induction false} CartProductsEmpty(records: seq<CartRecord>, catalog: seq<Product>)
    requires records == [] || catalog == []
    ensures CartProducts(records, catalog) == []
  {
    if catalog != [] {
      CartProductsEmpty(records, catalog[..|catalog| - 1]);
    }
  }

  /** No more items than there are catalogue products. */
  lemma {:induction false} CartProductsLength(records: seq<CartRecord>, catalog: seq<Product>)
    ensures |CartProducts(records, catalog)| <= |catalog|
  {
    if catalog != [] {
      CartProductsLength(records, catalog[..|catalog| - 1]);
    }
  }

  /** No two products of the catalogue share an id. */
  predicate DistinctIds(catalog: seq<Product>)
  {
    forall i, j :: 0 <= i < j < |catalog| ==> catalog[i].id != catalog[j].id
  }

  /** The ids of a list of products. */
  function IdSet(items: seq<Product>): set<string>
  {
    if items == [] then {} else IdSet(items[..|items| - 1]) + {items[|items| - 1].id}
  }

  /** The product ids the cart records name. */
  function RecordIds(records: seq<CartRecord>): set<string>
  {
    if records == [] then {} else RecordIds(records[..|records| - 1]) + {records[|records| - 1].productId}
  }

  /** The id any record names is among the records' ids. */
  lemma {:induction false} RecordIdsMember(records: seq<CartRecord>, k: nat)
    requires k < |records|
    ensures records[k].productId in RecordIds(records)
  {
    var n := |records| - 1;
    if k < n {
      RecordIdsMember(records[..n], k);
    }
  }

  lemma {:induction false} RecordIdsBound(records: seq<CartRecord>)
    ensures |RecordIds(records)| <= |records|
  {
    if records != [] {
      RecordIdsBound(records[..|records| - 1]);
    }
  }

  lemma {:induction false} SubsetCardinality(a: set<string>, b: set<string>)
    requires a <= b
    ensures |a| <= |b|
  {
    if a != {} {
      var x :| x in a;
      SubsetCardinality(a - {x}, b - {x});
    }
  }

  /** Appending a product adds its id to the ids of a list. */
  lemma IdSetSnoc(items: seq<Product>, p: Product)
    ensures IdSet(items + [p]) == IdSet(items) + {p.id}
  {
    assert (items + [p])[..|items|] == items;
  }

  /** An id is among a list's ids exactly when some item of the list has it. */
  lemma {:induction false} IdSetMember(items: seq<Product>, x: string)
    ensures x in IdSet(items) <==> exists i :: 0 <= i < |items| && items[i].id == x
  {
    if items != [] {
      var n := |items| - 1;
      IdSetMember(items[..n], x);
      if x in IdSet(items[..n]) {
        var i :| 0 <= i < n && items[..n][i].id == x;
        assert items[i].id == x;
      }
      if exists i :: 0 <= i < |items| && items[i].id == x {
        var i :| 0 <= i < |items| && items[i].id == x;
        if i < n {
          assert items[..n][i].id == x;
        }
      }
    }
  }

  /** Every id in the join's output is that of a catalogue product some
      record names. */
  lemma {:induction false} CartProductsIdsSubset(records: seq<CartRecord>, catalog: seq<Product>)
    ensures IdSet(CartProducts(records, catalog)) <= IdSet(catalog) * RecordIds(records)
  {
    if catalog != [] {
      var n := |catalog| - 1;
      var front := catalog[..n];
      var p := catalog[n];
      CartProductsIdsSubset(records, front);
      if InCart(records, p.id) {
        var out := CartProducts(records, front);
        assert CartProducts(records, catalog) == out + [p];
        IdSetSnoc(out, p);
        RecordIdsMember(records, FirstMatch(records, p.id));
      } else {
        assert CartProducts(records, catalog) == CartProducts(records, front);
      }
    }
  }

  /** Over a catalogue with distinct ids, the join's items have distinct ids:
      there are as many ids as items. */
  lemma {:induction false} CartProductsIdsDistinct(records: seq<CartRecord>, catalog: seq<Product>)
    requires DistinctIds(catalog)
    ensures |IdSet(CartProducts(records, catalog))| == |CartProducts(records, catalog)|
  {
    if catalog != [] {
      var n := |catalog| - 1;
      var front := catalog[..n];
      var p := catalog[n];
      assert forall i :: 0 <= i < n ==> front[i] == catalog[i];
      CartProductsIdsDistinct(records, front);
      if InCart(records, p.id) {
        var out := CartProducts(records, front);
        CartProductsIdsSubset(records, front);
        IdSetMember(front, p.id);
        assert p.id !in IdSet(front);
        assert CartProducts(records, catalog) == out + [p];
        IdSetSnoc(out, p);
        assert p.id !in IdSet(out);
        assert |IdSet(out) + {p.id}| == |IdSet(out)| + 1;
      } else {
        assert CartProducts(records, catalog) == CartProducts(records, front);
      }
    }
  }

  /** When catalogue ids are distinct, the join yields no more items than
      there are cart records naming some catalogue product. */
  lemma CartProductsBoundedByRecords(records: seq<CartRecord>, catalog: seq<Product>)
    requires DistinctIds(catalog)
    ensures |CartProducts(records, catalog)| <= |IdSet(catalog) * RecordIds(records)| <= |records|
  {
    CartProductsIdsSubset(records, catalog);
    CartProductsIdsDistinct(records, catalog);
    SubsetCardinality(IdSet(CartProducts(records, catalog)), IdSet(catalog) * RecordIds(records));
    SubsetCardinality(IdSet(catalog) * RecordIds(records), RecordIds(records));
    RecordIdsBound(records);
  }

  /** Without distinct ids the bound fails: two catalogue entries with id A
      and a single record for A give two items. */
  lemma DuplicateIdsExceedRecords(a1: Product, a2: Product)
    requires a1.id == "A" && a2.id == "A"
    ensures CartProducts([CartRecord("A", 1)], [a1, a2]) == [a1, a2]
    ensures |CartProducts([CartRecord("A", 1)], [a1, a2])| > |[CartRecord("A", 1)]|
  {
    var records := [CartRecord("A", 1)];
    QtyForIsFirstRecord(records, "A", 0);
    var one := CartProducts(records, [a1]);
    assert one == [a1] by {
      CartProductsSnoc(records, [], a1);
      assert [] + [a1] == [a1];
    }
    assert CartProducts(records, [a1, a2]) == [a1, a2] by {
      CartProductsSnoc(records, [a1], a2);
      assert [a1] + [a2] == [a1, a2];
    }
  }

  /** Adding a product at the end of the catalogue adds it at the end of
      the join's output when some record names it, and nothing otherwise. */
  lemma CartProductsSnoc(records: seq<CartRecord>, catalog: seq<Product>, p: Product)
    ensures CartProducts(records, catalog + [p]) == CartProducts(records, catalog) + (if InCart(records, p.id) then [p] else [])
  {
  }

  /** The output follows the catalogue's order, not the records': records
      naming B before A still yield A before B when the catalogue lists A
      first. */
  lemma CatalogueOrderWins(a: Product, b: Product)
    requires a.id == "A" && b.id == "B"
    ensures CartProducts([CartRecord("B", 3), CartRecord("A", 1)], [a, b]) == [a, b]
  {
    var records := [CartRecord("B", 3), CartRecord("A", 1)];
    QtyForIsFirstRecord(records, "A", 1);
    QtyForIsFirstRecord(records, "B", 0);
    CartProductsSnoc(records, [], a);
    assert [] + [a] == [a];
    CartProductsSnoc(records, [a], b);
    assert [a] + [b] == [a, b];
  }

  /** The filter's callback: scans the records for the first one naming
      `product`, writes that record's quantity onto the product and reports
      a match; with no match the product is left as it was. */
  method MatchRecord(cartData: seq<CartRecord>, product: Product) returns (keep: bool)
    modifies product
    ensures keep <==> InCart(cartData, product.id)
    ensures product.qty == (if keep then Some(QtyFor(cartData, product.id)) else old(product.qty))
  {
    keep := false;
    var j := 0;
    while j < |cartData|
      invariant 0 <= j <= |cartData|
      invariant forall k :: 0 <= k < j ==> cartData[k].productId != product.id
      invariant product.qty == old(product.qty)
    {
      if cartData[j].productId == product.id {
        QtyForIsFirstRecord(cartData, product.id, j);
        product.qty := Some(cartData[j].qty);
        keep := true;
        return;
      }
      j := j + 1;
    }
  }

  /** The scan of `generateCartItemsFrom`: keeps the catalogue products that
      some cart record names, in catalogue order, and writes onto each kept
      product object the quantity of the first record naming it. Products
      that no record names are left untouched. */
  method GenerateCartItemsFrom(cartData: seq<CartRecord>, productsData: seq<Product>) returns (cartProducts: seq<Product>)
    modifies productsData
    ensures cartProducts == CartProducts(cartData, productsData)
    ensures forall p :: p in productsData ==>
      p.qty == (if InCart(cartData, p.id) then Some(QtyFor(cartData, p.id)) else old(p.qty))
  {
    cartProducts := [];
    var i := 0;
    while i < |productsData|
      invariant 0 <= i <= |productsData|
      invariant cartProducts == CartProducts(cartData, productsData[..i])
      invariant forall p :: p in productsData ==>
        p.qty == (if p in productsData[..i] && InCart(cartData, p.id) then Some(QtyFor(cartData, p.id)) else old(p.qty))
    {
      var product := productsData[i];
      var keep := MatchRecord(cartData, product);
      assert productsData[..i + 1][..i] == productsData[..i];
      assert productsData[..i + 1] == productsData[..i] + [product];
      if keep {
        cartProducts := cartProducts + [product];
      }
      i := i + 1;
    }
    assert productsData[..i] == productsData;
  }

  /** Every item of a list handed to the totals carries a quantity. */
  predicate Priced(items: seq<Product>)
    reads items
  {
    forall i :: 0 <= i < |items| ==> items[i].qty.Some?
  }

  /** After the join, every returned item carries the quantity of the first
      cart record naming it, so the totals may be taken of it. */
  lemma {:induction false} JoinedItemsArePriced(cartData: seq<CartRecord>, productsData: seq<Product>, items: seq<Product>)
    requires items == CartProducts(cartData, productsData)
    requires forall p :: p in productsData && InCart(cartData, p.id) ==> p.qty == Some(QtyFor(cartData, p.id))
    ensures Priced(items)
    ensures forall i :: 0 <= i < |items| ==> InCart(cartData, items[i].id) && items[i].qty == Some(QtyFor(cartData, items[i].id))
  {
    forall i | 0 <= i < |items|
      ensures InCart(cartData, items[i].id) && items[i].qty == Some(QtyFor(cartData, items[i].id))
    {
      CartProductsMembership(cartData, productsData, items[i]);
    }
  }

  /** The price and quantity of one cart item, as the totals see them. */
  datatype Line = Line(cost: int, qty: int)

  function LinesOf(items: seq<Product>): (r: seq<Line>)
    reads items
    requires Priced(items)
    ensures |r| == |items|
    ensures forall i :: 0 <= i < |items| ==> r[i] == Line(items[i].cost, items[i].qty.value)
  {
    if items == [] then []
    else LinesOf(items[..|items| - 1]) + [Line(items[|items| - 1].cost, items[|items| - 1].qty.value)]
  }

  /** Sum of cost times quantity over the lines. */
  function TotalValue(lines: seq<Line>): int
  {
    if lines == [] then 0
    else TotalValue(lines[..|lines| - 1]) + lines[|lines| - 1].cost * lines[|lines| - 1].qty
  }

  /** Sum of the quantities over the lines. */
  function TotalCount(lines: seq<Line>): int
  {
    if lines == [] then 0
    else TotalCount(lines[..|lines| - 1]) + lines[|lines| - 1].qty
  }

  /** Both totals add up over a concatenation of lines, so neither depends on
      how the cart is split. */
  lemma {:induction false} TotalsAppend(a: seq<Line>, b: seq<Line>)
    ensures TotalValue(a + b) == TotalValue(a) + TotalValue(b)
    ensures TotalCount(a + b) == TotalCount(a) + TotalCount(b)
  {
    if b != [] {
      var n := |b| - 1;
      TotalsAppend(a, b[..n]);
      assert (a + b)[..|a + b| - 1] == a + b[..n];
      assert (a + b)[|a + b| - 1] == b[n];
    } else {
      assert a + b == a;
    }
  }

  /** With non-negative prices and quantities neither total is negative. */
  lemma {:induction false} TotalsNonNegative(lines: seq<Line>)
    requires forall i :: 0 <= i < |lines| ==> lines[i].cost >= 0 && lines[i].qty >= 0
    ensures TotalValue(lines) >= 0 && TotalCount(lines) >= 0
  {
    if lines != [] {
      TotalsNonNegative(lines[..|lines| - 1]);
      var last := lines[|lines| - 1];
      assert last.cost * last.qty >= 0;
    }
  }

  /** When every price is at least `c` and no quantity is negative, the value
      of the cart is at least `c` times its item count. */
  lemma {:induction false} TotalValueAtLeastCheapest(lines: seq<Line>, c: int)
    requires forall i :: 0 <= i < |lines| ==> lines[i].cost >= c && lines[i].qty >= 0
    ensures TotalValue(lines) >= c * TotalCount(lines)
  {
    if lines != [] {
      var n := |lines| - 1;
      TotalValueAtLeastCheapest(lines[..n], c);
      var last := lines[n];
      assert (last.cost - c) * last.qty >= 0;
      assert c * TotalCount(lines) == c * TotalCount(lines[..n]) + c * last.qty;
    }
  }

  /** `getTotalCartValue`: the sum of cost times quantity over the items,
      0 when the list is empty or omitted. */
  method GetTotalCartValue(items: seq<Product> := []) returns (cost: int)
    requires Priced(items)
    ensures cost == TotalValue(LinesOf(items))
    ensures items == [] ==> cost == 0
  {
    cost := 0;
    var i := 0;
    while i < |items|
      invariant 0 <= i <= |items|
      invariant cost == TotalValue(LinesOf(items)[..i])
    {
      var item := items[i];
      assert LinesOf(items)[..i + 1][..i] == LinesOf(items)[..i];
      cost := cost + item.cost * item.qty.value;
      i := i + 1;
    }
    assert LinesOf(items)[..i] == LinesOf(items);
  }

  /** `getTotalItems`: the sum of the quantities over the items, 0 when the
      list is empty or omitted. */
  method GetTotalItems(items: seq<Product> := []) returns (total: int)
    requires Priced(items)
    ensures total == TotalCount(LinesOf(items))
    ensures items == [] ==> total == 0
  {
    total := 0;
    var i := 0;
    while i < |items|
      invariant 0 <= i <= |items|
      invariant total == TotalCount(LinesOf(items)[..i])
    {
      var item := items[i];
      assert LinesOf(items)[..i + 1][..i] == LinesOf(items)[..i];
      total := total + item.qty.value;
      i := i + 1;
    }
    assert LinesOf(items)[..i] == LinesOf(items);
  }

  /** The totals of a one-item cart are that item's price times its
      quantity, and its quantity. */
  lemma SingleItemTotals(b: Product)
    requires b.qty.Some?
    ensures Priced([b])
    ensures TotalValue(LinesOf([b])) == b.cost * b.qty.value && TotalCount(LinesOf([b])) == b.qty.value
  {
    var l := Line(b.cost, b.qty.value);
    assert LinesOf([b]) == [l];
    assert [l][..0] == [];
  }

  /** One record for 3 of B over a catalogue listing A then B keeps B
      alone, with quantity 3. */
  lemma JoinOneRecord(a: Product, b: Product)
    requires a.id == "A" && b.id == "B"
    ensures InCart([CartRecord("B", 3)], "B") && QtyFor([CartRecord("B", 3)], "B") == 3
    ensures !InCart([CartRecord("B", 3)], "A")
    ensures CartProducts([CartRecord("B", 3)], [a, b]) == [b]
  {
    var records := [CartRecord("B", 3)];
    QtyForIsFirstRecord(records, "B", 0);
    assert !InCart(records, "A");
    CartProductsSnoc(records, [], a);
    assert [] + [a] == [a];
    CartProductsSnoc(records, [a], b);
    assert [a] + [b] == [a, b];
  }

  /** A catalogue of A at 100 and B at 50 and a cart holding 3 of B: the join
      yields B alone, with quantity 3 written onto it, and the two totals of
      that result are 150 and 3. */
  method ScenarioSingleRecord() returns (items: seq<Product>, value: int, count: int)
    ensures |items| == 1 && items[0].id == "B" && items[0].cost == 50 && items[0].qty == Some(3)
    ensures value == 150 && count == 3
  {
    var a := new Product("A", "Product A", "Misc", 100, 4, "a.png");
    var b := new Product("B", "Product B", "Misc", 50, 3, "b.png");
    var records := [CartRecord("B", 3)];
    JoinOneRecord(a, b);
    items := GenerateCartItemsFrom(records, [a, b]);
    assert items == [b] && b.qty == Some(3);
    SingleItemTotals(b);
    value := GetTotalCartValue(items);
    SingleItemTotals(b);
    count := GetTotalItems(items);
  }

  /** The shipping charge the order summary adds; fixed at zero. */
  const ShippingCharges: int := 0

  /** The quantity change a cart button asks the page to make. */
  datatype QuantityRequest = QuantityRequest(productId: string, qty: int)

  /** The quantity cell of a row: with a decrement and an increment button in
      the editable cart, as plain text in the read-only summary. */
  datatype QuantityControl =
    | Editable(value: int, onDelete: QuantityRequest, onAdd: QuantityRequest)
    | Fixed(value: int)

  datatype CartRow = CartRow(id: string, name: string, image: string, cost: int, quantity: QuantityControl)

  /** The order details block of the read-only view. */
  datatype OrderDetails = OrderDetails(products: int, subtotal: int, shipping: int, total: int)

  /** What the cart component shows: an empty-cart notice, or the rows with
      the order total, a checkout button (editable view only) and the order
      details (read-only view only). */
  datatype CartView =
    | EmptyCart
    | Filled(rows: seq<CartRow>, orderTotal: int, checkout: Option<Navigation>, details: Option<OrderDetails>)

  /** The quantity cell of one item: the current quantity, with buttons
      asking for one less and one more in the editable cart. */
  function QuantityControlFor(id: string, q: int, isReadOnly: bool): QuantityControl
  {
    if isReadOnly then Fixed(q) else Editable(q, QuantityRequest(id, q - 1), QuantityRequest(id, q + 1))
  }

  /** One row per item, in item order. Each row's buttons ask for the
      item's quantity minus one and plus one, with no clamping; read-only
      rows show the quantity alone. */
  function CartRows(items: seq<Product>, isReadOnly: bool): (rows: seq<CartRow>)
    reads items
    requires Priced(items)
    ensures |rows| == |items|
    ensures forall i :: 0 <= i < |items| ==>
      rows[i].id == items[i].id && rows[i].name == items[i].name &&
      rows[i].image == items[i].image && rows[i].cost == items[i].cost &&
      rows[i].quantity.value == items[i].qty.value &&
      (rows[i].quantity.Editable? <==> !isReadOnly) &&
      (!isReadOnly ==>
        rows[i].quantity.onDelete == QuantityRequest(items[i].id, items[i].qty.value - 1) &&
        rows[i].quantity.onAdd == QuantityRequest(items[i].id, items[i].qty.value + 1))
  {
    if items == [] then []
    else
      var n := |items| - 1;
      assert forall i :: 0 <= i < n ==> items[..n][i] == items[i];
      var rest := CartRows(items[..n], isReadOnly);
      var item := items[n];
      var row := CartRow(item.id, item.name, item.image, item.cost, QuantityControlFor(item.id, item.qty.value, isReadOnly));
      assert forall i :: 0 <= i < n ==> (rest + [row])[i] == rest[i];
      rest + [row]
  }

  /** The `Cart` component. Its buttons ask for the quantity one above and
      one below the current one, with no clamping; checkout is offered only
      by a non-empty editable cart; the read-only summary's grand total is
      the subtotal plus the zero shipping charge. */
  method RenderCart(items: seq<Product> := [], isReadOnly: bool := false) returns (view: CartView)
    requires Priced(items)
    ensures view.EmptyCart? <==> items == []
    ensures view.Filled? ==> view.rows == CartRows(items, isReadOnly)
    ensures view.Filled? ==> view.orderTotal == TotalValue(LinesOf(items))
    ensures view.Filled? ==> view.checkout == (if isReadOnly then None else Some(Navigate("/checkout", Some("Cart"))))
    ensures view.Filled? ==> view.details == (if isReadOnly then Some(OrderDetails(TotalCount(LinesOf(items)), TotalValue(LinesOf(items)), 0, TotalValue(LinesOf(items)))) else None)
  {
    if |items| == 0 {
      return EmptyCart;
    }
    var orderTotal := GetTotalCartValue(items);
    var checkout := if isReadOnly then None else Some(Navigate("/checkout", Some("Cart")));
    var details := None;
    if isReadOnly {
      var count := GetTotalItems(items);
      var subtotal := GetTotalCartValue(items);
      var grand := GetTotalCartValue(items);
      details := Some(OrderDetails(count, subtotal, ShippingCharges, grand + ShippingCharges));
    }
    view := Filled(CartRows(items, isReadOnly), orderTotal, checkout, details);
  }
}
