/**
 * The cart service: adding, re-quantifying, removing and clearing cart
 * lines under the quantity and stock bounds, and placing an order from
 * the cart (validate every line, then take the stock, total the order
 * and clear the cart).
 */
module CartService {
  import opened Common
  import opened ShopData

  /** CartItemDTO and CartUpdateItemQuantityDTO. */
  datatype CartItemRequest = CartItemRequest(productId: Option<string>, quantity: int)

  /** The success messages of the cart commands. */
  datatype CartReply = ItemAdded | QuantityUpdated | ItemRemoved | CartCleared

  /** The argument checks of AddItemAsync and UpdateItemQuantityAsync: a
      GUID customer id, a DTO, a GUID product id, and a quantity from 1 to
      1000. */
  predicate RequestValid(customerId: string, dto: Option<CartItemRequest>) {
    && GuidId(customerId)
    && dto.Some?
    && GuidIdOpt(dto.value.productId)
    && 0 < dto.value.quantity <= 1000
  }

  /** The four id checks of PlaceOrderAsync. */
  predicate OrderIds(customerId: string, deliveryId: string, salesManagerId: string, serviceUsageId: string) {
    GuidId(customerId) && GuidId(deliveryId) && GuidId(salesManagerId) && GuidId(serviceUsageId)
  }

  /** A request AddItemAsync gets past its lookups with: valid, for a
      known customer and product, and within the product's stock. */
  predicate Admitted(customerId: string, dto: Option<CartItemRequest>, customers: set<string>,
                     products: map<string, Product>)
  {
    && RequestValid(customerId, dto)
    && customerId in customers
    && dto.value.productId.value in products
    && products[dto.value.productId.value].stock >= dto.value.quantity
  }

  /** The customer's cart, or the one AddItemAsync creates for them. */
  function CartFor(carts: map<string, Cart>, customerId: string, newCartId: string, now: int): Cart {
    if customerId in carts then carts[customerId] else Cart(newCartId, customerId, now)
  }

  // ---------------------------------------------------------------------
  // Cart lines
  // ---------------------------------------------------------------------

  /** How many of a product a cart holds: its line's quantity, 0 without one. */
  function Quantity(items: seq<CartItem>, cartId: string, productId: string): int {
    match FindItem(items, cartId, productId)
    case Some(i) => items[i].quantity
    case None => 0
  }

  /** The line update of AddItemAsync on the customer's cart: a product
      already there has its line's quantity raised, unless that passes
      the stock; a new product is appended as a new line. */
  function AddLine(items: seq<CartItem>, cartId: string, productId: string, quantity: int, stock: int,
                   newItemId: string): (r: Result<seq<CartItem>>)
    ensures r.Err? ==> r.error == OutOfStock && FindItem(items, cartId, productId).Some?
    ensures r.Ok? ==> |r.value| == |items| + (if FindItem(items, cartId, productId).Some? then 0 else 1)
  {
    match FindItem(items, cartId, productId)
    case Some(i) =>
      if stock < items[i].quantity + quantity then Err(OutOfStock)
      else Ok(items[i := items[i].(quantity := items[i].quantity + quantity)])
    case None => Ok(items + [CartItem(newItemId, cartId, productId, quantity)])
  }

  /** The line update as written: `existingItem.Quantity + itemDto.Quantity`
      is a C# int sum, so it wraps past int.MaxValue, and the wrapped
      value is both compared with the stock and stored. */
  function AddLineAsWritten(items: seq<CartItem>, cartId: string, productId: string, quantity: int, stock: int,
                            newItemId: string): (r: Result<seq<CartItem>>)
    ensures r.Err? ==> r.error == OutOfStock && FindItem(items, cartId, productId).Some?
    ensures r.Ok? ==> |r.value| == |items| + (if FindItem(items, cartId, productId).Some? then 0 else 1)
    ensures r.Ok? && FindItem(items, cartId, productId).Some? ==>
              Quantity(r.value, cartId, productId) == Wrap32(Quantity(items, cartId, productId) + quantity)
  {
    match FindItem(items, cartId, productId)
    case Some(i) =>
      var newQuantity := Wrap32(items[i].quantity + quantity);
      if stock < newQuantity then Err(OutOfStock)
      else
        var after := items[i := items[i].(quantity := newQuantity)];
        FindItemSameKeys(after, items, cartId, productId);
        Ok(after)
    case None => Ok(items + [CartItem(newItemId, cartId, productId, quantity)])
  }

  /** While the cart's quantity plus the request fits in an int, the
      as-written update is the model's. */
  lemma AddLineAsWrittenAgrees(items: seq<CartItem>, cartId: string, productId: string, quantity: int, stock: int,
                               newItemId: string)
    requires -0x8000_0000 <= Quantity(items, cartId, productId) + quantity < 0x8000_0000
    ensures AddLineAsWritten(items, cartId, productId, quantity, stock, newItemId)
            == AddLine(items, cartId, productId, quantity, stock, newItemId)
  {
  }

  /** As written, a line of 2147483000 units of a product stocked at
      int.MaxValue takes 1000 more: the sum wraps to -2147483296, passes
      the stock check and is stored, where the model refuses the request. */
  lemma AddLineWraps()
    ensures var items := [CartItem("item", "cart", "product", 2147483000)];
            && AddLine(items, "cart", "product", 1000, 2147483647, "new") == Err(OutOfStock)
            && AddLineAsWritten(items, "cart", "product", 1000, 2147483647, "new")
               == Ok([CartItem("item", "cart", "product", -2147483296)])
  {
    var items := [CartItem("item", "cart", "product", 2147483000)];
    assert FindItem(items, "cart", "product") == Some(0);
    assert 2147484000 % 0x1_0000_0000 == 2147484000;
    assert Wrap32(2147483000 + 1000) == -2147483296;
    assert items[0 := items[0].(quantity := -2147483296)] == [CartItem("item", "cart", "product", -2147483296)];
  }

  /** FindItem looks only at the cart and product of each line. */
  lemma {:induction false} FindItemSameKeys(a: seq<CartItem>, b: seq<CartItem>, cartId: string, productId: string)
    requires |a| == |b|
    requires forall i :: 0 <= i < |a| ==> a[i].cartId == b[i].cartId && a[i].productId == b[i].productId
    ensures FindItem(a, cartId, productId) == FindItem(b, cartId, productId)
  {
    if a != [] {
      FindItemSameKeys(a[1..], b[1..], cartId, productId);
    }
  }

  lemma {:induction false} FindItemAppend(a: seq<CartItem>, x: CartItem, cartId: string, productId: string)
    ensures FindItem(a + [x], cartId, productId)
            == if FindItem(a, cartId, productId).Some? then FindItem(a, cartId, productId)
               else if x.cartId == cartId && x.productId == productId then Some(|a|)
               else None
  {
    if a != [] {
      assert (a + [x])[1..] == a[1..] + [x];
      FindItemAppend(a[1..], x, cartId, productId);
    }
  }

  /** Setting the quantity of the line FindItem finds changes that
      product's quantity in that cart to the new one and no other. */
  lemma SetQuantitySpec(items: seq<CartItem>, i: nat, q: int)
    requires i < |items| && FindItem(items, items[i].cartId, items[i].productId) == Some(i)
    ensures var after := items[i := items[i].(quantity := q)];
            && Quantity(after, items[i].cartId, items[i].productId) == q
            && forall c, p :: (c != items[i].cartId || p != items[i].productId) ==>
                 Quantity(after, c, p) == Quantity(items, c, p)
  {
    var after := items[i := items[i].(quantity := q)];
    forall c, p ensures FindItem(after, c, p) == FindItem(items, c, p) {
      FindItemSameKeys(after, items, c, p);
    }
  }

  /** AddItemAsync on an existing or new cart, once the request is within
      the stock: it succeeds exactly when the cart's quantity of the
      product plus the request stays within the stock; then that quantity
      rises by exactly the request, every other cart and product keeps
      its quantity, and the cart still has one line per product. */
  lemma AddLineSpec(items: seq<CartItem>, cartId: string, productId: string, quantity: int, stock: int,
                    newItemId: string)
    requires OneLinePerProduct(items)
    requires 0 < quantity <= stock
    ensures var r := AddLine(items, cartId, productId, quantity, stock, newItemId);
            && (r.Ok? <==> Quantity(items, cartId, productId) + quantity <= stock)
            && (r.Err? ==> r.error == OutOfStock)
            && (r.Ok? ==>
                  && OneLinePerProduct(r.value)
                  && Quantity(r.value, cartId, productId) == Quantity(items, cartId, productId) + quantity
                  && forall c, p :: (c != cartId || p != productId) ==> Quantity(r.value, c, p) == Quantity(items, c, p))
  {
    var r := AddLine(items, cartId, productId, quantity, stock, newItemId);
    match FindItem(items, cartId, productId)
    case Some(i) =>
      if r.Ok? {
        SetQuantitySpec(items, i, items[i].quantity + quantity);
        assert OneLinePerProduct(r.value) by {
          forall a, b | 0 <= a < b < |r.value| && r.value[a].cartId == r.value[b].cartId
            ensures r.value[a].productId != r.value[b].productId
          {
          }
        }
      }
    case None =>
      var x := CartItem(newItemId, cartId, productId, quantity);
      forall c, p ensures Quantity(r.value, c, p) == Quantity(items, c, p) + (if c == cartId && p == productId then quantity else 0) {
        FindItemAppend(items, x, c, p);
      }
      assert OneLinePerProduct(r.value) by {
        forall a, b | 0 <= a < b < |r.value| && r.value[a].cartId == r.value[b].cartId
          ensures r.value[a].productId != r.value[b].productId
        {
          if b == |items| {
            assert r.value[a] == items[a];
          }
        }
      }
  }

  /** The lines without the one at index i. */
  function RemoveAt(items: seq<CartItem>, i: nat): (r: seq<CartItem>)
    requires i < |items|
    ensures |r| == |items| - 1
    ensures forall j :: 0 <= j < |r| ==> r[j] == if j < i then items[j] else items[j + 1]
  {
    items[..i] + items[i + 1..]
  }

  /** Removing the one line of a product from a cart with one line per
      product leaves that cart without a line for it, and keeps one line
      per product everywhere. */
  lemma RemoveLineSpec(items: seq<CartItem>, cartId: string, productId: string)
    requires OneLinePerProduct(items)
    requires FindItem(items, cartId, productId).Some?
    ensures var i := FindItem(items, cartId, productId).value;
            && OneLinePerProduct(RemoveAt(items, i))
            && Quantity(RemoveAt(items, i), cartId, productId) == 0
  {
    var i := FindItem(items, cartId, productId).value;
    var rest := RemoveAt(items, i);
    forall a, b | 0 <= a < b < |rest| && rest[a].cartId == rest[b].cartId
      ensures rest[a].productId != rest[b].productId
    {
      var a0 := if a < i then a else a + 1;
      var b0 := if b < i then b else b + 1;
      assert rest[a] == items[a0] && rest[b] == items[b0];
    }
  }

  lemma {:induction false} OtherCartsAppend(items: seq<CartItem>, x: CartItem, cartId: string)
    ensures OtherCarts(items + [x], cartId) == OtherCarts(items, cartId) + (if x.cartId != cartId then [x] else [])
  {
    if items != [] {
      assert (items + [x])[1..] == items[1..] + [x];
      OtherCartsAppend(items[1..], x, cartId);
    }
  }

  lemma {:induction false} ItemsOfOtherCarts(items: seq<CartItem>, cartId: string, otherId: string)
    requires otherId != cartId
    ensures ItemsOf(OtherCarts(items, cartId), otherId) == ItemsOf(items, otherId)
  {
    if items != [] {
      ItemsOfOtherCarts(items[1..], cartId, otherId);
      var x := items[0];
      var oc := OtherCarts(items[1..], cartId);
      if x.cartId == cartId {
        assert OtherCarts(items, cartId) == oc;
        assert ItemsOf(items, otherId) == ItemsOf(items[1..], otherId);
      } else {
        assert OtherCarts(items, cartId) == [x] + oc;
        assert ([x] + oc)[0] == x && ([x] + oc)[1..] == oc;
        assert ItemsOf([x] + oc, otherId) == (if x.cartId == otherId then [x] else []) + ItemsOf(oc, otherId);
      }
    }
  }

  /** Clearing a cart leaves it without lines and every other cart's
      lines as they were. */
  lemma ClearedCartIsEmpty(items: seq<CartItem>, cartId: string, otherId: string)
    requires otherId != cartId
    ensures ItemsOf(OtherCarts(items, cartId), cartId) == []
    ensures ItemsOf(OtherCarts(items, cartId), otherId) == ItemsOf(items, otherId)
  {
    if ItemsOf(OtherCarts(items, cartId), cartId) != [] {
      var x := ItemsOf(OtherCarts(items, cartId), cartId)[0];
      assert x in ItemsOf(OtherCarts(items, cartId), cartId);
    }
    ItemsOfOtherCarts(items, cartId, otherId);
  }

  // ---------------------------------------------------------------------
  // Checkout
  // ---------------------------------------------------------------------

  /** A line that can be ordered: its product exists, its quantity is
      positive and the stock covers it. */
  predicate Orderable(line: CartItem, products: map<string, Product>) {
    line.productId in products && line.quantity > 0 && products[line.productId].stock >= line.quantity
  }

  predicate AllOrderable(lines: seq<CartItem>, products: map<string, Product>) {
    forall k :: 0 <= k < |lines| ==> Orderable(lines[k], products)
  }

  /** The lines that cannot be ordered, in the order of the cart. */
  function Unorderable(lines: seq<CartItem>, products: map<string, Product>): (r: seq<CartItem>)
    ensures forall x :: x in r <==> x in lines && !Orderable(x, products)
    ensures r == [] <==> AllOrderable(lines, products)
  {
    if lines == [] then []
    else
      var init := lines[..|lines| - 1];
      var last := lines[|lines| - 1];
      var rest := Unorderable(init, products);
      assert lines == init + [last];
      var r := if Orderable(last, products) then rest else rest + [last];
      assert r == [] <==> AllOrderable(lines, products) by {
        if r == [] {
          forall k | 0 <= k < |lines| ensures Orderable(lines[k], products) {
            assert lines[k] in lines;
          }
        } else {
          assert r[0] in r;
        }
      }
      r
  }

  /** A single line is rejected exactly when it cannot be ordered. */
  lemma UnorderableUnit(x: CartItem, products: map<string, Product>)
    ensures Unorderable([x], products) == if Orderable(x, products) then [] else [x]
  {
    assert [x][..0] == [];
  }

  /** Rejection keeps the cart's order: the rejected lines of a
      concatenation are the concatenated rejected lines. */
  lemma {:induction false} UnorderableConcat(xs: seq<CartItem>, ys: seq<CartItem>, products: map<string, Product>)
    ensures Unorderable(xs + ys, products) == Unorderable(xs, products) + Unorderable(ys, products)
  {
    if ys == [] {
      assert xs + ys == xs;
    } else {
      var init := ys[..|ys| - 1];
      var last := ys[|ys| - 1];
      assert (xs + ys)[..|xs + ys| - 1] == xs + init && (xs + ys)[|xs + ys| - 1] == last;
      UnorderableConcat(xs, init, products);
    }
  }

  /** How much of a product the lines order in total. */
  function Ordered(lines: seq<CartItem>, productId: string): int {
    if lines == [] then 0
    else
      var last := lines[|lines| - 1];
      Ordered(lines[..|lines| - 1], productId) + (if last.productId == productId then last.quantity else 0)
  }

  /** The stock after `item.Product.Stock -= item.Quantity` for each line in turn. */
  function Deduct(products: map<string, Product>, lines: seq<CartItem>): map<string, Product> {
    if lines == [] then products
    else
      var ps := Deduct(products, lines[..|lines| - 1]);
      var last := lines[|lines| - 1];
      if last.productId in ps then ps[last.productId := ps[last.productId].(stock := ps[last.productId].stock - last.quantity)]
      else ps
  }

  /** Taking the stock keeps every product but its stock, and lowers each
      stock by exactly what the lines order of it. */
  lemma {:induction false} DeductSpec(products: map<string, Product>, lines: seq<CartItem>)
    ensures Deduct(products, lines).Keys == products.Keys
    ensures forall k :: k in products ==>
              Deduct(products, lines)[k] == products[k].(stock := products[k].stock - Ordered(lines, k))
  {
    if lines != [] {
      DeductSpec(products, lines[..|lines| - 1]);
    }
  }

  /** Taking stock keeps every product under its own id. */
  lemma DeductKeepsKeys(products: map<string, Product>, lines: seq<CartItem>)
    requires ProductsKeyed(products)
    ensures ProductsKeyed(Deduct(products, lines))
    ensures Deduct(products, lines).Keys == products.Keys
  {
    DeductSpec(products, lines);
  }

  /** Lines with pairwise different products. */
  predicate DistinctProducts(lines: seq<CartItem>) {
    forall i, j :: 0 <= i < j < |lines| ==> lines[i].productId != lines[j].productId
  }

  /** With one line per product, a product's ordered amount is the
      quantity of its line, or 0 without one. */
  lemma {:induction false} OrderedDistinct(lines: seq<CartItem>, productId: string)
    requires DistinctProducts(lines)
    ensures forall i :: 0 <= i < |lines| && lines[i].productId == productId ==>
              Ordered(lines, productId) == lines[i].quantity
    ensures (forall i :: 0 <= i < |lines| ==> lines[i].productId != productId) ==> Ordered(lines, productId) == 0
  {
    if lines != [] {
      var init := lines[..|lines| - 1];
      assert DistinctProducts(init);
      OrderedDistinct(init, productId);
      forall i | 0 <= i < |lines| && lines[i].productId == productId
        ensures Ordered(lines, productId) == lines[i].quantity
      {
        if i < |lines| - 1 {
          assert init[i] == lines[i];
        } else {
          assert forall j :: 0 <= j < |init| ==> init[j].productId != productId;
        }
      }
      if forall i :: 0 <= i < |lines| ==> lines[i].productId != productId {
        assert forall j :: 0 <= j < |init| ==> init[j] == lines[j];
      }
    }
  }

  /** A line for a product the others do not order can go in front. */
  lemma DistinctCons(x: CartItem, rest: seq<CartItem>)
    requires DistinctProducts(rest)
    requires forall y :: y in rest ==> y.productId != x.productId
    ensures DistinctProducts([x] + rest)
  {
    var r := [x] + rest;
    forall i, j | 0 <= i < j < |r| ensures r[i].productId != r[j].productId {
      if i == 0 {
        assert r[j] == rest[j - 1] && rest[j - 1] in rest;
      } else {
        assert r[i] == rest[i - 1] && r[j] == rest[j - 1];
      }
    }
  }

  /** The lines of one cart order each product at most once. */
  lemma {:induction false} ItemsOfDistinct(items: seq<CartItem>, cartId: string)
    requires OneLinePerProduct(items)
    ensures DistinctProducts(ItemsOf(items, cartId))
  {
    if items != [] {
      OneLineHead(items);
      ItemsOfDistinct(items[1..], cartId);
      if items[0].cartId == cartId {
        DistinctCons(items[0], ItemsOf(items[1..], cartId));
      }
    }
  }

  /** Checkout keeps every stock at zero or above: the lines of one cart
      name different products, and each line passed the stock check. */
  lemma CheckoutKeepsStock(products: map<string, Product>, items: seq<CartItem>, cartId: string)
    requires StockKept(products) && OneLinePerProduct(items)
    requires AllOrderable(ItemsOf(items, cartId), products)
    ensures StockKept(Deduct(products, ItemsOf(items, cartId)))
  {
    var lines := ItemsOf(items, cartId);
    ItemsOfDistinct(items, cartId);
    DeductSpec(products, lines);
    forall k | k in products ensures Deduct(products, lines)[k].stock >= 0 {
      OrderedDistinct(lines, k);
    }
  }

  /** The order item of one line: the product's current price, and the
      quantity times that price as the item total. */
  function ItemFor(orderId: string, line: CartItem, id: string, products: map<string, Product>): (r: OrderItem)
    requires line.productId in products
    ensures r.productId == line.productId && r.quantity == line.quantity && r.orderId == orderId
    ensures r.unitPrice == products[line.productId].price
    ensures r.itemTotal == r.quantity as real * r.unitPrice
  {
    var p := products[line.productId];
    OrderItem(id, orderId, line.productId, line.quantity, p.price, line.quantity as real * p.price)
  }

  /** The order total: the sum of the item totals. */
  function SumTotals(items: seq<OrderItem>): real {
    if items == [] then 0.0 else SumTotals(items[..|items| - 1]) + items[|items| - 1].itemTotal
  }

  lemma SumTotalsAppend(items: seq<OrderItem>, x: OrderItem)
    ensures SumTotals(items + [x]) == SumTotals(items) + x.itemTotal
  {
    assert (items + [x])[..|items|] == items;
  }

  /** One more line taken: its product loses that line's quantity, and
      its price is still the one the order started with. */
  lemma DeductNext(products: map<string, Product>, lines: seq<CartItem>, k: nat)
    requires k < |lines| && lines[k].productId in products
    ensures var ps := Deduct(products, lines[..k]);
            var pid := lines[k].productId;
            && pid in ps
            && ps[pid].price == products[pid].price
            && Deduct(products, lines[..k + 1]) == ps[pid := ps[pid].(stock := ps[pid].stock - lines[k].quantity)]
  {
    assert lines[..k + 1][..k] == lines[..k];
    DeductSpec(products, lines[..k]);
  }

  /** The items of an order, one per cart line in cart order. */
  function OrderItems(orderId: string, lines: seq<CartItem>, itemIds: nat -> string,
                      products: map<string, Product>): (r: seq<OrderItem>)
    requires forall k :: 0 <= k < |lines| ==> lines[k].productId in products
    ensures |r| == |lines|
    ensures forall k :: 0 <= k < |lines| ==> r[k] == ItemFor(orderId, lines[k], itemIds(k), products)
  {
    seq(|lines|, k requires 0 <= k < |lines| => ItemFor(orderId, lines[k], itemIds(k), products))
  }

  /** The order PlaceOrderAsync stores: Pending, for the customer's cart,
      with the given ids, the cart's items and their sum as the total. */
  function PlacedOrder(orderId: string, customerId: string, cartId: string, now: int, deliveryId: string,
                       salesManagerId: string, serviceUsageId: string, lines: seq<CartItem>,
                       itemIds: nat -> string, products: map<string, Product>): (o: Order)
    requires forall k :: 0 <= k < |lines| ==> lines[k].productId in products
    ensures o.id == orderId && o.customerId == customerId && o.cartId == cartId && o.status == "Pending"
    ensures |o.items| == |lines|
    ensures forall k :: 0 <= k < |lines| ==>
              && o.items[k].orderId == orderId && o.items[k].productId == lines[k].productId
              && o.items[k].quantity == lines[k].quantity && o.items[k].unitPrice == products[lines[k].productId].price
    ensures o.totalAmount == SumTotals(o.items)
  {
    var items := OrderItems(orderId, lines, itemIds, products);
    Order(orderId, customerId, cartId, now, "Pending", deliveryId, salesManagerId, serviceUsageId, items, SumTotals(items))
  }

  class CartService {
    const db: ShopDb

    constructor (db: ShopDb)
      ensures this.db == db
    {
      this.db := db;
    }

    /** AddItemAsync. After the argument checks the customer and the
        product must exist and the stock must cover the request; the
        customer gets a cart if they have none, and AddLine updates its
        lines. */
    method AddItem(customerId: string, dto: Option<CartItemRequest>, newCartId: string, newItemId: string, now: int)
      returns (r: Result<CartReply>)
      requires db.Valid()
      requires forall c :: c in db.carts ==> db.carts[c].id != newCartId
      requires forall i :: 0 <= i < |db.cartItems| ==> db.cartItems[i].cartId != newCartId
      modifies db`carts, db`cartItems
      ensures db.Valid()
      ensures !RequestValid(customerId, dto) ==> r == Err(Invalid)
      ensures RequestValid(customerId, dto) && (customerId !in old(db.customers) || dto.value.productId.value !in old(db.products))
              ==> r == Err(NotFound)
      ensures RequestValid(customerId, dto) && customerId in old(db.customers) && dto.value.productId.value in old(db.products)
              && old(db.products)[dto.value.productId.value].stock < dto.value.quantity
              ==> r == Err(OutOfStock)
      ensures !Admitted(customerId, dto, old(db.customers), old(db.products)) ==>
                db.carts == old(db.carts) && db.cartItems == old(db.cartItems)
      ensures Admitted(customerId, dto, old(db.customers), old(db.products)) ==>
                var productId := dto.value.productId.value;
                var cart := CartFor(old(db.carts), customerId, newCartId, now);
                var added := AddLine(old(db.cartItems), cart.id, productId, dto.value.quantity,
                                     old(db.products)[productId].stock, newItemId);
                && db.carts == old(db.carts)[customerId := cart]
                && (added.Err? ==> r == Err(OutOfStock) && db.cartItems == old(db.cartItems))
                && (added.Ok? ==>
                      && db.cartItems == added.value
                      && r == Ok(if FindItem(old(db.cartItems), cart.id, productId).Some? then QuantityUpdated else ItemAdded))
    {
      if !GuidId(customerId) || dto.None? || !GuidIdOpt(dto.value.productId)
         || dto.value.quantity <= 0 || dto.value.quantity > 1000 {
        return Err(Invalid);
      }
      var productId := dto.value.productId.value;
      var q := dto.value.quantity;
      if customerId !in db.customers {
        return Err(NotFound);
      }
      if productId !in db.products {
        return Err(NotFound);
      }
      var stock := db.products[productId].stock;
      if stock < q {
        return Err(OutOfStock);
      }
      var cart := CartFor(db.carts, customerId, newCartId, now);
      if customerId !in db.carts {
        db.carts := db.carts[customerId := cart];
      }
      var found := FindItem(db.cartItems, cart.id, productId);
      var added := AddLine(db.cartItems, cart.id, productId, q, stock, newItemId);
      if added.Err? {
        return Err(OutOfStock);
      }
      AddLineSpec(db.cartItems, cart.id, productId, q, stock, newItemId);
      db.cartItems := added.value;
      return Ok(if found.Some? then QuantityUpdated else ItemAdded);
    }

    /** UpdateItemQuantityAsync: after the argument checks, the customer's
        cart, its line for the product and the product must exist, and the
        stock must cover the new quantity; the line's quantity becomes
        exactly the requested one and nothing else changes. */
    method UpdateItemQuantity(customerId: string, dto: Option<CartItemRequest>) returns (r: Result<CartReply>)
      requires db.Valid()
      modifies db`cartItems
      ensures db.Valid()
      ensures !RequestValid(customerId, dto) ==> r == Err(Invalid)
      ensures r.Err? ==> db.cartItems == old(db.cartItems)
      ensures RequestValid(customerId, dto) && customerId !in old(db.carts) ==> r == Err(NotFound)
      ensures RequestValid(customerId, dto) && customerId in old(db.carts) ==>
                var productId := dto.value.productId.value;
                var q := dto.value.quantity;
                var found := FindItem(old(db.cartItems), old(db.carts)[customerId].id, productId);
                && (found.None? || productId !in old(db.products) ==> r == Err(NotFound))
                && (found.Some? && productId in old(db.products) && old(db.products)[productId].stock < q ==> r == Err(OutOfStock))
                && (found.Some? && productId in old(db.products) && old(db.products)[productId].stock >= q ==>
                      && r == Ok(QuantityUpdated)
                      && db.cartItems == old(db.cartItems)[found.value := old(db.cartItems)[found.value].(quantity := q)])
    {
      if !GuidId(customerId) || dto.None? || !GuidIdOpt(dto.value.productId)
         || dto.value.quantity <= 0 || dto.value.quantity > 1000 {
        return Err(Invalid);
      }
      var productId := dto.value.productId.value;
      var q := dto.value.quantity;
      if customerId !in db.carts {
        return Err(NotFound);
      }
      var found := FindItem(db.cartItems, db.carts[customerId].id, productId);
      if found.None? {
        return Err(NotFound);
      }
      if productId !in db.products {
        return Err(NotFound);
      }
      if db.products[productId].stock < q {
        return Err(OutOfStock);
      }
      var i := found.value;
      ghost var items0 := db.cartItems;
      db.cartItems := db.cartItems[i := db.cartItems[i].(quantity := q)];
      assert OneLinePerProduct(db.cartItems) by {
        forall a, b | 0 <= a < b < |db.cartItems| && db.cartItems[a].cartId == db.cartItems[b].cartId
          ensures db.cartItems[a].productId != db.cartItems[b].productId
        {
          assert items0[a].cartId == items0[b].cartId;
        }
      }
      return Ok(QuantityUpdated);
    }

    /** RemoveItemAsync: after the checks on both ids, the customer's cart
        and its line for the product must exist; exactly that line goes. */
    method RemoveItem(customerId: string, productId: Option<string>) returns (r: Result<CartReply>)
      requires db.Valid()
      modifies db`cartItems
      ensures db.Valid()
      ensures !GuidId(customerId) || !GuidIdOpt(productId) ==> r == Err(Invalid)
      ensures r.Err? ==> db.cartItems == old(db.cartItems)
      ensures GuidId(customerId) && GuidIdOpt(productId) && customerId !in old(db.carts)
              ==> r == Err(NotFound)
      ensures GuidId(customerId) && GuidIdOpt(productId) && customerId in old(db.carts) ==>
                var found := FindItem(old(db.cartItems), old(db.carts)[customerId].id, productId.value);
                && (found.None? ==> r == Err(NotFound))
                && (found.Some? ==>
                      r == Ok(ItemRemoved)
                      && db.cartItems == RemoveAt(old(db.cartItems), found.value))
    {
      if !GuidId(customerId) || !GuidIdOpt(productId) {
        return Err(Invalid);
      }
      if customerId !in db.carts {
        return Err(NotFound);
      }
      var cartId := db.carts[customerId].id;
      var found := FindItem(db.cartItems, cartId, productId.value);
      if found.None? {
        return Err(NotFound);
      }
      var i := found.value;
      RemoveLineSpec(db.cartItems, cartId, productId.value);
      db.cartItems := RemoveAt(db.cartItems, i);
      return Ok(ItemRemoved);
    }

    /** The removal loop of ClearCartAsync: every line of the cart goes,
        the other carts' lines stay in order. */
    method RemoveCartLines(cartId: string)
      modifies db`cartItems
      ensures db.cartItems == OtherCarts(old(db.cartItems), cartId)
    {
      var items := db.cartItems;
      var kept: seq<CartItem> := [];
      for k := 0 to |items|
        invariant kept == OtherCarts(items[..k], cartId)
      {
        assert items[..k + 1] == items[..k] + [items[k]];
        OtherCartsAppend(items[..k], items[k], cartId);
        if items[k].cartId != cartId {
          kept := kept + [items[k]];
        }
      }
      assert items[..|items|] == items;
      db.cartItems := kept;
    }

    /** ClearCartAsync: a bad customer id is refused, a missing cart is
        not found, an empty cart is reported as already empty; otherwise
        every line of the cart goes and the other carts keep theirs. */
    method ClearCart(customerId: string) returns (r: Result<CartReply>)
      requires db.Valid()
      modifies db`cartItems
      ensures db.Valid()
      ensures !GuidId(customerId) ==> r == Err(Invalid)
      ensures GuidId(customerId) && customerId !in old(db.carts) ==> r == Err(NotFound)
      ensures GuidId(customerId) && customerId in old(db.carts) && ItemsOf(old(db.cartItems), old(db.carts)[customerId].id) == []
              ==> r == Err(AlreadyEmpty)
      ensures r.Err? ==> db.cartItems == old(db.cartItems)
      ensures r.Ok? <==> GuidId(customerId) && customerId in old(db.carts)
                         && ItemsOf(old(db.cartItems), old(db.carts)[customerId].id) != []
      ensures r.Ok? ==> r.value == CartCleared
                        && db.cartItems == OtherCarts(old(db.cartItems), old(db.carts)[customerId].id)
    {
      if !GuidId(customerId) {
        return Err(Invalid);
      }
      if customerId !in db.carts {
        return Err(NotFound);
      }
      var cartId := db.carts[customerId].id;
      if ItemsOf(db.cartItems, cartId) == [] {
        return Err(AlreadyEmpty);
      }
      OtherCartsOneLine(db.cartItems, cartId);
      RemoveCartLines(cartId);
      return Ok(CartCleared);
    }

    /** The validation loop of PlaceOrderAsync: the lines that fail (no
        product, a quantity of zero or less, or more than the stock), in
        order. */
    method RejectedLines(lines: seq<CartItem>) returns (rejected: seq<CartItem>)
      ensures rejected == Unorderable(lines, db.products)
      ensures forall x :: x in rejected <==> x in lines && !Orderable(x, db.products)
      ensures rejected == [] <==> AllOrderable(lines, db.products)
    {
      rejected := [];
      for k := 0 to |lines|
        invariant rejected == Unorderable(lines[..k], db.products)
      {
        var line := lines[k];
        assert lines[..k + 1][..k] == lines[..k];
        if line.productId !in db.products {
          rejected := rejected + [line];
        } else if line.quantity <= 0 {
          rejected := rejected + [line];
        } else if db.products[line.productId].stock < line.quantity {
          rejected := rejected + [line];
        }
      }
      assert lines[..|lines|] == lines;
    }

    /** The order loop of PlaceOrderAsync: one order item per line at the
        product's price, the running total, and the stock taken. */
    method TakeLines(orderId: string, lines: seq<CartItem>, itemIds: nat -> string)
      returns (items: seq<OrderItem>, total: real)
      requires forall k :: 0 <= k < |lines| ==> lines[k].productId in db.products
      modifies db`products
      ensures db.products == Deduct(old(db.products), lines)
      ensures items == OrderItems(orderId, lines, itemIds, old(db.products))
      ensures total == SumTotals(items)
    {
      var products0 := db.products;
      var ps := products0;
      items, total := [], 0.0;
      for k := 0 to |lines|
        invariant ps == Deduct(products0, lines[..k])
        invariant |items| == k
        invariant forall j :: 0 <= j < k ==> items[j] == ItemFor(orderId, lines[j], itemIds(j), products0)
        invariant total == SumTotals(items)
      {
        var line := lines[k];
        DeductNext(products0, lines, k);
        var product := ps[line.productId];
        var item := OrderItem(itemIds(k), orderId, line.productId, line.quantity,
                              product.price, line.quantity as real * product.price);
        SumTotalsAppend(items, item);
        items := items + [item];
        total := total + item.itemTotal;
        ps := ps[line.productId := product.(stock := product.stock - line.quantity)];
      }
      assert lines[..|lines|] == lines;
      db.products := ps;
    }

    /** What PlaceOrderAsync does once every check has passed: store the
        order, take the stock, empty the cart. */
    method Checkout(customerId: string, cartId: string, lines: seq<CartItem>, deliveryId: string,
                    salesManagerId: string, serviceUsageId: string, orderId: string, itemIds: nat -> string, now: int)
      returns (order: Order)
      requires db.Valid() && orderId !in db.orders
      requires GuidId(customerId) && customerId in db.carts && db.carts[customerId].id == cartId
      requires lines == ItemsOf(db.cartItems, cartId) && lines != []
      requires AllOrderable(lines, db.products)
      modifies db`products, db`cartItems, db`orders
      ensures db.Valid()
      ensures order == PlacedOrder(orderId, customerId, cartId, now, deliveryId, salesManagerId, serviceUsageId,
                                   lines, itemIds, old(db.products))
      ensures db.orders == old(db.orders)[orderId := order]
      ensures db.products == Deduct(old(db.products), lines)
      ensures db.cartItems == OtherCarts(old(db.cartItems), cartId)
    {
      CheckoutKeepsStock(db.products, db.cartItems, cartId);
      DeductKeepsKeys(db.products, lines);
      var items, total := TakeLines(orderId, lines, itemIds);
      order := Order(orderId, customerId, cartId, now, "Pending", deliveryId, salesManagerId, serviceUsageId,
                     items, total);
      assert order == PlacedOrder(orderId, customerId, cartId, now, deliveryId, salesManagerId, serviceUsageId,
                                  lines, itemIds, old(db.products));
      db.orders := db.orders[orderId := order];
      var cleared := ClearCart(customerId);
    }

    /** PlaceOrderAsync. Four GUID ids are required; the customer's cart
        must exist and hold lines, and the customer must exist; if any
        line fails validation nothing changes. Otherwise Checkout stores
        one Pending order with an item per line at the product's price and
        their sum as its total, lowers each product's stock by what the
        cart orders of it (never below zero, as db.Valid() keeps), and
        empties the cart. */
    method PlaceOrder(customerId: string, deliveryId: string, salesManagerId: string, serviceUsageId: string,
                      orderId: string, itemIds: nat -> string, now: int) returns (r: Result<Order>)
      requires db.Valid() && orderId !in db.orders
      modifies db`products, db`cartItems, db`orders
      ensures db.Valid()
      ensures r.Err? ==> db.products == old(db.products) && db.cartItems == old(db.cartItems)
                         && db.orders == old(db.orders)
      ensures !OrderIds(customerId, deliveryId, salesManagerId, serviceUsageId) ==> r == Err(Invalid)
      ensures OrderIds(customerId, deliveryId, salesManagerId, serviceUsageId) && customerId !in old(db.carts)
              ==> r == Err(NotFound)
      ensures OrderIds(customerId, deliveryId, salesManagerId, serviceUsageId) && customerId in old(db.carts) ==>
                var cartId := old(db.carts)[customerId].id;
                var lines := ItemsOf(old(db.cartItems), cartId);
                && (lines == [] ==> r == Err(EmptyCart))
                && (lines != [] && customerId !in old(db.customers) ==> r == Err(NotFound))
                && (lines != [] && customerId in old(db.customers) && !AllOrderable(lines, old(db.products))
                    ==> r == Err(OutOfStock))
                && (lines != [] && customerId in old(db.customers) && AllOrderable(lines, old(db.products)) ==>
                      && r == Ok(PlacedOrder(orderId, customerId, cartId, now, deliveryId, salesManagerId,
                                             serviceUsageId, lines, itemIds, old(db.products)))
                      && db.orders == old(db.orders)[orderId := r.value]
                      && db.products == Deduct(old(db.products), lines)
                      && db.cartItems == OtherCarts(old(db.cartItems), cartId))
    {
      if !OrderIds(customerId, deliveryId, salesManagerId, serviceUsageId) {
        return Err(Invalid);
      }
      if customerId !in db.carts {
        return Err(NotFound);
      }
      var cartId := db.carts[customerId].id;
      var lines := ItemsOf(db.cartItems, cartId);
      if lines == [] {
        return Err(EmptyCart);
      }
      if customerId !in db.customers {
        return Err(NotFound);
      }
      var rejected := RejectedLines(lines);
      if rejected != [] {
        return Err(OutOfStock);
      }
      var order := Checkout(customerId, cartId, lines, deliveryId, salesManagerId, serviceUsageId, orderId, itemIds, now);
      return Ok(order);
    }
  }
}
