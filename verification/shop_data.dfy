/**
 * Records of the shop: the product catalogue, categories, customers'
 * carts and the orders placed from them, held in one database object
 * that the product, category and cart services share.
 *
 * Timestamps are integers supplied by the caller as `now`; money is a
 * real (C# decimal).
 */
module ShopData {
  import opened Common

  /** ProductPendingStatus: None = 0, Pending = 1, Approved = 2,
      Rejected = 4 (None is called Unsubmitted here, as Option owns the
      name). */
  datatype PendingStatus = Unsubmitted | Pending | Approved | Rejected

  datatype Specification = Specification(key: string, value: string, productId: string)

  datatype Warranty = Warranty(description: string, startDate: int, endDate: int, productId: string)

  datatype Product = Product(
    id: string,
    name: string,
    price: real,
    discountPrice: Option<real>,
    description: Option<string>,
    stock: int,
    categoryId: Option<string>,
    subCategoryId: Option<string>,
    techManagerId: Option<string>,
    stockControlManagerId: Option<string>,
    status: PendingStatus,
    imageUrl: Option<string>,
    specifications: seq<Specification>,
    warranties: seq<Warranty>)

  datatype Category = Category(id: string, name: Option<string>, description: Option<string>, image: Option<string>)

  datatype Cart = Cart(id: string, customerId: string, createdAt: int)

  /** A line of a cart: CartItem, with the cart it belongs to. */
  datatype CartItem = CartItem(id: string, cartId: string, productId: string, quantity: int)

  datatype OrderItem = OrderItem(id: string, orderId: string, productId: string, quantity: int,
                                 unitPrice: real, itemTotal: real)

  datatype Order = Order(
    id: string,
    customerId: string,
    cartId: string,
    orderDate: int,
    status: string,
    deliveryId: string,
    salesManagerId: string,
    serviceUsageId: string,
    items: seq<OrderItem>,
    totalAmount: real)

  /** The lines of one cart, in table order (cart.CartItems). */
  function ItemsOf(items: seq<CartItem>, cartId: string): (r: seq<CartItem>)
    ensures forall x :: x in r <==> x in items && x.cartId == cartId
  {
    if items == [] then []
    else (if items[0].cartId == cartId then [items[0]] else []) + ItemsOf(items[1..], cartId)
  }

  /** The lines of every other cart: what removing one cart's lines leaves. */
  function OtherCarts(items: seq<CartItem>, cartId: string): (r: seq<CartItem>)
    ensures forall x :: x in r <==> x in items && x.cartId != cartId
  {
    if items == [] then []
    else (if items[0].cartId != cartId then [items[0]] else []) + OtherCarts(items[1..], cartId)
  }

  /** The lines that reference none of the given products. */
  function Without(items: seq<CartItem>, productIds: set<string>): (r: seq<CartItem>)
    ensures forall x :: x in r <==> x in items && x.productId !in productIds
  {
    if items == [] then []
    else (if items[0].productId !in productIds then [items[0]] else []) + Without(items[1..], productIds)
  }

  lemma {:induction false} WithoutAppend(items: seq<CartItem>, x: CartItem, productIds: set<string>)
    ensures Without(items + [x], productIds)
            == Without(items, productIds) + (if x.productId !in productIds then [x] else [])
  {
    if items != [] {
      assert (items + [x])[1..] == items[1..] + [x];
      WithoutAppend(items[1..], x, productIds);
    }
  }

  lemma {:induction false} WithoutNone(items: seq<CartItem>)
    ensures Without(items, {}) == items
  {
    if items != [] {
      WithoutNone(items[1..]);
    }
  }

  /** Removing the lines of one product after those of a set of products
      removes the lines of the larger set. */
  lemma {:induction false} WithoutTwice(items: seq<CartItem>, productIds: set<string>, productId: string)
    ensures Without(Without(items, productIds), {productId}) == Without(items, productIds + {productId})
  {
    if items != [] {
      WithoutTwice(items[1..], productIds, productId);
      var w := Without(items, productIds);
      var both := productIds + {productId};
      if items[0].productId in productIds {
        assert w == Without(items[1..], productIds);
        assert Without(items, both) == Without(items[1..], both);
      } else {
        assert w == [items[0]] + Without(items[1..], productIds);
        assert w[0] == items[0] && w[1..] == Without(items[1..], productIds);
        assert Without(w, {productId})
               == (if items[0].productId != productId then [items[0]] else []) + Without(w[1..], {productId});
        assert Without(items, both)
               == (if items[0].productId != productId then [items[0]] else []) + Without(items[1..], both);
      }
    }
  }

  /** Index of the line of cart `cartId` for `productId` (FirstOrDefault). */
  function FindItem(items: seq<CartItem>, cartId: string, productId: string): (r: Option<nat>)
    ensures r.Some? ==> r.value < |items| && items[r.value].cartId == cartId && items[r.value].productId == productId
    ensures r.None? ==> forall j :: 0 <= j < |items| ==> !(items[j].cartId == cartId && items[j].productId == productId)
  {
    if items == [] then None
    else if items[0].cartId == cartId && items[0].productId == productId then Some(0)
    else
      var r := FindItem(items[1..], cartId, productId);
      if r.Some? then Some(r.value + 1) else None
  }

  /** A cart holds at most one line per product: AddItemAsync merges a
      second request for the same product into the existing line. */
  predicate OneLinePerProduct(items: seq<CartItem>) {
    forall i, j :: 0 <= i < j < |items| && items[i].cartId == items[j].cartId ==>
      items[i].productId != items[j].productId
  }

  /** No product's stock is negative. */
  predicate StockKept(products: map<string, Product>) {
    forall k :: k in products ==> products[k].stock >= 0
  }

  /** The first line of a table with one line per product shares no
      product with a later line of its cart. */
  lemma OneLineHead(items: seq<CartItem>)
    requires items != [] && OneLinePerProduct(items)
    ensures OneLinePerProduct(items[1..])
    ensures forall y :: y in items[1..] && y.cartId == items[0].cartId ==> y.productId != items[0].productId
  {
    forall y | y in items[1..] && y.cartId == items[0].cartId
      ensures y.productId != items[0].productId
    {
      var j :| 0 <= j < |items[1..]| && items[1..][j] == y;
      assert items[j + 1] == y;
    }
  }

  /** A line whose product is new to its cart can go in front. */
  lemma OneLineCons(x: CartItem, rest: seq<CartItem>)
    requires OneLinePerProduct(rest)
    requires forall y :: y in rest && y.cartId == x.cartId ==> y.productId != x.productId
    ensures OneLinePerProduct([x] + rest)
  {
    var r := [x] + rest;
    forall i, j | 0 <= i < j < |r| && r[i].cartId == r[j].cartId
      ensures r[i].productId != r[j].productId
    {
      if i == 0 {
        assert r[j] == rest[j - 1] && rest[j - 1] in rest;
      } else {
        assert r[i] == rest[i - 1] && r[j] == rest[j - 1];
      }
    }
  }

  /** Removing one cart's lines keeps at most one line per product. */
  lemma {:induction false} OtherCartsOneLine(items: seq<CartItem>, cartId: string)
    requires OneLinePerProduct(items)
    ensures OneLinePerProduct(OtherCarts(items, cartId))
  {
    if items != [] {
      OneLineHead(items);
      OtherCartsOneLine(items[1..], cartId);
      if items[0].cartId != cartId {
        OneLineCons(items[0], OtherCarts(items[1..], cartId));
      }
    }
  }

  /** Removing the lines of some products keeps at most one line per
      product. */
  lemma {:induction false} WithoutOneLine(items: seq<CartItem>, productIds: set<string>)
    requires OneLinePerProduct(items)
    ensures OneLinePerProduct(Without(items, productIds))
  {
    if items != [] {
      OneLineHead(items);
      WithoutOneLine(items[1..], productIds);
      if items[0].productId !in productIds {
        OneLineCons(items[0], Without(items[1..], productIds));
      }
    }
  }

  /** Each table holds its records under their own ids; carts are keyed
      by their customer and no two carts share an id. */
  predicate CategoriesKeyed(categories: map<string, Category>) {
    forall k :: k in categories ==> categories[k].id == k
  }

  predicate ProductsKeyed(products: map<string, Product>) {
    forall k :: k in products ==> products[k].id == k
  }

  predicate CartsKeyed(carts: map<string, Cart>) {
    && (forall k :: k in carts ==> carts[k].customerId == k)
    && (forall a, b :: a in carts && b in carts && carts[a].id == carts[b].id ==> a == b)
  }

  predicate OrdersKeyed(orders: map<string, Order>) {
    forall k :: k in orders ==> orders[k].id == k
  }

  /** The shop database. Carts are keyed by their customer: the services
      look a cart up by CustomerId and each customer has at most one. */
  class ShopDb {
    var customers: set<string>
    var categories: map<string, Category>
    var products: map<string, Product>
    var carts: map<string, Cart>
    var cartItems: seq<CartItem>
    var orders: map<string, Order>

    /** Records are stored under their own ids, no two carts share an id,
        no stock is negative, and a cart has one line per product. */
    ghost predicate Valid()
      reads this
    {
      && CategoriesKeyed(categories)
      && ProductsKeyed(products)
      && CartsKeyed(carts)
      && OrdersKeyed(orders)
      && StockKept(products)
      && OneLinePerProduct(cartItems)
    }

    constructor ()
      ensures Valid()
      ensures customers == {} && categories == map[] && products == map[]
      ensures carts == map[] && cartItems == [] && orders == map[]
    {
      customers, categories, products := {}, map[], map[];
      carts, cartItems, orders := map[], [], map[];
    }
  }
}
