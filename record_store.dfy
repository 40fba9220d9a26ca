/**
 * The hosted database as an in-memory record store: one sequence per table
 * the order and review handlers touch, and the counter the database uses to
 * generate row ids.
 */
module RecordStore {

  import opened Wrappers
  import opened Seqs

  type Id = nat

  datatype Shipping = Shipping(
    address: string, city: string, state: string, zipCode: string, country: string, phone: string)

  /** A row of `orders`; money is in minor currency units. */
  datatype Order = Order(
    id: Id, userId: Id, totalAmount: int, status: string, shipping: Shipping, createdAt: int)

  /** A row of `order_items`. */
  datatype OrderLine = OrderLine(id: Id, orderId: Id, productId: Id, quantity: int, priceAtPurchase: int)

  /** A row of `carts`. */
  datatype Cart = Cart(id: Id, userId: Id)

  /** A row of `cart_items`. */
  datatype CartLine = CartLine(id: Id, cartId: Id, productId: Id, quantity: int)

  /** A row of `products`. */
  datatype Product = Product(id: Id, name: string, price: int, stock: int)

  /** A row of `reviews`; `comment == None` is SQL `null`. */
  datatype Review = Review(
    id: Id, productId: Id, userId: Id, rating: real, comment: Option<string>,
    createdAt: int, updatedAt: Option<int>)

  class Db {
    var products: seq<Product>
    var orders: seq<Order>
    var orderLines: seq<OrderLine>
    var carts: seq<Cart>
    var cartLines: seq<CartLine>
    var reviews: seq<Review>
    /** The next id the database will generate. */
    var nextId: Id

    /**
     * The store's own guarantees: generated ids are unique primary keys for
     * orders and reviews, and every id in use was generated before `nextId`.
     */
    ghost predicate Valid()
      reads this
    {
      && (forall i :: 0 <= i < |orders| ==> orders[i].id < nextId)
      && DistinctBy(orders, (o: Order) => o.id)
      && (forall i :: 0 <= i < |orderLines| ==> orderLines[i].id < nextId && orderLines[i].orderId < nextId)
      && (forall i :: 0 <= i < |reviews| ==> reviews[i].id < nextId)
      && DistinctBy(reviews, (r: Review) => r.id)
      && DistinctBy(products, (p: Product) => p.id)
    }

    constructor (products: seq<Product>, carts: seq<Cart>)
      requires DistinctBy(products, (p: Product) => p.id)
      ensures Valid()
      ensures this.products == products && this.carts == carts
      ensures orders == [] && orderLines == [] && cartLines == [] && reviews == []
    {
      this.products := products;
      this.carts := carts;
      orders, orderLines, cartLines, reviews := [], [], [], [];
      nextId := 0;
    }

    /** `insert` into `orders` of a row that gets a freshly generated id. */
    method InsertOrder(userId: Id, totalAmount: int, status: string, shipping: Shipping, now: int)
      returns (o: Order)
      requires Valid()
      modifies this`orders, this`nextId
      ensures Valid()
      ensures o == Order(old(nextId), userId, totalAmount, status, shipping, now)
      ensures orders == old(orders) + [o] && nextId == old(nextId) + 1
    {
      o := Order(nextId, userId, totalAmount, status, shipping, now);
      orders := orders + [o];
      nextId := nextId + 1;
    }

    /** `delete().eq('id', id)` on `orders`. */
    method DeleteOrder(id: Id)
      requires Valid()
      modifies this`orders
      ensures Valid()
      ensures orders == WithoutOrder(old(orders), id)
    {
      FilterKeepsDistinct(orders, (o: Order) => o.id != id, (o: Order) => o.id);
      var kept := WithoutOrder(orders, id);
      forall i | 0 <= i < |kept| ensures kept[i].id < nextId {
        assert kept[i] in orders;
      }
      orders := kept;
    }

    /** A batch `insert` into `order_items`; the rows get the next generated ids. */
    method InsertOrderLines(lines: seq<OrderLine>)
      requires Valid()
      requires forall k :: 0 <= k < |lines| ==> lines[k].id == nextId + k && lines[k].orderId < nextId
      modifies this`orderLines, this`nextId
      ensures Valid()
      ensures orderLines == old(orderLines) + lines && nextId == old(nextId) + |lines|
    {
      orderLines := orderLines + lines;
      nextId := nextId + |lines|;
    }

    /** `delete().in('cart_id', [cartId])` on `cart_items`. */
    method DeleteCartLines(cartId: Id)
      modifies this`cartLines
      ensures cartLines == WithoutCart(old(cartLines), cartId)
    {
      cartLines := WithoutCart(cartLines, cartId);
    }

    /** `insert` into `reviews` of a row that gets a freshly generated id and `created_at = now`. */
    method InsertReview(productId: Id, userId: Id, rating: real, comment: Option<string>, now: int)
      returns (r: Review)
      requires Valid()
      modifies this`reviews, this`nextId
      ensures Valid()
      ensures r == Review(old(nextId), productId, userId, rating, comment, now, None)
      ensures reviews == old(reviews) + [r] && nextId == old(nextId) + 1
    {
      r := Review(nextId, productId, userId, rating, comment, now, None);
      reviews := reviews + [r];
      nextId := nextId + 1;
    }

    /** `update({ rating, comment, updated_at: now }).eq('id', id)` on `reviews`. */
    method UpdateReview(id: Id, rating: real, comment: Option<string>, now: int)
      requires Valid()
      modifies this`reviews
      ensures Valid()
      ensures reviews == WithRevision(old(reviews), id, rating, comment, now)
    {
      var revised := WithRevision(reviews, id, rating, comment, now);
      forall i, j | 0 <= i < j < |revised| ensures revised[i].id != revised[j].id {
        assert revised[i].id == reviews[i].id && revised[j].id == reviews[j].id;
      }
      reviews := revised;
    }

    /** `delete().eq('id', id)` on `reviews`. */
    method DeleteReview(id: Id)
      requires Valid()
      modifies this`reviews
      ensures Valid()
      ensures reviews == WithoutReview(old(reviews), id)
    {
      FilterKeepsDistinct(reviews, (r: Review) => r.id != id, (r: Review) => r.id);
      var kept := WithoutReview(reviews, id);
      forall i | 0 <= i < |kept| ensures kept[i].id < nextId {
        assert kept[i] in reviews;
      }
      reviews := kept;
    }
  }

  /** The reviews after setting rating, comment and `updated_at` of the one with id `id`. */
  function WithRevision(reviews: seq<Review>, id: Id, rating: real, comment: Option<string>, now: int)
    : (r: seq<Review>)
    ensures |r| == |reviews|
    ensures forall i :: 0 <= i < |reviews| ==>
      r[i] == if reviews[i].id == id
              then reviews[i].(rating := rating, comment := comment, updatedAt := Some(now))
              else reviews[i]
  {
    seq(|reviews|, i requires 0 <= i < |reviews| =>
      if reviews[i].id == id
      then reviews[i].(rating := rating, comment := comment, updatedAt := Some(now))
      else reviews[i])
  }

  /** The reviews left after deleting the one with id `id`, in their order. */
  function WithoutReview(reviews: seq<Review>, id: Id): (r: seq<Review>)
    ensures forall x :: x in r <==> x in reviews && x.id != id
  {
    Filter(reviews, (x: Review) => x.id != id)
  }

  /** The orders left after deleting the one with id `id`, in their order. */
  function WithoutOrder(orders: seq<Order>, id: Id): (r: seq<Order>)
    ensures forall o :: o in r <==> o in orders && o.id != id
  {
    Filter(orders, (o: Order) => o.id != id)
  }

  /** The cart lines left after deleting those of cart `cartId`, in their order. */
  function WithoutCart(lines: seq<CartLine>, cartId: Id): (r: seq<CartLine>)
    ensures forall l :: l in r <==> l in lines && l.cartId != cartId
  {
    Filter(lines, (l: CartLine) => l.cartId != cartId)
  }

  /** `select … where id = id` on `orders`, `.single()`. */
  function FindOrder(orders: seq<Order>, id: Id): (r: Option<Order>)
    ensures r.Some? ==> r.value in orders && r.value.id == id
    ensures r.None? ==> forall i :: 0 <= i < |orders| ==> orders[i].id != id
  {
    FindBy(orders, (o: Order) => o.id, id)
  }

  /** `select … where id = id` on `reviews`, `.single()`. */
  function FindReview(reviews: seq<Review>, id: Id): (r: Option<Review>)
    ensures r.Some? ==> r.value in reviews && r.value.id == id
    ensures r.None? ==> forall i :: 0 <= i < |reviews| ==> reviews[i].id != id
  {
    FindBy(reviews, (v: Review) => v.id, id)
  }

  /** `select … from products where id = id`, `.single()`. */
  predicate ProductExists(products: seq<Product>, id: Id) {
    exists i :: 0 <= i < |products| && products[i].id == id
  }

  /**
   * `select id from carts where user_id = userId`, `.single()`: a row only when
   * exactly one cart belongs to the user.
   */
  function UserCart(carts: seq<Cart>, userId: Id): (r: Option<Cart>)
    ensures r.Some? <==> Count(carts, (c: Cart) => c.userId == userId) == 1
    ensures r.Some? ==> r.value in carts && r.value.userId == userId
  {
    var mine := Filter(carts, (c: Cart) => c.userId == userId);
    if |mine| == 1 then
      assert mine[0] in mine;
      Some(mine[0])
    else None
  }
}
