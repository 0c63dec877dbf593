/** Orders and `OrderServiceImpl`: turning a user's cart into an order with a
    frozen price per line, and the unguarded status update.

    The order total: the source computes each line total and passes it to
    `BigDecimal.add`, whose result it discards, so the running total stays
    ZERO (`DiscardingTotal`).  The model's order uses the intended sum of
    quantity x price at order (`OrderTotal`); both are defined here and the
    difference is proved. */
module Orders {
  import opened Common
  import CartStore

  /** The statuses of both `OrderStatus` enums, plus the three that
      `PaymentService` uses; `PendeliveryFailed` is the status it sets when a
      payment cannot be verified. */
  datatype OrderStatus =
    | Pending | Processing | Shipped | Delivered | Cancelled
    | PendingPayment | Placed | PendeliveryFailed

  /** One order line; `priceAtOrder` is the product's price when the order
      was created, never recomputed. */
  datatype OrderItem = OrderItem(productId: ProductId, quantity: int, priceAtOrder: int)

  datatype Order = Order(
    id: OrderId,
    userId: UserId,
    status: OrderStatus,
    totalAmount: int,
    shippingAddress: String,
    items: seq<OrderItem>)

  datatype OrderError =
    | UserNotFound(userId: UserId)      // ResourceNotFoundException
    | CartNotFound(userId: UserId)      // ResourceNotFoundException
    | EmptyCart                         // IllegalStateException
    | OrderNotFound(orderId: OrderId)   // ResourceNotFoundException

  /** The order lines built from the cart lines, with the current price frozen
      into each: one line per cart line, same product and quantity. */
  function Snapshot(lines: seq<CartStore.CartLine>, prices: map<ProductId, int>): (r: seq<OrderItem>)
    requires CartStore.Priced(lines, prices)
    ensures |r| == |lines|
    ensures forall i :: 0 <= i < |lines| ==>
              && r[i].productId == lines[i].productId
              && r[i].quantity == lines[i].quantity
              && r[i].priceAtOrder == prices[lines[i].productId]
  {
    if lines == [] then []
    else [OrderItem(lines[0].productId, lines[0].quantity, prices[lines[0].productId])]
         + Snapshot(lines[1..], prices)
  }

  /** The intended order total: the sum of quantity x priceAtOrder. */
  function OrderTotal(items: seq<OrderItem>): int {
    if items == [] then 0 else items[0].quantity * items[0].priceAtOrder + OrderTotal(items[1..])
  }

  /** Priced from its own frozen lines, a new order costs exactly what the
      cart costs at the catalog's current prices. */
  lemma {:induction false} SnapshotTotal(lines: seq<CartStore.CartLine>, prices: map<ProductId, int>)
    requires CartStore.Priced(lines, prices)
    ensures OrderTotal(Snapshot(lines, prices)) == CartStore.Total(lines, prices)
  {
    if lines != [] {
      assert CartStore.Priced(lines[1..], prices) by {
        forall j | 0 <= j < |lines[1..]| ensures lines[1..][j].productId in prices {
          assert lines[1..][j] == lines[j + 1];
        }
      }
      SnapshotTotal(lines[1..], prices);
      assert Snapshot(lines, prices)[1..] == Snapshot(lines[1..], prices);
    }
  }

  /** The running total as the source computes it: every line total is
      formed and handed to `add`, and the sum returned is dropped, so the
      accumulator is passed on unchanged. */
  function DiscardingTotal(acc: int, lines: seq<CartStore.CartLine>, prices: map<ProductId, int>): int
    requires CartStore.Priced(lines, prices)
  {
    if lines == [] then acc
    else
      var itemTotal := CartStore.LineTotal(lines[0], prices);
      var dropped := acc + itemTotal;
      DiscardingTotal(acc, lines[1..], prices)
  }

  /** As written, the total of every order is the starting ZERO. */
  lemma {:induction false} DiscardingTotalIsZero(acc: int, lines: seq<CartStore.CartLine>, prices: map<ProductId, int>)
    requires CartStore.Priced(lines, prices)
    ensures DiscardingTotal(acc, lines, prices) == acc
  {
    if lines != [] {
      assert CartStore.Priced(lines[1..], prices) by {
        forall j | 0 <= j < |lines[1..]| ensures lines[1..][j].productId in prices {
          assert lines[1..][j] == lines[j + 1];
        }
      }
      DiscardingTotalIsZero(acc, lines[1..], prices);
    }
  }

  /** The cart the order-service test builds (two units at 1000.00) gives an
      order total of ZERO as written, against 2000.00 intended. */
  lemma DiscardedTotalDiffers()
    ensures var lines := [CartStore.CartLine(1, 2)];
            var prices := map[1 := 1000_00];
            && DiscardingTotal(0, lines, prices) == 0
            && OrderTotal(Snapshot(lines, prices)) == 2000_00
  {
    var lines := [CartStore.CartLine(1, 2)];
    var prices := map[1 := 1000_00];
    DiscardingTotalIsZero(0, lines, prices);
    SnapshotTotal(lines, prices);
    assert lines[1..] == [];
  }

  /** The order `createOrder` builds from a non-empty cart. */
  function NewOrder(id: OrderId, userId: UserId, lines: seq<CartStore.CartLine>,
                    prices: map<ProductId, int>, shippingAddress: String): (o: Order)
    requires CartStore.Priced(lines, prices)
    ensures o.status == Pending && o.id == id && o.userId == userId
    ensures o.shippingAddress == shippingAddress
    ensures o.items == Snapshot(lines, prices)
    ensures o.totalAmount == OrderTotal(o.items) == CartStore.Total(lines, prices)
  {
    SnapshotTotal(lines, prices);
    Order(id, userId, Pending, OrderTotal(Snapshot(lines, prices)), shippingAddress, Snapshot(lines, prices))
  }

  class OrderService {
    var users: set<UserId>
    var prices: map<ProductId, int>
    var carts: map<UserId, CartStore.Cart>
    var orders: map<OrderId, Order>
    var nextOrderId: OrderId

    /** Every cart's products are known; every stored order sits under its own
        id, below the next id to hand out, and its total is the sum of its
        lines. */
    ghost predicate Valid()
      reads this
    {
      && (forall u :: u in carts ==> CartStore.Priced(carts[u].items, prices))
      && (forall id :: id in orders ==>
            && id < nextOrderId
            && orders[id].id == id
            && orders[id].totalAmount == OrderTotal(orders[id].items))
    }

    constructor (users: set<UserId>, prices: map<ProductId, int>, carts: map<UserId, CartStore.Cart>)
      requires forall u :: u in carts ==> CartStore.Priced(carts[u].items, prices)
      ensures Valid()
      ensures this.users == users && this.prices == prices && this.carts == carts && orders == map[]
    {
      this.users := users;
      this.prices := prices;
      this.carts := carts;
      orders := map[];
      nextOrderId := 1;
    }

    /** createOrder: fails for an unknown user, a user without a cart, or an
        empty cart, changing nothing; otherwise saves one PENDING order for
        the requested address with one line per cart line at the current
        price, and deletes the cart.  No stock is touched. */
    method CreateOrder(userId: UserId, shippingAddress: String) returns (r: Result<Order, OrderError>)
      requires Valid()
      modifies this`orders, this`carts, this`nextOrderId
      ensures Valid()
      ensures userId !in users ==> r == Failure(UserNotFound(userId))
      ensures userId in users && userId !in old(carts) ==> r == Failure(CartNotFound(userId))
      ensures userId in users && userId in old(carts) && old(carts)[userId].items == [] ==> r == Failure(EmptyCart)
      ensures r.Success? <==> userId in users && userId in old(carts) && old(carts)[userId].items != []
      ensures r.Failure? ==> orders == old(orders) && carts == old(carts) && nextOrderId == old(nextOrderId)
      ensures r.Success? ==>
                var lines := old(carts)[userId].items;
                && r.value.id !in old(orders)
                && r.value == NewOrder(r.value.id, userId, lines, prices, shippingAddress)
                && orders == old(orders)[r.value.id := r.value]
                && carts == old(carts) - {userId}
      ensures r.Success? ==>
                && r.value.status == Pending
                && |r.value.items| == |old(carts)[userId].items|
                && r.value.totalAmount == CartStore.Total(old(carts)[userId].items, prices)
    {
      if userId !in users {
        return Failure(UserNotFound(userId));
      }
      if userId !in carts {
        return Failure(CartNotFound(userId));
      }
      var cart := carts[userId];
      if cart.items == [] {
        return Failure(EmptyCart);
      }
      var order := NewOrder(nextOrderId, userId, cart.items, prices, shippingAddress);
      orders := orders[order.id := order];
      nextOrderId := nextOrderId + 1;
      carts := carts - {userId};
      return Success(order);
    }

    /** updateOrderStatus: overwrites the status with any value, with no check
        of the current one; an unknown id fails and changes nothing. */
    method UpdateOrderStatus(orderId: OrderId, status: OrderStatus) returns (r: Result<Order, OrderError>)
      requires Valid()
      modifies this`orders
      ensures Valid()
      ensures orderId !in old(orders) ==> r == Failure(OrderNotFound(orderId)) && orders == old(orders)
      ensures orderId in old(orders) ==>
                && r == Success(old(orders)[orderId].(status := status))
                && orders == old(orders)[orderId := r.value]
    {
      if orderId !in orders {
        return Failure(OrderNotFound(orderId));
      }
      var updated := orders[orderId].(status := status);
      orders := orders[orderId := updated];
      return Success(updated);
    }
  }
}
