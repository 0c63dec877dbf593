/** The cart store `CartServiceImpl`: get-or-create a user's cart, add or
    increment a line, set a line's quantity (a quantity <= 0 removes it),
    remove a line, clear the cart, and recompute the cached `totalAmount`
    after every change.

    A cart is kept as a sequence of lines, one per product; its meaning is the
    map from product id to quantity (`Quantities`), and every mutation is
    proved equal to the corresponding map update.  The store's repositories
    are maps: the users that exist, the current price of each product (in
    minor units) and the cart of each user. */
module CartStore {
  import opened Common

  datatype CartLine = CartLine(productId: ProductId, quantity: int)

  datatype Cart = Cart(items: seq<CartLine>, totalAmount: int)

  /** The exceptions the service throws. */
  datatype CartError =
    | QuantityNotPositive              // IllegalArgumentException
    | UserNotFound(userId: UserId)     // ResourceNotFoundException
    | ProductNotFound(productId: ProductId)
    | NotInCart(productId: ProductId)

  // ---------------------------------------------------------------------
  // Lines of a cart

  predicate HasLine(items: seq<CartLine>, pid: ProductId) {
    exists i :: 0 <= i < |items| && items[i].productId == pid
  }

  /** The first line for `pid` (`stream().filter(...).findFirst()`), or -1. */
  function FindLine(items: seq<CartLine>, pid: ProductId): (i: int)
    ensures -1 <= i < |items|
    ensures 0 <= i ==> items[i].productId == pid
    ensures 0 <= i ==> forall j :: 0 <= j < i ==> items[j].productId != pid
    ensures i == -1 <==> !HasLine(items, pid)
  {
    if items == [] then -1
    else if items[0].productId == pid then 0
    else
      var k := FindLine(items[1..], pid);
      assert forall j :: 1 <= j < |items| ==> items[j] == items[1..][j - 1];
      if k == -1 then -1 else k + 1
  }

  ghost predicate UniqueProducts(items: seq<CartLine>) {
    forall i, j :: 0 <= i < j < |items| ==> items[i].productId != items[j].productId
  }

  ghost predicate PositiveQuantities(items: seq<CartLine>) {
    forall i :: 0 <= i < |items| ==> items[i].quantity > 0
  }

  predicate Priced(items: seq<CartLine>, prices: map<ProductId, int>) {
    forall i :: 0 <= i < |items| ==> items[i].productId in prices
  }

  /** One line's contribution: the product's current price times the quantity. */
  function LineTotal(line: CartLine, prices: map<ProductId, int>): int
    requires line.productId in prices
  {
    prices[line.productId] * line.quantity
  }

  /** `calculateTotal`'s map/reduce: the sum of price x quantity over the lines. */
  function Total(items: seq<CartLine>, prices: map<ProductId, int>): int
    requires Priced(items, prices)
  {
    if items == [] then 0 else LineTotal(items[0], prices) + Total(items[1..], prices)
  }

  /** The invariant every stored cart keeps: one line per product, positive
      quantities, every product known, and a cached total that is exact. */
  ghost predicate WellFormed(cart: Cart, prices: map<ProductId, int>) {
    && Priced(cart.items, prices)
    && UniqueProducts(cart.items)
    && PositiveQuantities(cart.items)
    && cart.totalAmount == Total(cart.items, prices)
  }

  // ---------------------------------------------------------------------
  // The three line transformations the service applies

  /** addToCart: increment the line for `pid` by `q`, or append a new line. */
  function AddLine(items: seq<CartLine>, pid: ProductId, q: int): seq<CartLine> {
    var i := FindLine(items, pid);
    if 0 <= i then items[i := CartLine(pid, items[i].quantity + q)]
    else items + [CartLine(pid, q)]
  }

  /** The lines without the one at index i, the others in their order. */
  function DropAt(items: seq<CartLine>, i: int): (r: seq<CartLine>)
    requires 0 <= i < |items|
    ensures |r| == |items| - 1
    ensures forall j :: 0 <= j < i ==> r[j] == items[j]
    ensures forall j :: i <= j < |r| ==> r[j] == items[j + 1]
  {
    if i == 0 then items[1..] else [items[0]] + DropAt(items[1..], i - 1)
  }

  /** removeCartItem: drop the line for `pid`, if there is one. */
  function RemoveLine(items: seq<CartLine>, pid: ProductId): seq<CartLine> {
    var i := FindLine(items, pid);
    if 0 <= i then DropAt(items, i) else items
  }

  /** updateCartItemQuantity: a quantity <= 0 removes the line, any other
      quantity replaces it. */
  function UpdateLine(items: seq<CartLine>, pid: ProductId, q: int): seq<CartLine> {
    var i := FindLine(items, pid);
    if i < 0 then items
    else if q <= 0 then RemoveLine(items, pid)
    else items[i := CartLine(pid, q)]
  }

  // ---------------------------------------------------------------------
  // The meaning of a cart: product id |-> quantity

  function Quantities(items: seq<CartLine>): map<ProductId, int> {
    if items == [] then map[] else Quantities(items[1..])[items[0].productId := items[0].quantity]
  }

  function QuantityOf(m: map<ProductId, int>, pid: ProductId): int {
    if pid in m then m[pid] else 0
  }

  lemma {:induction false} QuantitiesDomain(items: seq<CartLine>, pid: ProductId)
    ensures pid in Quantities(items) <==> HasLine(items, pid)
  {
    if items != [] {
      QuantitiesDomain(items[1..], pid);
      assert forall j :: 1 <= j < |items| ==> items[j] == items[1..][j - 1];
      if HasLine(items, pid) && items[0].productId != pid {
        var j :| 0 <= j < |items| && items[j].productId == pid;
        assert items[1..][j - 1].productId == pid;
      }
    }
  }

  lemma {:induction false} QuantitiesAt(items: seq<CartLine>, i: int)
    requires UniqueProducts(items) && 0 <= i < |items|
    ensures items[i].productId in Quantities(items)
    ensures Quantities(items)[items[i].productId] == items[i].quantity
  {
    if i > 0 {
      QuantitiesAt(items[1..], i - 1);
      assert items[1..][i - 1] == items[i];
    }
  }

  /** Replacing a line's quantity updates that product in the map. */
  lemma {:induction false} QuantitiesReplace(items: seq<CartLine>, i: int, q: int)
    requires UniqueProducts(items) && 0 <= i < |items|
    ensures Quantities(items[i := CartLine(items[i].productId, q)])
         == Quantities(items)[items[i].productId := q]
  {
    var r := items[i := CartLine(items[i].productId, q)];
    if i == 0 {
      assert r[1..] == items[1..];
    } else {
      assert r[1..] == items[1..][i - 1 := CartLine(items[i].productId, q)];
      assert items[1..][i - 1] == items[i];
      QuantitiesReplace(items[1..], i - 1, q);
      assert items[0].productId != items[i].productId;
    }
  }

  /** Appending a line for a new product adds that product to the map. */
  lemma {:induction false} QuantitiesAppend(items: seq<CartLine>, line: CartLine)
    requires !HasLine(items, line.productId)
    ensures Quantities(items + [line]) == Quantities(items)[line.productId := line.quantity]
  {
    if items == [] {
      assert [line][1..] == [];
    } else {
      assert (items + [line])[1..] == items[1..] + [line];
      assert !HasLine(items[1..], line.productId) by {
        forall j | 0 <= j < |items[1..]| ensures items[1..][j].productId != line.productId {
          assert items[1..][j] == items[j + 1];
        }
      }
      QuantitiesAppend(items[1..], line);
      assert items[0].productId != line.productId;
    }
  }

  /** Dropping the line at i takes that product out of the map. */
  lemma {:induction false} QuantitiesDrop(items: seq<CartLine>, i: int)
    requires UniqueProducts(items) && 0 <= i < |items|
    ensures Quantities(DropAt(items, i)) == Quantities(items) - {items[i].productId}
  {
    var pid := items[i].productId;
    var tail := items[1..];
    if i == 0 {
      assert !HasLine(tail, pid) by {
        forall j | 0 <= j < |tail| ensures tail[j].productId != pid {
          assert tail[j] == items[j + 1];
        }
      }
      QuantitiesDomain(tail, pid);
    } else {
      assert tail[i - 1] == items[i];
      assert UniqueProducts(tail) by {
        forall a, b | 0 <= a < b < |tail| ensures tail[a].productId != tail[b].productId {
          assert tail[a] == items[a + 1] && tail[b] == items[b + 1];
        }
      }
      QuantitiesDrop(tail, i - 1);
      assert ([items[0]] + DropAt(tail, i - 1))[1..] == DropAt(tail, i - 1);
      assert items[0].productId != pid;
    }
  }

  // ---------------------------------------------------------------------
  // Totals

  lemma {:induction false} TotalConcat(a: seq<CartLine>, b: seq<CartLine>, prices: map<ProductId, int>)
    requires Priced(a, prices) && Priced(b, prices)
    ensures Priced(a + b, prices)
    ensures Total(a + b, prices) == Total(a, prices) + Total(b, prices)
  {
    if a == [] {
      assert a + b == b;
    } else {
      assert (a + b)[1..] == a[1..] + b;
      TotalConcat(a[1..], b, prices);
    }
  }

  lemma TotalSplit(items: seq<CartLine>, i: int, prices: map<ProductId, int>)
    requires Priced(items, prices) && 0 <= i < |items|
    ensures items == items[..i] + [items[i]] + items[i + 1..]
    ensures Total(items, prices)
         == Total(items[..i], prices) + LineTotal(items[i], prices) + Total(items[i + 1..], prices)
  {
    assert items == items[..i] + [items[i]] + items[i + 1..];
    TotalConcat(items[..i], [items[i]], prices);
    TotalConcat(items[..i] + [items[i]], items[i + 1..], prices);
    assert Total([items[i]], prices) == LineTotal(items[i], prices) by {
      assert [items[i]][1..] == [];
    }
  }

  /** Replacing one line changes the total by the difference of the two lines. */
  lemma TotalReplace(items: seq<CartLine>, i: int, line: CartLine, prices: map<ProductId, int>)
    requires Priced(items, prices) && 0 <= i < |items| && line.productId in prices
    ensures Priced(items[i := line], prices)
    ensures Total(items[i := line], prices)
         == Total(items, prices) - LineTotal(items[i], prices) + LineTotal(line, prices)
  {
    var r := items[i := line];
    assert r[..i] == items[..i] && r[i + 1..] == items[i + 1..];
    TotalSplit(items, i, prices);
    TotalSplit(r, i, prices);
  }

  /** Dropping one line lowers the total by that line's total. */
  lemma {:induction false} TotalDrop(items: seq<CartLine>, i: int, prices: map<ProductId, int>)
    requires Priced(items, prices) && 0 <= i < |items|
    ensures Priced(DropAt(items, i), prices)
    ensures Total(DropAt(items, i), prices) == Total(items, prices) - LineTotal(items[i], prices)
  {
    if i > 0 {
      var tail := items[1..];
      assert tail[i - 1] == items[i];
      TotalDrop(tail, i - 1, prices);
      assert ([items[0]] + DropAt(tail, i - 1))[1..] == DropAt(tail, i - 1);
    }
  }

  // ---------------------------------------------------------------------
  // What each transformation does, in terms of the map, the invariant and the total

  /** Adding q > 0 of a known product keeps the cart well formed. */
  lemma AddLineKeepsInvariant(items: seq<CartLine>, pid: ProductId, q: int, prices: map<ProductId, int>)
    requires Priced(items, prices) && UniqueProducts(items) && PositiveQuantities(items)
    requires pid in prices && q > 0
    ensures var r := AddLine(items, pid, q);
            Priced(r, prices) && UniqueProducts(r) && PositiveQuantities(r)
  {
  }

  /** addToCart adds exactly q to the product's quantity and leaves every other
      product's quantity alone; the line count grows only for a new product. */
  lemma AddLineQuantities(items: seq<CartLine>, pid: ProductId, q: int)
    requires UniqueProducts(items)
    ensures Quantities(AddLine(items, pid, q))
         == Quantities(items)[pid := QuantityOf(Quantities(items), pid) + q]
    ensures |AddLine(items, pid, q)| == if HasLine(items, pid) then |items| else |items| + 1
  {
    var i := FindLine(items, pid);
    if 0 <= i {
      QuantitiesReplace(items, i, items[i].quantity + q);
      QuantitiesAt(items, i);
    } else {
      QuantitiesAppend(items, CartLine(pid, q));
      QuantitiesDomain(items, pid);
    }
  }

  /** addToCart raises the total by price x q. */
  lemma AddLineTotal(items: seq<CartLine>, pid: ProductId, q: int, prices: map<ProductId, int>)
    requires Priced(items, prices) && pid in prices
    ensures Priced(AddLine(items, pid, q), prices)
    ensures Total(AddLine(items, pid, q), prices) == Total(items, prices) + prices[pid] * q
  {
    var i := FindLine(items, pid);
    if 0 <= i {
      TotalReplace(items, i, CartLine(pid, items[i].quantity + q), prices);
    } else {
      TotalConcat(items, [CartLine(pid, q)], prices);
      assert Total([CartLine(pid, q)], prices) == prices[pid] * q by {
        assert [CartLine(pid, q)][1..] == [];
      }
    }
  }

  /** Removing a line keeps the cart well formed and leaves no line for pid. */
  lemma RemoveLineKeepsInvariant(items: seq<CartLine>, pid: ProductId, prices: map<ProductId, int>)
    requires Priced(items, prices) && UniqueProducts(items) && PositiveQuantities(items)
    ensures var r := RemoveLine(items, pid);
            Priced(r, prices) && UniqueProducts(r) && PositiveQuantities(r) && !HasLine(r, pid)
  {
    var i := FindLine(items, pid);
    if 0 <= i {
      var r := RemoveLine(items, pid);
      forall a, b | 0 <= a < b < |r| ensures r[a].productId != r[b].productId {
        var a' := if a < i then a else a + 1;
        var b' := if b < i then b else b + 1;
        assert r[a] == items[a'] && r[b] == items[b'];
      }
      forall j | 0 <= j < |r| ensures r[j].productId != pid {
        var j' := if j < i then j else j + 1;
        assert r[j] == items[j'];
      }
    }
  }

  /** removeCartItem takes exactly pid out of the map; without a line for pid
      nothing changes. */
  lemma RemoveLineQuantities(items: seq<CartLine>, pid: ProductId)
    requires UniqueProducts(items)
    ensures Quantities(RemoveLine(items, pid)) == Quantities(items) - {pid}
    ensures HasLine(items, pid) ==> |RemoveLine(items, pid)| == |items| - 1
    ensures !HasLine(items, pid) ==> RemoveLine(items, pid) == items
  {
    var i := FindLine(items, pid);
    if 0 <= i {
      QuantitiesDrop(items, i);
    } else {
      QuantitiesDomain(items, pid);
      assert Quantities(items) - {pid} == Quantities(items);
    }
  }

  /** removeCartItem lowers the total by the removed line's total. */
  lemma RemoveLineTotal(items: seq<CartLine>, pid: ProductId, prices: map<ProductId, int>)
    requires Priced(items, prices) && UniqueProducts(items) && HasLine(items, pid)
    ensures Priced(RemoveLine(items, pid), prices) && pid in prices
    ensures Total(RemoveLine(items, pid), prices)
         == Total(items, prices) - prices[pid] * QuantityOf(Quantities(items), pid)
  {
    var i := FindLine(items, pid);
    TotalDrop(items, i, prices);
    QuantitiesAt(items, i);
  }

  /** updateCartItemQuantity keeps the cart well formed; a quantity <= 0 is
      removal and a product without a line leaves the cart as it is. */
  lemma UpdateLineKeepsInvariant(items: seq<CartLine>, pid: ProductId, q: int, prices: map<ProductId, int>)
    requires Priced(items, prices) && UniqueProducts(items) && PositiveQuantities(items)
    ensures var r := UpdateLine(items, pid, q);
            && Priced(r, prices) && UniqueProducts(r) && PositiveQuantities(r)
            && (!HasLine(items, pid) ==> r == items)
            && (q <= 0 ==> r == RemoveLine(items, pid))
  {
    RemoveLineKeepsInvariant(items, pid, prices);
    RemoveLineQuantities(items, pid);
  }

  /** A quantity q > 0 for a product with a line sets its quantity to exactly q,
      keeps the line count and every other product, and moves the total by
      the difference. */
  lemma UpdateLineSets(items: seq<CartLine>, pid: ProductId, q: int, prices: map<ProductId, int>)
    requires Priced(items, prices) && UniqueProducts(items) && HasLine(items, pid) && q > 0
    ensures Quantities(UpdateLine(items, pid, q)) == Quantities(items)[pid := q]
    ensures |UpdateLine(items, pid, q)| == |items|
    ensures Priced(UpdateLine(items, pid, q), prices) && pid in prices
    ensures Total(UpdateLine(items, pid, q), prices)
         == Total(items, prices) - prices[pid] * QuantityOf(Quantities(items), pid) + prices[pid] * q
  {
    var i := FindLine(items, pid);
    QuantitiesReplace(items, i, q);
    QuantitiesAt(items, i);
    TotalReplace(items, i, CartLine(pid, q), prices);
  }

  // ---------------------------------------------------------------------
  // The service

  /** The lines of a user's stored cart; a user without a cart has none. */
  function ItemsOf(carts: map<UserId, Cart>, userId: UserId): seq<CartLine> {
    if userId in carts then carts[userId].items else []
  }

  class CartService {
    var users: set<UserId>
    var prices: map<ProductId, int>
    var carts: map<UserId, Cart>

    /** Every stored cart belongs to an existing user and is well formed. */
    ghost predicate Valid()
      reads this
    {
      forall u :: u in carts ==> u in users && WellFormed(carts[u], prices)
    }

    constructor (users: set<UserId>, prices: map<ProductId, int>)
      ensures Valid()
      ensures this.users == users && this.prices == prices && carts == map[]
    {
      this.users := users;
      this.prices := prices;
      carts := map[];
    }

    /** getCartByUserId: the user's cart, created empty with total 0 on first
        access; unknown users fail. */
    method GetCartByUserId(userId: UserId) returns (r: Result<Cart, CartError>)
      requires Valid()
      modifies this`carts
      ensures Valid()
      ensures userId !in users ==> r == Failure(UserNotFound(userId)) && carts == old(carts)
      ensures userId in users ==> r.Success? && userId in carts && carts[userId] == r.value
      ensures userId in users && userId in old(carts) ==>
                r.value == old(carts)[userId] && carts == old(carts)
      ensures userId in users && userId !in old(carts) ==>
                r.value == Cart([], 0) && carts == old(carts)[userId := Cart([], 0)]
    {
      if userId !in users {
        return Failure(UserNotFound(userId));
      }
      if userId in carts {
        return Success(carts[userId]);
      }
      var created := Cart([], 0);
      carts := carts[userId := created];
      return Success(created);
    }

    /** addToCart: rejects a quantity <= 0 before any lookup, then an unknown
        user, then an unknown product; otherwise adds `quantity` to the
        product's line (or appends one) and recomputes the total.  A failure
        leaves every cart as it was, including one `getCartByUserId` created
        in the same transaction. */
    method AddToCart(userId: UserId, productId: ProductId, quantity: int) returns (r: Result<Cart, CartError>)
      requires Valid()
      modifies this`carts
      ensures Valid()
      ensures quantity <= 0 ==> r == Failure(QuantityNotPositive)
      ensures quantity > 0 && userId !in users ==> r == Failure(UserNotFound(userId))
      ensures quantity > 0 && userId in users && productId !in prices ==> r == Failure(ProductNotFound(productId))
      ensures r.Success? <==> quantity > 0 && userId in users && productId in prices
      ensures r.Failure? ==> carts == old(carts)
      ensures r.Success? ==>
                && carts == old(carts)[userId := r.value]
                && r.value.items == AddLine(ItemsOf(old(carts), userId), productId, quantity)
                && WellFormed(r.value, prices)
      ensures r.Success? ==>
                var before := ItemsOf(old(carts), userId);
                && Quantities(r.value.items) == Quantities(before)[productId := QuantityOf(Quantities(before), productId) + quantity]
                && r.value.totalAmount == (if userId in old(carts) then old(carts)[userId].totalAmount else 0) + prices[productId] * quantity
    {
      if quantity <= 0 {
        return Failure(QuantityNotPositive);
      }
      var saved := carts;
      var got := GetCartByUserId(userId);
      if got.Failure? {
        return Failure(got.error);
      }
      var cart := got.value;
      if productId !in prices {
        carts := saved;  // the transaction rolls back the cart created above
        return Failure(ProductNotFound(productId));
      }
      assert cart.items == ItemsOf(old(carts), userId);
      AddLineKeepsInvariant(cart.items, productId, quantity, prices);
      AddLineQuantities(cart.items, productId, quantity);
      AddLineTotal(cart.items, productId, quantity, prices);
      var items := AddLine(cart.items, productId, quantity);
      var updated := Cart(items, Total(items, prices));
      carts := carts[userId := updated];
      return Success(updated);
    }

    /** updateCartItemQuantity: fails for an unknown user or a product with no
        line (changing nothing); otherwise a quantity <= 0 removes the line
        and any other quantity replaces it, and the total is recomputed. */
    method UpdateCartItemQuantity(userId: UserId, productId: ProductId, quantity: int) returns (r: Result<Cart, CartError>)
      requires Valid()
      modifies this`carts
      ensures Valid()
      ensures userId !in users ==> r == Failure(UserNotFound(userId))
      ensures userId in users && !HasLine(ItemsOf(old(carts), userId), productId) ==> r == Failure(NotInCart(productId))
      ensures r.Success? <==> userId in users && HasLine(ItemsOf(old(carts), userId), productId)
      ensures r.Failure? ==> carts == old(carts)
      ensures r.Success? ==>
                && carts == old(carts)[userId := r.value]
                && r.value.items == UpdateLine(ItemsOf(old(carts), userId), productId, quantity)
                && WellFormed(r.value, prices)
      ensures r.Success? && quantity <= 0 ==>
                Quantities(r.value.items) == Quantities(ItemsOf(old(carts), userId)) - {productId}
      ensures r.Success? && quantity > 0 ==>
                Quantities(r.value.items) == Quantities(ItemsOf(old(carts), userId))[productId := quantity]
    {
      var saved := carts;
      var got := GetCartByUserId(userId);
      if got.Failure? {
        return Failure(got.error);
      }
      var cart := got.value;
      assert cart.items == ItemsOf(old(carts), userId);
      var i := FindLine(cart.items, productId);
      if i < 0 {
        carts := saved;  // rolled back with the failing transaction
        return Failure(NotInCart(productId));
      }
      UpdateLineKeepsInvariant(cart.items, productId, quantity, prices);
      RemoveLineQuantities(cart.items, productId);
      if quantity > 0 {
        UpdateLineSets(cart.items, productId, quantity, prices);
      }
      var items := UpdateLine(cart.items, productId, quantity);
      var updated := Cart(items, Total(items, prices));
      carts := carts[userId := updated];
      return Success(updated);
    }

    /** removeCartItem: removes exactly the product's line and recomputes the
        total, or fails (unknown user, no such line) changing nothing. */
    method RemoveCartItem(userId: UserId, productId: ProductId) returns (r: Outcome<CartError>)
      requires Valid()
      modifies this`carts
      ensures Valid()
      ensures userId !in users ==> r == Fail(UserNotFound(userId))
      ensures userId in users && !HasLine(ItemsOf(old(carts), userId), productId) ==> r == Fail(NotInCart(productId))
      ensures r.Pass? <==> userId in users && HasLine(ItemsOf(old(carts), userId), productId)
      ensures r.Fail? ==> carts == old(carts)
      ensures r.Pass? ==>
                && userId in carts
                && carts == old(carts)[userId := carts[userId]]
                && carts[userId].items == RemoveLine(ItemsOf(old(carts), userId), productId)
                && Quantities(carts[userId].items) == Quantities(ItemsOf(old(carts), userId)) - {productId}
    {
      var saved := carts;
      var got := GetCartByUserId(userId);
      if got.Failure? {
        return Fail(got.error);
      }
      var cart := got.value;
      assert cart.items == ItemsOf(old(carts), userId);
      var i := FindLine(cart.items, productId);
      if i < 0 {
        carts := saved;
        return Fail(NotInCart(productId));
      }
      RemoveLineKeepsInvariant(cart.items, productId, prices);
      RemoveLineQuantities(cart.items, productId);
      var items := RemoveLine(cart.items, productId);
      carts := carts[userId := Cart(items, Total(items, prices))];
      return Pass;
    }

    /** clearCart: the user's cart ends with no lines and a total of 0 (it is
        created first if the user had none). */
    method ClearCart(userId: UserId) returns (r: Outcome<CartError>)
      requires Valid()
      modifies this`carts
      ensures Valid()
      ensures userId !in users ==> r == Fail(UserNotFound(userId)) && carts == old(carts)
      ensures userId in users ==> r == Pass && carts == old(carts)[userId := Cart([], 0)]
    {
      var got := GetCartByUserId(userId);
      if got.Failure? {
        return Fail(got.error);
      }
      carts := carts[userId := Cart([], 0)];
      return Pass;
    }

    /** calculateTotal: the sum of price x quantity over the user's cart,
        which equals the cached `totalAmount`. */
    method CalculateTotal(userId: UserId) returns (r: Result<int, CartError>)
      requires Valid()
      modifies this`carts
      ensures Valid()
      ensures userId !in users ==> r == Failure(UserNotFound(userId)) && carts == old(carts)
      ensures userId in users ==>
                && userId in carts
                && carts == old(carts)[userId := carts[userId]]
                && r == Success(Total(carts[userId].items, prices))
                && r.value == carts[userId].totalAmount
                && carts[userId].items == ItemsOf(old(carts), userId)
    {
      var got := GetCartByUserId(userId);
      if got.Failure? {
        return Failure(got.error);
      }
      return Success(Total(got.value.items, prices));
    }
  }
}
