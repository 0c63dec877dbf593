/** The JPA entities `Cart` and `CartItem` with the two link helpers of
    `Cart`: `addItem` puts an item into the cart's item set and points the
    item back at the cart; `removeItem` takes it out and clears the link.
    Items are compared by object identity here (the entities' generated
    `equals`/`hashCode` are not modelled). */
module CartEntity {
  import opened Common

  class CartItem {
    var cart: Cart?
    var productId: ProductId
    var quantity: int

    constructor (productId: ProductId, quantity: int)
      ensures this.cart == null && this.productId == productId && this.quantity == quantity
    {
      this.cart := null;
      this.productId := productId;
      this.quantity := quantity;
    }
  }

  class Cart {
    var owner: UserId
    var items: set<CartItem>
    var totalAmount: int

    /** A new cart holds no items (`items = new HashSet<>()`). */
    constructor (owner: UserId)
      ensures this.owner == owner && items == {} && totalAmount == 0
    {
      this.owner := owner;
      items := {};
      totalAmount := 0;
    }

    /** Adds `item` to the set and links it back to this cart.  A member that
        is already present leaves the set as it was. */
    method AddItem(item: CartItem)
      modifies this`items, item`cart
      ensures items == old(items) + {item}
      ensures item in items && item.cart == this
      ensures item in old(items) ==> items == old(items)
      ensures item.productId == old(item.productId) && item.quantity == old(item.quantity)
      ensures forall other :: other in old(items) && other != item ==> other.cart == old(other.cart)
    {
      items := items + {item};
      item.cart := this;
    }

    /** Removes `item` from the set and clears its link to a cart.  The other
        members keep their links. */
    method RemoveItem(item: CartItem)
      modifies this`items, item`cart
      ensures items == old(items) - {item}
      ensures item !in items && item.cart == null
      ensures item !in old(items) ==> items == old(items)
      ensures item.productId == old(item.productId) && item.quantity == old(item.quantity)
      ensures forall other :: other in old(items) && other != item ==> other.cart == old(other.cart)
    {
      items := items - {item};
      item.cart := null;
    }
  }
}
