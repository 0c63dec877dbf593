/** The browser-side cart of `CartContext`: a list of items, each a product
    object spread together with a quantity, and the updates the context
    hands to components.  Each update is a function from the previous list
    to the next one, as the source's `setCartItems` callbacks are.  The
    product's other fields are carried unchanged as `details`. */
module CartContext {
  import opened Common

  /** A product object as components pass it in; `quantity` is whatever such
      field it happens to carry. */
  datatype Product<D> = Product(id: int, details: D, quantity: Option<int>)

  /** A cart entry: the product's fields with the cart quantity. */
  datatype Item<D> = Item(id: int, details: D, quantity: int)

  predicate HasId<D>(items: seq<Item<D>>, id: int) {
    exists i :: 0 <= i < |items| && items[i].id == id
  }

  /** No two entries share an id. */
  predicate UniqueIds<D>(items: seq<Item<D>>) {
    forall i, j :: 0 <= i < j < |items| ==> items[i].id != items[j].id
  }

  /** `findIndex` on the id: the first entry with it, or -1. */
  function FindIndex<D>(items: seq<Item<D>>, id: int): (i: int)
    ensures -1 <= i < |items|
    ensures i == -1 <==> !HasId(items, id)
    ensures 0 <= i ==> items[i].id == id && forall j :: 0 <= j < i ==> items[j].id != id
  {
    if items == [] then -1
    else if items[0].id == id then 0
    else
      var k := FindIndex(items[1..], id);
      if k == -1 then -1 else k + 1
  }

  /** addToCart: the first entry with the product's id gets `quantity` more
      (default 1); a new id is appended with exactly that quantity, whatever
      quantity the product object carried. */
  function AddToCart<D>(items: seq<Item<D>>, product: Product<D>, quantity: Option<int>): seq<Item<D>> {
    var q := if quantity.Some? then quantity.value else 1;
    var i := FindIndex(items, product.id);
    if i > -1 then items[i := items[i].(quantity := items[i].quantity + q)]
    else items + [Item(product.id, product.details, q)]
  }

  /** removeItem: keeps, in order, every entry with another id. */
  function RemoveItem<D>(items: seq<Item<D>>, id: int): seq<Item<D>> {
    if items == [] then []
    else if items[0].id != id then [items[0]] + RemoveItem(items[1..], id)
    else RemoveItem(items[1..], id)
  }

  /** Every entry with the id gets the quantity; the others are kept. */
  function SetQuantity<D>(items: seq<Item<D>>, id: int, q: int): (r: seq<Item<D>>)
    ensures |r| == |items|
    ensures forall i :: 0 <= i < |items| ==>
              r[i] == if items[i].id == id then items[i].(quantity := q) else items[i]
  {
    if items == [] then []
    else [if items[0].id == id then items[0].(quantity := q) else items[0]] + SetQuantity(items[1..], id, q)
  }

  /** updateQuantity: a quantity of zero or less removes the id; any other
      sets it on the matching entries. */
  function UpdateQuantity<D>(items: seq<Item<D>>, id: int, newQuantity: int): seq<Item<D>> {
    if newQuantity <= 0 then RemoveItem(items, id) else SetQuantity(items, id, newQuantity)
  }

  /** clearCart. */
  function ClearCart<D>(): (r: seq<Item<D>>)
    ensures |r| == 0
  {
    []
  }

  /** totalItems: the sum of the quantities. */
  function TotalItems<D>(items: seq<Item<D>>): int {
    if items == [] then 0 else items[0].quantity + TotalItems(items[1..])
  }

  /** The summed quantity of the entries with an id. */
  function QuantityOfId<D>(items: seq<Item<D>>, id: int): int {
    if items == [] then 0
    else (if items[0].id == id then items[0].quantity else 0) + QuantityOfId(items[1..], id)
  }

  // ---- addToCart ----

  /** A known id: same length and order; only the first matching entry
      changes, and only in its quantity, which grows by the given amount. */
  lemma AddToCartExisting<D>(items: seq<Item<D>>, product: Product<D>, quantity: Option<int>)
    requires HasId(items, product.id)
    ensures var r := AddToCart(items, product, quantity);
            var i := FindIndex(items, product.id);
            var q := if quantity.Some? then quantity.value else 1;
            && |r| == |items|
            && r[i] == items[i].(quantity := items[i].quantity + q)
            && (forall j :: 0 <= j < |items| && j != i ==> r[j] == items[j])
  {
  }

  /** A new id: one entry appended at the end, with the given quantity
      (default 1) in place of any the product carried. */
  lemma AddToCartNew<D>(items: seq<Item<D>>, product: Product<D>, quantity: Option<int>)
    requires !HasId(items, product.id)
    ensures AddToCart(items, product, quantity) ==
              items + [Item(product.id, product.details, if quantity.Some? then quantity.value else 1)]
    ensures AddToCart(items, product, None)[|items|].quantity == 1
  {
  }

  /** addToCart keeps ids unique. */
  lemma AddToCartKeepsUniqueIds<D>(items: seq<Item<D>>, product: Product<D>, quantity: Option<int>)
    requires UniqueIds(items)
    ensures UniqueIds(AddToCart(items, product, quantity))
    ensures HasId(AddToCart(items, product, quantity), product.id)
  {
    var r := AddToCart(items, product, quantity);
    var i := FindIndex(items, product.id);
    if i > -1 {
      assert forall j :: 0 <= j < |r| ==> r[j].id == items[j].id;
    } else {
      assert r[|items|].id == product.id;
    }
  }

  // ---- totalItems ----

  lemma {:induction false} TotalItemsAppend<D>(a: seq<Item<D>>, b: seq<Item<D>>)
    ensures TotalItems(a + b) == TotalItems(a) + TotalItems(b)
  {
    if a == [] {
      assert a + b == b;
    } else {
      assert (a + b)[1..] == a[1..] + b;
      TotalItemsAppend(a[1..], b);
    }
  }

  lemma {:induction false} TotalItemsReplace<D>(items: seq<Item<D>>, i: int, x: Item<D>)
    requires 0 <= i < |items|
    ensures TotalItems(items[i := x]) == TotalItems(items) - items[i].quantity + x.quantity
  {
    if i > 0 {
      assert items[i := x][1..] == items[1..][i - 1 := x];
      TotalItemsReplace(items[1..], i - 1, x);
    } else {
      assert items[i := x][1..] == items[1..];
    }
  }

  /** addToCart raises the item total by exactly the quantity added. */
  lemma AddToCartTotal<D>(items: seq<Item<D>>, product: Product<D>, quantity: Option<int>)
    ensures TotalItems(AddToCart(items, product, quantity)) ==
              TotalItems(items) + (if quantity.Some? then quantity.value else 1)
  {
    var q := if quantity.Some? then quantity.value else 1;
    var i := FindIndex(items, product.id);
    if i > -1 {
      TotalItemsReplace(items, i, items[i].(quantity := items[i].quantity + q));
    } else {
      TotalItemsAppend(items, [Item(product.id, product.details, q)]);
    }
  }

  /** The total splits into the entries with an id and the rest. */
  lemma {:induction false} TotalItemsRemove<D>(items: seq<Item<D>>, id: int)
    ensures TotalItems(items) == TotalItems(RemoveItem(items, id)) + QuantityOfId(items, id)
  {
    if items != [] {
      TotalItemsRemove(items[1..], id);
      if items[0].id != id {
        assert ([items[0]] + RemoveItem(items[1..], id))[1..] == RemoveItem(items[1..], id);
      }
    }
  }

  /** With unique ids, an id's summed quantity is the quantity of its one
      entry. */
  lemma {:induction false} QuantityOfUniqueId<D>(items: seq<Item<D>>, id: int)
    requires UniqueIds(items)
    ensures QuantityOfId(items, id) == if HasId(items, id) then items[FindIndex(items, id)].quantity else 0
  {
    if items != [] {
      assert UniqueIds(items[1..]) by {
        forall i, j | 0 <= i < j < |items[1..]| ensures items[1..][i].id != items[1..][j].id {
          assert items[1..][i] == items[i + 1] && items[1..][j] == items[j + 1];
        }
      }
      QuantityOfUniqueId(items[1..], id);
      if items[0].id == id {
        assert !HasId(items[1..], id) by {
          forall k | 0 <= k < |items[1..]| ensures items[1..][k].id != id {
            assert items[1..][k] == items[k + 1];
          }
        }
      } else if HasId(items, id) {
        var k :| 0 <= k < |items| && items[k].id == id;
        assert items[1..][k - 1].id == id;
      } else {
        assert !HasId(items[1..], id) by {
          forall k | 0 <= k < |items[1..]| ensures items[1..][k].id != id {
            assert items[1..][k] == items[k + 1];
          }
        }
      }
    }
  }

  // ---- removeItem ----

  /** removeItem keeps exactly the entries with another id, in order: it
      splits over concatenation, and leaves a list without the id as it is. */
  lemma {:induction false} RemoveItemKeeps<D>(items: seq<Item<D>>, id: int)
    ensures !HasId(RemoveItem(items, id), id)
    ensures forall x :: x in RemoveItem(items, id) ==> x in items && x.id != id
    ensures forall x :: x in items && x.id != id ==> x in RemoveItem(items, id)
    ensures |RemoveItem(items, id)| <= |items|
    ensures !HasId(items, id) ==> RemoveItem(items, id) == items
  {
    if items != [] {
      RemoveItemKeeps(items[1..], id);
      assert items == [items[0]] + items[1..];
      if !HasId(items, id) {
        assert !HasId(items[1..], id) by {
          forall k | 0 <= k < |items[1..]| ensures items[1..][k].id != id {
            assert items[1..][k] == items[k + 1];
          }
        }
      }
      var r := RemoveItem(items, id);
      forall k | 0 <= k < |r| ensures r[k].id != id {
        assert r[k] in r;
      }
    }
  }

  lemma {:induction false} RemoveItemConcat<D>(a: seq<Item<D>>, b: seq<Item<D>>, id: int)
    ensures RemoveItem(a + b, id) == RemoveItem(a, id) + RemoveItem(b, id)
  {
    if a == [] {
      assert a + b == b;
    } else {
      assert (a + b)[0] == a[0] && (a + b)[1..] == a[1..] + b;
      RemoveItemConcat(a[1..], b, id);
    }
  }

  /** removeItem keeps ids unique. */
  lemma {:induction false} RemoveItemKeepsUniqueIds<D>(items: seq<Item<D>>, id: int)
    requires UniqueIds(items)
    ensures UniqueIds(RemoveItem(items, id))
  {
    if items != [] {
      assert UniqueIds(items[1..]) by {
        forall i, j | 0 <= i < j < |items[1..]| ensures items[1..][i].id != items[1..][j].id {
          assert items[1..][i] == items[i + 1] && items[1..][j] == items[j + 1];
        }
      }
      RemoveItemKeepsUniqueIds(items[1..], id);
      RemoveItemKeeps(items[1..], id);
      var rest := RemoveItem(items[1..], id);
      if items[0].id != id {
        var r := [items[0]] + rest;
        forall i, j | 0 <= i < j < |r| ensures r[i].id != r[j].id {
          if i == 0 {
            assert r[j] == rest[j - 1] && rest[j - 1] in rest;
            assert r[j] in items[1..];
            var k :| 0 <= k < |items[1..]| && items[1..][k] == r[j];
            assert items[k + 1] == r[j];
          } else {
            assert r[i] == rest[i - 1] && r[j] == rest[j - 1];
          }
        }
      }
    }
  }

  // ---- updateQuantity ----

  /** A quantity of zero or less is removeItem; any other sets exactly the
      matching entries' quantity, keeping length, order and everything else. */
  lemma UpdateQuantityCases<D>(items: seq<Item<D>>, id: int, newQuantity: int)
    ensures newQuantity <= 0 ==> UpdateQuantity(items, id, newQuantity) == RemoveItem(items, id)
    ensures newQuantity > 0 ==>
              var r := UpdateQuantity(items, id, newQuantity);
              && |r| == |items|
              && (forall i :: 0 <= i < |items| && items[i].id == id ==> r[i] == items[i].(quantity := newQuantity))
              && (forall i :: 0 <= i < |items| && items[i].id != id ==> r[i] == items[i])
  {
  }

  /** Applying the same update twice is applying it once. */
  lemma UpdateQuantityIdempotent<D>(items: seq<Item<D>>, id: int, newQuantity: int)
    ensures UpdateQuantity(UpdateQuantity(items, id, newQuantity), id, newQuantity) ==
              UpdateQuantity(items, id, newQuantity)
  {
    if newQuantity <= 0 {
      RemoveItemKeeps(items, id);
      RemoveItemKeeps(RemoveItem(items, id), id);
    } else {
      var r := SetQuantity(items, id, newQuantity);
      assert SetQuantity(r, id, newQuantity) == r;
    }
  }

  /** With unique ids, a positive update of a present id changes the item
      total by the difference between the new and the old quantity. */
  lemma UpdateQuantityTotal<D>(items: seq<Item<D>>, id: int, newQuantity: int)
    requires UniqueIds(items) && HasId(items, id) && newQuantity > 0
    ensures TotalItems(UpdateQuantity(items, id, newQuantity)) ==
              TotalItems(items) - items[FindIndex(items, id)].quantity + newQuantity
  {
    var i := FindIndex(items, id);
    var r := SetQuantity(items, id, newQuantity);
    assert r == items[i := items[i].(quantity := newQuantity)];
    TotalItemsReplace(items, i, items[i].(quantity := newQuantity));
  }

  /** updateQuantity keeps ids unique. */
  lemma UpdateQuantityKeepsUniqueIds<D>(items: seq<Item<D>>, id: int, newQuantity: int)
    requires UniqueIds(items)
    ensures UniqueIds(UpdateQuantity(items, id, newQuantity))
  {
    if newQuantity <= 0 {
      RemoveItemKeepsUniqueIds(items, id);
    }
  }
}
