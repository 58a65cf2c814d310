/** The client-side cart store (`CartProvider` in src/lib/cart-context.tsx):
    a list of cart items and a loading flag, changed only after the remote
    write behind each operation has succeeded. */
module CartContext {
  import opened Results

  datatype Product = Product(id: string, name: string, price: real, images: seq<string>)

  /** A row of `cart_items` joined with its product. */
  datatype CartItem = CartItem(id: string, productId: string, quantity: int, product: Product)

  /** No two items of the cart are for the same product. */
  predicate UniqueProducts(items: seq<CartItem>) {
    forall i, j :: 0 <= i < j < |items| ==> items[i].productId != items[j].productId
  }

  /** Every item has a quantity of at least one. */
  predicate QuantitiesPositive(items: seq<CartItem>) {
    forall x :: x in items ==> x.quantity >= 1
  }

  /** `prevItems.find(item => item.product_id === productId)` finds something. */
  predicate HasProduct(items: seq<CartItem>, productId: string) {
    exists i :: 0 <= i < |items| && items[i].productId == productId
  }

  /** `prevItems.filter(item => item.id !== itemId)`: the updater of `removeItem`. */
  function Removed(items: seq<CartItem>, itemId: string): (r: seq<CartItem>)
    ensures |r| <= |items|
    ensures forall x :: x in r <==> x in items && x.id != itemId
    ensures (forall x :: x in items ==> x.id != itemId) ==> r == items
  {
    if items == [] then []
    else if items[0].id == itemId then Removed(items[1..], itemId)
    else [items[0]] + Removed(items[1..], itemId)
  }

  /** `prevItems.map(item => item.id === itemId ? { ...item, quantity } : item)`:
      the updater of `updateQuantity`. */
  function WithQuantity(items: seq<CartItem>, itemId: string, quantity: int): (r: seq<CartItem>)
    ensures |r| == |items|
    ensures forall i :: 0 <= i < |items| ==>
      r[i].id == items[i].id && r[i].productId == items[i].productId && r[i].product == items[i].product
    ensures forall i :: 0 <= i < |items| ==>
      r[i].quantity == if items[i].id == itemId then quantity else items[i].quantity
    ensures UniqueProducts(items) ==> UniqueProducts(r)
    ensures quantity >= 1 && QuantitiesPositive(items) ==> QuantitiesPositive(r)
  {
    seq(|items|, i requires 0 <= i < |items| =>
      if items[i].id == itemId then items[i].(quantity := quantity) else items[i])
  }

  /** The `map` branch of `addItem`'s updater: every item of the product gets
      `quantity` more. */
  function WithAddedQuantity(items: seq<CartItem>, productId: string, quantity: int): (r: seq<CartItem>)
    ensures |r| == |items|
    ensures forall i :: 0 <= i < |items| ==>
      r[i].id == items[i].id && r[i].productId == items[i].productId && r[i].product == items[i].product
    ensures forall i :: 0 <= i < |items| ==>
      r[i].quantity == items[i].quantity + if items[i].productId == productId then quantity else 0
    ensures UniqueProducts(items) ==> UniqueProducts(r)
  {
    seq(|items|, i requires 0 <= i < |items| =>
      if items[i].productId == productId then items[i].(quantity := items[i].quantity + quantity)
      else items[i])
  }

  /** The updater of `addItem`: raise the quantity of the product already in
      the cart, or else append the row the upsert returned. */
  function Added(items: seq<CartItem>, productId: string, quantity: int, row: CartItem): (r: seq<CartItem>)
    ensures HasProduct(items, productId) ==> |r| == |items|
    ensures HasProduct(items, productId) ==> forall i :: 0 <= i < |items| ==>
      r[i].id == items[i].id && r[i].productId == items[i].productId && r[i].product == items[i].product &&
      r[i].quantity == items[i].quantity + if items[i].productId == productId then quantity else 0
    ensures !HasProduct(items, productId) ==>
      |r| == |items| + 1 && r[..|items|] == items && r[|items|] == row
    ensures UniqueProducts(items) && row.productId == productId ==> UniqueProducts(r)
  {
    if HasProduct(items, productId) then WithAddedQuantity(items, productId, quantity)
    else items + [row]
  }

  /** Filtering distributes over concatenation, so `removeItem` keeps the
      surviving items in their original order. */
  lemma {:induction false} RemovedDistributes(a: seq<CartItem>, b: seq<CartItem>, itemId: string)
    ensures Removed(a + b, itemId) == Removed(a, itemId) + Removed(b, itemId)
  {
    if a == [] {
      assert a + b == b;
    } else {
      assert (a + b)[0] == a[0];
      assert (a + b)[1..] == a[1..] + b;
      RemovedDistributes(a[1..], b, itemId);
    }
  }

  /** Removing one item id keeps the product ids unique. */
  lemma {:induction false} RemovedKeepsUnique(items: seq<CartItem>, itemId: string)
    requires UniqueProducts(items)
    ensures UniqueProducts(Removed(items, itemId))
  {
    if items != [] {
      var tail := items[1..];
      assert UniqueProducts(tail) by {
        forall i, j | 0 <= i < j < |tail| ensures tail[i].productId != tail[j].productId {
          assert tail[i] == items[i + 1] && tail[j] == items[j + 1];
        }
      }
      RemovedKeepsUnique(tail, itemId);
      if items[0].id != itemId {
        var rest := Removed(tail, itemId);
        var r := [items[0]] + rest;
        forall x | x in rest ensures x.productId != items[0].productId {
          var k :| 0 <= k < |tail| && tail[k] == x;
          assert items[k + 1] == x;
        }
        forall i, j | 0 <= i < j < |r| ensures r[i].productId != r[j].productId {
          assert r[j] == rest[j - 1];
          if i > 0 {
            assert r[i] == rest[i - 1];
          } else {
            assert r[j] in rest;
          }
        }
      }
    }
  }

  /** The cart store. `items` and `isLoading` are the component's state; the
      outcome of every remote call the operation makes is a parameter. */
  class CartProvider {
    var items: seq<CartItem>
    var isLoading: bool

    /** `useState([])` and `useState(true)`. */
    constructor ()
      ensures items == [] && isLoading
    {
      items := [];
      isLoading := true;
    }

    /** `loadCart`: with no signed-in user the cart is emptied; a failed
        select leaves it as it was; `data || []` replaces it otherwise.
        The `finally` clause clears the loading flag on every path. */
    method LoadCart(user: Option<string>, selected: Remote<Option<seq<CartItem>>>)
      modifies this
      ensures !isLoading
      ensures user.None? ==> items == []
      ensures user.Some? && selected.Failed? ==> items == old(items)
      ensures user.Some? && selected.Ok? ==>
        items == match selected.value { case Some(rows) => rows case None => [] }
    {
      if user.None? {
        items := [];
        isLoading := false;
        return;
      }
      if selected.Failed? {
        isLoading := false;
        return;
      }
      items := match selected.value { case Some(rows) => rows case None => [] };
      isLoading := false;
    }

    /** `addItem`: needs a signed-in user and a successful upsert, whose
        returned row is what gets appended for a product not yet in the cart. */
    method AddItem(productId: string, quantity: int, user: Option<string>, upserted: Remote<CartItem>)
      modifies this
      ensures isLoading == old(isLoading)
      ensures user.None? || upserted.Failed? ==> items == old(items)
      ensures user.Some? && upserted.Ok? ==> items == Added(old(items), productId, quantity, upserted.value)
      ensures UniqueProducts(old(items)) && (upserted.Ok? ==> upserted.value.productId == productId) ==>
        UniqueProducts(items)
    {
      if user.None? {
        return;
      }
      if upserted.Failed? {
        return;
      }
      items := Added(items, productId, quantity, upserted.value);
    }

    /** `removeItem`: drops the item with that id once the delete succeeded. */
    method RemoveItem(itemId: string, deleted: Remote<()>)
      modifies this
      ensures isLoading == old(isLoading)
      ensures items == if deleted.Ok? then Removed(old(items), itemId) else old(items)
      ensures UniqueProducts(old(items)) ==> UniqueProducts(items)
      ensures QuantitiesPositive(old(items)) ==> QuantitiesPositive(items)
    {
      if deleted.Failed? {
        return;
      }
      if UniqueProducts(items) {
        RemovedKeepsUnique(items, itemId);
      }
      items := Removed(items, itemId);
    }

    /** `updateQuantity`: a quantity below one is a `removeItem` of the same
        id (`written` is then the delete's outcome); otherwise the item's
        quantity is set once the update succeeded. */
    method UpdateQuantity(itemId: string, quantity: int, written: Remote<()>)
      modifies this
      ensures isLoading == old(isLoading)
      ensures quantity < 1 ==>
        items == if written.Ok? then Removed(old(items), itemId) else old(items)
      ensures quantity >= 1 ==>
        items == if written.Ok? then WithQuantity(old(items), itemId, quantity) else old(items)
      ensures UniqueProducts(old(items)) ==> UniqueProducts(items)
      ensures QuantitiesPositive(old(items)) ==> QuantitiesPositive(items)
    {
      if quantity < 1 {
        RemoveItem(itemId, written);
        return;
      }
      if written.Failed? {
        return;
      }
      items := WithQuantity(items, itemId, quantity);
    }

    /** `clearCart`: empties the cart once the delete of the user's rows
        succeeded; without a signed-in user nothing happens. */
    method ClearCart(user: Option<string>, deleted: Remote<()>)
      modifies this
      ensures isLoading == old(isLoading)
      ensures items == if user.Some? && deleted.Ok? then [] else old(items)
    {
      if user.None? || deleted.Failed? {
        return;
      }
      items := [];
    }
  }
}
