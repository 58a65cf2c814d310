/** The pricing rule of the cart summary (`CartSummary` in
    src/app/cart/page.tsx): subtotal, 10% tax, shipping free above 100,
    and their total. Money is exact: `real` stands for the source's numbers
    without binary rounding. */
module CartPage {
  import opened CartContext

  /** What one item adds to the subtotal: `item.product.price * item.quantity`. */
  function LineAmount(item: CartItem): real {
    item.product.price * item.quantity as real
  }

  /** `items.reduce((total, item) => total + LineAmount(item), acc)`, a left fold. */
  function SumFrom(acc: real, items: seq<CartItem>): real
    decreases items
  {
    if items == [] then acc else SumFrom(acc + LineAmount(items[0]), items[1..])
  }

  /** The reduce that starts from 0. */
  function Subtotal(items: seq<CartItem>): (r: real)
    ensures items == [] ==> r == 0.0
  {
    SumFrom(0.0, items)
  }

  /** `subtotal * 0.1`. */
  function Tax(subtotal: real): (r: real)
    ensures r * 10.0 == subtotal
  {
    subtotal * 0.1
  }

  /** `subtotal > 100 ? 0 : 10`. */
  function Shipping(subtotal: real): (r: real)
    ensures r == 0.0 <==> subtotal > 100.0
    ensures r == 0.0 || r == 10.0
  {
    if subtotal > 100.0 then 0.0 else 10.0
  }

  datatype Summary = Summary(subtotal: real, tax: real, shipping: real, total: real)

  /** The four amounts the summary shows. */
  function CartSummary(items: seq<CartItem>): (s: Summary)
    ensures s.subtotal == Subtotal(items)
    ensures s.tax * 10.0 == s.subtotal
    ensures s.shipping == (if s.subtotal > 100.0 then 0.0 else 10.0)
    ensures s.total == s.subtotal + s.tax + s.shipping
  {
    var subtotal := Subtotal(items);
    var tax := Tax(subtotal);
    var shipping := Shipping(subtotal);
    Summary(subtotal, tax, shipping, subtotal + tax + shipping)
  }

  /** How the shipping line is displayed. */
  datatype ShippingDisplay = Free | Charged(amount: real)

  /** `shipping === 0 ? 'Free' : '$' + shipping`. */
  function ShippingLabel(shipping: real): (d: ShippingDisplay)
    ensures d == Free <==> shipping == 0.0
    ensures d.Charged? ==> d.amount == shipping
  {
    if shipping == 0.0 then Free else Charged(shipping)
  }

  /** Starting the fold from `acc` only adds `acc`. */
  lemma {:induction false} SumFromShift(acc: real, items: seq<CartItem>)
    ensures SumFrom(acc, items) == acc + SumFrom(0.0, items)
    decreases items
  {
    if items != [] {
      SumFromShift(acc + LineAmount(items[0]), items[1..]);
      SumFromShift(0.0 + LineAmount(items[0]), items[1..]);
    }
  }

  /** The subtotal of a non-empty list is its first line plus the rest. */
  lemma SubtotalCons(items: seq<CartItem>)
    requires items != []
    ensures Subtotal(items) == LineAmount(items[0]) + Subtotal(items[1..])
  {
    SumFromShift(0.0 + LineAmount(items[0]), items[1..]);
  }

  /** The subtotal of two lists put together is the sum of their subtotals. */
  lemma {:induction false} SubtotalAppend(a: seq<CartItem>, b: seq<CartItem>)
    ensures Subtotal(a + b) == Subtotal(a) + Subtotal(b)
  {
    if a == [] {
      assert a + b == b;
    } else {
      assert (a + b)[0] == a[0];
      assert (a + b)[1..] == a[1..] + b;
      SubtotalCons(a + b);
      SubtotalCons(a);
      SubtotalAppend(a[1..], b);
    }
  }

  /** Taking one item out of the list takes its line off the subtotal. */
  lemma SubtotalWithout(b: seq<CartItem>, i: nat)
    requires i < |b|
    ensures Subtotal(b) == LineAmount(b[i]) + Subtotal(b[..i] + b[i + 1..])
  {
    assert b == (b[..i] + [b[i]]) + b[i + 1..];
    SubtotalAppend(b[..i] + [b[i]], b[i + 1..]);
    SubtotalAppend(b[..i], [b[i]]);
    SubtotalCons([b[i]]);
    assert [b[i]][1..] == [];
    SubtotalAppend(b[..i], b[i + 1..]);
  }

  /** Taking one item out of the list takes it out of its multiset. */
  lemma MultisetWithout(b: seq<CartItem>, i: nat)
    requires i < |b|
    ensures multiset(b[..i] + b[i + 1..]) == multiset(b) - multiset{b[i]}
  {
    assert b == b[..i] + [b[i]] + b[i + 1..];
    assert multiset(b) == multiset(b[..i]) + multiset{b[i]} + multiset(b[i + 1..]);
  }

  /** The subtotal does not depend on the order of the items. */
  lemma {:induction false} SubtotalPermutation(a: seq<CartItem>, b: seq<CartItem>)
    requires multiset(a) == multiset(b)
    ensures Subtotal(a) == Subtotal(b)
  {
    if a == [] {
      assert |b| == |multiset(b)| == 0;
    } else {
      var x := a[0];
      assert x in multiset(b);
      var i :| 0 <= i < |b| && b[i] == x;
      var rest := b[..i] + b[i + 1..];
      MultisetWithout(b, i);
      MultisetWithout(a, 0);
      assert a[..0] + a[1..] == a[1..];
      SubtotalPermutation(a[1..], rest);
      SubtotalCons(a);
      SubtotalWithout(b, i);
    }
  }

  /** With no negative price or quantity the subtotal is not negative. */
  lemma {:induction false} SubtotalNonNegative(items: seq<CartItem>)
    requires forall x :: x in items ==> x.product.price >= 0.0 && x.quantity >= 0
    ensures Subtotal(items) >= 0.0
  {
    if items != [] {
      SubtotalCons(items);
      SubtotalNonNegative(items[1..]);
    }
  }

  /** With no negative price or quantity the total is at least the subtotal. */
  lemma TotalAtLeastSubtotal(items: seq<CartItem>)
    requires forall x :: x in items ==> x.product.price >= 0.0 && x.quantity >= 0
    ensures CartSummary(items).total >= CartSummary(items).subtotal
  {
    SubtotalNonNegative(items);
  }
}
