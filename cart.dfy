/** The cart: the line amounts and subtotal the register panel shows, the per-product
    quantity the product grid shows on its badges, and the click that adds a product. */
module Cart {
  import opened Types
  import opened Seqs

  /** The amount shown next to a cart line. */
  function LineAmount(item: CartItem): int
  {
    item.price * item.quantity
  }

  /** The displayed line amounts, one per line, in cart order. */
  function Amounts(items: seq<CartItem>): (r: seq<int>)
    ensures |r| == |items|
    ensures forall i :: 0 <= i < |items| ==> r[i] == LineAmount(items[i])
  {
    if items == [] then [] else [LineAmount(items[0])] + Amounts(items[1..])
  }

  /** The running sum of the register's `reduce`, started from `acc`, taken left to right. */
  function Fold(acc: int, items: seq<CartItem>): int
    decreases items
  {
    if items == [] then acc else Fold(acc + LineAmount(items[0]), items[1..])
  }

  /** The cart subtotal: the `reduce` started from 0. */
  function Subtotal(items: seq<CartItem>): int
  {
    Fold(0, items)
  }

  lemma {:induction false} FoldIsSum(acc: int, items: seq<CartItem>)
    ensures Fold(acc, items) == acc + Sum(Amounts(items))
    decreases items
  {
    if items != [] {
      FoldIsSum(acc + LineAmount(items[0]), items[1..]);
      assert Amounts(items) == [LineAmount(items[0])] + Amounts(items[1..]);
    }
  }

  /** The subtotal is the sum of the displayed line amounts; an empty cart gives 0. */
  lemma SubtotalIsSumOfAmounts(items: seq<CartItem>)
    ensures Subtotal(items) == Sum(Amounts(items))
    ensures items == [] ==> Subtotal(items) == 0
  {
    FoldIsSum(0, items);
  }

  lemma {:induction false} AmountsAppend(a: seq<CartItem>, b: seq<CartItem>)
    ensures Amounts(a + b) == Amounts(a) + Amounts(b)
  {
    if a == [] {
      assert a + b == b;
    } else {
      assert (a + b)[1..] == a[1..] + b;
      AmountsAppend(a[1..], b);
    }
  }

  /** The subtotal of two carts put end to end is the sum of their subtotals. */
  lemma SubtotalAppend(a: seq<CartItem>, b: seq<CartItem>)
    ensures Subtotal(a + b) == Subtotal(a) + Subtotal(b)
  {
    SubtotalIsSumOfAmounts(a + b);
    SubtotalIsSumOfAmounts(a);
    SubtotalIsSumOfAmounts(b);
    AmountsAppend(a, b);
    SumAppend(Amounts(a), Amounts(b));
  }

  /** Appending a line adds exactly that line's amount. */
  lemma SubtotalAppendLine(items: seq<CartItem>, item: CartItem)
    ensures Subtotal(items + [item]) == Subtotal(items) + LineAmount(item)
  {
    assert Fold(0, [item]) == Fold(LineAmount(item), []);
    SubtotalAppend(items, [item]);
  }

  /** Replacing line k changes the subtotal by the difference of the two line amounts. */
  lemma SubtotalUpdate(items: seq<CartItem>, k: nat, item: CartItem)
    requires k < |items|
    ensures Subtotal(items[k := item]) == Subtotal(items) - LineAmount(items[k]) + LineAmount(item)
  {
    var pre, post := items[..k], items[k + 1..];
    assert items == pre + [items[k]] + post;
    assert items[k := item] == pre + [item] + post;
    SubtotalAppend(pre + [items[k]], post);
    SubtotalAppend(pre + [item], post);
    SubtotalAppendLine(pre, items[k]);
    SubtotalAppendLine(pre, item);
  }

  /** With non-negative prices and positive quantities the subtotal is non-negative. */
  lemma SubtotalNonNegative(items: seq<CartItem>)
    requires forall i :: 0 <= i < |items| ==> items[i].price >= 0 && items[i].quantity >= 1
    ensures Subtotal(items) >= 0
  {
    SubtotalIsSumOfAmounts(items);
    var amounts := Amounts(items);
    forall i | 0 <= i < |amounts| ensures amounts[i] >= 0 {
      assert amounts[i] == items[i].price * items[i].quantity;
    }
    SumNonNegative(amounts);
  }

  /** The subtotal does not depend on the order of the lines. */
  lemma {:induction false} SubtotalPermutation(a: seq<CartItem>, b: seq<CartItem>)
    requires multiset(a) == multiset(b)
    ensures Subtotal(a) == Subtotal(b)
    decreases |a|
  {
    if a == [] {
      assert |b| == |multiset(b)| == 0;
    } else {
      var x := a[0];
      assert x in multiset(b);
      var i :| 0 <= i < |b| && b[i] == x;
      var rest := b[..i] + b[i + 1..];
      assert a == [x] + a[1..];
      assert b == b[..i] + [x] + b[i + 1..];
      assert multiset(a[1..]) == multiset(rest) by {
        assert multiset(a) == multiset{x} + multiset(a[1..]);
        assert multiset(a[1..]) == multiset(a) - multiset{x};
        assert multiset(b) == multiset(b[..i]) + multiset{x} + multiset(b[i + 1..]);
        assert multiset(rest) == multiset(b[..i]) + multiset(b[i + 1..]);
        assert multiset(rest) == multiset(b) - multiset{x};
      }
      SubtotalPermutation(a[1..], rest);
      SubtotalAppend([x], a[1..]);
      SubtotalAppend(b[..i] + [x], b[i + 1..]);
      SubtotalAppend(b[..i], [x]);
      SubtotalAppend(b[..i], b[i + 1..]);
    }
  }

  // ---- quantity lookup (product grid) ----

  /** Some line of the cart carries this product id. */
  predicate HasLine(items: seq<CartItem>, id: string)
  {
    exists i :: 0 <= i < |items| && items[i].id == id
  }

  /** Line k is the first line with this product id. */
  predicate IsFirstLine(items: seq<CartItem>, id: string, k: int)
  {
    0 <= k < |items| && items[k].id == id && forall j :: 0 <= j < k ==> items[j].id != id
  }

  /** The index of the first line with this product id, as the grid's `find` locates it. */
  function FirstLine(items: seq<CartItem>, id: string): (r: Option<nat>)
    ensures r.None? <==> !HasLine(items, id)
    ensures r.Some? ==> IsFirstLine(items, id, r.value)
  {
    FindFirst(items, (item: CartItem) => item.id == id)
  }

  /** The quantity the grid shows for a product: 0 without a line, else the first line's quantity. */
  function QtyOf(items: seq<CartItem>, id: string): (q: int)
    ensures !HasLine(items, id) ==> q == 0
    ensures forall k :: IsFirstLine(items, id, k) ==> q == items[k].quantity
  {
    match FirstLine(items, id)
    case None => 0
    case Some(k) => items[k].quantity
  }

  /** The badge on a product tile: present, with the quantity, exactly when that quantity is positive. */
  function Badge(items: seq<CartItem>, id: string): Option<int>
  {
    var q := QtyOf(items, id);
    if q > 0 then Some(q) else None
  }

  /** No two lines share a product id and every quantity is at least 1. */
  predicate WellFormed(items: seq<CartItem>)
  {
    (forall i, j :: 0 <= i < j < |items| ==> items[i].id != items[j].id) &&
    (forall i :: 0 <= i < |items| ==> items[i].quantity >= 1)
  }

  /** In a well-formed cart a product shows a badge exactly when it has a line, and the
      badge shows that line's quantity. */
  lemma BadgeShownIffInCart(items: seq<CartItem>, id: string)
    requires WellFormed(items)
    ensures Badge(items, id).Some? <==> HasLine(items, id)
    ensures forall k :: 0 <= k < |items| && items[k].id == id ==> Badge(items, id) == Some(items[k].quantity)
  {
    match FirstLine(items, id)
    case None =>
    case Some(k) =>
      assert items[k].quantity >= 1;
  }

  // ---- adding a clicked product (home page) ----

  function Increment(item: CartItem, id: string): CartItem
  {
    if item.id == id then item.(quantity := item.quantity + 1) else item
  }

  /** The cart after a product click: every line of that product gains one unit if the
      product has a line, otherwise a new line with quantity 1 is appended. */
  function AddToCart(items: seq<CartItem>, p: Product): seq<CartItem>
  {
    if FirstLine(items, p.id).Some? then
      seq(|items|, i requires 0 <= i < |items| => Increment(items[i], p.id))
    else
      items + [LineOf(p, 1)]
  }

  /** A click on a product not in the cart appends exactly one line, at the end, with the
      product's id, name and price and quantity 1. */
  lemma AddNewLine(items: seq<CartItem>, p: Product)
    requires !HasLine(items, p.id)
    ensures AddToCart(items, p) == items + [CartItem(p.id, p.name, p.price, 1)]
  {
  }

  /** A click on a product that has line k raises that line's quantity by one; the other
      lines, the order and the line's price snapshot stay as they were. */
  lemma AddExistingLine(items: seq<CartItem>, p: Product, k: nat)
    requires WellFormed(items)
    requires k < |items| && items[k].id == p.id
    ensures AddToCart(items, p) == items[k := items[k].(quantity := items[k].quantity + 1)]
  {
    var r := AddToCart(items, p);
    assert |r| == |items|;
    forall i | 0 <= i < |items|
      ensures r[i] == items[k := items[k].(quantity := items[k].quantity + 1)][i]
    {
      if i != k {
        assert items[i].id != items[k].id;
      }
    }
  }

  /** Clicks keep a cart well-formed. */
  lemma ClickPreservesWellFormed(items: seq<CartItem>, p: Product)
    requires WellFormed(items)
    ensures WellFormed(AddToCart(items, p))
  {
    match FirstLine(items, p.id)
    case Some(k) => AddExistingLine(items, p, k);
    case None =>
  }

  /** A click raises the clicked product's shown quantity by exactly one. */
  lemma ClickRaisesQuantity(items: seq<CartItem>, p: Product)
    ensures QtyOf(AddToCart(items, p), p.id) == QtyOf(items, p.id) + 1
  {
    var r := AddToCart(items, p);
    match FirstLine(items, p.id)
    case Some(k) =>
      assert IsFirstLine(r, p.id, k);
    case None =>
      assert IsFirstLine(r, p.id, |items|);
  }

  /** A click leaves every other product's shown quantity unchanged. */
  lemma ClickKeepsOtherQuantities(items: seq<CartItem>, p: Product, id: string)
    requires id != p.id
    ensures QtyOf(AddToCart(items, p), id) == QtyOf(items, id)
  {
    var r := AddToCart(items, p);
    match FirstLine(items, id)
    case Some(k) =>
      assert IsFirstLine(r, id, k);
    case None =>
      assert !HasLine(r, id) by {
        if FirstLine(items, p.id).None? {
          assert r == items + [LineOf(p, 1)];
        }
      }
  }

  /** A click raises the subtotal by the unit price of the line that grows: the product's
      current price for a new line, the snapshot taken when the line was made otherwise. */
  lemma ClickSubtotal(items: seq<CartItem>, p: Product)
    requires WellFormed(items)
    ensures !HasLine(items, p.id) ==> Subtotal(AddToCart(items, p)) == Subtotal(items) + p.price
    ensures forall k :: 0 <= k < |items| && items[k].id == p.id ==>
      Subtotal(AddToCart(items, p)) == Subtotal(items) + items[k].price
  {
    match FirstLine(items, p.id)
    case None =>
      SubtotalAppendLine(items, LineOf(p, 1));
    case Some(k) =>
      AddExistingLine(items, p, k);
      SubtotalUpdate(items, k, items[k].(quantity := items[k].quantity + 1));
      assert LineAmount(items[k].(quantity := items[k].quantity + 1)) == LineAmount(items[k]) + items[k].price;
      forall k' | 0 <= k' < |items| && items[k'].id == p.id
        ensures Subtotal(AddToCart(items, p)) == Subtotal(items) + items[k'].price
      {
        assert k' == k;
      }
  }

  /** The cart after a sequence of product clicks on an empty cart. */
  function Clicks(ps: seq<Product>): seq<CartItem>
  {
    if ps == [] then [] else AddToCart(Clicks(ps[..|ps| - 1]), ps[|ps| - 1])
  }

  /** How many of the clicks were on the product with this id. */
  function CountClicks(ps: seq<Product>, id: string): nat
  {
    if ps == [] then 0
    else CountClicks(ps[..|ps| - 1], id) + (if ps[|ps| - 1].id == id then 1 else 0)
  }

  /** Since the last clear, the cart stays well-formed and each product's shown quantity
      is the number of clicks on it. */
  lemma {:induction false} QuantityCountsClicks(ps: seq<Product>, id: string)
    ensures WellFormed(Clicks(ps))
    ensures QtyOf(Clicks(ps), id) == CountClicks(ps, id)
  {
    if ps != [] {
      var prev, p := ps[..|ps| - 1], ps[|ps| - 1];
      QuantityCountsClicks(prev, id);
      ClickPreservesWellFormed(Clicks(prev), p);
      if p.id == id {
        ClickRaisesQuantity(Clicks(prev), p);
      } else {
        ClickKeepsOtherQuantities(Clicks(prev), p, id);
      }
    }
  }

  /** After the cart is cleared every product's shown quantity is 0. */
  lemma ClearedCartShowsNothing(id: string)
    ensures QtyOf([], id) == 0 && Badge([], id).None?
  {
  }
}
