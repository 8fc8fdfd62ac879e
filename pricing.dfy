/** The order summary of the list handler: the subtotal accumulated over the
    listed items, a fixed 5 % discount and the grand total. Arithmetic is
    exact: the subtotal is an integer, discount and grand total are reals. */
module Pricing {
  import opened Catalog
  import opened CartLines
  import opened Listing

  datatype Summary = Summary(subTotal: int, discount: real, grandTotal: real)

  /** The reference sum: price times ordered quantity over all items. */
  function Subtotal(items: seq<ListedItem>): (r: int) {
    if items == [] then 0
    else Subtotal(items[..|items| - 1]) + items[|items| - 1].price * items[|items| - 1].orderedQuantity
  }

  /** The subtotal the list handler reports for buyer `b`. */
  function BuyerSubtotal(c: Catalog, s: seq<Line>, b: BuyerId): (r: int) {
    Subtotal(Join(c, FindAll(s, ByBuyer(b))))
  }

  /** The summary loop: `subTotal += price * orderedQuantity` per item, then
      the discount `(5 / 100) * subTotal` and `subTotal - discount`. */
  method OrderSummary(items: seq<ListedItem>) returns (summary: Summary)
    ensures summary.subTotal == Subtotal(items)
    ensures summary.discount * 20.0 == summary.subTotal as real
    ensures summary.grandTotal + summary.discount == summary.subTotal as real
    ensures summary.grandTotal == 0.95 * summary.subTotal as real
    ensures summary.subTotal >= 0 ==> 0.0 <= summary.discount <= summary.grandTotal <= summary.subTotal as real
  {
    var subTotal := 0;
    var i := 0;
    while i < |items|
      invariant 0 <= i <= |items|
      invariant subTotal == Subtotal(items[..i])
    {
      assert items[..i + 1][..i] == items[..i];
      subTotal := subTotal + items[i].price * items[i].orderedQuantity;
      i := i + 1;
    }
    assert items[..|items|] == items;
    var discount := (5.0 / 100.0) * subTotal as real;
    var grandTotal := subTotal as real - discount;
    summary := Summary(subTotal, discount, grandTotal);
  }

  lemma {:induction false} SubtotalAppend(a: seq<ListedItem>, b: seq<ListedItem>)
    ensures Subtotal(a + b) == Subtotal(a) + Subtotal(b)
  {
    if b == [] {
      assert a + b == a;
    } else {
      var last := |b| - 1;
      assert (a + b)[..|a + b| - 1] == a + b[..last];
      SubtotalAppend(a, b[..last]);
    }
  }

  /** Items ordering at least one unit each never make the subtotal negative. */
  lemma {:induction false} SubtotalNonNegative(items: seq<ListedItem>)
    requires forall x :: x in items ==> x.orderedQuantity >= 1
    ensures Subtotal(items) >= 0
  {
    if items != [] {
      var last := |items| - 1;
      assert items[last] in items;
      SubtotalNonNegative(items[..last]);
    }
  }

  /** A buyer's listed subtotal is never negative in a consistent collection. */
  lemma BuyerSubtotalNonNegative(c: Catalog, s: seq<Line>, nextId: LineId, b: BuyerId)
    requires Consistent(s, nextId)
    ensures BuyerSubtotal(c, s, b) >= 0
  {
    var items := Join(c, FindAll(s, ByBuyer(b)));
    forall x | x in items ensures x.orderedQuantity >= 1 {
      JoinKeepsQuantities(c, FindAll(s, ByBuyer(b)), x);
    }
    SubtotalNonNegative(items);
  }

  lemma {:induction false} JoinKeepsQuantities(c: Catalog, s: seq<Line>, x: ListedItem)
    requires x in Join(c, s)
    ensures exists l :: l in s && l.orderedQuantity == x.orderedQuantity
  {
    if s[0].productId in c && x == Enrich(s[0], c[s[0].productId]) {
      assert s[0] in s;
    } else {
      JoinKeepsQuantities(c, s[1..], x);
      var l :| l in s[1..] && l.orderedQuantity == x.orderedQuantity;
      assert l in s;
    }
  }

  /** A successful add raises that buyer's subtotal by exactly price times quantity. */
  lemma AddRaisesSubtotal(c: Catalog, s: seq<Line>, l: Line)
    requires l.productId in c
    ensures BuyerSubtotal(c, s + [l], l.buyerId)
         == BuyerSubtotal(c, s, l.buyerId) + c[l.productId].price * l.orderedQuantity
  {
    var q := ByBuyer(l.buyerId);
    FindAllAppend(s, [l], q);
    FindAllSingleton(l, q);
    JoinAppend(c, FindAll(s, q), [l]);
    JoinSingleton(c, l);
    SubtotalAppend(Join(c, FindAll(s, q)), [Enrich(l, c[l.productId])]);
    assert [Enrich(l, c[l.productId])][..0] == [];
  }

  lemma SubtotalSingleton(x: ListedItem)
    ensures Subtotal([x]) == x.price * x.orderedQuantity
  {
    assert [x][..0] == [];
  }

  /** A buyer's subtotal split around one of their lines at index `k`. */
  lemma BuyerSubtotalAround(c: Catalog, s: seq<Line>, k: nat)
    requires k < |s| && s[k].productId in c
    ensures BuyerSubtotal(c, s, s[k].buyerId)
         == Subtotal(Join(c, FindAll(s[..k], ByBuyer(s[k].buyerId))))
          + c[s[k].productId].price * s[k].orderedQuantity
          + Subtotal(Join(c, FindAll(s[k + 1..], ByBuyer(s[k].buyerId))))
  {
    var q := ByBuyer(s[k].buyerId);
    var front, back := FindAll(s[..k], q), FindAll(s[k + 1..], q);
    FindAllAround(s, k, q);
    assert FindAll(s, q) == (front + [s[k]]) + back;
    JoinAppend(c, front + [s[k]], back);
    JoinAppend(c, front, [s[k]]);
    JoinSingleton(c, s[k]);
    var x := Enrich(s[k], c[s[k].productId]);
    var jf, jb := Join(c, front), Join(c, back);
    assert Join(c, FindAll(s, q)) == (jf + [x]) + jb;
    SubtotalAppend(jf + [x], jb);
    SubtotalAppend(jf, [x]);
    SubtotalSingleton(x);
  }

  /** Changing one line's quantity shifts its buyer's subtotal by price times the change:
      an increment adds exactly one unit price, a decrement removes one. */
  lemma SetQuantityShiftsSubtotal(c: Catalog, s: seq<Line>, k: nat, quantity: int)
    requires k < |s| && s[k].productId in c
    ensures BuyerSubtotal(c, SetQuantity(s, k, quantity), s[k].buyerId)
         == BuyerSubtotal(c, s, s[k].buyerId) + c[s[k].productId].price * (quantity - s[k].orderedQuantity)
  {
    var price, was := c[s[k].productId].price, s[k].orderedQuantity;
    var raised, before, shift := price * quantity, price * was, price * (quantity - was);
    assert raised == before + shift;
    var t := SetQuantity(s, k, quantity);
    var q := ByBuyer(s[k].buyerId);
    var a := Subtotal(Join(c, FindAll(s[..k], q)));
    var b := Subtotal(Join(c, FindAll(s[k + 1..], q)));
    assert BuyerSubtotal(c, s, s[k].buyerId) == a + before + b by {
      BuyerSubtotalAround(c, s, k);
    }
    assert BuyerSubtotal(c, t, s[k].buyerId) == a + raised + b by {
      assert t[..k] == s[..k] && t[k + 1..] == s[k + 1..];
      assert t[k] == s[k].(orderedQuantity := quantity);
      BuyerSubtotalAround(c, t, k);
    }
  }
}
