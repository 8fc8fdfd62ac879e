/** The cart handlers: add item, update quantity, remove item, flush, list
    with an order summary, and count. The `carts` collection is the state of
    a `CartStore`; the catalog is passed to each handler that reads it, since
    it may change between calls. The buyer id is the authenticated caller. */
module CartService {
  import opened Catalog
  import opened CartLines
  import opened Listing
  import opened Pricing

  /** The outcome of a handler, one variant per response it can send. */
  datatype Status =
    | Ok          // 200
    | Created     // 201: item added to the cart
    | NotFound    // 404: product does not exist
    | OutOfStock  // 422: product is outnumbered
    | Conflict    // 409: product already in cart
    | NoLine      // 409: add the item to the cart first
    | BelowOne    // 422: count should be at least 1

  /** The quantity an update asks for: one more for "inc", one fewer for any other action. */
  function Stepped(action: string, quantity: int): (r: int)
    ensures action == "inc" <==> r == quantity + 1
    ensures action != "inc" <==> r == quantity - 1
  {
    if action == "inc" then quantity + 1 else quantity - 1
  }

  class CartStore {
    /** The cart lines, in collection order. */
    var lines: seq<Line>
    /** The id the next created line receives. */
    var nextId: LineId

    ghost predicate Valid()
      reads this
    {
      Consistent(lines, nextId)
    }

    constructor ()
      ensures Valid() && lines == [] && nextId == 0
    {
      lines, nextId := [], 0;
    }

    /** Adds a line for `productId` with `orderedQuantity` units. Checks, in
        this order: the product exists, the quantity does not exceed its
        stock, the buyer has no line for it yet. */
    method AddItem(c: Catalog, buyerId: BuyerId, productId: ProductId, orderedQuantity: int) returns (r: Status)
      requires Valid()
      requires orderedQuantity >= 1
      modifies this
      ensures Valid()
      ensures r == NotFound <==> productId !in c
      ensures r == OutOfStock <==> productId in c && orderedQuantity > c[productId].quantity
      ensures r == Conflict <==>
                productId in c && orderedQuantity <= c[productId].quantity
                && FindFirst(old(lines), ByKey(buyerId, productId)).Some?
      ensures r == Created <==>
                productId in c && orderedQuantity <= c[productId].quantity
                && FindFirst(old(lines), ByKey(buyerId, productId)).None?
      ensures r != Created ==> lines == old(lines) && nextId == old(nextId)
      ensures r == Created ==> lines == old(lines) + [Line(old(nextId), buyerId, productId, orderedQuantity)]
      ensures r == Created ==> nextId == old(nextId) + 1
      ensures |FindAll(lines, ByKey(buyerId, productId))| <= 1
      ensures old(WithinStock(c, lines)) ==> WithinStock(c, lines)
      ensures OthersUntouched(old(lines), lines, buyerId)
    {
      if productId !in c {
        AtMostOneLinePerProduct(lines, nextId, buyerId, productId);
        return NotFound;
      }
      var product := c[productId];
      if orderedQuantity > product.quantity {
        AtMostOneLinePerProduct(lines, nextId, buyerId, productId);
        return OutOfStock;
      }
      if FindFirst(lines, ByKey(buyerId, productId)).Some? {
        AtMostOneLinePerProduct(lines, nextId, buyerId, productId);
        return Conflict;
      }
      var line := Line(nextId, buyerId, productId, orderedQuantity);
      AppendPreservesConsistent(lines, nextId, line);
      AppendKeepsOthers(lines, line);
      lines, nextId := lines + [line], nextId + 1;
      AtMostOneLinePerProduct(lines, nextId, buyerId, productId);
      r := Created;
    }

    /** Moves the buyer's quantity of `productId` one step up ("inc") or down
        (any other action). Checks, in this order: the product exists, the
        buyer has a line for it, the new quantity is within stock, the new
        quantity is at least 1. */
    method UpdateQuantity(c: Catalog, buyerId: BuyerId, productId: ProductId, action: string) returns (r: Status)
      requires Valid()
      modifies this
      ensures Valid() && nextId == old(nextId)
      ensures productId !in c ==> r == NotFound
      ensures productId in c && FindFirst(old(lines), ByKey(buyerId, productId)).None? ==> r == NoLine
      ensures productId in c && FindFirst(old(lines), ByKey(buyerId, productId)).Some? ==>
                var k := FindFirst(old(lines), ByKey(buyerId, productId)).value;
                var wanted := Stepped(action, old(lines)[k].orderedQuantity);
                && (r == OutOfStock <==> wanted > c[productId].quantity)
                && (r == BelowOne <==> wanted <= c[productId].quantity && wanted < 1)
                && (r == Ok <==> 1 <= wanted <= c[productId].quantity)
                && (r == Ok ==> lines == SetQuantity(old(lines), k, wanted))
      ensures r != Ok ==> lines == old(lines)
      ensures r == Ok ==> exists l :: l in lines && Matches(l, ByKey(buyerId, productId))
                            && 1 <= l.orderedQuantity <= c[productId].quantity
      ensures old(WithinStock(c, lines)) ==> WithinStock(c, lines)
      ensures OthersUntouched(old(lines), lines, buyerId)
    {
      if productId !in c {
        return NotFound;
      }
      var product := c[productId];
      var found := FindFirst(lines, ByKey(buyerId, productId));
      if found.None? {
        return NoLine;
      }
      var k := found.value;
      var wanted := Stepped(action, lines[k].orderedQuantity);
      if wanted > product.quantity {
        return OutOfStock;
      }
      if wanted < 1 {
        return BelowOne;
      }
      SetQuantityPreservesConsistent(lines, nextId, k, wanted);
      SetQuantityKeepsOthers(lines, k, wanted);
      ghost var before := lines;
      lines := SetQuantity(lines, k, wanted);
      assert lines[k] in lines;
      forall l | l in lines ensures l == lines[k] || l in before {
        var m :| 0 <= m < |lines| && lines[m] == l;
        if m != k { assert before[m] == l; }
      }
      r := Ok;
    }

    /** Deletes the line with id `lineId` if `buyerId` owns it; otherwise
        changes nothing. Succeeds either way. */
    method RemoveItem(buyerId: BuyerId, lineId: LineId) returns (r: Status)
      requires Valid()
      modifies this
      ensures Valid() && nextId == old(nextId) && r == Ok
      ensures lines == DeleteOne(old(lines), ByIdAndOwner(lineId, buyerId))
      ensures (forall l :: l in old(lines) ==> !(l.id == lineId && l.buyerId == buyerId)) ==> lines == old(lines)
      ensures |lines| >= |old(lines)| - 1 && multiset(lines) <= multiset(old(lines))
      ensures forall l: Line :: l.id != lineId || l.buyerId != buyerId ==> multiset(lines)[l] == multiset(old(lines))[l]
      ensures OthersUntouched(old(lines), lines, buyerId)
    {
      var q := ByIdAndOwner(lineId, buyerId);
      DeleteOnePreservesConsistent(lines, nextId, q);
      DeleteOneKeepsOthers(lines, lineId, buyerId);
      lines := DeleteOne(lines, q);
      r := Ok;
    }

    /** Deletes every line of `buyerId`. Succeeds on an empty cart too. */
    method Flush(buyerId: BuyerId) returns (r: Status)
      requires Valid()
      modifies this
      ensures Valid() && nextId == old(nextId) && r == Ok
      ensures lines == DeleteMany(old(lines), ByBuyer(buyerId))
      ensures FindAll(lines, ByBuyer(buyerId)) == []
      ensures forall l :: l in lines <==> l in old(lines) && l.buyerId != buyerId
      ensures OthersUntouched(old(lines), lines, buyerId)
    {
      var q := ByBuyer(buyerId);
      DeleteManyPreservesConsistent(lines, nextId, q);
      DeleteManyKeepsOthers(lines, buyerId);
      DeleteManyLeavesNone(lines, q);
      lines := DeleteMany(lines, q);
      r := Ok;
    }

    /** The buyer's lines joined with the catalog, and the order summary over them. */
    method ListItems(c: Catalog, buyerId: BuyerId) returns (items: seq<ListedItem>, summary: Summary)
      requires Valid()
      ensures items == Join(c, FindAll(lines, ByBuyer(buyerId)))
      ensures (forall l :: l in FindAll(lines, ByBuyer(buyerId)) ==> l.productId in c) ==>
                |items| == |FindAll(lines, ByBuyer(buyerId))|
      ensures summary.subTotal == BuyerSubtotal(c, lines, buyerId) && summary.subTotal >= 0
      ensures summary.discount * 20.0 == summary.subTotal as real
      ensures summary.grandTotal + summary.discount == summary.subTotal as real
      ensures FindAll(lines, ByBuyer(buyerId)) == [] ==> summary == Summary(0, 0.0, 0.0)
    {
      var owned := FindAll(lines, ByBuyer(buyerId));
      if forall l :: l in owned ==> l.productId in c {
        JoinComplete(c, owned);
      }
      items := Join(c, owned);
      BuyerSubtotalNonNegative(c, lines, nextId, buyerId);
      summary := OrderSummary(items);
    }

    /** The number of lines the buyer holds. */
    method Count(buyerId: BuyerId) returns (n: nat)
      ensures n == |FindAll(lines, ByBuyer(buyerId))|
      ensures n == 0 <==> forall l :: l in lines ==> l.buyerId != buyerId
    {
      var owned := FindAll(lines, ByBuyer(buyerId));
      if owned != [] {
        assert owned[0] in owned;
      } else {
        NoneOwned(lines, buyerId);
      }
      n := |owned|;
    }
  }

  lemma NoneOwned(s: seq<Line>, b: BuyerId)
    requires FindAll(s, ByBuyer(b)) == []
    ensures forall l :: l in s ==> l.buyerId != b
  {
    forall l | l in s ensures l.buyerId != b {
      assert l.buyerId == b ==> l in FindAll(s, ByBuyer(b));
    }
  }
}
