/** Client runs of the cart handlers whose outcomes follow from the handlers'
    contracts alone. */
module Scenarios {
  import opened Catalog
  import opened CartLines
  import opened Listing
  import opened Pricing
  import opened CartService

  /** Product P1 (5 in stock at 100 each): add 3, re-add, step up to the stock
      and past it, then list. */
  method StockAndConflictScenario() {
    var c: Catalog := map["P1" := Product("Pen", "Acme", "office", 100, 5, "pen.png")];
    var store := new CartStore();
    var r := store.AddItem(c, "B1", "P1", 3);
    assert r == Created && store.lines == [Line(0, "B1", "P1", 3)];
    assert FindFirst(store.lines, ByKey("B1", "P1")) == Some(0);
    r := store.AddItem(c, "B1", "P1", 2);
    assert r == Conflict;
    r := store.AddItem(c, "B1", "P1", 9);
    assert r == OutOfStock;   // the stock check runs before the duplicate check
    r := store.UpdateQuantity(c, "B1", "P1", "inc");
    assert r == Ok && store.lines == [Line(0, "B1", "P1", 4)];
    assert FindFirst(store.lines, ByKey("B1", "P1")) == Some(0);
    r := store.UpdateQuantity(c, "B1", "P1", "inc");
    assert r == Ok && store.lines == [Line(0, "B1", "P1", 5)];
    assert FindFirst(store.lines, ByKey("B1", "P1")) == Some(0);
    r := store.UpdateQuantity(c, "B1", "P1", "inc");
    assert r == OutOfStock && store.lines == [Line(0, "B1", "P1", 5)];
    var items, summary := store.ListItems(c, "B1");
    assert FindAll(store.lines, ByBuyer("B1")) == [Line(0, "B1", "P1", 5)];
    assert items == [ListedItem(0, "P1", 5, "Pen", "Acme", "office", 100, "pen.png")];
    assert Subtotal(items) == 500;
    assert summary == Summary(500, 25.0, 475.0);
  }

  /** Decrementing a quantity of 1 is refused rather than deleting the line;
      a product missing from the catalog is reported first. */
  method FloorScenario() {
    var c: Catalog := map["P1" := Product("Pen", "Acme", "office", 100, 5, "pen.png")];
    var store := new CartStore();
    var r := store.AddItem(c, "B1", "P1", 1);
    assert r == Created && store.lines == [Line(0, "B1", "P1", 1)];
    assert FindFirst(store.lines, ByKey("B1", "P1")) == Some(0);
    r := store.UpdateQuantity(c, "B1", "P1", "dec");
    assert r == BelowOne && store.lines == [Line(0, "B1", "P1", 1)];
    r := store.UpdateQuantity(c, "B1", "P2", "inc");
    assert r == NotFound;
  }

  /** Flushing one buyer's cart leaves another buyer's line in place; an
      update afterwards finds no line. */
  method FlushScenario() {
    var c: Catalog := map["P1" := Product("Pen", "Acme", "office", 100, 5, "pen.png")];
    var store := new CartStore();
    var r := store.AddItem(c, "B1", "P1", 1);
    assert r == Created && store.lines == [Line(0, "B1", "P1", 1)] && store.nextId == 1;
    r := store.AddItem(c, "B2", "P1", 2);
    var both := [Line(0, "B1", "P1", 1), Line(1, "B2", "P1", 2)];
    assert r == Created && store.lines == both;
    assert both[1..] == [Line(1, "B2", "P1", 2)] && both[1..][1..] == [];
    assert DeleteMany(both, ByBuyer("B1")) == [Line(1, "B2", "P1", 2)];
    r := store.Flush("B1");
    assert store.lines == [Line(1, "B2", "P1", 2)];
    r := store.UpdateQuantity(c, "B1", "P1", "inc");
    assert r == NoLine;
  }

  /** An empty cart: count 0, an empty listing with a 0/0/0 summary, and the
      idempotent deletions succeed. */
  method EmptyCartScenario() {
    var c: Catalog := map[];
    var store := new CartStore();
    var n := store.Count("B1");
    assert n == 0;
    var items, summary := store.ListItems(c, "B1");
    assert items == [] && summary == Summary(0, 0.0, 0.0);
    var r := store.Flush("B1");
    r := store.Flush("B1");
    assert r == Ok && store.lines == [];
    r := store.RemoveItem("B1", 7);
    assert r == Ok && store.lines == [];
  }
}
