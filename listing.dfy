/** The `$lookup`/`$project` stages of the list handler: each of the buyer's
    cart lines joined with the catalog entry of its product. A line whose
    product is no longer in the catalog is left out of the listing. */
module Listing {
  import opened Catalog
  import opened CartLines

  /** One entry of the listing: the line's id, product and quantity with the
      product's display fields and current price. */
  datatype ListedItem = ListedItem(
    lineId: LineId,
    productId: ProductId,
    orderedQuantity: int,
    name: string,
    brand: string,
    category: string,
    price: nat,
    image: string)

  /** The `$project` of one line: its id, product and quantity with the
      product's display fields and price. */
  function Enrich(l: Line, p: Product): (r: ListedItem)
    ensures r.lineId == l.id && r.productId == l.productId && r.orderedQuantity == l.orderedQuantity
    ensures r.name == p.name && r.brand == p.brand && r.category == p.category
    ensures r.price == p.price && r.image == p.image
  {
    ListedItem(l.id, l.productId, l.orderedQuantity, p.name, p.brand, p.category, p.price, p.image)
  }

  /** The join, in collection order; lines whose product has vanished are excluded. */
  function Join(c: Catalog, s: seq<Line>): (r: seq<ListedItem>)
    ensures |r| <= |s|
    ensures forall x :: x in r ==> x.productId in c && x.price == c[x.productId].price
    ensures forall l :: l in s && l.productId in c ==> Enrich(l, c[l.productId]) in r
  {
    if s == [] then []
    else (if s[0].productId in c then [Enrich(s[0], c[s[0].productId])] else []) + Join(c, s[1..])
  }

  lemma {:induction false} JoinAppend(c: Catalog, s: seq<Line>, t: seq<Line>)
    ensures Join(c, s + t) == Join(c, s) + Join(c, t)
  {
    if s == [] {
      assert s + t == t;
    } else {
      assert (s + t)[1..] == s[1..] + t;
      JoinAppend(c, s[1..], t);
    }
  }

  /** When every line's product is in the catalog nothing is excluded: the
      listing has one entry per line, in the same order. */
  lemma {:induction false} JoinComplete(c: Catalog, s: seq<Line>)
    requires forall l :: l in s ==> l.productId in c
    ensures |Join(c, s)| == |s|
    ensures forall i :: 0 <= i < |s| ==> Join(c, s)[i] == Enrich(s[i], c[s[i].productId])
  {
    if s != [] {
      assert s[0] in s;
      JoinComplete(c, s[1..]);
    }
  }

  /** Every listed item is the enrichment of one of the lines with its product. */
  lemma {:induction false} JoinFromLines(c: Catalog, s: seq<Line>, x: ListedItem)
    requires x in Join(c, s)
    ensures exists l :: l in s && l.productId in c && x == Enrich(l, c[l.productId])
  {
    if s[0].productId in c && x == Enrich(s[0], c[s[0].productId]) {
      assert s[0] in s;
    } else {
      JoinFromLines(c, s[1..], x);
      var l :| l in s[1..] && l.productId in c && x == Enrich(l, c[l.productId]);
      assert l in s;
    }
  }

  lemma JoinSingleton(c: Catalog, l: Line)
    ensures Join(c, [l]) == if l.productId in c then [Enrich(l, c[l.productId])] else []
  {
    assert [l][1..] == [];
  }
}
