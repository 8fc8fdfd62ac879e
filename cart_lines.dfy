/** The `carts` collection: a sequence of cart lines in collection order, and
    the filter queries the cart handlers run against it. `FindFirst` is
    `findOne` (and the line `updateOne`/`deleteOne` act on), `FindAll` is
    `find`/`$match`, `DeleteOne` and `DeleteMany` are the deletions. */
module CartLines {
  import opened Catalog

  datatype Option<T> = None | Some(value: T)

  type BuyerId = string
  type LineId = nat

  datatype Line = Line(id: LineId, buyerId: BuyerId, productId: ProductId, orderedQuantity: int)

  /** The filter documents the handlers pass to the collection. */
  datatype Query =
    | ByKey(buyerId: BuyerId, productId: ProductId)   // { productId, buyerId }
    | ByIdAndOwner(id: LineId, buyerId: BuyerId)      // { _id, buyerId }
    | ByBuyer(buyerId: BuyerId)                       // { buyerId }

  /** Whether line `l` satisfies filter `q`. Every filter names the buyer, so
      a query never reaches another buyer's line. */
  predicate Matches(l: Line, q: Query): (r: bool)
    ensures r ==> l.buyerId == q.buyerId
    ensures q.ByKey? ==> (r <==> l.buyerId == q.buyerId && l.productId == q.productId)
    ensures q.ByIdAndOwner? ==> (r <==> l.id == q.id && l.buyerId == q.buyerId)
  {
    match q
    case ByKey(b, p) => l.buyerId == b && l.productId == p
    case ByIdAndOwner(id, b) => l.id == id && l.buyerId == b
    case ByBuyer(b) => l.buyerId == b
  }

  /** Two lines that share neither an id nor a (buyer, product) pair. */
  predicate Apart(a: Line, b: Line) {
    a.id != b.id && !(a.buyerId == b.buyerId && a.productId == b.productId)
  }

  /** The collection invariant: ids are unique and below the next id to hand
      out, each buyer holds at most one line per product, and every ordered
      quantity is at least 1. */
  ghost predicate Consistent(s: seq<Line>, nextId: LineId) {
    && (forall i, j :: 0 <= i < j < |s| ==> Apart(s[i], s[j]))
    && (forall l :: l in s ==> l.id < nextId && l.orderedQuantity >= 1)
  }

  /** Every line refers to a product of `c` and orders no more than its stock:
      the point-in-time bound the add and update handlers check. */
  ghost predicate WithinStock(c: Catalog, s: seq<Line>) {
    forall l :: l in s ==> l.productId in c && l.orderedQuantity <= c[l.productId].quantity
  }

  /** The index of the first line matching `q`, if any. */
  function FindFirst(s: seq<Line>, q: Query): (r: Option<nat>)
    ensures r.Some? ==> r.value < |s| && Matches(s[r.value], q)
    ensures r.Some? ==> forall j :: 0 <= j < r.value ==> !Matches(s[j], q)
    ensures r.None? <==> forall j :: 0 <= j < |s| ==> !Matches(s[j], q)
  {
    if s == [] then None
    else if Matches(s[0], q) then Some(0)
    else match FindFirst(s[1..], q)
      case None => None
      case Some(k) => Some(k + 1)
  }

  /** The lines matching `q`, in collection order. */
  function FindAll(s: seq<Line>, q: Query): (r: seq<Line>)
    ensures |r| <= |s|
    ensures forall l :: l in r <==> l in s && Matches(l, q)
  {
    if s == [] then []
    else (if Matches(s[0], q) then [s[0]] else []) + FindAll(s[1..], q)
  }

  /** `deleteOne`: removes the first line matching `q`, if there is one. */
  function DeleteOne(s: seq<Line>, q: Query): (r: seq<Line>)
    ensures (forall l :: l in s ==> !Matches(l, q)) ==> r == s
    ensures (exists l :: l in s && Matches(l, q)) ==> |r| == |s| - 1
    ensures multiset(r) <= multiset(s)
    ensures forall l :: !Matches(l, q) ==> multiset(r)[l] == multiset(s)[l]
  {
    match FindFirst(s, q)
    case None => s
    case Some(k) =>
      assert s == s[..k] + [s[k]] + s[k + 1..];
      s[..k] + s[k + 1..]
  }

  /** `deleteMany`: removes every line matching `q`. */
  function DeleteMany(s: seq<Line>, q: Query): (r: seq<Line>)
    ensures |r| <= |s|
    ensures forall l :: l in r <==> l in s && !Matches(l, q)
  {
    if s == [] then []
    else (if Matches(s[0], q) then [] else [s[0]]) + DeleteMany(s[1..], q)
  }

  /** Sets the ordered quantity of the line at index `k`. */
  function SetQuantity(s: seq<Line>, k: nat, quantity: int): (r: seq<Line>)
    requires k < |s|
    ensures |r| == |s|
    ensures r[k] == s[k].(orderedQuantity := quantity)
    ensures forall j :: 0 <= j < |s| && j != k ==> r[j] == s[j]
  {
    s[k := s[k].(orderedQuantity := quantity)]
  }

  /** No other buyer's lines, or their order, differ between `before` and `after`. */
  ghost predicate OthersUntouched(before: seq<Line>, after: seq<Line>, b: BuyerId) {
    forall other :: other != b ==> FindAll(after, ByBuyer(other)) == FindAll(before, ByBuyer(other))
  }

  // ---------------------------------------------------------------------------
  // Query lemmas

  lemma {:induction false} FindAllAppend(s: seq<Line>, t: seq<Line>, q: Query)
    ensures FindAll(s + t, q) == FindAll(s, q) + FindAll(t, q)
  {
    if s == [] {
      assert s + t == t;
    } else {
      assert (s + t)[1..] == s[1..] + t;
      FindAllAppend(s[1..], t, q);
    }
  }

  /** `find` keeps every matching line as often as the collection holds it,
      and nothing else. */
  lemma {:induction false} FindAllMultiplicity(s: seq<Line>, q: Query)
    ensures forall l :: multiset(FindAll(s, q))[l] == if Matches(l, q) then multiset(s)[l] else 0
  {
    if s != [] {
      FindAllMultiplicity(s[1..], q);
      assert s == [s[0]] + s[1..];
    }
  }

  lemma FindAllSingleton(l: Line, q: Query)
    ensures FindAll([l], q) == if Matches(l, q) then [l] else []
  {
    assert [l][1..] == [];
  }

  lemma {:induction false} NoneMatching(s: seq<Line>, q: Query)
    requires forall j :: 0 <= j < |s| ==> !Matches(s[j], q)
    ensures FindAll(s, q) == []
  {
    if s != [] {
      NoneMatching(s[1..], q);
    }
  }

  /** `FindAll` seen around one index `k`. */
  lemma FindAllAround(s: seq<Line>, k: nat, q: Query)
    requires k < |s|
    ensures FindAll(s, q) == FindAll(s[..k], q) + (if Matches(s[k], q) then [s[k]] else []) + FindAll(s[k + 1..], q)
  {
    var front, back := s[..k], s[k + 1..];
    assert s == front + ([s[k]] + back);
    FindAllAppend(front, [s[k]] + back, q);
    FindAllAppend([s[k]], back, q);
    FindAllSingleton(s[k], q);
  }

  /** In a consistent collection the lookup by (buyer, product) finds at most one line. */
  lemma {:induction false} AtMostOneLinePerProduct(s: seq<Line>, nextId: LineId, b: BuyerId, p: ProductId)
    requires Consistent(s, nextId)
    ensures |FindAll(s, ByKey(b, p))| <= 1
  {
    if s != [] {
      var tail := s[1..];
      assert Consistent(tail, nextId) by {
        forall i, j | 0 <= i < j < |tail| ensures Apart(tail[i], tail[j]) {
          assert tail[i] == s[i + 1] && tail[j] == s[j + 1];
        }
      }
      AtMostOneLinePerProduct(tail, nextId, b, p);
      if Matches(s[0], ByKey(b, p)) {
        forall j | 0 <= j < |tail| ensures !Matches(tail[j], ByKey(b, p)) {
          assert tail[j] == s[j + 1] && Apart(s[0], s[j + 1]);
        }
        NoneMatching(tail, ByKey(b, p));
      }
    }
  }

  // ---------------------------------------------------------------------------
  // Preservation of the collection invariant

  /** Appending a fresh line for a (buyer, product) pair not yet present keeps the invariant. */
  lemma AppendPreservesConsistent(s: seq<Line>, nextId: LineId, l: Line)
    requires Consistent(s, nextId)
    requires FindFirst(s, ByKey(l.buyerId, l.productId)).None?
    requires l.id == nextId && l.orderedQuantity >= 1
    ensures Consistent(s + [l], nextId + 1)
  {
    var t := s + [l];
    forall i, j | 0 <= i < j < |t| ensures Apart(t[i], t[j]) {
      if j == |s| {
        assert t[i] == s[i] && s[i] in s;
        assert !Matches(s[i], ByKey(l.buyerId, l.productId));
      } else {
        assert t[i] == s[i] && t[j] == s[j];
      }
    }
  }

  /** Removing the line at index `k` keeps the invariant. */
  lemma RemoveAtPreservesConsistent(s: seq<Line>, nextId: LineId, k: nat)
    requires Consistent(s, nextId) && k < |s|
    ensures Consistent(s[..k] + s[k + 1..], nextId)
  {
    var r := s[..k] + s[k + 1..];
    assert forall i :: 0 <= i < |r| ==> r[i] == s[if i < k then i else i + 1];
    forall i, j | 0 <= i < j < |r| ensures Apart(r[i], r[j]) {
      assert Apart(s[if i < k then i else i + 1], s[if j < k then j else j + 1]);
    }
    forall l | l in r ensures l in s {
      var m :| 0 <= m < |r| && r[m] == l;
      assert s[if m < k then m else m + 1] == l;
    }
  }

  lemma DeleteOnePreservesConsistent(s: seq<Line>, nextId: LineId, q: Query)
    requires Consistent(s, nextId)
    ensures Consistent(DeleteOne(s, q), nextId)
  {
    if FindFirst(s, q).Some? {
      RemoveAtPreservesConsistent(s, nextId, FindFirst(s, q).value);
    }
  }

  lemma {:induction false} DeleteManyPreservesConsistent(s: seq<Line>, nextId: LineId, q: Query)
    requires Consistent(s, nextId)
    ensures Consistent(DeleteMany(s, q), nextId)
  {
    if s != [] {
      var tail := s[1..];
      assert Consistent(tail, nextId) by {
        forall i, j | 0 <= i < j < |tail| ensures Apart(tail[i], tail[j]) {
          assert tail[i] == s[i + 1] && tail[j] == s[j + 1];
        }
      }
      DeleteManyPreservesConsistent(tail, nextId, q);
      var rest := DeleteMany(tail, q);
      if !Matches(s[0], q) {
        var r := [s[0]] + rest;
        forall i, j | 0 <= i < j < |r| ensures Apart(r[i], r[j]) {
          if i == 0 {
            assert r[j] == rest[j - 1] && rest[j - 1] in tail;
            var m :| 0 <= m < |tail| && tail[m] == r[j];
            assert s[m + 1] == r[j];
          } else {
            assert r[i] == rest[i - 1] && r[j] == rest[j - 1];
          }
        }
      }
    }
  }

  lemma SetQuantityPreservesConsistent(s: seq<Line>, nextId: LineId, k: nat, quantity: int)
    requires Consistent(s, nextId) && k < |s| && quantity >= 1
    ensures Consistent(SetQuantity(s, k, quantity), nextId)
  {
    var t := SetQuantity(s, k, quantity);
    forall i, j | 0 <= i < j < |t| ensures Apart(t[i], t[j]) {
      assert Apart(s[i], s[j]);
    }
    forall l | l in t ensures l.id < nextId && l.orderedQuantity >= 1 {
      var m :| 0 <= m < |t| && t[m] == l;
      if m != k { assert s[m] in s; } else { assert s[k] in s; }
    }
  }

  // ---------------------------------------------------------------------------
  // Frame lemmas: what a handler does to one buyer leaves every other buyer's lines alone

  lemma AppendKeepsOthers(s: seq<Line>, l: Line)
    ensures OthersUntouched(s, s + [l], l.buyerId)
  {
    forall other | other != l.buyerId
      ensures FindAll(s + [l], ByBuyer(other)) == FindAll(s, ByBuyer(other))
    {
      FindAllAppend(s, [l], ByBuyer(other));
      FindAllSingleton(l, ByBuyer(other));
    }
  }

  lemma SetQuantityKeepsOthers(s: seq<Line>, k: nat, quantity: int)
    requires k < |s|
    ensures OthersUntouched(s, SetQuantity(s, k, quantity), s[k].buyerId)
  {
    var t := SetQuantity(s, k, quantity);
    assert t[..k] == s[..k] && t[k + 1..] == s[k + 1..];
    forall other | other != s[k].buyerId
      ensures FindAll(t, ByBuyer(other)) == FindAll(s, ByBuyer(other))
    {
      FindAllAround(s, k, ByBuyer(other));
      FindAllAround(t, k, ByBuyer(other));
    }
  }

  lemma DeleteOneKeepsOthers(s: seq<Line>, id: LineId, b: BuyerId)
    ensures OthersUntouched(s, DeleteOne(s, ByIdAndOwner(id, b)), b)
  {
    var q := ByIdAndOwner(id, b);
    if FindFirst(s, q).Some? {
      var k := FindFirst(s, q).value;
      forall other | other != b
        ensures FindAll(DeleteOne(s, q), ByBuyer(other)) == FindAll(s, ByBuyer(other))
      {
        FindAllAround(s, k, ByBuyer(other));
        FindAllAppend(s[..k], s[k + 1..], ByBuyer(other));
      }
    }
  }

  lemma {:induction false} DeleteManyKeepsBuyer(s: seq<Line>, b: BuyerId, other: BuyerId)
    requires other != b
    ensures FindAll(DeleteMany(s, ByBuyer(b)), ByBuyer(other)) == FindAll(s, ByBuyer(other))
  {
    if s != [] {
      DeleteManyKeepsBuyer(s[1..], b, other);
      var rest := DeleteMany(s[1..], ByBuyer(b));
      assert s == [s[0]] + s[1..];
      FindAllAppend([s[0]], s[1..], ByBuyer(other));
      FindAllSingleton(s[0], ByBuyer(other));
      if s[0].buyerId == b {
        assert DeleteMany(s, ByBuyer(b)) == rest;
      } else {
        assert DeleteMany(s, ByBuyer(b)) == [s[0]] + rest;
        FindAllAppend([s[0]], rest, ByBuyer(other));
      }
    }
  }

  lemma DeleteManyKeepsOthers(s: seq<Line>, b: BuyerId)
    ensures OthersUntouched(s, DeleteMany(s, ByBuyer(b)), b)
  {
    forall other | other != b
      ensures FindAll(DeleteMany(s, ByBuyer(b)), ByBuyer(other)) == FindAll(s, ByBuyer(other))
    {
      DeleteManyKeepsBuyer(s, b, other);
    }
  }

  /** After `deleteMany` nothing matching the filter is left. */
  lemma DeleteManyLeavesNone(s: seq<Line>, q: Query)
    ensures FindAll(DeleteMany(s, q), q) == []
  {
    var r := DeleteMany(s, q);
    forall j | 0 <= j < |r| ensures !Matches(r[j], q) {
      assert r[j] in r;
    }
    NoneMatching(r, q);
  }

  /** `deleteMany` is idempotent. */
  lemma {:induction false} DeleteManyIdempotent(s: seq<Line>, q: Query)
    ensures DeleteMany(DeleteMany(s, q), q) == DeleteMany(s, q)
  {
    if s != [] {
      DeleteManyIdempotent(s[1..], q);
      var rest := DeleteMany(s[1..], q);
      if Matches(s[0], q) {
        assert DeleteMany(s, q) == rest;
      } else {
        assert DeleteMany(s, q) == [s[0]] + rest;
        assert ([s[0]] + rest)[1..] == rest;
      }
    }
  }
}
