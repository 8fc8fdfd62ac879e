# Cart model of ecommerce-v1

A Dafny model of the cart service of the ecommerce-v1 API
(`api/cart/cart.route.js`). A buyer keeps cart lines against a read-only
product catalog. Each line is `{id, buyerId, productId, orderedQuantity}`.
The route handlers add a line, step a line's quantity up or down, remove one
line, flush a buyer's cart, count a buyer's lines, and list a buyer's lines
with an order summary: subtotal, a 5 % discount and the grand total.

Layout, one module per file:

- `catalog.dfy` (`Catalog`): the product catalog. It is a map from product id to
  name, brand, category, price, stock quantity and image.
- `cart_lines.dfy` (`CartLines`): the `carts` collection, a sequence of lines in
  collection order. It also holds the filter queries the handlers run:
  - `FindFirst` is `findOne`. It also gives the line that `updateOne` and
    `deleteOne` act on.
  - `FindAll` is `find` and the `$match` stage.
  - `DeleteOne` and `DeleteMany` are the two deletions.
  - The file also defines the collection invariant and proves that each
    change preserves it and leaves other buyers' lines alone.
- `listing.dfy` (`Listing`): the `$lookup`/`$project` join of a buyer's lines
  with the catalog.
- `pricing.dfy` (`Pricing`): the summary loop and the pricing identities. It also
  proves how adds and quantity updates move a buyer's subtotal.
- `cart_service.dfy` (`CartService`): the class `CartStore`. It holds the
  collection and has one method per handler. Each method returns a `Status`
  variant for each response the handler can send.
- `scenarios.dfy` (`Scenarios`): client runs whose outcomes follow from the
  method contracts alone. One is a worked example: stock 5 at price 100,
  add 3, step up to 5, the next step is refused, the listing gives 500/25/475.
  Others cover the quantity floor, flushing one buyer, and an empty cart.

Modelling choices:

- The collection invariant (`CartLines.Consistent`, kept by `CartStore.Valid`)
  has three parts:
  - line ids are unique;
  - each buyer holds at most one line per product;
  - every ordered quantity is at least 1.
- The stock bound depends on the catalog, and the catalog can change between
  calls. So the stock bound (`WithinStock`) is not in the invariant. Instead,
  every handler that reads the catalog preserves it for the catalog it was given.
- Collection order is the order of the sequence. `findOne`, `updateOne` and
  `deleteOne` act on the first matching line.
- A line id comes from a counter (`nextId`). It stands for the ObjectId the
  database assigns.
- Prices are exact natural numbers in the smallest currency unit. The subtotal
  is an integer. Discount and grand total are exact reals.
- The update action is any string. `"inc"` adds one unit and every other value
  removes one, as the handler's conditional does.

## Model

| member | source | states |
|---|---|---|
| CartService.CartStore.AddItem | api/cart/cart.route.js:34-82 | Checks run in order: unknown product gives NotFound, then a quantity above stock gives OutOfStock, then an existing (buyer, product) line gives Conflict. Otherwise exactly one line with the next id, that buyer, product and quantity is appended. On failure nothing changes. The invariant and the stock bound are kept, other buyers' lines are untouched, and at most one line exists for the pair. |
| CartService.CartStore.UpdateQuantity | api/cart/cart.route.js:101-168 | Checks run in order: unknown product gives NotFound, then no line gives NoLine. The wanted quantity is old+1 for "inc" and old−1 for any other action. A wanted quantity above stock gives OutOfStock; otherwise one below 1 gives BelowOne. Otherwise only that line's quantity changes, to a value in [1, stock]. Failures change nothing, and other buyers' lines are untouched. |
| CartService.CartStore.RemoveItem | api/cart/cart.route.js:173-190 | Always Ok. At most one line is deleted, and only one whose id and buyer both match. An absent or foreign id changes nothing. Other buyers' lines are untouched. |
| CartService.CartStore.Flush | api/cart/cart.route.js:194-200 | Always Ok. Exactly the buyer's lines are removed, so none is left and the count is 0. Every other line stays. |
| CartService.CartStore.ListItems | api/cart/cart.route.js:204-247 | The items are the buyer's lines joined with the catalog, one per line when every product of the buyer's lines exists. The subtotal is the buyer's Σ price·quantity and is ≥ 0. The discount is 1/20 of the subtotal, and grand total + discount = subtotal. An empty cart gives 0/0/0. |
| CartService.CartStore.Count | api/cart/cart.route.js:251-255 | The number of the buyer's lines; 0 exactly when the buyer owns no line. |
| Pricing.OrderSummary | api/cart/cart.route.js:232-240 | The loop's subtotal equals the reference sum Σ price·orderedQuantity. The discount is 5 % of the subtotal and the grand total is 95 % of it, so grand total + discount = subtotal. For a non-negative subtotal, 0 ≤ discount ≤ grand total ≤ subtotal. |
| Pricing.SubtotalAppend | api/cart/cart.route.js:234-236 | The subtotal of two concatenated listings is the sum of their subtotals. |
| Pricing.SubtotalNonNegative | api/cart/cart.route.js:234-236 | Items that each order at least one unit never give a negative subtotal. |
| Pricing.BuyerSubtotalNonNegative | api/cart/cart.route.js:232-236 | In a consistent collection, every buyer's listed subtotal is ≥ 0. |
| Pricing.AddRaisesSubtotal | api/cart/cart.route.js:77 | Appending a line for a catalog product raises its buyer's subtotal by exactly price × quantity. |
| Pricing.SetQuantityShiftsSubtotal | api/cart/cart.route.js:158-165 | Setting one line's quantity shifts its buyer's subtotal by price × (new − old), so one step moves it by exactly one unit price. |
| Listing.Join | api/cart/cart.route.js:211-229 | Never longer than the buyer's lines. Every item names a catalog product and carries that product's current price. Every line whose product exists appears, enriched with that product. |
| Listing.JoinFromLines | api/cart/cart.route.js:211-229 | Every listed item is the enrichment of one of the buyer's lines with its catalog product. |
| Listing.Enrich | api/cart/cart.route.js:220-228 | An item carries the line's id, product and quantity, and the product's name, brand, category, price and image. |
| Listing.JoinComplete | api/cart/cart.route.js:211-229 | When every line's product exists, the listing has exactly one entry per line, in order, with the product's fields. |
| CartLines.FindFirst | api/cart/cart.route.js:69-72 | Returns the index of the first line matching the filter. It returns none exactly when no line matches. |
| CartLines.Matches | api/cart/cart.route.js:69-72 | A line matches a (buyer, product) filter exactly when both fields agree, an (id, owner) filter exactly when both agree, and any filter (also the `{_id, buyerId}` and `{buyerId}` filters at `:182`, `:196` and `:253`) only if the line belongs to the filter's buyer. |
| CartLines.FindAll | api/cart/cart.route.js:253 | Holds exactly the lines that match the filter, and no more lines than the collection. |
| CartLines.FindAllMultiplicity | api/cart/cart.route.js:253 | Each matching line occurs in the result as often as in the collection, and no other line occurs, so the count is the number of matching lines. |
| CartLines.SetQuantity | api/cart/cart.route.js:158-165 | The collection keeps its length. The line at the index gets the new quantity with its id, buyer and product unchanged. Every other line is unchanged. |
| CartService.Stepped | api/cart/cart.route.js:132-135 | The wanted quantity is one more exactly when the action is "inc", and one fewer exactly when it is anything else. |
| CartLines.DeleteOne | api/cart/cart.route.js:182 | Deletes nothing when no line matches, and exactly one line when one does. The result is a sub-multiset of the collection. Every non-matching line keeps its multiplicity. |
| CartLines.DeleteMany | api/cart/cart.route.js:196 | A line remains exactly when it was present and does not match the filter. |
| CartLines.AtMostOneLinePerProduct | api/cart/cart.route.js:68-77 | In a consistent collection the (buyer, product) lookup finds at most one line. |
| CartLines.AppendPreservesConsistent | api/cart/cart.route.js:73-77 | Appending a line with the next id, quantity ≥ 1, and a (buyer, product) pair not yet present keeps the invariant. |
| CartLines.SetQuantityPreservesConsistent | api/cart/cart.route.js:152-165 | Setting a line's quantity to a value ≥ 1 keeps the invariant. |
| CartLines.RemoveAtPreservesConsistent | api/cart/cart.route.js:182 | Removing any one line keeps the invariant. |
| CartLines.DeleteOnePreservesConsistent | api/cart/cart.route.js:182 | `deleteOne` keeps the invariant. |
| CartLines.DeleteManyPreservesConsistent | api/cart/cart.route.js:196 | `deleteMany` keeps the invariant. |
| CartLines.AppendKeepsOthers | api/cart/cart.route.js:77 | Creating a line leaves every other buyer's lines, and their order, unchanged. |
| CartLines.SetQuantityKeepsOthers | api/cart/cart.route.js:158-165 | Updating a line's quantity leaves every other buyer's lines unchanged. |
| CartLines.DeleteOneKeepsOthers | api/cart/cart.route.js:182 | Deleting by id and owner never touches another buyer's lines. |
| CartLines.DeleteManyKeepsBuyer | api/cart/cart.route.js:196 | Flushing buyer b leaves the lines of any other buyer, in order, as they were. |
| CartLines.DeleteManyKeepsOthers | api/cart/cart.route.js:196 | Flushing a buyer leaves every other buyer's lines unchanged. |
| CartLines.DeleteManyLeavesNone | api/cart/cart.route.js:196 | After `deleteMany` no line matches its filter. |
| CartLines.DeleteManyIdempotent | api/cart/cart.route.js:196 | Running `deleteMany` twice with the same filter is the same as running it once. |

## Left out

- HTTP and Express plumbing: routing, status codes and messages. Each response
  becomes a `Status` variant; the status code is noted beside each variant.
- The `isBuyer` middleware and the request schemas in `cart.validation.js`. Neither
  is part of this model. The buyer id is a parameter. `AddItem` requires
  `orderedQuantity >= 1`, the bound the add schema is taken to enforce.
- The ObjectId format checks (`cart.route.js:40-44`, `:105-111` and
  `checkMongoIdValidity` at `:176`) and their 400 responses. They are library
  calls. Ids are typed values here, so a malformed id cannot be expressed.
- Listing.Join: the model excludes a line whose product is no longer in the
  catalog from the listing and the subtotal. The source leaves this case
  undefined: `$first` of an empty lookup yields missing fields, and the price
  product becomes NaN. `JoinComplete` shows that nothing is excluded while
  `WithinStock` holds.
- The listing keeps the display fields `$project` selects and the line's id. It
  does not model any other field of the stored documents.
- Concurrency. The checks and writes in add (`:69-77`) and update (`:148-165`)
  can race, and the model does not capture that. Every handler here runs
  atomically and in sequence.
- Floating point. JavaScript numbers are doubles. Here prices are exact
  integers and the discount and grand total are exact reals, so no rounding
  is modelled.
- The commented-out code at `cart.route.js:52-61` and `:137-147`.
- Product CRUD in `api/product/product.route.js`. The catalog appears only as
  the read-only map the cart handlers look up.
- The UI files. They contain React rendering, forms, network calls and local
  storage, and no cart logic.
