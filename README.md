# Vibe Commerce storefront backend: cart, checkout and assistant directives

This project models the stateful core of the Vibe Commerce backend (`be/server.js`)
and proves properties of that model in Dafny. The core has four parts.

- **The cart store.** It holds cart lines: a record id, a user, a product id and a
  quantity. Adding a product either merges into the user's existing line for that
  product or creates a line. A line is deleted by its record id. The priced view of a
  user's cart joins each line with the product catalogue, drops lines whose product
  is gone, prices each kept line as `quantity * price` and sums the subtotals.
- **Checkout settlement.** The client posts the cart items back. The receipt's
  subtotal is the sum of the posted subtotals, the tax is 18% of it, and the total is
  the subtotal plus tax. Every cart line of the user is deleted. The receipt says
  "Cash on Delivery" and "Confirmed".
- **Product id issue.** A new product gets the largest existing product id plus one,
  or 1 when the catalogue is empty.
- **The navigation directive.** The shopping assistant's generated text is trimmed.
  The first case-insensitive `NAVIGATE:` followed by `/` and a run of word characters
  gives the path to navigate to. That one token is cut from the text, which is then
  trimmed again.

Modules, one per component:

- `Wrappers` (`wrappers.dfy`): `Option`.
- `Seqs` (`seqs.dfy`): order-preserving `Filter` and its lemmas. The store's queries
  and bulk deletes are all stated through it.
- `Catalog` (`catalog.dfy`): products, lookup by id, id issue, and the `ProductTable`
  class that the admin handler extends.
- `Cart` (`cart.dfy`): cart lines as values. It defines the add-or-merge rule,
  deletion by id, clearing a user's cart, and the priced view.
- `Checkout` (`checkout.dfy`): the receipt and its arithmetic.
- `Store` (`store.dfy`): the `CartStore` class. Its methods change the stored lines as
  the request handlers do. `View` builds the priced view with a loop, as the handler does.
- `Directive` (`directive.dfy`): `trim`, the directive scan and the reply post-processing.

Money is `real` and is never rounded inside the model. Quantities and product ids are
`int`, because the code does not validate them. `CartStore` issues line record ids from
a counter, and its invariant keeps them unique.

Where the design intent and the code differ, the model follows the code:

- Checkout does not reject an empty item list. It settles to zero amounts
  (`Checkout.SettleEmpty`).
- The directive regular expression has no `g` flag. Only the first token is removed,
  and a second token stays in the reply (`Directive.ParseExampleTwoDirectives`).
- Checkout trusts the posted subtotals. It does not re-price them from the store.

## Model

| member | source | states |
|---|---|---|
| `Catalog.FindProduct` | be/server.js:131 | The product found carries the requested id and is in the catalogue; none found means no product has that id. |
| `Catalog.FindProductFinds` | be/server.js:23 | With unique product ids, a lookup by a product's id returns exactly that product. |
| `Catalog.MaxProductId` | be/server.js:189 | The result is the id of some product, and no product has a larger id. |
| `Catalog.NextProductId` | be/server.js:189-190 | The new id is 1 on an empty catalogue, otherwise one more than an existing id. It is strictly greater than every existing id. |
| `Catalog.ProductTable.Create` | be/server.js:188-192 | The product is appended under the issued id. No existing product has that id, and product ids stay unique. |
| `Cart.FindLine` | be/server.js:97 | The index found is the first line of the (user, product) pair; none found means no line of that pair. |
| `Cart.AddOrMerge` | be/server.js:97-106 | The add-to-cart rule. It adds at most one line, keeps every existing line's record id, owner and product in place, and afterwards the pair has a line. The exact merge and create cases are `AddOrMergeMerges` and `AddOrMergeCreates`; the quantity arithmetic is `AddOrMergeAccumulates`. |
| `Cart.AddOrMergeMerges` | be/server.js:97-102 | When the pair has a line, that line's quantity becomes old + added, no line is created, and every other line is unchanged. |
| `Cart.AddOrMergeCreates` | be/server.js:103-105 | When the pair has no line, exactly one line holding the added quantity is appended. |
| `Cart.AddOrMergeKeepsInvariant` | be/server.js:97-106 | Add-or-merge keeps both "at most one line per (user, product)" and unique line ids. |
| `Cart.AddOrMergeAccumulates` | be/server.js:99-104 | The pair's total quantity rises by exactly the added amount; every other pair's total is unchanged. |
| `Cart.TwoAddsMakeOneLine` | be/server.js:97-106 | Two adds of one product by one user leave exactly one line for that pair, holding q1 + q2. |
| `Cart.RemoveLine` | be/server.js:116 | Deletion by record id. No remaining line carries the id. Every remaining line was stored before, and every stored line with another id remains. Exactness, no-op and idempotence are the three lemmas below. |
| `Cart.RemoveLineRemovesOnly` | be/server.js:116 | Deleting an existing id removes just that line; all other lines keep their order. |
| `Cart.RemoveLineMissing` | be/server.js:116 | Deleting an id that no line carries changes nothing. |
| `Cart.RemoveLineIdempotent` | be/server.js:116 | Deleting twice is the same as deleting once. |
| `Cart.LinesOf` | be/server.js:127 | The cart query by user. Each result line is a stored line of that user, and every stored line of that user is in the result. |
| `Cart.RemoveUser` | be/server.js:160 | Bulk deletion by user. No remaining line belongs to the user. Every remaining line was stored before, and every other user's line remains. Order is stated in `RemoveUserKeepsOthers`. |
| `Cart.RemoveUserEmptiesCart` | be/server.js:160 | After a user's lines are deleted, that user owns no line. |
| `Cart.RemoveUserKeepsOthers` | be/server.js:160 | Clearing one user's cart leaves every other user's lines exactly as they were, in order. |
| `Cart.PriceLines` | be/server.js:130-142 | Every view entry has subtotal = quantity × price, and the view has no more entries than there are lines. |
| `Cart.PriceLinesSelectsResolvable` | be/server.js:130-142 | The view is, in order, exactly the lines whose product resolves, each priced against that product. |
| `Cart.CartView` | be/server.js:127-142 | The priced view has at most one entry per line of the user, and each entry's subtotal is quantity × price. Which lines appear is `CartViewMembership`; the loop that builds it is `Store.CartStore.View`. |
| `Cart.CartViewMembership` | be/server.js:127-142 | A store line appears in a user's view if and only if it is that user's line and its product is still in the catalogue. |
| `Cart.ClearedCartViewIsEmpty` | be/server.js:159-160 | After checkout clears a user's cart, the user's view is empty and totals zero. |
| `Cart.SumSubtotals` | be/server.js:155 | The `reduce` that sums subtotals from 0, here and in the cart view (be/server.js:144). With no negative subtotal, the sum is non-negative and no smaller than any single subtotal. Additivity over concatenation is `SumSubtotalsAppend`, used by `Checkout.SettleViewParts`. |
| `Checkout.Settle` | be/server.js:162-177 | The receipt echoes the order id, customer and timestamp. It has one item per posted item, in the same order, with unitPrice = price. The payment method is "Cash on Delivery" and the status is "Confirmed". |
| `Checkout.SettleAmounts` | be/server.js:155-157 | subtotal = Σ posted subtotals, tax = 18% of subtotal, total = subtotal + tax = 118% of subtotal. |
| `Checkout.SettleEmpty` | be/server.js:155-157 | An empty item list is not rejected: it settles to zero subtotal, tax and total, with status "Confirmed". |
| `Checkout.SettleAmountsOrdered` | be/server.js:155-157 | With no negative posted subtotal, 0 ≤ tax ≤ subtotal ≤ total. |
| `Checkout.SettleViewParts` | be/server.js:155 | The receipt subtotal of a concatenation is the sum of the parts' subtotals. |
| `Checkout.CheckoutScenario` | be/server.js:127-177 | Headphones ×1 at 99.99 and cables ×2 at 12.99 give view subtotals 99.99 and 25.98, total 125.97. Settling gives tax 22.6746 and total 148.6446. Another user's line is not shown. |
| `Store.CartStore.Add` | be/server.js:93-106 | The new store state is the add-or-merge of the old one. The result reports a merge exactly when a line for the pair existed, and the invariants are kept. |
| `Store.CartStore.Remove` | be/server.js:113-117 | The new store state is the old one without the line of that id, and the invariants are kept. |
| `Store.CartStore.View` | be/server.js:124-145 | Returns the priced view of the user's lines and the sum of its subtotals, and changes nothing. |
| `Store.CartStore.Checkout` | be/server.js:152-178 | Returns the settled receipt and deletes exactly the user's lines, keeping the invariants. |
| `Directive.Trim` | be/server.js:257 | The result has no white space at either end. |
| `Directive.TrimRemovesOnlyOuterSpace` | be/server.js:257 | The result is the input with only its leading and trailing white space removed. |
| `Directive.TrimIdempotent` | be/server.js:262 | Trimming twice is the same as trimming once. |
| `Directive.ToUpper` | be/server.js:260 | The case folding of the `i` flag without `u`: the result is never a lower-case ASCII letter. Word characters stay word characters, non-lower-case characters are unchanged, and an upper-case result comes from itself or its lower-case letter. |
| `Directive.DirectiveAt` | be/server.js:260 | A directive begins at `i` exactly when each of the nine characters of `NAVIGATE:` appears there either as is or, for a letter, in lower case, and a `/` follows. The leftmost such position is `FindDirective`. |
| `Directive.FindDirective` | be/server.js:260 | Returns the leftmost position where a case-insensitive `NAVIGATE:` followed by `/` begins, or none when no position qualifies. |
| `Directive.WordRunEnd` | be/server.js:260 | The run ends at the first character that is not a word character: greedy `[\w]*`. |
| `Directive.ParseReply` | be/server.js:257-266 | The reply is always trimmed, and a navigate path always starts with `/`. The function is total. |
| `Directive.ParseTakesFirstDirective` | be/server.js:260-263 | At the first directive: the path is `/` plus the maximal word run, the next character is not a word character, and the reply is the text with only that token cut out, then trimmed. |
| `Directive.ParseWithoutDirective` | be/server.js:260-266 | With no directive, the reply is the trimmed text and no path is given. |
| `Directive.ParseNavigatesIffDirective` | be/server.js:260-266 | A path is returned if and only if the trimmed text holds a directive. |
| `Directive.ParseExampleCart` | be/server.js:260-263 | "Sure, heading to cart now. NAVIGATE:/cart" gives the reply "Sure, heading to cart now." and the path "/cart". |
| `Directive.ParseExampleNoDirective` | be/server.js:266 | "I recommend the Bluetooth Speaker." is returned unchanged, with no path. |
| `Directive.ParseExampleTwoDirectives` | be/server.js:260-263 | "NAVIGATE:/admin Some trailing text NAVIGATE:/" gives the path "/admin" and the reply "Some trailing text NAVIGATE:/". Only the first token is cut. |

## Left out

- Express routing, JSON request and response shapes, status codes and the listening server (be/server.js:1-13, 274-276): I/O plumbing.
- The MongoDB connection, schemas and `await`s (be/server.js:15-44). Each collection is a sequence held by a class. Each query is a function of that sequence.
- Concurrency: the read-then-save race between `findOne` and `save` in add-or-merge (be/server.js:97-101). Interleaving with admin edits during the view's per-line lookups is also out. Each handler runs as one atomic step.
- The text-generation call and its prompt (be/server.js:227-256). Only the processing of the returned text is modelled, and that text is the parser's input.
- Signup and login (be/server.js:48-79), the product listing (be/server.js:81-90), and admin product update and delete (be/server.js:199-221): thin store wrappers with no logic.
- Checkout.Settle: amounts are exact reals. The response formats them with `toFixed(2)` (be/server.js:145, 172-174), and the model ignores floating-point error and that rounding.
- The random order id and the ISO timestamp (be/server.js:164, 175) are parameters of `Settle`.
- Directive.Trim: only ASCII white space is removed; `trim` also removes Unicode white space.
- Store.CartStore.Checkout: the posted items are typed entries, so the model always settles and then always clears the cart. In the handler, a missing or non-array `cartItems` throws at the `reduce` (be/server.js:155) before the `deleteMany` (be/server.js:160), so the cart is kept and the reply is status 500. A string `subtotal` turns the sum into string concatenation; the cart is still cleared at line 160, then `toFixed` (be/server.js:172) throws and no receipt is sent. A missing `subtotal` gives a receipt of `NaN` amounts after the cart is cleared. None of these paths is modelled.
- Store.CartStore.Add: the request quantity is an integer. A missing quantity (the schema default of 1 on create, `NaN` on merge) and non-numeric values are not modelled.
- Store.CartStore.Remove: line ids are counter-issued naturals. A malformed id string, which makes the handler fail with a cast error, is not modelled.
- The frontend files (`fe/src/App.jsx`, `fe/src/pages/*.jsx`) are not part of this model. They render and call the API. The only fact taken from them is that checkout posts the priced view's items (fe/src/App.jsx:166).
