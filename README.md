# Session cart of the online shop, in Dafny

This project models the shopping cart of a small Django storefront. It also
models the add-to-cart form that feeds the cart.

A cart is the dict kept under one key of the user's session. It maps
`str(product.id)` to a line `{quantity, price}`, where the price is a snapshot
of the product's price taken when the line was created. `Cart` wraps that dict
and offers these operations:

- `add` creates a line or raises or overrides its quantity.
- `remove` deletes a line.
- `__len__` counts items.
- `get_total_price` sums price × quantity.
- `__iter__` yields the lines, enriched with the catalog product and a line total.
- `clear` drops the dict from the session.

Every mutation marks the session modified so that the framework writes it back.
The form accepts a quantity from the choices 1..20 and an optional hidden
`override` flag. The view calls `Cart.add` only when the form is valid.

Modules:

- `Numerals` (numerals.dfy) covers `str(n)` and `int(s)` on naturals. It proves
  `int(str(n)) == n` and that `str` is injective. Because `str` is injective,
  the model keys lines by the product id itself.
- `Catalog` (catalog.dfy) holds `Product`, reduced to an id and a price in
  cents. It also holds the catalog lookup, a map from id to product.
- `CartForms` (forms.dfy) covers `PRODUCT_QUANTITY_CHOICES` and the cleaning
  of `CartAddProductForm`.
- `CartLines` (cart_lines.dfy) models the stored dict as a value. It defines
  the line type, the insertion order of the keys and the sums. It gives `add`,
  `remove` and iteration as functions on these values and proves the lemmas
  about them.
- `SessionCart` (cart.dfy) holds the classes `Session`, `LineTable` (the stored
  dict, shared by the session and the cart) and `Cart`. Each method is proved
  against the functions of `CartLines`.
- `CartViews` (views.dfy) covers the `cart_add` guard, clearing followed by
  the next request's cart, and a whole add/add/remove/clear scenario.

Three behaviours of the code that a reader might not expect:

- Iteration yields every stored line. A line whose product is missing from the
  catalog is still yielded, just without a `product`; it is not skipped.
- `clear()` removes the session key only. The `Cart` object that was cleared
  still holds its lines, so its `len` is unchanged. Only a cart built afterwards
  on the same session is empty (`CartViews.CheckoutScenario`, `staleCount`).
- Iterating writes into the stored lines, because `self.cart.copy()` is
  shallow. Afterwards a stored line carries `product` and `total_price`.
  `add` later changes only `quantity`, so that `total_price` goes stale.

Assumptions about framework code that is not part of this model:

- Assigning a session key marks the session modified. This is used by the
  constructor when it stores a new empty dict.
- `ChoiceField` accepts a submitted string when it equals `str(value)` of some
  choice. `TypedChoiceField` then applies `int`.
- `BooleanField` reads the strings "false" and "0" as false, ignoring letter
  case. It reads any other string as `bool(string)`, and an absent field as
  false.

## Model

| member | source | states |
|---|---|---|
| `Numerals.Str` | cart/forms.py:3 | `str(n)` is a non-empty digit string, with a leading zero only for 0 and one digit exactly below 10 |
| `Numerals.ParseStr` | cart/forms.py:10-13 | coercing a choice label with `int` gives back the number it was written from |
| `Numerals.StrInjective` | cart/cart.py:48 | distinct product ids give distinct keys `str(product.id)` |
| `CartForms.ChoicesFrom` | cart/forms.py:3 | the comprehension over `range(lo, hi)` gives `hi - lo` pairs `(i, str(i))` in ascending order |
| `CartForms.QuantityChoices` | cart/forms.py:3 | `PRODUCT_QUANTITY_CHOICES` is exactly the 20 pairs `(i, str(i))` for i = 1..20, in order |
| `CartForms.QuantityChoicesOrdered` | cart/forms.py:3 | the choice values strictly ascend and no two labels are equal |
| `CartForms.FindChoice` | cart/forms.py:10-13 | a submitted string matches a choice exactly when it equals `str` of that choice's value; no match means no choice has that label |
| `CartForms.CleanQuantity` | cart/forms.py:10-13 | an accepted quantity lies in 1..20 and is the number whose `str` was submitted; a missing or empty value is `Required` |
| `CartForms.QuantityAccepted` | cart/forms.py:10-13 | a string is accepted if and only if it is `str(i)` for some i in 1..20, and then it cleans to exactly i |
| `CartForms.CleanOverride` | cart/forms.py:15-19 | `override` is not required: absent means false, and true needs a non-empty value other than "0" |
| `CartForms.OverrideRoundTrip` | cart/forms.py:15-19 | the hidden input reads back the bool it was rendered with ("True" / "False") |
| `CartForms.CleanForm` | cart/forms.py:10-19 | the form is valid exactly when its quantity is; a valid form carries a quantity in 1..20 and override defaults to false |
| `CartLines.Added` | cart/cart.py:48-58 | `add` on the stored lines: the keys become the old keys plus the product's, the line's price is its existing snapshot or else the product's current price, and with override its quantity is q (the other cases are stated by the `Add*` lemmas below) |
| `CartLines.AddedOrder` | cart/cart.py:49-53 | the key order after `add`: unchanged for a present key, and a new key is appended after all existing keys, which keep their positions |
| `CartLines.Attached` | cart/cart.py:101-102 | the product loop's write into a line: the catalog product when the catalog has the id, otherwise the line's previous product; quantity, price and total untouched |
| `CartLines.Enriched` | cart/cart.py:101-106 | a stored line after iteration: quantity and price unchanged, `total_price` is price × quantity, product as `Attached` gives it |
| `CartLines.SumNonNegative` | cart/cart.py:131-134 | a sum of non-negative weights is non-negative |
| `CartLines.Without` | cart/cart.py:81-82 | deleting a key keeps exactly the other keys |
| `CartLines.SumAfterPut` | cart/cart.py:49-58 | storing a line under a key keeps the table well formed and moves any sum by the new line's weight minus the replaced one's |
| `CartLines.SumAfterDelete` | cart/cart.py:80-82 | deleting a line keeps the table well formed and takes exactly that line's weight off any sum |
| `CartLines.TableSize` | cart/cart.py:119 | a well-formed table has one line per key in its order |
| `CartLines.CountAtLeastLines` | cart/cart.py:119 | with every quantity at least 1, the item count is at least the number of lines |
| `CartLines.AddNewProduct` | cart/cart.py:49-53 | adding an absent product creates a line with quantity q and the product's price at that moment |
| `CartLines.AddAccumulates` | cart/cart.py:57-58 | adding a present product without override raises its quantity by exactly q and keeps its price snapshot |
| `CartLines.AddTwice` | cart/cart.py:57-58 | `add(p, a); add(p, b)` equals `add(p, a + b)`, so adding 2 then 3 to an absent product gives 5 |
| `CartLines.AddOverride` | cart/cart.py:55-56 | with override the quantity becomes q whatever came before, and an existing snapshot is kept |
| `CartLines.AddFrame` | cart/cart.py:48-58 | `add` adds only the product's key and leaves every other line unchanged |
| `CartLines.AddIsAdditive` | cart/cart.py:131-134 | `add(p, q)` without override raises the item count by q and the total by q times the line's snapshot price |
| `CartLines.AddKeepsPositive` | cart/views.py:16-22 | adding a quantity of at least 1 never creates a line with zero or fewer items |
| `CartLines.RemoveIdempotent` | cart/cart.py:80-83 | removing a product twice leaves the same key order and the same lines as removing it once |
| `CartLines.EnrichKeepsSums` | cart/cart.py:104-107 | iteration changes neither the item count nor the total, and the written line totals add up to the cart total |
| `CartLines.EnrichAttachesCatalogProducts` | cart/cart.py:98-102 | on a line never iterated, a product is attached exactly when the catalog has its id, and it is that catalog product |
| `SessionCart.LineTable.Put` | cart/cart.py:50 | `self.cart[id] = line`: the line is stored under the key, a new key goes last, and the table stays well formed |
| `SessionCart.LineTable.AddLine` | cart/cart.py:48-58 | the dict part of `add`: the lines become `Added(old lines, p, q, override)` and the order `AddedOrder(...)` |
| `SessionCart.LineTable.AttachProducts` | cart/cart.py:98-102 | the product loop writes each catalog product found for a key into that key's line and changes nothing else |
| `SessionCart.LineTable.WriteTotals` | cart/cart.py:104-107 | the value loop writes price × quantity into every line and yields the lines in insertion order |
| `SessionCart.Cart.constructor` | cart/cart.py:29-33 | a missing or empty stored cart becomes a new empty dict stored under the key; otherwise the stored dict is reused unchanged |
| `SessionCart.Cart.Len` | cart/cart.py:119 | the item count is at least the number of lines when every quantity is positive, and 0 for an empty cart |
| `SessionCart.Cart.TotalPrice` | cart/cart.py:121-134 | the exact sum in cents of snapshot price × quantity over the lines: 0 for an empty cart, never negative when prices and quantities are not; how it moves is proved by `CartLines.AddIsAdditive` (add), `SessionCart.Cart.Remove` (remove) and `CartLines.EnrichKeepsSums` (iteration) |
| `SessionCart.Cart.Save` | cart/cart.py:62-69 | the session ends up marked modified |
| `SessionCart.Cart.Add` | cart/cart.py:35-60 | the lines become `Added(old lines, p, q, override)`, a new key goes last, the session is marked modified, and without override the count rises by q and the total by q × snapshot |
| `SessionCart.Cart.Remove` | cart/cart.py:71-83 | the product's key is absent afterwards and the other keys keep their order; count and total fall by the removed line's quantity and cost (or stay the same if it was absent); the session is marked modified |
| `SessionCart.Cart.Iterate` | cart/cart.py:85-107 | one item per stored line, in insertion order, including lines with no catalog product; each line gets total = price × quantity and its catalog product when there is one; keys, quantities, count and total are unchanged |
| `SessionCart.Cart.Clear` | cart/cart.py:136-143 | a present key is removed and the session is marked modified; an absent key is a `KeyError` with nothing changed |
| `CartViews.CartAdd` | cart/views.py:16-22 | an invalid form leaves the cart and the session flag untouched; a valid one adds with the cleaned quantity and override; a cart with only positive quantities stays so |
| `CartViews.ClearThenReload` | cart/cart.py:136-143 | after a successful `clear`, a cart built on the same session is empty: a new dict with no lines and no keys, now the one stored in the session, so iteration yields nothing and count and total are 0; the cleared cart keeps its lines |
| `CartViews.AddAddRemove` | cart/cart.py:48-83 | products at 10.00 and 5.00: counts 2, 3, 1 and totals 2000, 2500, 500 cents after add 2 × A, add 1 × B, remove A |
| `CartViews.CheckoutScenario` | cart/cart.py:29-143 | the same run on a new session, then `clear` and the next request's cart, gives counts 2, 3, 1, 0 and totals 2000, 2500, 500, 0; the cleared object itself still counts 1 |

## Left out

- `SessionCart.Cart.Len`: `len(cart)` raises ValueError on a negative sum of quantities (only reachable by calling `add` directly with a negative quantity) and OverflowError beyond `sys.maxsize`; `Len` returns the sum.

- `get_total_price` converts each price with `float`. The model computes the total exactly, in integer cents. The float rounding, a likely source of imprecise totals, is not reproduced.
- `Decimal(str(price))` string round-tripping of the price snapshot is not modelled. The snapshot is the exact number of cents.
- The database query `Product.objects.filter(id__in=...)` is not modelled. Instead, the catalog is a map from id to product given as a parameter.
- Session storage and serialisation are I/O. The session is reduced to the stored dict (or its absence) and the `modified` flag. Other session keys and `settings.CART_SESSION_ID` are not modelled.
- `SessionCart.Cart.Iterate`: `__iter__` is a lazy generator. The model runs it to the end. A caller that stops early leaves later lines without `total_price`; the model does not capture that.
- `SessionCart.Cart.Iterate`: the yielded items are the stored line dicts themselves, so a later change to an item changes the session. The model returns the lines' values, not references to them.
- Product fields other than id and price (name, slug, image, availability, timestamps, category) are not modelled, and neither is the price column's 10-digit bound. No cart behaviour depends on them.
- The HTTP views are not modelled beyond `CartViews.CartAdd`. This includes `get_object_or_404`, redirects, rendering, `cart_remove`, `cart_detail` and the context processor. `CartAdd` takes an existing cart and product and models only the rule that the cart changes only on a valid form.
- `CartForms.CleanOverride`: letter case is folded for ASCII only. Python's `lower()` is Unicode-wide, but no non-ASCII character lower-cases into "false" or "0", so the outcome is the same. Repeated form values (the last one wins) are not modelled.
