# Cart state machine of the ETR storefront, in Dafny

The storefront keeps a shopping cart in the browser's key-value storage under
the key `etr_cart_v1`. Each change loads it, edits it, writes it back and
re-renders the header badge and the cart drawer from it. The checkout summary
and its pay links are written once, when the checkout page initialises, and a
later remove in the drawer does not refresh them (`Checkout.DrawerRemoveOnCheckout`).
This project models that cart logic of `js/app.js` and proves what it keeps:

- **Money** (`money.dfy`): `formatMoney` on integer cents, `"$" + dollars + "." + two digits`,
  and `String(n)` for the badge. Both are shown to be readable back: `ParseMoney(FormatMoney(c)) == Some(c)`.
- **Cart** (`cart.dfy`): the line item record with its `qty` and `stripeLink` fields.
  Also `cartCount` and `cartTotal` as left folds with `qty || 1`, and `push` and
  `splice(idx, 1)` as sequence edits. The aggregates are proved additive, and
  removing a line is proved to remove exactly that line.
- **Store** (`store.dfy`): `loadCart` and `saveCart` over an abstract storage map.
  Loading fails soft to the empty cart. Saving overwrites only the cart key.
- **Seqs** (`seqs.dfy`): the "clear the container, then `forEach` append" loop that
  all renderers use. It is a method with a loop, proved to produce one element
  per line, in order.
- **Drawer** (`drawer.dfy`): `renderCart` as a pure projection `Project: Cart -> View`.
  It covers the badge, the total, the empty notice or the rows, and each remove
  button's bound index. The `CartWidget` class holds the rendered view; its
  `Render` and `Remove` methods are the render call and the remove handler.
- **Product** (`product.dfy`): `ProductController.init`. It holds the
  `selectedSize` state, the hint text and the add handler, which appends one
  line with `qty: 1` and never merges lines.
- **Checkout** (`checkout.dfy`): `CheckoutController.init` as a projection. An
  empty cart gives the empty view. A non-empty cart gives one summary row and
  one pay link per line.
- **Gallery** (`gallery.dfy`): the slide index of `setupGallery`. It has prev,
  next and swipe, with its 40-pixel threshold.
- **Scenario** (`scenario.dfy`): a session with the jacket in size M and the
  pants in size 32, then removing line 0. The whole session, with its counts
  and printed totals, is proved on carts (`Session`). On the page objects, two
  methods prove the add steps for the jacket and the remove steps on a stored
  jacket-and-pants cart.

Storage, clicks and the DOM are modelled as fields and method calls: the
storage is a `map<string, Raw>` field of class `Storage`, and each JSON text
is abstracted to what `JSON.parse` makes of it (`Raw`). Prices are `nat` cents,
so the $80 and $90 of the `PRODUCTS` table are `8000` and `9000`. No code in
`js/app.js` reads that table: each page passes its own configuration to
`init`, and those configurations are not part of this model. `Product.Jacket`
and `Product.Pants` copy the table, and the session assumes the jacket and
pants pages pass those values.

Behaviours of the code worth knowing:

- `loadCart` checks only that the parsed value is an array: an array of
  non-line values is returned as is, not turned into `[]`. The model's `Raw.ItemArray` holds only line items (see
  Left out).
- The code has no operation that clears the cart; lines leave only by remove.
- Removing past the end changes no line but still saves the loaded cart. So
  unreadable stored text becomes `[]` after any remove (`CartWidget.Remove`).
  Adding does the same.
- Stored lines are not validated. A zero quantity counts as one, and a negative
  one is summed as is (`EffectiveQty`). Well-formedness (`qty >= 1`) is a
  hypothesis of the bounds on `Count` and `Total`, not an invariant of loading.

## Model

| member | source | states |
|---|---|---|
| Money.FormatMoney | js/app.js:35-37 | the result starts with `$`, has a minus sign right after it exactly when the amount is negative, then the whole dollars as decimal digits with no leading zero, a point and exactly two cent digits; with `FormatMoneyRoundTrip` this fixes the string |
| Money.FormatMoneyRoundTrip | js/app.js:35-37 | the printed amount determines the amount: `ParseMoney(FormatMoney(c)) == Some(c)` for every integer number of cents |
| Money.ParseMoneyOf | js/app.js:35-37 | a printed sign, whole dollars and two cent digits read back as the signed amount in cents |
| Money.FormatMoneyInjective | js/app.js:35-37 | two different amounts never print the same string |
| Money.NatToStringRoundTrip | js/app.js:82 | the decimal digits of n read back as n |
| Money.NatToString | js/app.js:82 | the decimal digits of n: never empty, only digits, no leading zero; `NatToStringRoundTrip` reads them back as n |
| Money.IntToString | js/app.js:82 | `String(n)` for the badge: a minus sign first exactly when n is negative, then decimal digits with no leading zero (so never "-0" or "01"); `IntToStringRoundTrip` reads it back as n |
| Money.IntToStringRoundTrip | js/app.js:82 | `String(n)` of any integer reads back as n, so the badge text determines the count |
| Cart.EffectiveQty | js/app.js:40 | `qty || 1`: a missing quantity counts 1, a zero counts 1, any other quantity counts as itself; never 0 |
| Cart.LineTotal | js/app.js:44 | one line's share of `cartTotal`: the price itself when `qty` is missing or 0, at least the price when the quantity is well formed |
| Cart.Count | js/app.js:39-41 | `cartCount`: with every present quantity at least 1 the count is at least the number of lines; `CountTotalEmpty`, `CountTotalSingle` and `CountAppend` give its value |
| Cart.Total | js/app.js:43-45 | `cartTotal`: with every present quantity at least 1 the total is never negative; `CountTotalEmpty`, `CountTotalSingle` and `TotalAppend` give its value |
| Cart.CountTotalEmpty | js/app.js:39-45 | the empty cart has count 0 and total 0 |
| Cart.CountAppend | js/app.js:39-41 | `cartCount` is additive over concatenation |
| Cart.TotalAppend | js/app.js:43-45 | `cartTotal` is additive over concatenation |
| Cart.CountTotalSingle | js/app.js:39-45 | a one-line cart counts its effective quantity and costs price times that quantity |
| Cart.RemoveAt | js/app.js:114 | `splice(idx, 1)`: below the length it removes one line, keeps the earlier lines in place and shifts the later ones down by one; at or past the length the cart is unchanged |
| Cart.RemoveAtMultiset | js/app.js:114 | removing line idx removes exactly one copy of that line and nothing else (multiset equation) |
| Cart.RemoveAtAggregates | js/app.js:112-117 | after removing line idx, count and total drop by exactly that line's share |
| Cart.PushAggregates | js/app.js:176 | `push` adds one line at the end, keeps the old lines as a prefix and raises count and total by the new line's share |
| Seqs.MapIndexedAt | js/app.js:101-119 | a cleared container filled by `forEach` holds one element per input, element i computed from input i and index i |
| Seqs.AppendEach | js/app.js:101-119 | the append loop produces exactly that sequence |
| Store.LoadCases | js/app.js:21-29 | `loadCart` gives `[]` when the key is missing, the text is empty, parsing fails or the value is not an array; otherwise it gives the stored array |
| Store.LoadFrom | js/app.js:21-29 | what `loadCart` returns: either `[]` or exactly the array stored under the cart key; `LoadCases` gives each case |
| Store.SaveLoadRoundTrip | js/app.js:21-33 | saving a cart and loading gives back the same cart, lines and order preserved |
| Store.Storage.Load | js/app.js:21-29 | the loaded cart is the one `LoadFrom` assigns to the current storage |
| Store.Storage.Save | js/app.js:31-33 | the cart key is overwritten with the whole cart, which then loads back, and every other key keeps its value |
| Drawer.SizeLabel | js/app.js:108 | `size || "—"`: a missing or empty size shows a dash, any other size shows itself |
| Drawer.RowFor | js/app.js:101-111 | one drawer row: the line's picture and name, a meta text starting with the size caption, and a remove button bound to the line's index; `RowsForAt` gives the full meta text |
| Drawer.RowsFor | js/app.js:101-119 | the drawer rows: one per line; `RowsForAt` states row i |
| Drawer.Project | js/app.js:78-99 | the view `renderCart` writes: the empty notice, with text "Carrinho vazio.", exactly for the empty cart, otherwise one row per line; `ProjectMeaning` adds badge and total |
| Drawer.RowsForAt | js/app.js:101-119 | one drawer row per line in cart order; row i shows line i's image, name, size label and unit price, and its remove button is bound to index i |
| Drawer.ProjectMeaning | js/app.js:78-99 | the badge reads back as `cartCount` and the drawer total as `cartTotal`; the empty notice appears exactly for the empty cart, alone and with badge "0"; otherwise there are as many rows as lines |
| Drawer.CartWidget.Render | js/app.js:78-120 | the new view is `Project` of the stored cart, whatever was shown before, so rendering twice gives the same view |
| Drawer.CartWidget.Remove | js/app.js:112-117 | storage then holds the freshly loaded cart with line idx spliced out (unchanged past the end), and the view is re-rendered from it |
| Product.NewLine | js/app.js:165-173 | the new line carries the page's sku, name, price, image and payment link, the chosen size and quantity 1, so it counts 1 and costs the price |
| Product.AddEffect | js/app.js:165-177 | adding appends exactly one line at the end, keeps every earlier line, with no merging, and raises count by 1 and total by the price |
| Product.ProductPage.constructor | js/app.js:139-143 | init renders the cart surfaces from storage and starts with no size selected |
| Product.ProductPage.SelectSize | js/app.js:148-156 | a size click records the button's size, shows it and clears the hint |
| Product.ProductPage.AddToCart | js/app.js:159-183 | with no (or an empty) size, the hint is "Please select a size." and storage and view are unchanged; otherwise storage holds the loaded cart plus the new line, the view is re-rendered from it and the hint reads "Added (Size s)." |
| Checkout.EmptyIff | js/app.js:201-208 | the empty view is shown exactly for the empty cart, and the empty view and the content are never both visible |
| Checkout.SummaryRowFor | js/app.js:211-222 | one summary row: the line's name, a size caption, and a unit price that reads back as the line's price |
| Checkout.PayLinkFor | js/app.js:228-236 | one pay link: it targets the line's own payment page, and its caption starts with "Pay " and ends with " (", the formatted unit price and ")"; `FilledMeaning` gives the full caption |
| Checkout.Project | js/app.js:201-236 | the checkout view: empty exactly for the empty cart, otherwise as many summary rows and pay links as lines; `FilledMeaning` states each of them |
| Checkout.FilledMeaning | js/app.js:207-236 | a non-empty cart gets one summary row and one pay link per line, in order; link i targets line i's `stripeLink` and reads "Pay name (price)", and the total reads back as `cartTotal` |
| Checkout.LinksFollowLines | js/app.js:228-236 | lines with different payment links get different pay links |
| Checkout.CheckoutPage.Init | js/app.js:190-237 | init renders the shared cart surfaces and sets the checkout view to the projection of the stored cart |
| Checkout.RemoveChangesCheckout | js/app.js:201-236 | removing a line always changes the checkout view the cart calls for |
| Checkout.DrawerRemoveOnCheckout | js/app.js:112-117 | a drawer remove on the checkout page re-renders the drawer from the new cart but leaves the checkout view as it was, which then no longer matches the stored cart |
| Gallery.Prev | js/app.js:325-328 | the left button stays in range and moves one slide back: i - 1 above the first slide, and the last slide from the first |
| Gallery.Next | js/app.js:330-333 | the right button stays in range, moves to i + 1 and wraps from the last slide to the first |
| Gallery.PrevNextInverse | js/app.js:325-333 | prev then next, and next then prev, restore the slide index |
| Gallery.Swipe | js/app.js:338-346 | a swipe shorter than 40 pixels either way keeps the index; a leftward one is next, a rightward one is prev; always in range |
| Gallery.Carousel.Setup | js/app.js:312-319 | no carousel for fewer than two slides; otherwise one starting on slide 0 with no pointer down |
| Gallery.Carousel.constructor | js/app.js:319 | a new carousel starts on slide 0 with no recorded pointer position |
| Gallery.Carousel.ClickLeft | js/app.js:325-328 | the index becomes `Prev` of the old one and stays in range |
| Gallery.Carousel.ClickRight | js/app.js:330-333 | the index becomes `Next` of the old one and stays in range |
| Gallery.Carousel.PointerDown | js/app.js:337 | the pointer position is recorded and the index is unchanged |
| Gallery.Carousel.PointerUp | js/app.js:338-346 | without a recorded start nothing moves; otherwise the index becomes `Swipe` of the distance, and the start is forgotten in both cases |
| Scenario.PrintedAmounts | js/app.js:35-37 | 8000, 9000 and 17000 cents print as "$80.00", "$90.00" and "$170.00" |
| Scenario.SessionAdds | js/app.js:165-177 | the jacket line alone counts 1 and costs 8000 cents; with the pants line after it, the cart counts 2 and costs 17000 cents |
| Scenario.SessionRemove | js/app.js:112-117 | removing line 0 of the jacket-and-pants cart leaves only the pants line, at 9000 cents |
| Scenario.Session | js/app.js:4-19 | jacket M, then pants 32: count 1 and "$80.00", then count 2 and "$170.00"; removing line 0 leaves only the pants line, at "$90.00" |

## Left out

- The DOM side of every surface is not modelled. That covers class toggles,
  styles, `aria-hidden`, listener registration, `ensureUI`, the top-level
  `openCart`/`closeCart`, and the `openCart` call after a successful add. The
  renderers are modelled as if every element they look up exists; the
  `if (countEl)` style guards and the early return when `cartItems` is missing
  are not modelled.
- Names and image paths are written into HTML without escaping. The model keeps
  them as plain strings in the view.
- The enter-page loader (`initEnter`) is left out: it is a timer and navigation only.
- The two `initJacketGallery` initialisers and the duplicate top-level
  `DOMContentLoaded` bindings are not modelled. The gallery model covers
  `setupGallery` only. In the second `initJacketGallery`, "next" computes
  `(index + n) % n`, which does not advance.
- `js/i18n.js` and the language menu are not modelled: they are a lookup table
  and UI wiring.
- `JSON.parse`, `JSON.stringify` and `localStorage` are abstracted to the `Raw`
  values. An exception from `getItem` is caught like a parse failure: read it
  as `Unparsable`. An exception from `setItem` (quota full) is not caught by
  the code and is not modelled.
- Store.Storage.Load: a stored array whose elements are not line items cannot
  be represented. The code returns such an array as is; fields missing from
  it, or a non-numeric `qty`, are not modelled. A string `qty` would turn the
  `cartCount` fold into string concatenation (`acc + "2"`), while `cartTotal`
  would convert it to a number in `it.price * "2"`.
- Cross-tab last-write-wins is not modelled. There is a single `Storage`
  object. Each operation reloads before it writes, and `Save` overwrites the
  whole entry.
- Money.FormatMoney: amounts are exact integer cents. Floating-point rounding
  in `toFixed(2)` is not modelled, and neither is its exponent notation for
  values of 1e21 and above.
- Gallery.Swipe: pointer positions (`e.clientX`) are floating-point numbers in
  the browser; the model takes them, and the distance `dx`, as integers, so a
  fractional distance just under 40 pixels is not represented.
- Gallery: the `translateX` rendering of the index is not modelled. Neither is
  the failure when a gallery has no track element.
