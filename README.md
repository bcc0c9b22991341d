# Cart screen view-model

A Dafny model of the rule layer inside the cart screen of a drink-ordering
app (`src/components/Cart.tsx`). The screen is stateless: it reads the cart,
the caller's order total and the customer's loyalty balance, and sends every
change back to its owner through four callbacks. The model lifts that layer
out as pure functions:

- the unit-price rule (base price, a size surcharge for anything that is not
  a snack, 50 cents per extra) and the line amount (unit price × quantity);
- the footer's loyalty preview (points earned = total rounded down, and the
  balance after the order);
- the choice between the empty screen and the item list, the per-item text
  (name, size/milk/ice line, extras line) and the event each button sends,
  as an `Event` datatype (`UpdateQuantity`, `Remove`, `Checkout`,
  `ContinueShopping`).

Money is integer cents: 0.50 is 50 and 1.00 is 100, and `Math.floor(total)`
is `totalCents / 100` (Dafny's division rounds down for a positive divisor,
for either sign of the total). Sizes and categories stay strings, because the
screen compares them with string equality: any size other than "Medium" or
"Large" adds nothing. The `Drink`, `Customization` and `CartItem` types come
from the app's top-level module, which is not part of this model; they are
defined here from the fields the screen reads.

Files: `Text.dfy` (module `Text`: joining strings with a separator, as
`Array.prototype.join` does for the extras) and `Cart.dfy` (module `Cart`:
everything else).

## Model

| member | source | states |
|---|---|---|
| `Cart.ItemPrice` | src/components/Cart.tsx:15-27 | the unit price, accumulated as the screen does, is the base price plus the size surcharge of the category/size table plus 50 cents per extra |
| `Cart.SnackPriceIgnoresSize` | src/components/Cart.tsx:17-23 | a "Snacks" item costs the same for every size: base price plus 50 cents per extra |
| `Cart.DrinkSizeSurcharge` | src/components/Cart.tsx:20-23 | for a non-snack, relative to "Small", "Medium" adds exactly 50 cents, "Large" exactly 100, any other size nothing |
| `Cart.ExtraAddsFiftyCents` | src/components/Cart.tsx:25 | appending one extra raises the unit price by exactly 50 cents whatever the category; the price is the no-extras price plus 50 per extra |
| `Cart.LineTotal` | src/components/Cart.tsx:89 | the line amount is the unit price (base price + size surcharge + 50 cents per extra) times the quantity |
| `Cart.LineTotalSteps` | src/components/Cart.tsx:75-89 | the quantity the increment button asks for gives a line amount exactly one unit price higher, the one the decrement button asks for one unit price lower; the amount is 0 at quantity 0 and the unit price at quantity 1 |
| `Cart.EarnedPoints` | src/components/Cart.tsx:101 | points earned are the largest whole number of currency units not above the total (the floor) |
| `Cart.ProjectedPoints` | src/components/Cart.tsx:102 | the projected balance exceeds the current balance by exactly the floor of the total |
| `Cart.PointsExample` | src/components/Cart.tsx:101-102 | a total of 3.75 with 10 points shows 3 earned and 13 in all |
| `Text.Join` | src/components/Cart.tsx:60 | joining gives "" for no parts, otherwise starts with the first part, and its length is the parts' total length plus the separator's length once per neighbouring pair |
| `Text.JoinAppend` | src/components/Cart.tsx:60 | joining two non-empty lists is joining each with one separator in between |
| `Text.JoinMatchesJoinLeft` | src/components/Cart.tsx:60 | the join equals a reference join built from the last part backwards, so the parts appear in their order |
| `Cart.ExtrasLine` | src/components/Cart.tsx:58-62 | the extras line is present exactly when there are extras, and is then "+" followed by the extras joined with ", ", starting with the first extra |
| `Cart.RenderItem` | src/components/Cart.tsx:50-91 | an item shows its drink's name, quantity, line amount and extras line; remove sends `Remove(id)`, decrement `UpdateQuantity(id, quantity - 1)`, increment `UpdateQuantity(id, quantity + 1)` |
| `Cart.QuantityControls` | src/components/Cart.tsx:65-82 | there is no clamping: decrement at quantity 1 asks for 0; decrement after increment (and the reverse) asks for the original quantity; removal is the same event at every quantity |
| `Cart.RenderItems` | src/components/Cart.tsx:50 | the list has one rendered item per cart item, in cart order |
| `Cart.RenderFooter` | src/components/Cart.tsx:96-116 | the footer shows the floor of the total as earned points, the balance plus those points, the caller's total unchanged, and its button sends `Checkout` |
| `Cart.Render` | src/components/Cart.tsx:29-45 | the empty screen is chosen exactly when the cart has no items, and its button sends `ContinueShopping`; otherwise the screen lists the items and the footer |
| `Cart.ItemActionsNameCartItems` | src/components/Cart.tsx:64-86 | the item buttons send three events per item, each an update or removal naming an id that is in the cart |
| `Cart.ScreenEvents` | src/components/Cart.tsx:29-110 | the screen's only event is `ContinueShopping` exactly when the cart is empty; a non-empty cart offers `Checkout` and never `ContinueShopping`; every event is one of these or names a cart item |

## Left out

- JSX markup, Tailwind class names and the icons: presentation with no behaviour.
- Floating-point money and `toFixed(2)` formatting: amounts are exact integer cents, so IEEE rounding of sums such as 0.1 + 0.2 and the two-decimal strings are not modelled.
- Any relation between the footer's total and the line amounts: the screen shows the caller's total as given and never recomputes it, so no such invariant is claimed.
- What the owner does with the events (changing quantities, removing items, checkout, navigation): that lives in the app's state holder, which is not part of this model; the model ends at the event value.
- React's rendering lifecycle and the `key` attribute on each item.
- The size/milk/ice summary line is built (`size • milk • ice`) but no property is stated about it beyond its presence in each rendered item.
