/** The cart screen as a pure view-model: the unit-price rule, the line
    totals, the loyalty-point preview, the choice between the empty and the
    populated screen, and the event each control sends to the screen's owner.
    Money is in integer cents; the cart itself is never changed here. */
module Cart {
  import Text

  datatype Option<T> = None | Some(value: T)

  /** The fields of a menu entry that the cart reads; `price` in cents. */
  datatype Drink = Drink(name: string, price: int, category: string)

  datatype Customization = Customization(size: string, milk: string, ice: string, extras: seq<string>)

  datatype CartItem = CartItem(id: string, drink: Drink, customization: Customization, quantity: int)

  /** What the screen asks its owner to do; each case is one callback. */
  datatype Event =
    | UpdateQuantity(id: string, quantity: int)
    | Remove(id: string)
    | Checkout
    | ContinueShopping

  const MediumSurcharge: int := 50
  const LargeSurcharge: int := 100
  const ExtraSurcharge: int := 50

  // ---------------------------------------------------------------------
  // Pricing

  /** Snacks take no size surcharge. */
  predicate IsSnack(category: string)
  {
    category == "Snacks"
  }

  /** The size part of the price, as a table: snacks have none, and among
      drinks only "Medium" and "Large" cost more. */
  function SizeSurcharge(category: string, size: string): int
  {
    if IsSnack(category) then 0
    else if size == "Medium" then MediumSurcharge
    else if size == "Large" then LargeSurcharge
    else 0
  }

  /** Price of one unit, accumulated step by step as the screen does it. */
  function ItemPrice(item: CartItem): (price: int)
    ensures price == item.drink.price
                     + SizeSurcharge(item.drink.category, item.customization.size)
                     + ExtraSurcharge * |item.customization.extras|
  {
    var base := item.drink.price;
    var snack := IsSnack(item.drink.category);
    var size := item.customization.size;
    var medium := if !snack && size == "Medium" then base + MediumSurcharge else base;
    var sized := if !snack && size == "Large" then medium + LargeSurcharge else medium;
    sized + |item.customization.extras| * ExtraSurcharge
  }

  function WithSize(item: CartItem, size: string): CartItem
  {
    item.(customization := item.customization.(size := size))
  }

  function WithExtras(item: CartItem, extras: seq<string>): CartItem
  {
    item.(customization := item.customization.(extras := extras))
  }

  function WithQuantity(item: CartItem, quantity: int): CartItem
  {
    item.(quantity := quantity)
  }

  /** A snack costs the same whatever size it carries. */
  lemma SnackPriceIgnoresSize(item: CartItem, size: string)
    requires IsSnack(item.drink.category)
    ensures ItemPrice(WithSize(item, size)) == ItemPrice(item)
    ensures ItemPrice(item) == item.drink.price + ExtraSurcharge * |item.customization.extras|
  {
  }

  /** For a drink, relative to "Small": "Medium" adds 50 cents, "Large"
      adds 100 cents, and every other size adds nothing. */
  lemma DrinkSizeSurcharge(item: CartItem, size: string)
    requires !IsSnack(item.drink.category)
    ensures ItemPrice(WithSize(item, "Medium")) == ItemPrice(WithSize(item, "Small")) + MediumSurcharge
    ensures ItemPrice(WithSize(item, "Large")) == ItemPrice(WithSize(item, "Small")) + LargeSurcharge
    ensures size != "Medium" && size != "Large" ==>
              ItemPrice(WithSize(item, size)) == ItemPrice(WithSize(item, "Small"))
  {
  }

  /** Each extra adds 50 cents, for snacks and drinks alike. */
  lemma ExtraAddsFiftyCents(item: CartItem, extra: string)
    ensures ItemPrice(WithExtras(item, item.customization.extras + [extra])) == ItemPrice(item) + ExtraSurcharge
    ensures ItemPrice(item) == ItemPrice(WithExtras(item, [])) + ExtraSurcharge * |item.customization.extras|
  {
  }

  /** Amount shown on an item's line: unit price times quantity. */
  function LineTotal(item: CartItem): (amount: int)
    ensures amount == (item.drink.price
                       + SizeSurcharge(item.drink.category, item.customization.size)
                       + ExtraSurcharge * |item.customization.extras|) * item.quantity
  {
    ItemPrice(item) * item.quantity
  }

  /** The quantity an item's increment (decrement) button asks for gives a
      line amount exactly one unit price above (below) the current one;
      the amount is zero at quantity zero. */
  lemma LineTotalSteps(item: CartItem)
    ensures LineTotal(WithQuantity(item, RenderItem(item).onIncrement.quantity))
              == LineTotal(item) + ItemPrice(item)
    ensures LineTotal(WithQuantity(item, RenderItem(item).onDecrement.quantity))
              == LineTotal(item) - ItemPrice(item)
    ensures LineTotal(WithQuantity(item, 0)) == 0
    ensures LineTotal(WithQuantity(item, 1)) == ItemPrice(item)
  {
  }

  // ---------------------------------------------------------------------
  // Loyalty points

  /** Points earned by this order: the total rounded down to whole
      currency units. */
  function EarnedPoints(totalCents: int): (points: int)
    ensures points * 100 <= totalCents < (points + 1) * 100
  {
    totalCents / 100
  }

  /** Balance after the order: the current balance plus the points earned. */
  function ProjectedPoints(loyaltyPoints: int, totalCents: int): (points: int)
    ensures (points - loyaltyPoints) * 100 <= totalCents < (points - loyaltyPoints + 1) * 100
  {
    loyaltyPoints + EarnedPoints(totalCents)
  }

  /** A total of 3.75 with a balance of 10 points earns 3 and gives 13. */
  lemma PointsExample()
    ensures EarnedPoints(375) == 3 && ProjectedPoints(10, 375) == 13
  {
  }

  // ---------------------------------------------------------------------
  // Rendering

  /** The extras line: absent when there are no extras, otherwise a "+"
      followed by the extras in order, separated by ", ". */
  function ExtrasLine(c: Customization): (line: Option<string>)
    ensures line.None? <==> |c.extras| == 0
    ensures line.Some? ==> line.value == "+" + Text.Join(c.extras, ", ")
    ensures line.Some? ==> line.value[1..1 + |c.extras[0]|] == c.extras[0]
  {
    if |c.extras| > 0 then Some("+" + Text.Join(c.extras, ", ")) else None
  }

  /** One rendered item: what it shows and the event each of its three
      buttons sends. */
  datatype ItemView = ItemView(
    name: string,
    summary: string,
    extrasLine: Option<string>,
    quantity: int,
    amount: int,
    onRemove: Event,
    onDecrement: Event,
    onIncrement: Event)

  /** The checkout footer. `total` is the caller's figure, shown as given. */
  datatype Footer = Footer(earnedPoints: int, projectedPoints: int, total: int, onCheckout: Event)

  /** The two screens: the empty one has a single "Browse Menu" button. */
  datatype View =
    | EmptyView(onBrowseMenu: Event)
    | CartView(items: seq<ItemView>, footer: Footer)

  function RenderItem(item: CartItem): (v: ItemView)
    ensures v.name == item.drink.name
    ensures v.quantity == item.quantity
    ensures v.amount == LineTotal(item)
    ensures v.extrasLine == ExtrasLine(item.customization)
    ensures v.onRemove == Remove(item.id)
    ensures v.onDecrement == UpdateQuantity(item.id, item.quantity - 1)
    ensures v.onIncrement == UpdateQuantity(item.id, item.quantity + 1)
  {
    var c := item.customization;
    ItemView(
      item.drink.name,
      c.size + " • " + c.milk + " • " + c.ice,
      ExtrasLine(c),
      item.quantity,
      LineTotal(item),
      Remove(item.id),
      UpdateQuantity(item.id, item.quantity - 1),
      UpdateQuantity(item.id, item.quantity + 1))
  }

  /** The items rendered one by one, in cart order. */
  function RenderItems(cart: seq<CartItem>): (vs: seq<ItemView>)
    ensures |vs| == |cart|
    ensures forall i :: 0 <= i < |cart| ==> vs[i] == RenderItem(cart[i])
  {
    if |cart| == 0 then [] else [RenderItem(cart[0])] + RenderItems(cart[1..])
  }

  function RenderFooter(totalCents: int, loyaltyPoints: int): (f: Footer)
    ensures f.earnedPoints * 100 <= totalCents < (f.earnedPoints + 1) * 100
    ensures f.projectedPoints == loyaltyPoints + f.earnedPoints
    ensures f.total == totalCents
    ensures f.onCheckout == Checkout
  {
    Footer(EarnedPoints(totalCents), ProjectedPoints(loyaltyPoints, totalCents), totalCents, Checkout)
  }

  /** The whole screen. The empty screen is chosen exactly when the cart
      has no items; otherwise every item is listed in order above a footer
      built from the caller's total, which is not recomputed. */
  function Render(cart: seq<CartItem>, totalCents: int, loyaltyPoints: int): (v: View)
    ensures v.EmptyView? <==> |cart| == 0
    ensures v.EmptyView? ==> v.onBrowseMenu == ContinueShopping
    ensures v.CartView? ==> v.items == RenderItems(cart)
    ensures v.CartView? ==> v.footer == RenderFooter(totalCents, loyaltyPoints)
  {
    if |cart| == 0 then EmptyView(ContinueShopping)
    else CartView(RenderItems(cart), RenderFooter(totalCents, loyaltyPoints))
  }

  // ---------------------------------------------------------------------
  // Events

  /** Every event some control of the screen can send. */
  function ItemActions(items: seq<ItemView>): seq<Event>
  {
    if |items| == 0 then []
    else [items[0].onRemove, items[0].onDecrement, items[0].onIncrement] + ItemActions(items[1..])
  }

  function Actions(v: View): seq<Event>
  {
    match v
    case EmptyView(browse) => [browse]
    case CartView(items, footer) => ItemActions(items) + [footer.onCheckout]
  }

  /** True when `e` names the item with id `id` of `cart`. */
  predicate ForCartItem(e: Event, cart: seq<CartItem>)
  {
    (e.UpdateQuantity? || e.Remove?) && exists i :: 0 <= i < |cart| && cart[i].id == e.id
  }

  /** Every event the item buttons send is an update or a removal naming
      an item of the cart. */
  lemma {:induction false} ItemActionsNameCartItems(cart: seq<CartItem>)
    ensures |ItemActions(RenderItems(cart))| == 3 * |cart|
    ensures forall e :: e in ItemActions(RenderItems(cart)) ==> ForCartItem(e, cart)
  {
    if |cart| > 0 {
      var rest := cart[1..];
      ItemActionsNameCartItems(rest);
      assert RenderItems(cart)[1..] == RenderItems(rest);
      forall e | e in ItemActions(RenderItems(cart)) ensures ForCartItem(e, cart) {
        if e in ItemActions(RenderItems(rest)) {
          assert ForCartItem(e, rest);
          var i :| 0 <= i < |rest| && rest[i].id == e.id;
          assert cart[i + 1].id == e.id;
        } else {
          assert cart[0].id == e.id;
        }
      }
    }
  }

  /** The empty screen can only ask to continue shopping; the populated
      screen never can, and its only other event besides the per-item ones
      is a checkout request. So checkout is only ever offered for a
      non-empty cart. */
  lemma ScreenEvents(cart: seq<CartItem>, totalCents: int, loyaltyPoints: int)
    ensures |cart| == 0 <==> Actions(Render(cart, totalCents, loyaltyPoints)) == [ContinueShopping]
    ensures |cart| > 0 ==> Checkout in Actions(Render(cart, totalCents, loyaltyPoints))
    ensures |cart| > 0 ==> ContinueShopping !in Actions(Render(cart, totalCents, loyaltyPoints))
    ensures forall e :: e in Actions(Render(cart, totalCents, loyaltyPoints)) ==>
              e == ContinueShopping || e == Checkout || ForCartItem(e, cart)
  {
    ItemActionsNameCartItems(cart);
    var v := Render(cart, totalCents, loyaltyPoints);
    if |cart| > 0 {
      assert Actions(v) == ItemActions(RenderItems(cart)) + [Checkout];
      assert |Actions(v)| == 3 * |cart| + 1;
      assert Actions(v)[0] == Remove(cart[0].id);
    }
  }

  /** The quantity buttons send the current quantity plus or minus one,
      without clamping: decrementing a single unit asks for quantity 0,
      and decrementing after an increment asks for the original quantity.
      Removal is offered at every quantity. */
  lemma QuantityControls(item: CartItem)
    ensures item.quantity == 1 ==> RenderItem(item).onDecrement == UpdateQuantity(item.id, 0)
    ensures RenderItem(WithQuantity(item, RenderItem(item).onIncrement.quantity)).onDecrement
              == UpdateQuantity(item.id, item.quantity)
    ensures RenderItem(WithQuantity(item, RenderItem(item).onDecrement.quantity)).onIncrement
              == UpdateQuantity(item.id, item.quantity)
    ensures forall q :: RenderItem(WithQuantity(item, q)).onRemove == RenderItem(item).onRemove
  {
  }
}
