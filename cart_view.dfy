/** What the cart modal (src/components/Cart.tsx) computes and which
    events it can send back to the `App` component. It holds no state: the
    total and each row's price are reductions over the lines, the buttons'
    enablement is a condition on the row or the cart. */
module CartView {
  import opened Common
  import opened Types
  import Store

  /** `item.customizations?.reduce((sum, c) => sum + c.price, 0) || 0`. */
  function ExtrasCost(item: CartLine): int
  {
    match item.customizations
    case None => 0
    case Some(cs) => Fold(0, cs, (c: CustomizationOption) => c.price)
  }

  /** The price shown on a row: one unit with its extras, not multiplied
      by the quantity. */
  function RowPrice(item: CartLine): (price: int)
    ensures price * item.quantity == Store.LineCost(item)
    ensures price == item.product.price + Store.OptionsPrice(item.customizations.GetOr([]))
  {
    item.product.price + ExtrasCost(item)
  }

  /** The footer total, the view's own copy of the reduction. */
  function DisplayedTotal(items: seq<CartLine>): int
  {
    Fold(0, items, (item: CartLine) => (item.product.price + ExtrasCost(item)) * item.quantity)
  }

  /** The total the modal shows is the total `handleCheckout` sends. */
  lemma {:induction false} DisplayedTotalIsCheckoutTotal(items: seq<CartLine>)
    ensures DisplayedTotal(items) == Store.CheckoutTotal(items)
    ensures items == [] ==> DisplayedTotal(items) == 0
  {
    var row := (item: CartLine) => (item.product.price + ExtrasCost(item)) * item.quantity;
    SameSum(items, row);
  }

  lemma {:induction false} SameSum(items: seq<CartLine>, row: CartLine -> int)
    requires forall item :: row(item) == (item.product.price + ExtrasCost(item)) * item.quantity
    ensures Sum(items, row) == Sum(items, Store.LineCost)
  {
    if items != [] {
      SameSum(items[1..], row);
    }
  }

  // ---- Controls -----------------------------------------------------------

  /** The callbacks the modal can invoke. */
  datatype Event = UpdateQuantity(index: int, change: int) | RemoveItem(index: int) | Checkout

  /** The − button of a row is disabled at a quantity of one or less. */
  predicate MinusEnabled(item: CartLine)
  {
    !(item.quantity <= 1)
  }

  /** The Checkout button is disabled on an empty cart. */
  predicate CheckoutEnabled(items: seq<CartLine>)
  {
    !(|items| == 0)
  }

  /** The events a click can produce: −1 from an enabled − button, +1 from
      any row's + button, a row's own index from Remove, and Checkout from
      the enabled footer button. */
  predicate CanSend(items: seq<CartLine>, e: Event)
  {
    match e
    case UpdateQuantity(index, change) =>
      0 <= index < |items| && (change == 1 || (change == -1 && MinusEnabled(items[index])))
    case RemoveItem(index) => 0 <= index < |items|
    case Checkout => CheckoutEnabled(items)
  }

  /** A quantity event the modal sends never removes a line: the cart keeps
      its length and the row its place, with one unit more or less. */
  lemma QuantityEventsKeepLines(items: seq<CartLine>, index: int, change: int)
    requires Store.AllPositive(items)
    requires CanSend(items, UpdateQuantity(index, change))
    ensures 0 <= index < |items|
    ensures |Store.Updated(items, index, change)| == |items|
    ensures Store.Updated(items, index, change)[index].quantity == items[index].quantity + change >= 1
  {
  }

  /** Checkout can be clicked exactly when the cart has lines, which is
      exactly when `handleCheckout` goes on to send a request. */
  lemma CheckoutEnabledIffNonEmpty(items: seq<CartLine>)
    ensures CanSend(items, Checkout) <==> items != []
  {
  }
}
