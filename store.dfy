/** The cart and checkout held by the top-level `App` component (src/App.tsx).

    The cart is an ordered sequence of lines. `addToCart` merges a selection
    into the first line with the same identity or appends a new line;
    `updateQuantity` adds a delta and drops the line when the quantity falls
    to zero or below; `removeFromCart` filters out one position;
    `handleCheckout` posts the cart as an order and clears it on success. */
module Store {
  import opened Common
  import opened Types

  // ---- Line identity ------------------------------------------------------

  /** What `addToCart` compares: the product id, the portion label and the
      customization list as `JSON.stringify` writes it, i.e. the ordered
      list of (id, name, price) records. A missing list reads as `[]`. */
  datatype LineKey = LineKey(productId: int, portionSize: string, customizations: seq<CustomizationOption>)

  function Key(line: CartLine): LineKey
  {
    LineKey(line.product.id, line.portionSize, line.customizations.GetOr([]))
  }

  function SelectionKey(product: Product, portion: string, customs: seq<CustomizationOption>): LineKey
  {
    LineKey(product.id, portion, customs)
  }

  predicate Matches(line: CartLine, product: Product, portion: string, customs: seq<CustomizationOption>)
  {
    Key(line) == SelectionKey(product, portion, customs)
  }

  /** No two lines of the cart share an identity. */
  predicate KeysDistinct(lines: seq<CartLine>)
  {
    forall i, j :: 0 <= i < j < |lines| ==> Key(lines[i]) != Key(lines[j])
  }

  /** Every line holds at least one unit. */
  predicate AllPositive(lines: seq<CartLine>)
  {
    forall k :: 0 <= k < |lines| ==> lines[k].quantity > 0
  }

  predicate NoMatch(lines: seq<CartLine>, product: Product, portion: string, customs: seq<CustomizationOption>)
  {
    forall k :: 0 <= k < |lines| ==> !Matches(lines[k], product, portion, customs)
  }

  /** `i` is what `findIndex` returns for this selection. */
  predicate FirstMatch(lines: seq<CartLine>, i: int, product: Product, portion: string, customs: seq<CustomizationOption>)
  {
    0 <= i < |lines| && Matches(lines[i], product, portion, customs) &&
    forall k :: 0 <= k < i ==> !Matches(lines[k], product, portion, customs)
  }

  // ---- addToCart ----------------------------------------------------------

  function NewLine(product: Product, portion: string, customs: seq<CustomizationOption>): CartLine
  {
    CartLine(product, 1, portion, Some(customs))
  }

  function Bump(line: CartLine): CartLine
  {
    line.(quantity := line.quantity + 1)
  }

  /** Reference definition of `addToCart`: walk the cart, add one unit to
      the first line with the selection's identity, or append a fresh line. */
  function Merge(lines: seq<CartLine>, product: Product, portion: string, customs: seq<CustomizationOption>): seq<CartLine>
  {
    if lines == [] then [NewLine(product, portion, customs)]
    else if Matches(lines[0], product, portion, customs) then [Bump(lines[0])] + lines[1..]
    else [lines[0]] + Merge(lines[1..], product, portion, customs)
  }

  /** When a line matches, `Merge` bumps the first such line and nothing else. */
  lemma {:induction false} MergeBumpsFirstMatch(lines: seq<CartLine>, i: int, product: Product, portion: string, customs: seq<CustomizationOption>)
    requires FirstMatch(lines, i, product, portion, customs)
    ensures Merge(lines, product, portion, customs) == lines[i := Bump(lines[i])]
  {
    if i > 0 {
      MergeBumpsFirstMatch(lines[1..], i - 1, product, portion, customs);
      assert [lines[0]] + lines[1..][i - 1 := Bump(lines[i])] == lines[i := Bump(lines[i])];
    }
  }

  /** When no line matches, `Merge` appends the new line and keeps the prefix. */
  lemma {:induction false} MergeAppends(lines: seq<CartLine>, product: Product, portion: string, customs: seq<CustomizationOption>)
    requires NoMatch(lines, product, portion, customs)
    ensures Merge(lines, product, portion, customs) == lines + [NewLine(product, portion, customs)]
  {
    if lines != [] {
      assert !Matches(lines[0], product, portion, customs);
      MergeAppends(lines[1..], product, portion, customs);
      assert lines == [lines[0]] + lines[1..];
    }
  }

  /** In a cart whose identities are distinct, any matching line is the one
      that gets the extra unit: length and all other lines stay as they were. */
  lemma MergeIncrementsMatchingLine(lines: seq<CartLine>, i: int, product: Product, portion: string, customs: seq<CustomizationOption>)
    requires KeysDistinct(lines)
    requires 0 <= i < |lines| && Matches(lines[i], product, portion, customs)
    ensures Merge(lines, product, portion, customs) == lines[i := lines[i].(quantity := lines[i].quantity + 1)]
  {
    forall k | 0 <= k < i
      ensures !Matches(lines[k], product, portion, customs)
    {
      assert Key(lines[k]) != Key(lines[i]);
    }
    MergeBumpsFirstMatch(lines, i, product, portion, customs);
  }

  /** `Merge` never creates a second line with an existing identity. */
  lemma {:induction false} MergeKeepsKeysDistinct(lines: seq<CartLine>, product: Product, portion: string, customs: seq<CustomizationOption>)
    requires KeysDistinct(lines)
    ensures KeysDistinct(Merge(lines, product, portion, customs))
  {
    var sel := SelectionKey(product, portion, customs);
    if exists i :: FirstMatch(lines, i, product, portion, customs) {
      var i :| FirstMatch(lines, i, product, portion, customs);
      MergeBumpsFirstMatch(lines, i, product, portion, customs);
      var r := lines[i := Bump(lines[i])];
      forall a, b | 0 <= a < b < |r| ensures Key(r[a]) != Key(r[b]) {
        assert Key(r[a]) == Key(lines[a]) && Key(r[b]) == Key(lines[b]);
      }
    } else {
      forall k | 0 <= k < |lines| ensures !Matches(lines[k], product, portion, customs) {
        if Matches(lines[k], product, portion, customs) {
          FirstMatchExists(lines, k, product, portion, customs);
        }
      }
      MergeAppends(lines, product, portion, customs);
      var r := lines + [NewLine(product, portion, customs)];
      assert Key(NewLine(product, portion, customs)) == sel;
      forall a, b | 0 <= a < b < |r| ensures Key(r[a]) != Key(r[b]) {
        if b < |lines| {
          assert Key(r[a]) == Key(lines[a]) && Key(r[b]) == Key(lines[b]);
        } else {
          assert !Matches(lines[a], product, portion, customs);
        }
      }
    }
  }

  /** If some line matches, `findIndex` has a first match to return. */
  lemma {:induction false} FirstMatchExists(lines: seq<CartLine>, k: int, product: Product, portion: string, customs: seq<CustomizationOption>)
    requires 0 <= k < |lines| && Matches(lines[k], product, portion, customs)
    ensures exists i :: FirstMatch(lines, i, product, portion, customs)
    decreases k
  {
    if forall j :: 0 <= j < k ==> !Matches(lines[j], product, portion, customs) {
      assert FirstMatch(lines, k, product, portion, customs);
    } else {
      var j :| 0 <= j < k && Matches(lines[j], product, portion, customs);
      FirstMatchExists(lines, j, product, portion, customs);
    }
  }

  /** `Merge` keeps every line's quantity positive. */
  lemma {:induction false} MergeKeepsPositive(lines: seq<CartLine>, product: Product, portion: string, customs: seq<CustomizationOption>)
    requires AllPositive(lines)
    ensures AllPositive(Merge(lines, product, portion, customs))
  {
    if lines != [] && !Matches(lines[0], product, portion, customs) {
      MergeKeepsPositive(lines[1..], product, portion, customs);
    }
  }

  /** `n` identical selections on an empty cart. */
  function AddTimes(n: nat, product: Product, portion: string, customs: seq<CustomizationOption>): seq<CartLine>
  {
    if n == 0 then [] else Merge(AddTimes(n - 1, product, portion, customs), product, portion, customs)
  }

  /** `n >= 1` identical selections give one line holding `n` units. */
  lemma {:induction false} AddTimesMakesOneLine(n: nat, product: Product, portion: string, customs: seq<CustomizationOption>)
    requires n >= 1
    ensures AddTimes(n, product, portion, customs) == [CartLine(product, n, portion, Some(customs))]
  {
    if n > 1 {
      AddTimesMakesOneLine(n - 1, product, portion, customs);
      var prev := [CartLine(product, n - 1, portion, Some(customs))];
      assert Matches(prev[0], product, portion, customs);
      assert Merge(prev, product, portion, customs) == [Bump(prev[0])] + prev[1..];
    }
  }

  /** Identity is order-sensitive: the same two options chosen in the two
      orders give two separate lines of one unit each. */
  lemma OptionOrderSplitsLines(product: Product, portion: string, a: CustomizationOption, b: CustomizationOption)
    requires a != b
    ensures Merge(Merge([], product, portion, [a, b]), product, portion, [b, a])
         == [NewLine(product, portion, [a, b]), NewLine(product, portion, [b, a])]
  {
    var first := [NewLine(product, portion, [a, b])];
    assert [a, b][0] != [b, a][0];
    assert !Matches(first[0], product, portion, [b, a]);
    MergeAppends(first, product, portion, [b, a]);
  }

  /** A stored line without a customization list is the same line as a
      selection with none. */
  lemma UndefinedMatchesEmpty(product: Product, quantity: int, portion: string)
    ensures Merge([CartLine(product, quantity, portion, None)], product, portion, [])
         == [CartLine(product, quantity + 1, portion, None)]
  {
    var line := CartLine(product, quantity, portion, None);
    assert Matches(line, product, portion, []);
  }

  // ---- updateQuantity -----------------------------------------------------

  /** `updateQuantity(index, change)`: add `change` to the line; remove the
      line when the result is zero or less. */
  function Updated(lines: seq<CartLine>, index: nat, change: int): (r: seq<CartLine>)
    requires index < |lines|
    ensures lines[index].quantity + change <= 0 ==>
      |r| == |lines| - 1 &&
      (forall k :: 0 <= k < index ==> r[k] == lines[k]) &&
      (forall k :: index < k < |lines| ==> r[k - 1] == lines[k])
    ensures lines[index].quantity + change > 0 ==>
      |r| == |lines| &&
      r[index] == lines[index].(quantity := lines[index].quantity + change) &&
      (forall k :: 0 <= k < |lines| && k != index ==> r[k] == lines[k])
  {
    var q := lines[index].quantity + change;
    if q <= 0 then lines[..index] + lines[index + 1..]
    else lines[index := lines[index].(quantity := q)]
  }

  /** A change that empties the line removes exactly that line. */
  lemma UpdateToZeroRemoves(lines: seq<CartLine>, index: nat)
    requires index < |lines|
    ensures Updated(lines, index, -lines[index].quantity) == lines[..index] + lines[index + 1..]
  {
  }

  lemma UpdatedKeepsInvariants(lines: seq<CartLine>, index: nat, change: int)
    requires index < |lines|
    requires KeysDistinct(lines) && AllPositive(lines)
    ensures KeysDistinct(Updated(lines, index, change)) && AllPositive(Updated(lines, index, change))
  {
    var r := Updated(lines, index, change);
    if lines[index].quantity + change <= 0 {
      forall a, b | 0 <= a < b < |r| ensures Key(r[a]) != Key(r[b]) {
        var a' := if a < index then a else a + 1;
        var b' := if b < index then b else b + 1;
        assert r[a] == lines[a'] && r[b] == lines[b'];
      }
    } else {
      forall a, b | 0 <= a < b < |r| ensures Key(r[a]) != Key(r[b]) {
        assert Key(r[a]) == Key(lines[a]) && Key(r[b]) == Key(lines[b]);
      }
    }
  }

  // ---- removeFromCart -----------------------------------------------------

  /** `prev.filter((_, i) => i !== index)`, written as the filter walks. */
  function Without<T>(s: seq<T>, index: int): (r: seq<T>)
    ensures 0 <= index < |s| ==> r == s[..index] + s[index + 1..]
    ensures !(0 <= index < |s|) ==> r == s
  {
    if s == [] then []
    else (if index == 0 then [] else [s[0]]) + Without(s[1..], index - 1)
  }

  lemma WithoutKeepsInvariants(lines: seq<CartLine>, index: int)
    requires KeysDistinct(lines) && AllPositive(lines)
    ensures KeysDistinct(Without(lines, index)) && AllPositive(Without(lines, index))
  {
    var r := Without(lines, index);
    if 0 <= index < |lines| {
      forall a, b | 0 <= a < b < |r| ensures Key(r[a]) != Key(r[b]) {
        var a' := if a < index then a else a + 1;
        var b' := if b < index then b else b + 1;
        assert r[a] == lines[a'] && r[b] == lines[b'];
      }
      forall k | 0 <= k < |r| ensures r[k].quantity > 0 {
        assert r[k] == lines[if k < index then k else k + 1];
      }
    }
  }

  // ---- Totals -------------------------------------------------------------

  /** `opt.price` summed over a line's customizations (`|| 0` when absent). */
  function CustomizationsCost(line: CartLine): int
  {
    match line.customizations
    case None => 0
    case Some(cs) => Fold(0, cs, (c: CustomizationOption) => c.price)
  }

  /** `(item.product.price + customizationsCost) * item.quantity`. */
  function LineCost(line: CartLine): int
  {
    (line.product.price + CustomizationsCost(line)) * line.quantity
  }

  /** The checkout total: the reduce over the cart from 0. */
  function CheckoutTotal(lines: seq<CartLine>): (total: int)
    ensures lines == [] ==> total == 0
    ensures total == Sum(lines, LineCost)
  {
    Fold(0, lines, LineCost)
  }

  function OptionsPrice(customs: seq<CustomizationOption>): int
  {
    Sum(customs, (c: CustomizationOption) => c.price)
  }

  /** Adding a selection raises the total by that selection's unit price,
      provided every line with the product's id carries its current price. */
  lemma {:induction false} MergeAddsUnitPrice(lines: seq<CartLine>, product: Product, portion: string, customs: seq<CustomizationOption>)
    requires forall k :: 0 <= k < |lines| && lines[k].product.id == product.id ==> lines[k].product.price == product.price
    ensures CheckoutTotal(Merge(lines, product, portion, customs)) == CheckoutTotal(lines) + product.price + OptionsPrice(customs)
  {
    var r := Merge(lines, product, portion, customs);
    if lines == [] {
      assert Sum(r, LineCost) == LineCost(r[0]) + Sum(r[1..], LineCost);
    } else if Matches(lines[0], product, portion, customs) {
      assert r == [Bump(lines[0])] + lines[1..];
      assert lines[0].customizations.GetOr([]) == customs;
      assert CustomizationsCost(lines[0]) == OptionsPrice(customs);
      assert LineCost(Bump(lines[0])) == LineCost(lines[0]) + product.price + OptionsPrice(customs);
    } else {
      MergeAddsUnitPrice(lines[1..], product, portion, customs);
      assert r == [lines[0]] + Merge(lines[1..], product, portion, customs);
    }
  }

  /** Changing a line by `change` units moves the total by `change` unit
      prices, or by the whole line's cost when the line is dropped. */
  lemma UpdatedTotal(lines: seq<CartLine>, index: nat, change: int)
    requires index < |lines|
    ensures var unit := lines[index].product.price + CustomizationsCost(lines[index]);
      CheckoutTotal(Updated(lines, index, change)) ==
        if lines[index].quantity + change <= 0 then CheckoutTotal(lines) - LineCost(lines[index])
        else CheckoutTotal(lines) + unit * change
  {
    var q := lines[index].quantity + change;
    if q <= 0 {
      SumRemove(lines, index, LineCost);
    } else {
      SumUpdate(lines, index, lines[index].(quantity := q), LineCost);
    }
  }

  lemma RemovedTotal(lines: seq<CartLine>, index: int)
    ensures CheckoutTotal(Without(lines, index)) ==
      if 0 <= index < |lines| then CheckoutTotal(lines) - LineCost(lines[index]) else CheckoutTotal(lines)
  {
    if 0 <= index < |lines| {
      SumRemove(lines, index, LineCost);
    }
  }

  // ---- handleCheckout -----------------------------------------------------

  /** `cartItems.map(...)`: one order item per line, in cart order. */
  function OrderItems(lines: seq<CartLine>): (items: seq<OrderItem>)
    ensures |items| == |lines|
    ensures forall k :: 0 <= k < |lines| ==>
      items[k].productId == lines[k].product.id &&
      items[k].quantity == lines[k].quantity &&
      items[k].portionSize == lines[k].portionSize &&
      items[k].customizations == lines[k].customizations.GetOr([])
  {
    if lines == [] then []
    else [OrderItem(lines[0].product.id, lines[0].quantity, lines[0].portionSize, lines[0].customizations.GetOr([]))]
         + OrderItems(lines[1..])
  }

  /** The user id the client writes into every order. */
  const MockUserId: int := 1
  const OrdersUrl: string := "http://localhost:8080/api/orders"

  /** The JSON body `handleCheckout` posts. */
  datatype OrderPayload = OrderPayload(userId: int, items: seq<OrderItem>, totalPrice: int, status: string)

  /** A request as the client issues it: the only header set is the
      content type, so `authorization` is always absent. */
  datatype OrderRequest = OrderRequest(url: string, authorization: Option<string>, body: OrderPayload)

  function CheckoutRequest(lines: seq<CartLine>): (req: OrderRequest)
    ensures req.authorization == None && req.url == OrdersUrl
    ensures req.body.userId == MockUserId && req.body.status == Pending
    ensures req.body.totalPrice == Sum(lines, LineCost)
    ensures |req.body.items| == |lines|
  {
    OrderRequest(OrdersUrl, None, OrderPayload(MockUserId, OrderItems(lines), CheckoutTotal(lines), Pending))
  }

  /** What the order endpoint answered, or that `fetch` itself rejected. */
  datatype HttpOutcome = Ok | NotOk(body: string) | Thrown(message: string)

  /** The error message `handleCheckout` raises for a failed request. */
  function CheckoutFailure(outcome: HttpOutcome): (msg: string)
    requires !outcome.Ok?
    ensures outcome.NotOk? && outcome.body != "" ==> msg == outcome.body
    ensures outcome.NotOk? && outcome.body == "" ==> msg == "Checkout failed"
    ensures outcome.Thrown? ==> msg == outcome.message
  {
    match outcome
    case NotOk(body) => if body == "" then "Checkout failed" else body
    case Thrown(message) => message
  }

  const SuccessAlert: string := "Order placed successfully! Enjoy your meal. 😋"

  // ---- The component's state ----------------------------------------------

  class App {
    var lines: seq<CartLine>
    var selectedCategory: Option<string>
    var loading: bool
    var showFeedback: bool

    ghost predicate Valid()
      reads this
    {
      KeysDistinct(lines) && AllPositive(lines)
    }

    constructor ()
      ensures Valid()
      ensures lines == [] && selectedCategory == None && !loading && !showFeedback
    {
      lines := [];
      selectedCategory := None;
      loading := false;
      showFeedback := false;
    }

    /** `addToCart`: find the first line with this identity; bump it in a
        copy of the cart, or append a new line. */
    method AddToCart(product: Product, portion: string, customs: seq<CustomizationOption>)
      requires Valid()
      modifies this`lines
      ensures Valid()
      ensures lines == Merge(old(lines), product, portion, customs)
    {
      var index := FindLine(lines, product, portion, customs);
      if index >= 0 {
        MergeBumpsFirstMatch(lines, index, product, portion, customs);
        var items := lines;
        items := items[index := items[index].(quantity := items[index].quantity + 1)];
        MergeKeepsKeysDistinct(lines, product, portion, customs);
        MergeKeepsPositive(lines, product, portion, customs);
        lines := items;
      } else {
        MergeAppends(lines, product, portion, customs);
        MergeKeepsKeysDistinct(lines, product, portion, customs);
        MergeKeepsPositive(lines, product, portion, customs);
        lines := lines + [NewLine(product, portion, customs)];
      }
    }

    /** `updateQuantity`; the index is always a rendered row's own index. */
    method UpdateQuantity(index: nat, change: int)
      requires Valid()
      requires index < |lines|
      modifies this`lines
      ensures Valid()
      ensures lines == Updated(old(lines), index, change)
    {
      UpdatedKeepsInvariants(lines, index, change);
      var items := lines;
      items := items[index := items[index].(quantity := items[index].quantity + change)];
      if items[index].quantity <= 0 {
        items := items[..index] + items[index + 1..];
      }
      lines := items;
    }

    /** `removeFromCart`: an index outside the cart changes nothing. */
    method RemoveFromCart(index: int)
      requires Valid()
      modifies this`lines
      ensures Valid()
      ensures lines == Without(old(lines), index)
    {
      WithoutKeepsInvariants(lines, index);
      lines := Without(lines, index);
    }

    /** `handleCheckout`, with the endpoint's answer as a parameter. Returns
        the request it sent (if any) and the alert it showed (if any). */
    method Checkout(outcome: HttpOutcome) returns (sent: Option<OrderRequest>, alert: Option<string>)
      requires Valid()
      modifies this
      ensures Valid()
      ensures showFeedback == old(showFeedback)
      ensures old(lines) == [] ==>
        sent == None && alert == None && lines == old(lines) &&
        selectedCategory == old(selectedCategory) && loading == old(loading)
      ensures old(lines) != [] ==> sent == Some(CheckoutRequest(old(lines))) && !loading
      ensures old(lines) != [] && outcome.Ok? ==>
        lines == [] && selectedCategory == None && alert == Some(SuccessAlert)
      ensures old(lines) != [] && !outcome.Ok? ==>
        lines == old(lines) && selectedCategory == old(selectedCategory) &&
        alert == Some("Checkout failed: " + CheckoutFailure(outcome))
    {
      if |lines| == 0 {
        return None, None;
      }
      loading := true;
      var totalPrice := CheckoutTotal(lines);
      var orderData := OrderPayload(MockUserId, OrderItems(lines), totalPrice, Pending);
      sent := Some(OrderRequest(OrdersUrl, None, orderData));
      if outcome.Ok? {
        alert := Some(SuccessAlert);
        lines := [];
        selectedCategory := None;
      } else {
        alert := Some("Checkout failed: " + CheckoutFailure(outcome));
      }
      loading := false;
    }

    /** `handleCategorySelect`. */
    method SelectCategory(category: string)
      modifies this`selectedCategory
      ensures selectedCategory == Some(category)
    {
      selectedCategory := Some(category);
    }

    /** `handleBackToHome`: leaves the view, never the cart. */
    method BackToHome()
      modifies this`selectedCategory, this`showFeedback
      ensures selectedCategory == None && !showFeedback
      ensures lines == old(lines)
    {
      selectedCategory := None;
      showFeedback := false;
    }
  }

  /** `prev.findIndex(...)`: the first line with the selection's identity,
      or -1 when there is none. */
  method FindLine(lines: seq<CartLine>, product: Product, portion: string, customs: seq<CustomizationOption>)
    returns (index: int)
    ensures index == -1 <==> NoMatch(lines, product, portion, customs)
    ensures index != -1 ==> FirstMatch(lines, index, product, portion, customs)
  {
    var k := 0;
    while k < |lines|
      invariant 0 <= k <= |lines|
      invariant forall j :: 0 <= j < k ==> !Matches(lines[j], product, portion, customs)
    {
      if Matches(lines[k], product, portion, customs) {
        return k;
      }
      k := k + 1;
    }
    return -1;
  }
}
