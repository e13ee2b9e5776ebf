/** The western category page (src/components/WesternCategory.tsx): the
    product grid, the cart badge, and the customization modal whose state
    (selected product, portion, selected options) the event handlers change
    step by step before handing a selection to `App.addToCart`. */
module Western {
  import opened Common
  import opened Types
  import Store
  import CartView

  /** The two options the modal offers, hard-coded in the page. */
  const ExtraSpicy: CustomizationOption := CustomizationOption("extra-spicy", "Extra Spicy", 100)
  const ExtraCheese: CustomizationOption := CustomizationOption("extra-cheese", "Extra Cheese", 300)

  const DefaultPortion: string := "Medium"

  // ---- Derived values -----------------------------------------------------

  /** `products.filter(p => p.category === 'western')`. */
  function WesternProducts(products: seq<Product>): (r: seq<Product>)
    ensures forall p :: p in r <==> p in products && p.category == Types.Western
    ensures |r| <= |products|
  {
    if products == [] then []
    else (if products[0].category == Types.Western then [products[0]] else []) + WesternProducts(products[1..])
  }

  /** The filter keeps catalog order: filtering a concatenation is the
      concatenation of the filtered parts. */
  lemma {:induction false} WesternProductsConcat(a: seq<Product>, b: seq<Product>)
    ensures WesternProducts(a + b) == WesternProducts(a) + WesternProducts(b)
  {
    if a == [] {
      assert a + b == b;
    } else {
      var head := if a[0].category == Types.Western then [a[0]] else [];
      assert (a + b)[0] == a[0] && (a + b)[1..] == a[1..] + b;
      assert WesternProducts(a + b) == head + WesternProducts(a[1..] + b);
      WesternProductsConcat(a[1..], b);
      assert WesternProducts(a) == head + WesternProducts(a[1..]);
    }
  }

  /** The badge: `cartItems.reduce((sum, item) => sum + item.quantity, 0)`. */
  function BadgeCount(items: seq<CartLine>): (n: int)
    ensures items == [] ==> n == 0
    ensures Store.AllPositive(items) ==> n >= |items|
  {
    BadgeAtLeastLength(items);
    Fold(0, items, (item: CartLine) => item.quantity)
  }

  lemma {:induction false} BadgeAtLeastLength(items: seq<CartLine>)
    ensures Store.AllPositive(items) ==> Sum(items, (item: CartLine) => item.quantity) >= |items|
  {
    if items != [] {
      BadgeAtLeastLength(items[1..]);
    }
  }

  /** Every add puts exactly one more unit in the cart. */
  lemma {:induction false} BadgeAfterAdd(items: seq<CartLine>, product: Product, portion: string, customs: seq<CustomizationOption>)
    ensures BadgeCount(Store.Merge(items, product, portion, customs)) == BadgeCount(items) + 1
  {
    var qty := (item: CartLine) => item.quantity;
    var r := Store.Merge(items, product, portion, customs);
    if items == [] {
      assert Sum(r, qty) == r[0].quantity + Sum(r[1..], qty);
    } else if Store.Matches(items[0], product, portion, customs) {
      assert r == [Store.Bump(items[0])] + items[1..];
      assert Sum(r, qty) == items[0].quantity + 1 + Sum(items[1..], qty);
    } else {
      BadgeAfterAdd(items[1..], product, portion, customs);
      assert r == [items[0]] + Store.Merge(items[1..], product, portion, customs);
    }
  }

  /** A quantity change moves the badge by the change, or by the whole
      line when the line is dropped. */
  lemma BadgeAfterUpdate(items: seq<CartLine>, index: nat, change: int)
    requires index < |items|
    ensures BadgeCount(Store.Updated(items, index, change)) ==
      if items[index].quantity + change <= 0 then BadgeCount(items) - items[index].quantity
      else BadgeCount(items) + change
  {
    var qty := (item: CartLine) => item.quantity;
    var q := items[index].quantity + change;
    if q <= 0 {
      SumRemove(items, index, qty);
    } else {
      SumUpdate(items, index, items[index].(quantity := q), qty);
    }
  }

  /** The price in the modal header: base price plus the selected options. */
  function ModalPrice(product: Product, selected: seq<CustomizationOption>): (price: int)
    ensures price == product.price + Store.OptionsPrice(selected)
  {
    product.price + Fold(0, selected, (opt: CustomizationOption) => opt.price)
  }

  /** The modal shows the unit price the cart row will show for the line
      the modal adds. */
  lemma ModalPriceIsRowPrice(product: Product, portion: string, selected: seq<CustomizationOption>)
    ensures ModalPrice(product, selected) == CartView.RowPrice(Store.NewLine(product, portion, selected))
  {
  }

  // ---- Customization selection -------------------------------------------

  /** `selectedCustomizations.some(c => c.id === id)`: the checkbox state. */
  predicate IsChecked(selected: seq<CustomizationOption>, id: string)
  {
    exists k :: 0 <= k < |selected| && selected[k].id == id
  }

  /** `prev.filter(c => c.id !== id)`. */
  function Unchecked(selected: seq<CustomizationOption>, id: string): (r: seq<CustomizationOption>)
    ensures !IsChecked(r, id)
    ensures forall c :: c in r <==> c in selected && c.id != id
    ensures |r| <= |selected|
  {
    if selected == [] then []
    else (if selected[0].id != id then [selected[0]] else []) + Unchecked(selected[1..], id)
  }

  /** The filter keeps the remaining options in their order: unchecking a
      concatenation unchecks each part. */
  lemma {:induction false} UncheckedConcat(a: seq<CustomizationOption>, b: seq<CustomizationOption>, id: string)
    ensures Unchecked(a + b, id) == Unchecked(a, id) + Unchecked(b, id)
  {
    if a == [] {
      assert a + b == b;
    } else {
      assert (a + b)[0] == a[0] && (a + b)[1..] == a[1..] + b;
      UncheckedConcat(a[1..], b, id);
    }
  }

  /** Unchecking an option that was not selected changes nothing. */
  lemma {:induction false} UncheckedAbsent(selected: seq<CustomizationOption>, id: string)
    requires !IsChecked(selected, id)
    ensures Unchecked(selected, id) == selected
  {
    if selected != [] {
      assert selected[0].id != id;
      assert !IsChecked(selected[1..], id) by {
        forall k | 0 <= k < |selected[1..]| ensures selected[1..][k].id != id {
          assert selected[1..][k] == selected[k + 1];
        }
      }
      UncheckedAbsent(selected[1..], id);
      assert selected == [selected[0]] + selected[1..];
    }
  }

  /** Checking then unchecking an unselected option restores the selection. */
  lemma {:induction false} CheckThenUncheck(selected: seq<CustomizationOption>, opt: CustomizationOption)
    requires !IsChecked(selected, opt.id)
    ensures Unchecked(selected + [opt], opt.id) == selected
  {
    var s := selected + [opt];
    if selected == [] {
      assert s[0] == opt && s[1..] == [];
      assert Unchecked(s, opt.id) == [] + Unchecked(s[1..], opt.id);
    } else {
      var head, rest := selected[0], selected[1..];
      assert s[0] == head && s[1..] == rest + [opt];
      assert head.id != opt.id;
      assert !IsChecked(rest, opt.id) by {
        forall k | 0 <= k < |rest| ensures rest[k].id != opt.id {
          assert rest[k] == selected[k + 1];
        }
      }
      CheckThenUncheck(rest, opt);
      assert Unchecked(s, opt.id) == [head] + Unchecked(rest + [opt], opt.id);
      assert selected == [head] + rest;
    }
  }

  /** Checking the two options in the two orders gives two selections that
      the cart treats as two different lines. */
  lemma CheckOrderMatters(product: Product, portion: string)
    ensures [ExtraSpicy, ExtraCheese] != [ExtraCheese, ExtraSpicy]
    ensures |Store.Merge(Store.Merge([], product, portion, [ExtraSpicy, ExtraCheese]), product, portion, [ExtraCheese, ExtraSpicy])| == 2
  {
    assert ExtraSpicy.id[6] != ExtraCheese.id[6];
    Store.OptionOrderSplitsLines(product, portion, ExtraSpicy, ExtraCheese);
  }

  // ---- The page's state ---------------------------------------------------

  class WesternPage {
    var selectedProduct: Option<Product>
    var portionSize: string
    var selectedCustomizations: seq<CustomizationOption>
    var showCart: bool

    constructor ()
      ensures selectedProduct == None && portionSize == DefaultPortion
      ensures selectedCustomizations == [] && !showCart
    {
      selectedProduct := None;
      portionSize := DefaultPortion;
      selectedCustomizations := [];
      showCart := false;
    }

    /** A click on the card body opens the modal with the default portion;
        the options chosen earlier stay selected. */
    method ClickCard(product: Product)
      modifies this
      ensures selectedProduct == Some(product) && portionSize == DefaultPortion
      ensures selectedCustomizations == old(selectedCustomizations) && showCart == old(showCart)
    {
      selectedProduct := Some(product);
      portionSize := DefaultPortion;
    }

    /** "Customize" opens the modal with the default portion and no options. */
    method Customize(product: Product)
      modifies this
      ensures selectedProduct == Some(product) && portionSize == DefaultPortion
      ensures selectedCustomizations == [] && showCart == old(showCart)
    {
      selectedProduct := Some(product);
      portionSize := DefaultPortion;
      selectedCustomizations := [];
    }

    /** The card's quick "Add to Cart": always the default portion, no options. */
    method QuickAdd(app: Store.App, product: Product)
      requires app.Valid()
      modifies app`lines
      ensures app.Valid()
      ensures app.lines == Store.Merge(old(app.lines), product, DefaultPortion, [])
    {
      app.AddToCart(product, DefaultPortion, []);
    }

    /** The portion selector. */
    method SelectPortion(portion: string)
      modifies this`portionSize
      ensures portionSize == portion
    {
      portionSize := portion;
    }

    /** A checkbox change: checking appends the option at the end, unchecking
        filters out every entry with its id. */
    method ToggleOption(opt: CustomizationOption, checked: bool)
      modifies this`selectedCustomizations
      ensures checked ==> selectedCustomizations == old(selectedCustomizations) + [opt]
      ensures !checked ==> selectedCustomizations == Unchecked(old(selectedCustomizations), opt.id)
      ensures IsChecked(selectedCustomizations, opt.id) == checked
    {
      if checked {
        selectedCustomizations := selectedCustomizations + [opt];
        assert selectedCustomizations[|selectedCustomizations| - 1] == opt;
      } else {
        selectedCustomizations := Unchecked(selectedCustomizations, opt.id);
      }
    }

    /** The modal's "Add to Cart": hand over the current portion and options,
        then close the modal and clear the options (the portion is kept). */
    method AddFromModal(app: Store.App)
      requires app.Valid()
      requires selectedProduct.Some?
      modifies this`selectedProduct, this`selectedCustomizations, app`lines
      ensures app.Valid()
      ensures app.lines == Store.Merge(old(app.lines), old(selectedProduct).value, old(portionSize), old(selectedCustomizations))
      ensures selectedProduct == None && selectedCustomizations == [] && portionSize == old(portionSize)
    {
      app.AddToCart(selectedProduct.value, portionSize, selectedCustomizations);
      selectedProduct := None;
      selectedCustomizations := [];
    }

    /** The × button or a click on the overlay. */
    method CloseModal()
      modifies this`selectedProduct
      ensures selectedProduct == None
    {
      selectedProduct := None;
    }

    method OpenCart()
      modifies this`showCart
      ensures showCart
    {
      showCart := true;
    }

    method CloseCart()
      modifies this`showCart
      ensures !showCart
    {
      showCart := false;
    }
  }
}
