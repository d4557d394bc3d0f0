/** The cart page (src/pages/Cart.tsx): the category label, the controls of
    each cart line (−, the typed share count, +, remove) and the checkout
    button. The controls act through the cart's own operations. */
module CartPage {
  import opened Common
  import opened CartContext
  import opened AnimalDetail

  /** `formatCategory`: "Unknown" for a missing or empty category, otherwise
      its first character upper-cased and the rest unchanged. */
  function FormatCategory(category: Option<string>): (r: string)
    ensures category.None? || category == Some("") ==> r == "Unknown"
    ensures category.Some? && category.value != "" ==>
              |r| == |category.value| && r[0] == UpperChar(category.value[0]) && r[1..] == category.value[1..]
  {
    match category
    case None => "Unknown"
    case Some(c) => if c == "" then "Unknown" else CapitalizeFirst(c)
  }

  /** The cart's label is the detail page's `capitalize`, with "Unknown" in
      place of the empty string. */
  lemma FormatCategoryExtendsCapitalize(category: Option<string>)
    ensures FormatCategory(category) == (if Capitalize(category) == "" then "Unknown" else Capitalize(category))
  {
  }

  /** Which view the page renders. */
  datatype CartView = EmptyCart | Listing

  function ViewOf(items: seq<CartItem>): (v: CartView)
    ensures v == EmptyCart <==> |items| == 0
  {
    if |items| == 0 then EmptyCart else Listing
  }

  /** The controls of one cart line. `Typed` carries what `parseInt` made of
      the input (`None` for NaN). */
  datatype Control = Minus | Typed(parsed: Option<int>) | Plus | Remove

  /** The cart after a control of `line` is used: the share controls keep
      every line in place, and remove takes away at least the line itself. */
  function ControlUpdate(items: seq<CartItem>, line: CartItem, control: Control): (r: seq<CartItem>)
    ensures control != Remove ==> |r| == |items|
    ensures control == Remove && line in items ==> |r| < |items|
  {
    match control
    case Minus => if line.shares > 1 then UpdateShares(items, line.id, line.shares - 1) else items
    case Typed(parsed) =>
      if parsed.Some? && parsed.value > 0 then UpdateShares(items, line.id, parsed.value) else items
    case Plus => UpdateShares(items, line.id, line.shares + 1)
    case Remove => RemoveItem(items, line.id)
  }

  /** No control of a line of the cart takes any line below one share: − stops
      at 1, a typed value must be positive, and + only grows. */
  lemma ControlsKeepSharesPositive(items: seq<CartItem>, line: CartItem, control: Control)
    requires SharesPositive(items) && line in items
    ensures SharesPositive(ControlUpdate(items, line, control))
  {
    match control
    case Minus => UpdateKeepsInvariants(items, line.id, line.shares - 1);
    case Typed(parsed) => if parsed.Some? && parsed.value > 0 { UpdateKeepsInvariants(items, line.id, parsed.value); }
    case Plus => UpdateKeepsInvariants(items, line.id, line.shares + 1);
    case Remove => RemoveKeepsInvariants(items, line.id);
  }

  /** The controls keep one line per animal and every line priced at its share
      price times its shares. */
  lemma ControlsKeepInvariants(items: seq<CartItem>, line: CartItem, control: Control)
    ensures UniqueAnimals(items) ==> UniqueAnimals(ControlUpdate(items, line, control))
    ensures PricesConsistent(items) ==> PricesConsistent(ControlUpdate(items, line, control))
  {
    match control
    case Minus => UpdateKeepsInvariants(items, line.id, line.shares - 1);
    case Typed(parsed) => if parsed.Some? && parsed.value > 0 { UpdateKeepsInvariants(items, line.id, parsed.value); }
    case Plus => UpdateKeepsInvariants(items, line.id, line.shares + 1);
    case Remove => RemoveKeepsInvariants(items, line.id);
  }

  /** A control changes only the line it belongs to: every other line stays,
      in place for the share controls and in its order for remove, which
      splits over any cut of the cart. */
  lemma ControlsTouchOnlyTheirLine(items: seq<CartItem>, line: CartItem, control: Control)
    ensures control != Remove ==> |ControlUpdate(items, line, control)| == |items|
    ensures control != Remove ==>
              forall i :: 0 <= i < |items| && items[i].id != line.id ==> ControlUpdate(items, line, control)[i] == items[i]
    ensures control == Remove ==>
              forall l :: l in items && l.id != line.id ==> l in ControlUpdate(items, line, control)
    ensures control == Remove ==>
              forall l :: l in ControlUpdate(items, line, control) ==> l in items && l.id != line.id
    ensures control == Remove ==>
              forall k :: 0 <= k <= |items| ==>
                ControlUpdate(items, line, control) == RemoveItem(items[..k], line.id) + RemoveItem(items[k..], line.id)
  {
    match control
    case Minus => UpdateSetsAndRecomputes(items, line.id, line.shares - 1);
    case Typed(parsed) => if parsed.Some? && parsed.value > 0 { UpdateSetsAndRecomputes(items, line.id, parsed.value); }
    case Plus => UpdateSetsAndRecomputes(items, line.id, line.shares + 1);
    case Remove =>
      RemoveDropsExactlyMatching(items, line.id);
      forall k | 0 <= k <= |items|
        ensures RemoveItem(items, line.id) == RemoveItem(items[..k], line.id) + RemoveItem(items[k..], line.id)
      {
        assert items[..k] + items[k..] == items;
        RemoveKeepsOrder(items[..k], items[k..], line.id, line);
      }
  }

  /** + has no upper bound: pressed on any line it adds a share. */
  lemma PlusIsUnbounded(items: seq<CartItem>, k: nat)
    requires k < |items|
    ensures ControlUpdate(items, items[k], Plus)[k].shares == items[k].shares + 1
  {
  }

  /** The page's own state: the checkout flag and where it navigated. */
  class CartPageState {
    var isCheckingOut: bool
    var navigatedTo: Option<string>

    constructor ()
      ensures !isCheckingOut && navigatedTo.None?
    {
      isCheckingOut := false;
      navigatedTo := None;
    }

    /** A control of `line` used: the cart changes as `ControlUpdate` says and
        stays free of lines with fewer than one share. */
    method Handle(cart: CartStore, line: CartItem, control: Control)
      requires line in cart.items && cart.Persisted()
      modifies cart
      ensures cart.items == ControlUpdate(old(cart.items), line, control)
      ensures cart.Persisted()
      ensures SharesPositive(old(cart.items)) ==> SharesPositive(cart.items)
    {
      if SharesPositive(cart.items) {
        ControlsKeepSharesPositive(cart.items, line, control);
      }
      match control {
        case Minus =>
          if line.shares > 1 {
            cart.UpdateShareCount(line.id, line.shares - 1);
          }
        case Typed(parsed) =>
          if parsed.Some? && parsed.value > 0 {
            cart.UpdateShareCount(line.id, parsed.value);
          }
        case Plus =>
          cart.UpdateShareCount(line.id, line.shares + 1);
        case Remove =>
          cart.RemoveFromCart(line.id);
      }
    }

    /** `handleCheckout`, with the 500 ms timer taken as one step: the page
        goes to the order form and the flag is cleared again. */
    method Checkout()
      modifies this
      ensures navigatedTo == Some("/order") && !isCheckingOut
    {
      isCheckingOut := true;
      navigatedTo := Some("/order");
      isCheckingOut := false;
    }
  }
}
