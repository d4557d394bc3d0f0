/** The animal detail page (src/pages/AnimalDetail.tsx): how many shares of
    the animal the cart already holds, how many are still available, the
    share-count controls, and the item the page adds to the cart. */
module AnimalDetail {
  import opened Common
  import opened CartContext
  import opened AnimalService

  // ---------------------------------------------------------------------------
  // Shares already in the cart

  /** Keeping only some lines never raises the share count, nor takes it below
      zero, when no line holds a negative count. */
  lemma {:induction false} FilteredSharesBounded(items: seq<CartItem>, p: CartItem -> bool)
    ensures (forall i :: 0 <= i < |items| ==> items[i].shares >= 0) ==>
              0 <= TotalItems(Filter(items, p)) <= TotalItems(items)
  {
    if items != [] && forall i :: 0 <= i < |items| ==> items[i].shares >= 0 {
      var rest := Filter(items[1..], p);
      FilteredSharesBounded(items[1..], p);
      FilterSuffixStep(items, 0, p);
      assert items[0..] == items;
      if p(items[0]) {
        assert ([items[0]] + rest)[1..] == rest;
      } else {
        assert Filter(items, p) == rest;
      }
    }
  }

  /** `items.filter(item => item.animalId === animal.id).reduce(+shares, 0)`:
      never negative and never more than the cart's share count, when no line
      holds a negative count. */
  function SharesInCart(items: seq<CartItem>, animalId: string): (n: int)
    ensures (forall i :: 0 <= i < |items| ==> items[i].shares >= 0) ==> 0 <= n <= TotalItems(items)
  {
    var p := (line: CartItem) => line.animalId == animalId;
    FilteredSharesBounded(items, p);
    TotalItems(Filter(items, p))
  }

  /** What one cart line contributes to the shares of `animalId`. */
  function Contribution(line: CartItem, animalId: string): int
  {
    if line.animalId == animalId then line.shares else 0
  }

  /** The sum can be taken line by line from the front. */
  lemma SharesInCartCons(items: seq<CartItem>, animalId: string)
    requires items != []
    ensures SharesInCart(items, animalId) == Contribution(items[0], animalId) + SharesInCart(items[1..], animalId)
  {
    var p := (line: CartItem) => line.animalId == animalId;
    var rest := Filter(items[1..], p);
    if p(items[0]) {
      assert Filter(items, p) == [items[0]] + rest;
      assert ([items[0]] + rest)[1..] == rest;
    } else {
      assert Filter(items, p) == rest;
    }
  }

  /** Lines of other animals contribute nothing. */
  lemma {:induction false} SharesInCartNone(items: seq<CartItem>, animalId: string)
    requires forall i :: 0 <= i < |items| ==> items[i].animalId != animalId
    ensures SharesInCart(items, animalId) == 0
  {
    if items != [] {
      SharesInCartCons(items, animalId);
      SharesInCartNone(items[1..], animalId);
    }
  }

  /** When the cart has one line for the animal, the sum is that line's shares. */
  lemma {:induction false} SharesInCartSingle(items: seq<CartItem>, animalId: string, k: nat)
    requires k < |items| && items[k].animalId == animalId
    requires UniqueAnimals(items)
    ensures SharesInCart(items, animalId) == items[k].shares
  {
    SharesInCartCons(items, animalId);
    if k == 0 {
      SharesInCartNone(items[1..], animalId);
    } else {
      assert items[0].animalId != animalId;
      SharesInCartSingle(items[1..], animalId, k - 1);
    }
  }

  /** Appending a line adds its contribution. */
  lemma {:induction false} SharesInCartAppend(items: seq<CartItem>, line: CartItem, animalId: string)
    ensures SharesInCart(items + [line], animalId) == SharesInCart(items, animalId) + Contribution(line, animalId)
  {
    var s := items + [line];
    SharesInCartCons(s, animalId);
    if items == [] {
      assert s[1..] == [];
    } else {
      assert s[1..] == items[1..] + [line];
      SharesInCartAppend(items[1..], line, animalId);
      SharesInCartCons(items, animalId);
    }
  }

  /** Replacing a line swaps its contribution for the new line's. */
  lemma {:induction false} SharesInCartReplace(items: seq<CartItem>, k: nat, line: CartItem, animalId: string)
    requires k < |items|
    ensures SharesInCart(items[k := line], animalId) ==
            SharesInCart(items, animalId) - Contribution(items[k], animalId) + Contribution(line, animalId)
  {
    var s := items[k := line];
    SharesInCartCons(s, animalId);
    SharesInCartCons(items, animalId);
    if k > 0 {
      assert s[1..] == items[1..][k - 1 := line];
      SharesInCartReplace(items[1..], k - 1, line, animalId);
    } else {
      assert s[1..] == items[1..];
    }
  }

  /** Adding to the cart raises the animal's shares in the cart by exactly the
      shares added, and leaves every other animal's shares as they were. */
  lemma AddRaisesSharesInCart(items: seq<CartItem>, input: CartItemInput, now: nat, animalId: string)
    ensures SharesInCart(AddItem(items, input, now), animalId) ==
            SharesInCart(items, animalId) + (if animalId == input.animalId then input.shares else 0)
  {
    var k := FindIndex(items, input.animalId);
    if k != -1 {
      SharesInCartReplace(items, k, Merge(items[k], input), animalId);
    } else {
      SharesInCartAppend(items, NewLine(input, now), animalId);
    }
  }

  /** `availableShares`: the remaining shares not yet in the cart; with no
      negative line in the cart, never more than the remaining shares and never
      less than what the whole cart would leave. */
  function AvailableShares(animal: Animal, items: seq<CartItem>): (available: int)
    ensures (forall i :: 0 <= i < |items| ==> items[i].shares >= 0) ==>
              animal.remainingShares - TotalItems(items) <= available <= animal.remainingShares
  {
    animal.remainingShares - SharesInCart(items, animal.id)
  }

  // ---------------------------------------------------------------------------
  // The item added to the cart

  /** The payload of `handleAddToCart`: the animal's identity and share price,
      the chosen share count, and the displayed total. */
  function AddPayload(animal: Animal, shareCount: int): (input: CartItemInput)
    ensures input.animalId == animal.id && input.name == animal.name
    ensures input.category == Some(animal.category) && input.imageUrl == animal.imageUrl
    ensures input.sharePrice == animal.pricePerShare && input.shares == shareCount
    ensures input.totalPrice == input.sharePrice * input.shares
  {
    CartItemInput(animal.id, animal.name, Some(animal.category), animal.imageUrl,
                  animal.pricePerShare, shareCount, shareCount * animal.pricePerShare)
  }

  /** Adding the page's payload keeps every cart line's total equal to its share
      price times its shares, provided the animal's existing line was priced at
      the animal's current share price. */
  lemma PayloadKeepsPricesConsistent(items: seq<CartItem>, animal: Animal, shareCount: int, now: nat)
    requires PricesConsistent(items)
    requires forall i :: 0 <= i < |items| && items[i].animalId == animal.id ==>
               items[i].sharePrice == animal.pricePerShare
    ensures PricesConsistent(AddItem(items, AddPayload(animal, shareCount), now))
  {
    AddKeepsPricesConsistent(items, AddPayload(animal, shareCount), now);
  }

  // ---------------------------------------------------------------------------
  // Share-count controls

  /** `handleShareCountChange` as written: a typed value (`None` when
      `parseInt` gives NaN) is taken when it lies between 1 and the animal's
      remaining shares, ignoring what the cart already holds. */
  function TypedShareCountAsWritten(current: int, parsed: Option<int>, remaining: int): (r: int)
    ensures parsed.Some? && 1 <= parsed.value <= remaining ==> r == parsed.value
    ensures !(parsed.Some? && 1 <= parsed.value <= remaining) ==> r == current
  {
    if parsed.Some? && 1 <= parsed.value <= remaining then parsed.value else current
  }

  /** The add button as written: disabled only when nothing is available, so
      it stays enabled once the cart already holds more than remains. */
  predicate AddEnabledAsWritten(available: int)
    ensures available < 0 ==> AddEnabledAsWritten(available)
  {
    available != 0
  }

  /** The page as written lets the cart exceed the animal's remaining shares:
      with 4 remaining and 3 already in the cart, typing 4 is accepted and the
      add button stays enabled, and adding leaves 7 shares in the cart. */
  lemma OverbookingAsWritten()
    ensures var animal := PremiumCow;
            var items := [NewLine(AddPayload(animal, 3), 1)];
            var count := TypedShareCountAsWritten(1, Some(4), animal.remainingShares);
            count == 4 && AddEnabledAsWritten(AvailableShares(animal, items)) &&
            SharesInCart(AddItem(items, AddPayload(animal, count), 2), animal.id) == 7 > animal.remainingShares
  {
    var animal := PremiumCow;
    var items := [NewLine(AddPayload(animal, 3), 1)];
    SharesInCartSingle(items, animal.id, 0);
    AddRaisesSharesInCart(items, AddPayload(animal, 4), 2, animal.id);
  }

  /** The typed share count bounded, like the + button and the input's `max`,
      by the available shares. */
  function TypedShareCount(current: int, parsed: Option<int>, available: int): (r: int)
    ensures parsed.Some? && 1 <= parsed.value <= available ==> r == parsed.value
    ensures !(parsed.Some? && 1 <= parsed.value <= available) ==> r == current
    ensures 1 <= current <= available ==> 1 <= r <= available
  {
    if parsed.Some? && 1 <= parsed.value <= available then parsed.value else current
  }

  /** The add button enabled only for a share count the animal can still take:
      stricter than the button as written. */
  predicate AddEnabled(shareCount: int, available: int)
    ensures AddEnabled(shareCount, available) ==> available >= 1 && AddEnabledAsWritten(available)
  {
    1 <= shareCount <= available
  }

  /** Bounding the typed count by the available shares is not enough on its
      own: the count is not reset after an add, and the button as written stays
      enabled while one share is left. With 4 remaining, choosing 3 and adding
      twice leaves 6 shares in the cart; the corrected button refuses the
      second add. */
  lemma TypedBoundAloneOverbooks()
    ensures var animal := PremiumCow;
            var count := TypedShareCount(1, Some(3), AvailableShares(animal, []));
            var once := AddItem([], AddPayload(animal, count), 1);
            count == 3 && SharesInCart(once, animal.id) == 3 &&
            AddEnabledAsWritten(AvailableShares(animal, once)) && !AddEnabled(count, AvailableShares(animal, once)) &&
            SharesInCart(AddItem(once, AddPayload(animal, count), 2), animal.id) == 6 > animal.remainingShares
  {
    var animal := PremiumCow;
    var once := AddItem([], AddPayload(animal, 3), 1);
    AddRaisesSharesInCart([], AddPayload(animal, 3), 1, animal.id);
    AddRaisesSharesInCart(once, AddPayload(animal, 3), 2, animal.id);
  }

  /** With the corrected guard, adding never takes the cart past the animal's
      remaining shares. */
  lemma CorrectedAddNeverOverbooks(items: seq<CartItem>, animal: Animal, shareCount: int, now: nat)
    requires AddEnabled(shareCount, AvailableShares(animal, items))
    ensures SharesInCart(AddItem(items, AddPayload(animal, shareCount), now), animal.id) <= animal.remainingShares
    ensures AvailableShares(animal, AddItem(items, AddPayload(animal, shareCount), now)) ==
            AvailableShares(animal, items) - shareCount
  {
    AddRaisesSharesInCart(items, AddPayload(animal, shareCount), now, animal.id);
  }

  /** The − button: one less, never below 1. */
  function Decremented(shareCount: int): (r: int)
    ensures shareCount > 1 ==> r == shareCount - 1
    ensures shareCount <= 1 ==> r == shareCount
    ensures shareCount >= 1 ==> r >= 1
  {
    if shareCount > 1 then shareCount - 1 else shareCount
  }

  /** The + button: one more, never beyond the available shares. */
  function Incremented(shareCount: int, available: int): (r: int)
    ensures shareCount < available ==> r == shareCount + 1
    ensures shareCount >= available ==> r == shareCount
    ensures shareCount <= available ==> r <= available
  {
    if shareCount < available then shareCount + 1 else shareCount
  }

  /** `capitalize`: "" for a missing or empty string, otherwise the first
      character upper-cased and the rest unchanged. */
  function Capitalize(s: Option<string>): (r: string)
    ensures s.None? ==> r == ""
    ensures s.Some? ==> |r| == |s.value|
    ensures s.Some? && s.value != "" ==> r[0] == UpperChar(s.value[0]) && r[1..] == s.value[1..]
  {
    match s
    case None => ""
    case Some(str) => if str == "" then "" else CapitalizeFirst(str)
  }

  // ---------------------------------------------------------------------------
  // The page

  /** The page's state: the loaded animal, the loading flag and the chosen
      share count. The cart is the shared `CartStore`. */
  class DetailPage {
    var animal: Option<Animal>
    var loading: bool
    var shareCount: int

    /** The first render: loading, nothing loaded, one share chosen. */
    constructor ()
      ensures animal.None? && loading && shareCount == 1
    {
      animal := None;
      loading := true;
      shareCount := 1;
    }

    /** The fetch effect: without an id nothing happens (the page keeps
        loading); otherwise the service's answer, when it found an animal,
        becomes the page's animal and loading ends. */
    method Fetch(id: string, response: Remote<Option<Animal>>)
      modifies this
      ensures id == "" ==> animal == old(animal) && loading == old(loading)
      ensures id != "" ==> !loading
      ensures id != "" ==> animal == (if GetAnimalById(response, id).Some? then GetAnimalById(response, id) else old(animal))
      ensures shareCount == old(shareCount)
    {
      if id == "" {
        return;
      }
      loading := true;
      var data := GetAnimalById(response, id);
      if data.Some? {
        animal := data;
      }
      loading := false;
    }

    /** Typing into the share-count input: the value is bounded by the
        animal's remaining shares, whatever the cart already holds. */
    method ChangeShareCount(parsed: Option<int>)
      requires animal.Some?
      modifies this
      ensures animal == old(animal) && loading == old(loading)
      ensures shareCount == TypedShareCountAsWritten(old(shareCount), parsed, animal.value.remainingShares)
    {
      if parsed.Some? && 1 <= parsed.value <= animal.value.remainingShares {
        shareCount := parsed.value;
      }
    }

    method Decrement()
      modifies this
      ensures shareCount == Decremented(old(shareCount))
      ensures animal == old(animal) && loading == old(loading)
    {
      if shareCount > 1 {
        shareCount := shareCount - 1;
      }
    }

    method Increment(cart: CartStore)
      requires animal.Some?
      modifies this
      ensures animal == old(animal) && loading == old(loading)
      ensures shareCount == Incremented(old(shareCount), AvailableShares(animal.value, cart.items))
    {
      var available := animal.value.remainingShares - SharesInCart(cart.items, animal.value.id);
      if shareCount < available {
        shareCount := shareCount + 1;
      }
    }

    /** `handleAddToCart`, reachable while the add button as written is
        enabled (some share available, or the cart already over): the cart
        gains the payload, the animal's shares in the cart rise by the chosen
        count, and the count itself is kept. */
    method AddToCart(cart: CartStore, now: nat)
      requires animal.Some?
      requires AddEnabledAsWritten(AvailableShares(animal.value, cart.items))
      modifies cart
      ensures cart.items == AddItem(old(cart.items), AddPayload(animal.value, shareCount), now)
      ensures cart.Persisted()
      ensures SharesInCart(cart.items, animal.value.id) == old(SharesInCart(cart.items, animal.value.id)) + shareCount
    {
      AddRaisesSharesInCart(cart.items, AddPayload(animal.value, shareCount), now, animal.value.id);
      cart.AddToCart(AddPayload(animal.value, shareCount), now);
    }
  }

  /** The page as written, driven by a visitor: on the Premium Cow (4 shares
      remaining) choose 3 and add, then add again while the button is still
      enabled. The cart ends with 6 shares of an animal that has 4 left. */
  method PageOverbooks() returns (inCart: int)
    ensures inCart == 6 > PremiumCow.remainingShares
  {
    var cart := new CartStore.Mount(None);
    var page := new DetailPage();
    page.Fetch(PremiumCow.id, Success(Some(PremiumCow)));
    page.ChangeShareCount(Some(3));
    assert SharesInCart(cart.items, PremiumCow.id) == 0;
    page.AddToCart(cart, 1);
    page.AddToCart(cart, 2);
    inCart := SharesInCart(cart.items, PremiumCow.id);
  }
}
