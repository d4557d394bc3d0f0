/** The shopping-cart aggregator (src/contexts/CartContext.tsx): an ordered list
    of line items with add-with-merge, remove, share-count update and clear,
    two sums over the lines, and one storage slot rewritten after every change.

    The operations are first given as functions on the list of lines
    (`AddItem`, `RemoveItem`, `UpdateShares`), with lemmas stating what the
    source promises of them; the `CartStore` class then performs them step by
    step on its `items` field and rewrites the saved slot, as the provider's
    state setter and save effect do. */
module CartContext {
  import opened Common

  /** One line of the cart: shares of one animal, with the display data and
      the share price captured when it was added. */
  datatype CartItem = CartItem(
    id: string,
    animalId: string,
    name: string,
    category: Option<string>,
    imageUrl: string,
    sharePrice: int,
    shares: int,
    totalPrice: int)

  /** What a page hands to `addToCart`: a line without its id. */
  datatype CartItemInput = CartItemInput(
    animalId: string,
    name: string,
    category: Option<string>,
    imageUrl: string,
    sharePrice: int,
    shares: int,
    totalPrice: int)

  /** The id of a new line: the animal id, a dash, and the clock reading in
      milliseconds (the clock is a parameter of the model). */
  function LineId(animalId: string, now: nat): (id: string)
    ensures |id| > |animalId| + 1 && id[..|animalId|] == animalId && id[|animalId|] == '-'
    ensures forall c :: c in id[|animalId| + 1..] ==> IsDigit(c)
  {
    var id := animalId + "-" + NatToString(now);
    assert id[|animalId| + 1..] == NatToString(now);
    id
  }

  /** A line id determines the animal and the clock reading it was made from:
      the digits after the last dash are the clock reading. */
  lemma LineIdInjective(a1: string, t1: nat, a2: string, t2: nat)
    requires LineId(a1, t1) == LineId(a2, t2)
    ensures a1 == a2 && t1 == t2
  {
    var d1, d2 := NatToString(t1), NatToString(t2);
    var s := LineId(a1, t1);
    TrailingDigitsOfLineId(a1, d1);
    TrailingDigitsOfLineId(a2, d2);
    assert |d1| == |d2|;
    assert d1 == s[|s| - |d1|..] == d2;
    assert a1 == s[..|a1|] == a2;
    NatToStringInjective(t1, t2);
  }

  /** The number of decimal digits at the end of `s`. */
  function TrailingDigits(s: string): (n: nat)
    ensures n <= |s|
  {
    if s == [] || !IsDigit(s[|s| - 1]) then 0 else 1 + TrailingDigits(s[..|s| - 1])
  }

  lemma {:induction false} TrailingDigitsOfLineId(a: string, d: string)
    requires forall c :: c in d ==> IsDigit(c)
    ensures TrailingDigits(a + "-" + d) == |d|
  {
    var s := a + "-" + d;
    if d == [] {
      assert s[|s| - 1] == '-';
    } else {
      var d' := d[..|d| - 1];
      assert d[|d| - 1] in d;
      assert s[..|s| - 1] == a + "-" + d';
      TrailingDigitsOfLineId(a, d');
    }
  }

  // ---------------------------------------------------------------------------
  // The operations, as functions of the list of lines

  /** `items.findIndex(line => line.animalId === animalId)`. */
  function FindIndex(items: seq<CartItem>, animalId: string): (k: int)
    ensures -1 <= k < |items|
    ensures k == -1 <==> forall i :: 0 <= i < |items| ==> items[i].animalId != animalId
    ensures k >= 0 ==> items[k].animalId == animalId
    ensures k >= 0 ==> forall i :: 0 <= i < k ==> items[i].animalId != animalId
  {
    if items == [] then -1
    else if items[0].animalId == animalId then 0
    else
      var k := FindIndex(items[1..], animalId);
      if k == -1 then -1 else k + 1
  }

  /** The existing line with the input's shares and total price added to it. */
  function Merge(line: CartItem, input: CartItemInput): (r: CartItem)
    ensures r.id == line.id && r.animalId == line.animalId && r.name == line.name
    ensures r.category == line.category && r.imageUrl == line.imageUrl && r.sharePrice == line.sharePrice
    ensures r.shares == line.shares + input.shares && r.totalPrice == line.totalPrice + input.totalPrice
    ensures line.totalPrice == line.sharePrice * line.shares && input.totalPrice == line.sharePrice * input.shares ==>
              r.totalPrice == r.sharePrice * r.shares
  {
    line.(shares := line.shares + input.shares, totalPrice := line.totalPrice + input.totalPrice)
  }

  /** A new line holding the input's fields verbatim. */
  function NewLine(input: CartItemInput, now: nat): (r: CartItem)
    ensures r.id == LineId(input.animalId, now) && r.animalId == input.animalId && r.name == input.name
    ensures r.category == input.category && r.imageUrl == input.imageUrl && r.sharePrice == input.sharePrice
    ensures r.shares == input.shares && r.totalPrice == input.totalPrice
  {
    CartItem(LineId(input.animalId, now), input.animalId, input.name, input.category,
             input.imageUrl, input.sharePrice, input.shares, input.totalPrice)
  }

  /** `addToCart`: merge into the line for the same animal, or append. */
  function AddItem(items: seq<CartItem>, input: CartItemInput, now: nat): (r: seq<CartItem>)
    ensures FindIndex(items, input.animalId) == -1 ==> |r| == |items| + 1 && r[|items|].animalId == input.animalId
    ensures FindIndex(items, input.animalId) != -1 ==> |r| == |items|
    ensures forall i :: 0 <= i < |items| && items[i].animalId != input.animalId ==> r[i] == items[i]
  {
    var k := FindIndex(items, input.animalId);
    if k != -1 then items[k := Merge(items[k], input)] else items + [NewLine(input, now)]
  }

  /** `removeFromCart`: keep the lines whose id differs. */
  function RemoveItem(items: seq<CartItem>, id: string): (r: seq<CartItem>)
    ensures |r| <= |items|
    ensures forall line :: line in r ==> line in items && line.id != id
    ensures forall line :: line in items && line.id == id ==> |r| < |items|
  {
    var keep := (line: CartItem) => line.id != id;
    FilterDropsFailing(items, keep);
    Filter(items, keep)
  }

  /** The line after `updateShareCount` has reached it. */
  function Recount(line: CartItem, id: string, shares: int): CartItem
  {
    if line.id == id then line.(shares := shares, totalPrice := line.sharePrice * shares) else line
  }

  /** `updateShareCount`: every line with the id gets the new share count and a
      total recomputed from its share price. */
  function UpdateShares(items: seq<CartItem>, id: string, shares: int): (r: seq<CartItem>)
    ensures |r| == |items|
    ensures forall i :: 0 <= i < |items| ==>
              r[i].id == items[i].id && r[i].animalId == items[i].animalId && r[i].sharePrice == items[i].sharePrice
  {
    seq(|items|, i requires 0 <= i < |items| => Recount(items[i], id, shares))
  }

  /** `getTotalPrice`: the sum of the lines' total prices. */
  function TotalPrice(items: seq<CartItem>): (r: int)
    ensures items == [] ==> r == 0
    ensures (forall i :: 0 <= i < |items| ==> items[i].totalPrice >= 0) ==> r >= 0
  {
    if items == [] then 0 else items[0].totalPrice + TotalPrice(items[1..])
  }

  /** `getTotalItems`: the sum of the lines' share counts (not the number of
      lines). */
  function TotalItems(items: seq<CartItem>): (r: int)
    ensures items == [] ==> r == 0
    ensures (forall i :: 0 <= i < |items| ==> items[i].shares >= 1) ==> r >= |items|
  {
    if items == [] then 0 else items[0].shares + TotalItems(items[1..])
  }

  // ---------------------------------------------------------------------------
  // Invariants

  /** At most one line per animal. */
  ghost predicate UniqueAnimals(items: seq<CartItem>)
  {
    forall i, j :: 0 <= i < j < |items| ==> items[i].animalId != items[j].animalId
  }

  /** Every line's total is its share price times its shares. */
  ghost predicate PricesConsistent(items: seq<CartItem>)
  {
    forall i :: 0 <= i < |items| ==> items[i].totalPrice == items[i].sharePrice * items[i].shares
  }

  /** Every line holds at least one share. */
  ghost predicate SharesPositive(items: seq<CartItem>)
  {
    forall i :: 0 <= i < |items| ==> items[i].shares >= 1
  }

  // ---------------------------------------------------------------------------
  // addToCart

  /** Adding for an animal that already has a line keeps the number of lines
      and adds the input's shares and total to the first such line (no
      recomputation); its id, name, category, image and share price stay; the
      other lines are untouched. */
  lemma AddMergesExisting(items: seq<CartItem>, input: CartItemInput, now: nat, k: int)
    requires 0 <= k < |items| && items[k].animalId == input.animalId
    requires forall i :: 0 <= i < k ==> items[i].animalId != input.animalId
    ensures |AddItem(items, input, now)| == |items|
    ensures AddItem(items, input, now)[k].shares == items[k].shares + input.shares
    ensures AddItem(items, input, now)[k].totalPrice == items[k].totalPrice + input.totalPrice
    ensures AddItem(items, input, now)[k] == items[k].(shares := AddItem(items, input, now)[k].shares,
                                                       totalPrice := AddItem(items, input, now)[k].totalPrice)
    ensures forall i :: 0 <= i < |items| && i != k ==> AddItem(items, input, now)[i] == items[i]
  {
    var f := FindIndex(items, input.animalId);
    assert f != -1;
    assert f == k;
  }

  /** Adding for an animal without a line appends exactly one line, holding the
      input's fields and a new id; the earlier lines are untouched. */
  lemma AddAppendsNew(items: seq<CartItem>, input: CartItemInput, now: nat)
    requires forall i :: 0 <= i < |items| ==> items[i].animalId != input.animalId
    ensures AddItem(items, input, now) == items + [NewLine(input, now)]
    ensures var line := AddItem(items, input, now)[|items|];
      line.id == LineId(input.animalId, now) && line.animalId == input.animalId &&
      line.name == input.name && line.category == input.category && line.imageUrl == input.imageUrl &&
      line.sharePrice == input.sharePrice && line.shares == input.shares && line.totalPrice == input.totalPrice
  {
  }

  /** `addToCart` keeps at most one line per animal. */
  lemma AddKeepsUniqueAnimals(items: seq<CartItem>, input: CartItemInput, now: nat)
    requires UniqueAnimals(items)
    ensures UniqueAnimals(AddItem(items, input, now))
  {
    var r := AddItem(items, input, now);
    var k := FindIndex(items, input.animalId);
    if k == -1 {
      forall i, j | 0 <= i < j < |r| ensures r[i].animalId != r[j].animalId {
        if j == |items| {
          assert r[i] == items[i];
        }
      }
    } else {
      forall i, j | 0 <= i < j < |r| ensures r[i].animalId != r[j].animalId {
        assert r[i].animalId == items[i].animalId && r[j].animalId == items[j].animalId;
      }
    }
  }

  /** When every line's total is its share price times its shares, and the
      input carries the same share price as any line it merges into and a total
      computed the same way, the property survives the additive merge. */
  lemma AddKeepsPricesConsistent(items: seq<CartItem>, input: CartItemInput, now: nat)
    requires PricesConsistent(items)
    requires input.totalPrice == input.sharePrice * input.shares
    requires forall i :: 0 <= i < |items| && items[i].animalId == input.animalId ==>
               items[i].sharePrice == input.sharePrice
    ensures PricesConsistent(AddItem(items, input, now))
  {
    var k := FindIndex(items, input.animalId);
    if k != -1 {
      var p, a, b := input.sharePrice, items[k].shares, input.shares;
      assert p * a + p * b == p * (a + b);
    }
  }

  /** When the share price differs from the merged line's, the additive merge
      leaves a line whose total is not its share price times its shares. */
  lemma AddWithOtherPriceBreaksConsistency()
    ensures var items := [CartItem("a-1", "a", "Cow", None, "", 6000, 1, 6000)];
      var input := CartItemInput("a", "Cow", None, "", 7000, 1, 7000);
      PricesConsistent(items) && !PricesConsistent(AddItem(items, input, 2))
  {
    var items := [CartItem("a-1", "a", "Cow", None, "", 6000, 1, 6000)];
    var input := CartItemInput("a", "Cow", None, "", 7000, 1, 7000);
    assert FindIndex(items, "a") == 0;
    var r := AddItem(items, input, 2);
    assert r[0].totalPrice == 13000 && r[0].sharePrice * r[0].shares == 12000;
  }

  /** `addToCart` keeps every line at one share or more when the input has. */
  lemma AddKeepsSharesPositive(items: seq<CartItem>, input: CartItemInput, now: nat)
    requires SharesPositive(items) && input.shares >= 1
    ensures SharesPositive(AddItem(items, input, now))
  {
  }

  /** Whether it merges or appends, an add raises the total price by the
      input's total and the share count by the input's shares. */
  lemma AddRaisesTotals(items: seq<CartItem>, input: CartItemInput, now: nat)
    ensures TotalPrice(AddItem(items, input, now)) == TotalPrice(items) + input.totalPrice
    ensures TotalItems(AddItem(items, input, now)) == TotalItems(items) + input.shares
  {
    var k := FindIndex(items, input.animalId);
    if k != -1 {
      TotalsAfterReplace(items, k, Merge(items[k], input));
    } else {
      TotalsAppend(items, NewLine(input, now));
    }
  }

  /** Two adds for the same animal merge additively: one line for it,
      holding the sum of the shares and the sum of the supplied totals. */
  lemma AddTwiceMerges(items: seq<CartItem>, in1: CartItemInput, in2: CartItemInput, t1: nat, t2: nat)
    requires forall i :: 0 <= i < |items| ==> items[i].animalId != in1.animalId
    requires in2.animalId == in1.animalId
    ensures |AddItem(AddItem(items, in1, t1), in2, t2)| == |items| + 1
    ensures AddItem(AddItem(items, in1, t1), in2, t2)[|items|].shares == in1.shares + in2.shares
    ensures AddItem(AddItem(items, in1, t1), in2, t2)[|items|].totalPrice == in1.totalPrice + in2.totalPrice
  {
    var once := AddItem(items, in1, t1);
    AddAppendsNew(items, in1, t1);
    AddMergesExisting(once, in2, t2, |items|);
  }

  lemma {:induction false} TotalsAppend(items: seq<CartItem>, line: CartItem)
    ensures TotalPrice(items + [line]) == TotalPrice(items) + line.totalPrice
    ensures TotalItems(items + [line]) == TotalItems(items) + line.shares
  {
    if items != [] {
      assert (items + [line])[1..] == items[1..] + [line];
      TotalsAppend(items[1..], line);
    } else {
      assert items + [line] == [line];
    }
  }

  lemma {:induction false} TotalsAfterReplace(items: seq<CartItem>, k: nat, line: CartItem)
    requires k < |items|
    ensures TotalPrice(items[k := line]) == TotalPrice(items) - items[k].totalPrice + line.totalPrice
    ensures TotalItems(items[k := line]) == TotalItems(items) - items[k].shares + line.shares
  {
    if k > 0 {
      assert items[k := line][1..] == items[1..][k - 1 := line];
      TotalsAfterReplace(items[1..], k - 1, line);
    } else {
      assert items[k := line][1..] == items[1..];
    }
  }

  // ---------------------------------------------------------------------------
  // removeFromCart

  /** Removal leaves no line with the id and keeps every other line, in order. */
  lemma RemoveDropsExactlyMatching(items: seq<CartItem>, id: string)
    ensures forall line :: line in RemoveItem(items, id) ==> line in items && line.id != id
    ensures forall line :: line in items && line.id != id ==> line in RemoveItem(items, id)
    ensures |RemoveItem(items, id)| <= |items|
  {
  }

  /** Removal works piece by piece: the lines left from a joined cart are the
      lines left from each part, in order, and a single line stays exactly when
      its id differs. So the remaining lines keep their order and their
      repetitions. */
  lemma RemoveKeepsOrder(a: seq<CartItem>, b: seq<CartItem>, id: string, line: CartItem)
    ensures RemoveItem(a + b, id) == RemoveItem(a, id) + RemoveItem(b, id)
    ensures RemoveItem([line], id) == if line.id == id then [] else [line]
  {
    FilterAppend(a, b, (l: CartItem) => l.id != id);
    FilterSingle(line, (l: CartItem) => l.id != id);
  }

  /** Removing an id no line has changes nothing. */
  lemma RemoveUnknownIsNoop(items: seq<CartItem>, id: string)
    requires forall i :: 0 <= i < |items| ==> items[i].id != id
    ensures RemoveItem(items, id) == items
  {
    FilterKeepsAll(items, (line: CartItem) => line.id != id);
  }

  /** Removing the same id twice is removing it once. */
  lemma RemoveIdempotent(items: seq<CartItem>, id: string)
    ensures RemoveItem(RemoveItem(items, id), id) == RemoveItem(items, id)
  {
    var once := RemoveItem(items, id);
    FilterKeepsAll(once, (line: CartItem) => line.id != id);
  }

  /** Removal keeps the three line invariants. */
  lemma {:induction false} RemoveKeepsInvariants(items: seq<CartItem>, id: string)
    ensures UniqueAnimals(items) ==> UniqueAnimals(RemoveItem(items, id))
    ensures PricesConsistent(items) ==> PricesConsistent(RemoveItem(items, id))
    ensures SharesPositive(items) ==> SharesPositive(RemoveItem(items, id))
  {
    if items != [] {
      RemoveKeepsInvariants(items[1..], id);
      var rest := RemoveItem(items[1..], id);
      if items[0].id != id {
        assert RemoveItem(items, id) == [items[0]] + rest;
        if UniqueAnimals(items) {
          assert UniqueAnimals(items[1..]);
          forall j | 0 <= j < |rest| ensures rest[j].animalId != items[0].animalId {
            assert rest[j] in items[1..];
            var m :| 0 <= m < |items[1..]| && items[1..][m] == rest[j];
            assert items[m + 1] == rest[j];
          }
        }
        if PricesConsistent(items) {
          assert PricesConsistent(items[1..]);
        }
        if SharesPositive(items) {
          assert SharesPositive(items[1..]);
        }
      } else {
        assert RemoveItem(items, id) == rest;
        if UniqueAnimals(items) {
          assert UniqueAnimals(items[1..]);
        }
        if PricesConsistent(items) {
          assert PricesConsistent(items[1..]);
        }
        if SharesPositive(items) {
          assert SharesPositive(items[1..]);
        }
      }
    }
  }

  // ---------------------------------------------------------------------------
  // updateShareCount

  /** The update changes exactly the lines with the id: their shares become the
      new count and their total is recomputed from their share price; length,
      order, other lines and other fields stay. */
  lemma UpdateSetsAndRecomputes(items: seq<CartItem>, id: string, shares: int)
    ensures |UpdateShares(items, id, shares)| == |items|
    ensures forall i :: 0 <= i < |items| && items[i].id == id ==>
      UpdateShares(items, id, shares)[i] == items[i].(shares := shares, totalPrice := items[i].sharePrice * shares)
    ensures forall i :: 0 <= i < |items| && items[i].id != id ==>
      UpdateShares(items, id, shares)[i] == items[i]
  {
  }

  /** Updating an id no line has changes nothing. */
  lemma UpdateUnknownIsNoop(items: seq<CartItem>, id: string, shares: int)
    requires forall i :: 0 <= i < |items| ==> items[i].id != id
    ensures UpdateShares(items, id, shares) == items
  {
  }

  /** The update keeps one line per animal and the price invariant, and keeps
      shares positive when the new count is. */
  lemma UpdateKeepsInvariants(items: seq<CartItem>, id: string, shares: int)
    ensures UniqueAnimals(items) ==> UniqueAnimals(UpdateShares(items, id, shares))
    ensures PricesConsistent(items) ==> PricesConsistent(UpdateShares(items, id, shares))
    ensures SharesPositive(items) && shares >= 1 ==> SharesPositive(UpdateShares(items, id, shares))
  {
  }

  /** Unlike an add, an update restores a line's total even when it had
      drifted from its share price times its shares. */
  lemma UpdateRepairsDrift(items: seq<CartItem>, id: string, shares: int, k: int)
    requires 0 <= k < |items| && items[k].id == id
    ensures UpdateShares(items, id, shares)[k].totalPrice ==
            UpdateShares(items, id, shares)[k].sharePrice * UpdateShares(items, id, shares)[k].shares
  {
  }

  // ---------------------------------------------------------------------------
  // Persistence

  /** What the storage slot holds: a parsed list of lines, or text that does
      not parse. JSON text itself is not modelled. */
  datatype Saved = Parsed(items: seq<CartItem>) | Unparseable

  /** The mount-time load: the saved lines when they parse, otherwise the
      initial empty cart (the parse error is swallowed). */
  function Load(stored: Option<Saved>): (r: seq<CartItem>)
    ensures stored.Some? && stored.value.Parsed? ==> r == stored.value.items
    ensures stored.None? || stored.value.Unparseable? ==> r == []
  {
    match stored
    case Some(Parsed(xs)) => xs
    case _ => []
  }

  /** The cart provider: the current lines and the storage slot. */
  class CartStore {
    var items: seq<CartItem>
    var slot: Option<Saved>

    /** The slot holds exactly the current lines. */
    ghost predicate Persisted()
      reads this
    {
      slot == Some(Parsed(items))
    }

    /** Mounting: load the slot into the (initially empty) cart, then the save
        effect writes the loaded lines back, so an unparseable slot is
        overwritten with the empty cart. */
    constructor Mount(stored: Option<Saved>)
      ensures items == Load(stored)
      ensures Persisted()
    {
      items := [];
      match stored {
        case Some(Parsed(xs)) => items := xs;
        case _ =>
      }
      slot := Some(Parsed(items));
    }

    method AddToCart(input: CartItemInput, now: nat)
      modifies this
      ensures items == AddItem(old(items), input, now)
      ensures Persisted()
      ensures UniqueAnimals(old(items)) ==> UniqueAnimals(items)
      ensures TotalPrice(items) == TotalPrice(old(items)) + input.totalPrice
      ensures TotalItems(items) == TotalItems(old(items)) + input.shares
    {
      if UniqueAnimals(items) {
        AddKeepsUniqueAnimals(items, input, now);
      }
      AddRaisesTotals(items, input, now);
      var k := FindIndex(items, input.animalId);
      if k != -1 {
        var updated := items;
        updated := updated[k := Merge(updated[k], input)];
        items := updated;
      } else {
        items := items + [NewLine(input, now)];
      }
      slot := Some(Parsed(items));
    }

    method RemoveFromCart(id: string)
      modifies this
      ensures items == RemoveItem(old(items), id)
      ensures Persisted()
      ensures UniqueAnimals(old(items)) ==> UniqueAnimals(items)
      ensures PricesConsistent(old(items)) ==> PricesConsistent(items)
      ensures SharesPositive(old(items)) ==> SharesPositive(items)
    {
      RemoveKeepsInvariants(items, id);
      items := RemoveItem(items, id);
      slot := Some(Parsed(items));
    }

    method ClearCart()
      modifies this
      ensures items == []
      ensures Persisted()
      ensures TotalPrice(items) == 0 && TotalItems(items) == 0
    {
      items := [];
      slot := Some(Parsed(items));
    }

    method UpdateShareCount(id: string, shares: int)
      modifies this
      ensures items == UpdateShares(old(items), id, shares)
      ensures Persisted()
      ensures UniqueAnimals(old(items)) ==> UniqueAnimals(items)
      ensures PricesConsistent(old(items)) ==> PricesConsistent(items)
      ensures SharesPositive(old(items)) && shares >= 1 ==> SharesPositive(items)
    {
      UpdateKeepsInvariants(items, id, shares);
      items := UpdateShares(items, id, shares);
      slot := Some(Parsed(items));
    }
  }

  /** The walk-through of the cart's behaviour: two adds for one animal merge
      additively, an update recomputes, a remove empties the cart. */
  method Scenario() returns (totals: seq<int>)
    ensures totals == [12000, 2, 18000, 3, 30000, 0]
  {
    var cart := new CartStore.Mount(None);
    cart.AddToCart(CartItemInput("A1", "Cow", None, "", 6000, 2, 12000), 1);
    var p1, n1 := TotalPrice(cart.items), TotalItems(cart.items);
    cart.AddToCart(CartItemInput("A1", "Cow", None, "", 6000, 1, 6000), 2);
    assert |cart.items| == 1;
    var p2, n2 := TotalPrice(cart.items), TotalItems(cart.items);
    var lineId := cart.items[0].id;
    cart.UpdateShareCount(lineId, 5);
    assert cart.items[0].totalPrice == 30000;
    var p3 := TotalPrice(cart.items);
    cart.RemoveFromCart(lineId);
    assert cart.items == [];
    var p4 := TotalPrice(cart.items);
    totals := [p1, n1, p2, n2, p3, p4];
  }
}
