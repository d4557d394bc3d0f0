/** The animal listing page (src/pages/AnimalListing.tsx): its own fixture of
    six animals and the filter effect that narrows it by category, price range
    and search text. */
module AnimalListing {
  import opened Common

  /** A listed animal (the page's fixture has no share price or age). */
  datatype ListedAnimal = ListedAnimal(
    id: string,
    name: string,
    category: string,
    breed: string,
    weight: int,
    price: int,
    totalShares: int,
    bookedShares: int,
    remainingShares: int,
    imageUrl: string,
    description: string)

  const CowPhotoA := "https://images.unsplash.com/photo-1493962853295-0fd70327578a?auto=format&fit=crop&w=600&h=400"
  const CowPhotoB := "https://images.unsplash.com/photo-1465379944081-7f47de8d74ac?auto=format&fit=crop&w=600&h=400"
  const GoatPhoto := "https://images.unsplash.com/photo-1469041797191-50ace28483c3?auto=format&fit=crop&w=600&h=400"

  const PremiumCow := ListedAnimal("1", "Premium Cow", "cow", "Sahiwal", 450, 42000, 7, 3, 4, CowPhotoA,
                                   "Healthy, well-fed cow suitable for Qurbani.")
  const LargeGoat := ListedAnimal("2", "Large Goat", "goat", "Boer", 75, 15000, 1, 0, 1, GoatPhoto,
                                  "Well-raised goat perfect for individual Qurbani.")
  const MediumCow := ListedAnimal("3", "Medium Cow", "cow", "Nili-Ravi", 380, 35000, 7, 5, 2, CowPhotoB,
                                  "Healthy cow raised on natural feed.")
  const PremiumGoat := ListedAnimal("4", "Premium Goat", "goat", "Beetal", 90, 20000, 1, 0, 1, GoatPhoto,
                                    "Large, healthy goat suitable for Qurbani.")
  const LargeCow := ListedAnimal("5", "Large Cow", "cow", "Holstein Friesian", 500, 49000, 7, 2, 5, CowPhotoA,
                                 "Premium quality cow raised with care.")
  const StandardGoat := ListedAnimal("6", "Standard Goat", "goat", "Jamunapari", 65, 12000, 1, 0, 1, GoatPhoto,
                                     "Healthy goat for individual sacrifice.")

  /** The page's fixture, in its order. */
  function ListingAnimals(): seq<ListedAnimal>
  {
    [PremiumCow, LargeGoat, MediumCow, PremiumGoat, LargeCow, StandardGoat]
  }

  // ---------------------------------------------------------------------------
  // The three filters

  /** The category filter applies unless "all" is selected, by exact match. */
  predicate InCategory(a: ListedAnimal, category: string)
  {
    category == "all" || a.category == category
  }

  /** `priceRange.split("-").map(Number)` destructured into `[min, max]`; a
      missing or non-numeric part is NaN (`None`). */
  function PriceBounds(range: string): (bounds: (Option<nat>, Option<nat>))
    ensures '-' !in range ==> bounds == (JsNumber(range), None)
  {
    SplitWithoutSeparator(range, '-');
    var parts := Split(range, '-');
    (JsNumber(parts[0]), if |parts| >= 2 then JsNumber(parts[1]) else None)
  }

  /** The select's options "lo-hi" read back as the bounds they name. */
  lemma PriceBoundsOfOption(lo: nat, hi: nat)
    ensures PriceBounds(NatToString(lo) + "-" + NatToString(hi)) == (Some(lo), Some(hi))
  {
    var a, b := NatToString(lo), NatToString(hi);
    assert '-' !in a && '-' !in b by {
      assert !IsDigit('-');
    }
    SplitAtFirstSeparator(a, b, '-');
    SplitWithoutSeparator(b, '-');
    assert a + "-" + b == a + ['-'] + b;
    NatToStringRoundTrip(lo);
    NatToStringRoundTrip(hi);
  }

  /** The price filter applies when a range is chosen and keeps the animals
      priced within both bounds; a NaN bound lets nothing through. */
  predicate InPriceRange(a: ListedAnimal, range: string)
  {
    range == "" ||
    var (min, max) := PriceBounds(range);
    min.Some? && max.Some? && min.value <= a.price <= max.value
  }

  /** A range without a second bound (no '-') excludes every animal. */
  lemma RangeWithoutUpperBoundExcludesAll(a: ListedAnimal, range: string)
    requires range != "" && '-' !in range
    ensures !InPriceRange(a, range)
  {
    SplitWithoutSeparator(range, '-');
  }

  /** The search filter applies when a query is typed and keeps the animals
      whose lower-cased name, breed or category contains the lower-cased
      query. */
  predicate MatchesQuery(a: ListedAnimal, query: string)
  {
    query == "" ||
    var q := ToLower(query);
    Includes(ToLower(a.name), q) || Includes(ToLower(a.breed), q) || Includes(ToLower(a.category), q)
  }

  /** The search ignores the case of the query. */
  lemma SearchIgnoresQueryCase(a: ListedAnimal, query: string)
    ensures query != "" ==> (MatchesQuery(a, query) <==> MatchesQuery(a, ToLower(query)))
  {
    ToLowerIdempotent(query);
  }

  /** An animal is listed when it passes every active filter. */
  predicate Passes(a: ListedAnimal, category: string, range: string, query: string)
  {
    InCategory(a, category) && InPriceRange(a, range) && MatchesQuery(a, query)
  }

  /** The three filters and their conjunction, as the predicates handed to
      `filter`. */
  function CategoryFilter(category: string): ListedAnimal -> bool
  {
    (a: ListedAnimal) => InCategory(a, category)
  }

  function PriceFilter(range: string): ListedAnimal -> bool
  {
    (a: ListedAnimal) => InPriceRange(a, range)
  }

  function SearchFilter(query: string): ListedAnimal -> bool
  {
    (a: ListedAnimal) => MatchesQuery(a, query)
  }

  function AllFilters(category: string, range: string, query: string): ListedAnimal -> bool
  {
    (a: ListedAnimal) => Passes(a, category, range, query)
  }

  /** The three filters as the effect writes them, each applied only when
      its control is set. */
  function ByCategory(category: string): ListedAnimal -> bool
  {
    (a: ListedAnimal) => a.category == category
  }

  function ByPrice(min: Option<nat>, max: Option<nat>): ListedAnimal -> bool
  {
    (a: ListedAnimal) => min.Some? && max.Some? && min.value <= a.price <= max.value
  }

  function ByQuery(lowered: string): ListedAnimal -> bool
  {
    (a: ListedAnimal) =>
      Includes(ToLower(a.name), lowered) || Includes(ToLower(a.breed), lowered) || Includes(ToLower(a.category), lowered)
  }

  /** A set control filters as its predicate; an unset one lets all through. */
  lemma CategoryStep(xs: seq<ListedAnimal>, category: string)
    ensures category != "all" ==> Filter(xs, ByCategory(category)) == Filter(xs, CategoryFilter(category))
    ensures category == "all" ==> xs == Filter(xs, CategoryFilter(category))
  {
    if category != "all" {
      FilterExtensional(xs, ByCategory(category), CategoryFilter(category));
    } else {
      FilterKeepsAll(xs, CategoryFilter(category));
    }
  }

  lemma PriceStep(xs: seq<ListedAnimal>, range: string)
    ensures range != "" ==>
              Filter(xs, ByPrice(PriceBounds(range).0, PriceBounds(range).1)) == Filter(xs, PriceFilter(range))
    ensures range == "" ==> xs == Filter(xs, PriceFilter(range))
  {
    if range != "" {
      FilterExtensional(xs, ByPrice(PriceBounds(range).0, PriceBounds(range).1), PriceFilter(range));
    } else {
      FilterKeepsAll(xs, PriceFilter(range));
    }
  }

  lemma SearchStep(xs: seq<ListedAnimal>, query: string)
    ensures query != "" ==> Filter(xs, ByQuery(ToLower(query))) == Filter(xs, SearchFilter(query))
    ensures query == "" ==> xs == Filter(xs, SearchFilter(query))
  {
    if query != "" {
      FilterExtensional(xs, ByQuery(ToLower(query)), SearchFilter(query));
    } else {
      FilterKeepsAll(xs, SearchFilter(query));
    }
  }

  /** The listing for the chosen filters: the fixture animals that pass all
      of them, in fixture order. */
  function Listing(category: string, range: string, query: string): (r: seq<ListedAnimal>)
    ensures |r| <= |ListingAnimals()|
  {
    Filter(ListingAnimals(), AllFilters(category, range, query))
  }

  /** The listing holds exactly the fixture animals that pass every active
      filter. */
  lemma ListingMembers(category: string, range: string, query: string)
    ensures forall a :: a in Listing(category, range, query) <==> a in ListingAnimals() && Passes(a, category, range, query)
  {
  }

  /** With no active filter the whole fixture is listed. */
  lemma NoFiltersListEverything()
    ensures Listing("all", "", "") == ListingAnimals()
  {
    FilterKeepsAll(ListingAnimals(), AllFilters("all", "", ""));
  }

  /** The effect's three filters, applied one after another in the page's
      order, give the single conjunctive filter, and applied in the reverse
      order they give the same list. */
  lemma FilterOrderIrrelevant(xs: seq<ListedAnimal>, category: string, range: string, query: string)
    ensures Filter(Filter(Filter(xs, CategoryFilter(category)), PriceFilter(range)), SearchFilter(query)) ==
            Filter(xs, AllFilters(category, range, query))
    ensures Filter(Filter(Filter(xs, SearchFilter(query)), PriceFilter(range)), CategoryFilter(category)) ==
            Filter(xs, AllFilters(category, range, query))
  {
    FilterThree(xs, CategoryFilter(category), PriceFilter(range), SearchFilter(query), AllFilters(category, range, query));
  }

  /** The badge: "7 Shares" exactly for cows, "Full Animal" otherwise. */
  function ShareBadge(category: string): (badge: string)
    ensures category == "cow" <==> badge == "7 Shares"
    ensures category != "cow" <==> badge == "Full Animal"
  {
    if category == "cow" then "7 Shares" else "Full Animal"
  }

  /** The body of the filter effect: start from `animals` and apply each set
      filter in turn (category, then price, then search). */
  method Narrow(animals: seq<ListedAnimal>, category: string, range: string, search: string)
    returns (result: seq<ListedAnimal>)
    ensures result == Filter(animals, AllFilters(category, range, search))
  {
    result := animals;
    CategoryStep(result, category);
    if category != "all" {
      result := Filter(result, ByCategory(category));
    }
    PriceStep(result, range);
    if range != "" {
      var bounds := PriceBounds(range);
      result := Filter(result, ByPrice(bounds.0, bounds.1));
    }
    SearchStep(result, search);
    if search != "" {
      result := Filter(result, ByQuery(ToLower(search)));
    }
    FilterOrderIrrelevant(animals, category, range, search);
  }

  // ---------------------------------------------------------------------------
  // The page

  /** The page's filter state and the list it shows. */
  class ListingPage {
    var selectedCategory: string
    var priceRange: string
    var searchQuery: string
    var filteredAnimals: seq<ListedAnimal>

    /** The list shown is the listing for the current filters. */
    ghost predicate Shown()
      reads this
    {
      filteredAnimals == Listing(selectedCategory, priceRange, searchQuery)
    }

    /** The first render: no filters, the whole fixture. */
    constructor ()
      ensures Shown()
      ensures selectedCategory == "all" && priceRange == "" && searchQuery == "" && filteredAnimals == ListingAnimals()
    {
      selectedCategory := "all";
      priceRange := "";
      searchQuery := "";
      filteredAnimals := ListingAnimals();
      NoFiltersListEverything();
    }

    /** The filter effect: narrow the fixture step by step and show the
        result. */
    method Refilter()
      modifies this
      ensures Shown()
      ensures selectedCategory == old(selectedCategory) && priceRange == old(priceRange)
      ensures searchQuery == old(searchQuery)
    {
      filteredAnimals := Narrow(ListingAnimals(), selectedCategory, priceRange, searchQuery);
    }

    method SetCategory(category: string)
      modifies this
      ensures selectedCategory == category && priceRange == old(priceRange) && searchQuery == old(searchQuery)
      ensures Shown()
    {
      selectedCategory := category;
      Refilter();
    }

    method SetPriceRange(range: string)
      modifies this
      ensures priceRange == range && selectedCategory == old(selectedCategory) && searchQuery == old(searchQuery)
      ensures Shown()
    {
      priceRange := range;
      Refilter();
    }

    method SetSearchQuery(query: string)
      modifies this
      ensures searchQuery == query && selectedCategory == old(selectedCategory) && priceRange == old(priceRange)
      ensures Shown()
    {
      searchQuery := query;
      Refilter();
    }
  }
}
