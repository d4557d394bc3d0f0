/** The animal catalogue service (src/services/animalService.ts): the fixture
    of six animals and the fallback each request returns when the backend call
    fails. */
module AnimalService {
  import opened Common

  datatype Animal = Animal(
    id: string,
    name: string,
    category: string,
    breed: string,
    weight: int,
    age: Option<string>,
    price: int,
    pricePerShare: int,
    totalShares: int,
    bookedShares: int,
    remainingShares: int,
    imageUrl: string,
    additionalImages: Option<seq<string>>,
    description: string,
    features: Option<seq<string>>)

  const CowPhotoA := "https://images.unsplash.com/photo-1493962853295-0fd70327578a?auto=format&fit=crop&w=600&h=400"
  const CowPhotoB := "https://images.unsplash.com/photo-1465379944081-7f47de8d74ac?auto=format&fit=crop&w=600&h=400"
  const GoatPhoto := "https://images.unsplash.com/photo-1469041797191-50ace28483c3?auto=format&fit=crop&w=600&h=400"

  const StandardFeatures: seq<string> := [
    "Certified healthy by veterinarian",
    "Fed on natural, organic feed",
    "Raised in ethical conditions",
    "Meets all religious requirements"]

  const PremiumCowText := "This premium cow is raised with care on natural feed, making it an ideal choice for Qurbani. The animal is healthy and meets all Islamic requirements for sacrifice."
  const LargeGoatText := "This large, healthy goat is perfect for individual Qurbani. Raised with care on a trusted farm, it meets all requirements for sacrifice."

  const PremiumCow := Animal("1", "Premium Cow", "cow", "Sahiwal", 450, Some("3 years"), 42000, 6000, 7, 3, 4,
    CowPhotoA, Some([CowPhotoA, CowPhotoB]), PremiumCowText, Some(StandardFeatures))
  const LargeGoat := Animal("2", "Large Goat", "goat", "Boer", 75, Some("1.5 years"), 15000, 15000, 1, 0, 1,
    GoatPhoto, Some([GoatPhoto]), LargeGoatText, Some(StandardFeatures))
  const MediumCow := Animal("3", "Medium Cow", "cow", "Nili-Ravi", 380, Some("2.5 years"), 35000, 5000, 7, 5, 2,
    CowPhotoB, None, "Healthy cow raised on natural feed.", Some(StandardFeatures))
  const PremiumGoat := Animal("4", "Premium Goat", "goat", "Beetal", 90, Some("2 years"), 20000, 20000, 1, 0, 1,
    GoatPhoto, None, "Large, healthy goat suitable for Qurbani.", Some(StandardFeatures))
  const LargeCow := Animal("5", "Large Cow", "cow", "Holstein Friesian", 500, Some("3.5 years"), 49000, 7000, 7, 2, 5,
    CowPhotoA, None, "Premium quality cow raised with care.", Some(StandardFeatures))
  const StandardGoat := Animal("6", "Standard Goat", "goat", "Jamunapari", 65, Some("1.8 years"), 12000, 12000, 1, 0, 1,
    GoatPhoto, None, "Healthy goat for individual sacrifice.", Some(StandardFeatures))

  /** The catalogue fixture, in its order. */
  function MockAnimals(): seq<Animal>
  {
    [PremiumCow, LargeGoat, MediumCow, PremiumGoat, LargeCow, StandardGoat]
  }

  /** Booked and remaining shares add up to the animal's shares, and its price
      is its share price times its shares. */
  ghost predicate SharesAccountedFor(a: Animal)
  {
    a.bookedShares + a.remainingShares == a.totalShares && a.price == a.pricePerShare * a.totalShares
  }

  /** Every fixture animal accounts for its shares and prices and has at least
      one remaining share. */
  lemma MockAnimalsAccounted()
    ensures forall a :: a in MockAnimals() ==> SharesAccountedFor(a) && a.remainingShares >= 1
  {
    assert SharesAccountedFor(PremiumCow) && SharesAccountedFor(LargeGoat) && SharesAccountedFor(MediumCow);
    assert SharesAccountedFor(PremiumGoat) && SharesAccountedFor(LargeCow) && SharesAccountedFor(StandardGoat);
  }

  /** No two fixture animals share an id. */
  lemma MockAnimalIdsDistinct()
    ensures forall i, j :: 0 <= i < j < |MockAnimals()| ==> MockAnimals()[i].id != MockAnimals()[j].id
  {
    var m := MockAnimals();
    forall i, j | 0 <= i < j < |m| ensures m[i].id != m[j].id {
      assert m[i].id[0] != m[j].id[0];
    }
  }

  /** `mockAnimals.find(a => a.id === id)`: the first animal with the id. */
  function FindById(animals: seq<Animal>, id: string): (r: Option<Animal>)
    ensures r.None? <==> forall a :: a in animals ==> a.id != id
    ensures r.Some? ==> r.value in animals && r.value.id == id
    ensures r.Some? ==> exists k :: 0 <= k < |animals| && animals[k] == r.value &&
                          forall i :: 0 <= i < k ==> animals[i].id != id
  {
    if animals == [] then None
    else if animals[0].id == id then Some(animals[0])
    else
      var r := FindById(animals[1..], id);
      if r.Some? then
        var k :| 0 <= k < |animals[1..]| && animals[1..][k] == r.value &&
                 forall i :: 0 <= i < k ==> animals[1..][i].id != id;
        assert animals[k + 1] == r.value;
        r
      else r
  }

  /** `getAllAnimals`: the response, or the whole fixture on failure. */
  function GetAllAnimals(response: Remote<seq<Animal>>): (r: seq<Animal>)
    ensures response.Failure? ==> r == MockAnimals()
    ensures response.Success? ==> r == response.value
  {
    match response
    case Success(animals) => animals
    case Failure => MockAnimals()
  }

  /** The request path of `getAnimalsByCategory`. */
  function CategoryPath(category: string): (path: string)
    ensures |path| == 11 + |category|
    ensures path[..11] == "/?category=" && path[11..] == category
  {
    "/?category=" + category
  }

  /** `getAnimalsByCategory`: the response, or on failure the fixture animals
      of that category in fixture order. */
  function GetAnimalsByCategory(response: Remote<seq<Animal>>, category: string): (r: seq<Animal>)
    ensures response.Success? ==> r == response.value
    ensures response.Failure? ==> r == Filter(MockAnimals(), (a: Animal) => a.category == category)
  {
    match response
    case Success(animals) => animals
    case Failure => Filter(MockAnimals(), (a: Animal) => a.category == category)
  }

  /** The fallback of `getAnimalsByCategory` holds exactly the fixture animals
      of the category. */
  lemma CategoryFallbackExact(category: string)
    ensures forall a :: a in GetAnimalsByCategory(Failure, category) <==>
                        a in MockAnimals() && a.category == category
  {
  }

  /** `getAnimalById`: the response, or on failure the first fixture animal
      with the id (`None` for undefined). */
  function GetAnimalById(response: Remote<Option<Animal>>, id: string): (r: Option<Animal>)
    ensures response.Success? ==> r == response.value
    ensures response.Failure? ==> r == FindById(MockAnimals(), id)
  {
    match response
    case Success(found) => found
    case Failure => FindById(MockAnimals(), id)
  }

  /** `bookShares` reports success whether the request succeeded or not. */
  function BookShares(response: Remote<()>): (booked: bool)
    ensures booked
  {
    match response
    case Success(_) => true
    case Failure => true
  }
}
