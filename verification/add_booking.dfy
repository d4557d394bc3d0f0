/** The administrator's booking form (src/pages/admin/AddBooking.tsx): the
    form rules, the animal selection, the amount shown in the summary and the
    amount written into the booking it builds, and the submission, which
    registers the customer, looks the animal up and then only calls the
    status update. */
module AddBooking {
  import opened Common
  import opened AnimalService
  import opened BookingService
  import opened UserService

  /** The form's values (`userPhone` and `notes` may be absent). */
  datatype BookingForm = BookingForm(
    userName: string,
    userEmail: string,
    userPhone: Option<string>,
    animalId: string,
    shares: int,
    notes: Option<string>)

  /** The form's default values: everything empty and one share. */
  function DefaultForm(): BookingForm
  {
    BookingForm("", "", Some(""), "", 1, Some(""))
  }

  const NameMessage := "Name must be at least 2 characters."
  const EmailMessage := "Please enter a valid email address."
  const SharesMessage := "Shares must be a positive number."

  /** The messages the schema reports, in field order; `emailOk` is the
      verdict of the library's e-mail check. */
  function FormErrors(form: BookingForm, emailOk: bool): (errors: seq<string>)
    ensures NameMessage in errors <==> |form.userName| < 2
    ensures EmailMessage in errors <==> !emailOk
    ensures SharesMessage in errors <==> form.shares < 1
    ensures forall e :: e in errors ==> e in {NameMessage, EmailMessage, SharesMessage}
  {
    (if |form.userName| < 2 then [NameMessage] else []) +
    (if emailOk then [] else [EmailMessage]) +
    (if form.shares < 1 then [SharesMessage] else [])
  }

  /** The schema accepts the form: a name of two characters or more, an
      e-mail address, and a positive whole number of shares. */
  predicate FormValid(form: BookingForm, emailOk: bool)
  {
    |form.userName| >= 2 && emailOk && form.shares >= 1
  }

  /** The form is accepted exactly when the schema reports nothing. */
  lemma ValidIffNoErrors(form: BookingForm, emailOk: bool)
    ensures FormValid(form, emailOk) <==> FormErrors(form, emailOk) == []
  {
    if !FormValid(form, emailOk) {
      assert FormErrors(form, emailOk) != [] by {
        if |form.userName| < 2 { assert NameMessage in FormErrors(form, emailOk); }
        else if !emailOk { assert EmailMessage in FormErrors(form, emailOk); }
        else { assert SharesMessage in FormErrors(form, emailOk); }
      }
    }
  }

  /** The default share count passes the schema, the empty default name does
      not. */
  lemma DefaultFormNeedsName(emailOk: bool)
    ensures SharesMessage !in FormErrors(DefaultForm(), emailOk)
    ensures NameMessage in FormErrors(DefaultForm(), emailOk)
  {
  }

  /** The amount written into the booking: the share price times the shares
      when the animal has a share price, the whole price otherwise. */
  function TotalAmount(animal: Animal, shares: int): (amount: int)
    ensures animal.pricePerShare != 0 ==> amount == animal.pricePerShare * shares
    ensures animal.pricePerShare == 0 ==> amount == animal.price
  {
    if animal.pricePerShare != 0 then animal.pricePerShare * shares else animal.price
  }

  /** The summary's unit price: the share price, or the price when that is 0. */
  function UnitPrice(animal: Animal): (unit: int)
    ensures animal.pricePerShare != 0 ==> unit == animal.pricePerShare
    ensures animal.pricePerShare == 0 ==> unit == animal.price
  {
    if animal.pricePerShare != 0 then animal.pricePerShare else animal.price
  }

  /** `form.watch('shares') || 1`: the watched count, or 1 when it is 0 or
      not a number (`None`). */
  function SummaryShares(watched: Option<int>): (n: int)
    ensures n != 0
    ensures watched.Some? && watched.value != 0 ==> n == watched.value
    ensures watched.None? || watched.value == 0 ==> n == 1
  {
    if watched.Some? && watched.value != 0 then watched.value else 1
  }

  /** The total the summary shows. */
  function SummaryTotal(animal: Animal, watched: Option<int>): (total: int)
    ensures total == UnitPrice(animal) * SummaryShares(watched)
  {
    UnitPrice(animal) * SummaryShares(watched)
  }

  /** For an animal with a share price and a non-zero share count, the
      summary shows what the booking records. */
  lemma SummaryMatchesBookingWithSharePrice(animal: Animal, shares: int)
    requires animal.pricePerShare != 0 && shares != 0
    ensures SummaryTotal(animal, Some(shares)) == TotalAmount(animal, shares)
  {
  }

  /** For an animal without a share price, the summary multiplies the price by
      the shares while the booking records the price once: they differ for
      every count other than 1 as soon as the price is non-zero. */
  lemma SummaryDiffersWithoutSharePrice(animal: Animal, shares: int)
    requires animal.pricePerShare == 0 && animal.price != 0 && shares != 0
    ensures SummaryTotal(animal, Some(shares)) == TotalAmount(animal, shares) <==> shares == 1
  {
    if shares != 1 {
      assert animal.price * shares != animal.price * 1;
    }
  }

  /** Every catalogue animal has a share price, so for it the two amounts
      always agree. */
  lemma CatalogueAmountsAgree(shares: int)
    requires shares != 0
    ensures forall a :: a in MockAnimals() ==> SummaryTotal(a, Some(shares)) == TotalAmount(a, shares)
  {
  }

  /** The booking the submission builds (it has no id of its own). */
  datatype BookingDraft = BookingDraft(
    userId: string,
    userName: string,
    userEmail: string,
    animalId: string,
    animalName: string,
    shares: int,
    totalAmount: int,
    status: string,
    bookingDate: string,
    notes: Option<string>)

  /** `bookingData`: the customer and the form's choices, the animal's name,
      the amount rule, status "confirmed" and the submission time. */
  function Draft(userId: string, form: BookingForm, animal: Animal, date: string): (d: BookingDraft)
    ensures d.userId == userId && d.userName == form.userName && d.userEmail == form.userEmail
    ensures d.animalId == form.animalId && d.animalName == animal.name && d.shares == form.shares
    ensures d.totalAmount == TotalAmount(animal, form.shares)
    ensures d.status == "confirmed" && d.bookingDate == date && d.notes == form.notes
  {
    BookingDraft(userId, form.userName, form.userEmail, form.animalId, animal.name, form.shares,
                 TotalAmount(animal, form.shares), "confirmed", date, form.notes)
  }

  /** How a submission ended. */
  datatype Outcome = NotSubmitted | Created | Failed(reason: string)

  /** The page's state. */
  class AddBookingPage {
    var animals: seq<Animal>
    var isLoadingAnimals: bool
    var selectedAnimal: Option<Animal>
    var navigatedTo: Option<string>
    var toast: Option<string>

    /** Before the animals arrive: none loaded, loading, nothing selected. */
    constructor ()
      ensures animals == [] && isLoadingAnimals && selectedAnimal.None?
      ensures navigatedTo.None? && toast.None?
    {
      animals := [];
      isLoadingAnimals := true;
      selectedAnimal := None;
      navigatedTo := None;
      toast := None;
    }

    /** The mount loader: the service's animals (which fall back to the
        catalogue itself), and loading ends. */
    method LoadAnimals(response: Remote<seq<Animal>>)
      modifies this
      ensures animals == GetAllAnimals(response) && !isLoadingAnimals
      ensures response.Failure? ==> |animals| == 6
      ensures selectedAnimal == old(selectedAnimal) && navigatedTo == old(navigatedTo) && toast == old(toast)
    {
      animals := GetAllAnimals(response);
      isLoadingAnimals := false;
    }

    /** `handleAnimalChange`: select the loaded animal with the id, or none. */
    method HandleAnimalChange(animalId: string)
      modifies this
      ensures selectedAnimal.None? <==> forall a :: a in animals ==> a.id != animalId
      ensures selectedAnimal.Some? ==> selectedAnimal.value in animals && selectedAnimal.value.id == animalId
      ensures selectedAnimal == FindById(animals, animalId)
      ensures animals == old(animals) && isLoadingAnimals == old(isLoadingAnimals)
      ensures navigatedTo == old(navigatedTo) && toast == old(toast)
    {
      selectedAnimal := FindById(animals, animalId);
    }

    /** The submission. A form the schema rejects is not submitted. Otherwise
        the customer is registered (the service answers a user even when the
        request fails), the animal is looked up among the loaded ones, and
        without it the submission fails before any booking call; with it the
        draft is built and only `updateBookingStatus("new", "confirmed")` is
        called, which reports success, so the page goes to the booking list. */
    method Submit(form: BookingForm, emailOk: bool, session: UserSession,
                  registered: Remote<AuthResponse>, updated: Remote<()>, date: string)
      returns (outcome: Outcome, draft: Option<BookingDraft>)
      modifies this, session
      ensures !FormValid(form, emailOk) ==>
                outcome == NotSubmitted && draft.None? && navigatedTo == old(navigatedTo) && toast == old(toast) &&
                session.token == old(session.token)
      ensures FormValid(form, emailOk) && FindById(animals, form.animalId).None? ==>
                outcome == Failed("Selected animal not found") && draft.None? &&
                toast == Some("Failed to create booking") && navigatedTo == old(navigatedTo)
      ensures FormValid(form, emailOk) && FindById(animals, form.animalId).Some? ==>
                var user := RegisterResult(RegisterData(form.userName, form.userEmail, "tempPassword123", form.userPhone),
                                           registered).user;
                outcome == Created &&
                draft == Some(Draft(user.id, form, FindById(animals, form.animalId).value, date)) &&
                toast == Some("Booking created successfully") && navigatedTo == Some("/admin/bookings")
      ensures FormValid(form, emailOk) ==>
                session.isAuthenticated &&
                session.token == Some(RegisterResult(RegisterData(form.userName, form.userEmail, "tempPassword123",
                                                                  form.userPhone), registered).token)
      ensures animals == old(animals) && selectedAnimal == old(selectedAnimal)
      ensures isLoadingAnimals == old(isLoadingAnimals)
    {
      if !(|form.userName| >= 2 && emailOk && form.shares >= 1) {
        return NotSubmitted, None;
      }
      var user := session.Register(RegisterData(form.userName, form.userEmail, "tempPassword123", form.userPhone),
                                   registered);
      var userId := user.id;
      var animal := FindById(animals, form.animalId);
      if animal.None? {
        toast := Some("Failed to create booking");
        return Failed("Selected animal not found"), None;
      }
      draft := Some(Draft(userId, form, animal.value, date));
      // The update reports success on both of its outcomes.
      var ok := UpdateBookingStatus(updated);
      assert ok;
      toast := Some("Booking created successfully");
      navigatedTo := Some("/admin/bookings");
      outcome := Created;
    }
  }
}
