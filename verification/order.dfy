/** The order page (src/pages/Order.tsx): the customer form, the order built
    from the cart, and the submission, which clears the cart and moves on to
    the dashboard whether or not the backend accepted the order. */
module Order {
  import opened Common
  import opened CartContext
  import opened UserService

  datatype CustomerForm = CustomerForm(name: string, email: string, phone: string, address: string, notes: string)

  /** The form's input names. */
  datatype Field = Name | Email | Phone | Address | Notes

  function EmptyForm(): CustomerForm
  {
    CustomerForm("", "", "", "", "")
  }

  /** The form after typing `value` into the input named `field`. */
  function SetField(form: CustomerForm, field: Field, value: string): (r: CustomerForm)
    ensures GetField(r, field) == value
    ensures forall other :: other != field ==> GetField(r, other) == GetField(form, other)
  {
    match field
    case Name => form.(name := value)
    case Email => form.(email := value)
    case Phone => form.(phone := value)
    case Address => form.(address := value)
    case Notes => form.(notes := value)
  }

  function GetField(form: CustomerForm, field: Field): string
  {
    match field
    case Name => form.name
    case Email => form.email
    case Phone => form.phone
    case Address => form.address
    case Notes => form.notes
  }

  /** Name, email, phone and address are all filled in; notes are optional. */
  predicate RequiredFilled(form: CustomerForm)
  {
    form.name != "" && form.email != "" && form.phone != "" && form.address != ""
  }

  /** The required check looks at the four required fields and never at notes. */
  lemma RequiredIgnoresNotes(form: CustomerForm, notes: string)
    ensures RequiredFilled(SetField(form, Notes, notes)) == RequiredFilled(form)
    ensures RequiredFilled(form) <==> forall f :: f != Notes ==> GetField(form, f) != ""
  {
    if !RequiredFilled(form) {
      if form.name == "" { assert GetField(form, Name) == ""; }
      else if form.email == "" { assert GetField(form, Email) == ""; }
      else if form.phone == "" { assert GetField(form, Phone) == ""; }
      else { assert GetField(form, Address) == ""; }
    }
  }

  datatype OrderItem = OrderItem(animalId: string, animalName: string, shares: int, price: int)

  datatype Customer = Customer(name: string, email: string, phone: string, address: string)

  datatype OrderData = OrderData(user: Customer, notes: string, items: seq<OrderItem>, totalAmount: int, date: string)

  /** One order item per cart line: the animal, its name, the shares and the
      line's total as the price; a consistently priced line gives an item
      priced at its share price per share. */
  function ToOrderItem(line: CartItem): (item: OrderItem)
    ensures item.animalId == line.animalId && item.animalName == line.name
    ensures item.shares == line.shares && item.price == line.totalPrice
    ensures line.totalPrice == line.sharePrice * line.shares ==> item.price == line.sharePrice * item.shares
  {
    OrderItem(line.animalId, line.name, line.shares, line.totalPrice)
  }

  /** `orderData`: the customer, the notes, the cart lines one to one and in
      order, the cart total, and the submission time (`date` stands for
      `new Date().toISOString()`). */
  function BuildOrder(form: CustomerForm, items: seq<CartItem>, date: string): (r: OrderData)
    ensures r.user == Customer(form.name, form.email, form.phone, form.address) && r.notes == form.notes
    ensures |r.items| == |items|
    ensures forall i :: 0 <= i < |items| ==>
              r.items[i].animalId == items[i].animalId && r.items[i].animalName == items[i].name &&
              r.items[i].shares == items[i].shares && r.items[i].price == items[i].totalPrice
    ensures r.date == date
  {
    OrderData(Customer(form.name, form.email, form.phone, form.address), form.notes,
              seq(|items|, i requires 0 <= i < |items| => ToOrderItem(items[i])), TotalPrice(items), date)
  }

  function SumPrices(items: seq<OrderItem>): int
  {
    if items == [] then 0 else items[0].price + SumPrices(items[1..])
  }

  function SumShares(items: seq<OrderItem>): int
  {
    if items == [] then 0 else items[0].shares + SumShares(items[1..])
  }

  /** The order's total is the sum of its items' prices, and its items hold as
      many shares as the cart. */
  lemma {:induction false} OrderTotalsMatchItems(form: CustomerForm, items: seq<CartItem>, date: string)
    ensures BuildOrder(form, items, date).totalAmount == SumPrices(BuildOrder(form, items, date).items)
    ensures SumShares(BuildOrder(form, items, date).items) == TotalItems(items)
  {
    if items != [] {
      OrderTotalsMatchItems(form, items[1..], date);
      var whole := BuildOrder(form, items, date).items;
      assert whole[1..] == BuildOrder(form, items[1..], date).items;
    }
  }

  /** The page's state. */
  class OrderPage {
    var form: CustomerForm
    var isSubmitting: bool
    var navigatedTo: Option<string>
    var toast: Option<string>

    constructor ()
      ensures form == EmptyForm() && !isSubmitting && navigatedTo.None? && toast.None?
    {
      form := EmptyForm();
      isSubmitting := false;
      navigatedTo := None;
      toast := None;
    }

    /** The prefill effect: with a token, the signed-in user's name, email and
        phone (missing phone as "") replace the form's; address and notes stay. */
    method Prefill(session: UserSession, response: Remote<User>)
      modifies this, session
      ensures !HasToken(old(session.token)) ==> form == old(form)
      ensures HasToken(old(session.token)) && old(session.currentUser).Some? ==>
                var u := old(session.currentUser).value;
                form == old(form).(name := u.name, email := u.email,
                                   phone := match u.phone case Some(p) => p case None => "")
      ensures HasToken(old(session.token)) && old(session.currentUser).None? ==>
                var u := match response case Success(fetched) => fetched case Failure => MockUser();
                form == old(form).(name := u.name, email := u.email,
                                   phone := match u.phone case Some(p) => p case None => "")
      ensures isSubmitting == old(isSubmitting) && navigatedTo == old(navigatedTo)
    {
      var authed := session.CheckAuth();
      if authed {
        var userData := session.GetCurrentUser(response);
        if userData.Some? {
          var u := userData.value;
          form := form.(name := u.name, email := u.email,
                        phone := match u.phone case Some(p) => p case None => "");
        }
      }
    }

    /** The redirect effect: an empty cart sends the visitor back to /cart. */
    method RedirectIfEmpty(cart: CartStore)
      modifies this
      ensures |cart.items| == 0 ==> navigatedTo == Some("/cart")
      ensures |cart.items| != 0 ==> navigatedTo == old(navigatedTo)
      ensures form == old(form) && isSubmitting == old(isSubmitting)
    {
      if |cart.items| == 0 {
        navigatedTo := Some("/cart");
      }
    }

    /** `handleChange`: only the named field takes the new value. */
    method HandleChange(field: Field, value: string)
      modifies this
      ensures form == SetField(old(form), field, value)
      ensures isSubmitting == old(isSubmitting) && navigatedTo == old(navigatedTo)
    {
      form := SetField(form, field, value);
    }

    /** `handleSubmit`: with a required field missing nothing is built or
        cleared; otherwise the order is built from the cart and posted, and on
        success and failure alike the cart is cleared and the page goes to
        /dashboard. The flag is down again at the end (the button is disabled
        while it is up). */
    method Submit(cart: CartStore, post: Remote<()>, date: string) returns (order: Option<OrderData>)
      requires cart.Persisted() && !isSubmitting
      modifies this, cart
      ensures !RequiredFilled(old(form)) ==>
                order.None? && cart.items == old(cart.items) && navigatedTo == old(navigatedTo) &&
                toast == Some("Missing information")
      ensures RequiredFilled(old(form)) ==>
                order == Some(BuildOrder(old(form), old(cart.items), date)) && cart.items == [] &&
                navigatedTo == Some("/dashboard") && toast == Some("Order submitted successfully")
      ensures form == old(form) && !isSubmitting && cart.Persisted()
    {
      if form.name == "" || form.email == "" || form.phone == "" || form.address == "" {
        toast := Some("Missing information");
        return None;
      }
      isSubmitting := true;
      var orderData := BuildOrder(form, cart.items, date);
      match post {
        case Success(_) =>
          cart.ClearCart();
          toast := Some("Order submitted successfully");
          navigatedTo := Some("/dashboard");
        case Failure =>
          toast := Some("Order submitted successfully");
          cart.ClearCart();
          navigatedTo := Some("/dashboard");
      }
      isSubmitting := false;
      order := Some(orderData);
    }
  }
}
