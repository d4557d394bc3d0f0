/** The user service (src/services/userService.ts): the session held by the
    service (the authenticated flag and the cached user) and the `authToken`
    storage slot, with the demonstration fallbacks used when a request fails. */
module UserService {
  import opened Common

  datatype UserBooking = UserBooking(
    id: string,
    animalId: string,
    animalName: string,
    shares: int,
    bookingDate: string,
    status: string)

  datatype User = User(
    id: string,
    name: string,
    email: string,
    phone: Option<string>,
    bookedShares: Option<seq<UserBooking>>)

  datatype RegisterData = RegisterData(name: string, email: string, password: string, phone: Option<string>)

  /** The body of a successful login or registration. */
  datatype AuthResponse = AuthResponse(user: User, token: string)

  const MockToken := "mock-token-12345"

  /** `mockUser`. */
  function MockUser(): User
  {
    User("1", "John Doe", "john@example.com", Some("123-456-7890"),
         Some([UserBooking("booking1", "1", "Premium Cow", 2, "2023-05-15", "confirmed"),
               UserBooking("booking2", "3", "Medium Cow", 1, "2023-05-18", "pending")]))
  }

  /** `!!localStorage.getItem('authToken')`: a token is present and not empty. */
  predicate HasToken(token: Option<string>)
  {
    token.Some? && token.value != ""
  }

  /** What `login` answers and stores: the server's user and token, or on
      failure `mockUser` and the mock token. */
  function LoginResult(response: Remote<AuthResponse>): (r: AuthResponse)
    ensures response.Success? ==> r == response.value
    ensures response.Failure? ==> r.user == MockUser() && r.token == MockToken
  {
    match response
    case Success(body) => body
    case Failure => AuthResponse(MockUser(), MockToken)
  }

  /** What `register` answers and stores: the server's user and token, or on
      failure `mockUser` under the submitted name and email, with the mock
      token. */
  function RegisterResult(data: RegisterData, response: Remote<AuthResponse>): (r: AuthResponse)
    ensures response.Success? ==> r == response.value
    ensures response.Failure? ==> r.token == MockToken
    ensures response.Failure? ==> r.user.name == data.name && r.user.email == data.email
    ensures response.Failure? ==> r.user.id == MockUser().id && r.user.phone == MockUser().phone &&
                                  r.user.bookedShares == MockUser().bookedShares
  {
    match response
    case Success(body) => body
    case Failure => AuthResponse(MockUser().(name := data.name, email := data.email), MockToken)
  }

  /** The bookings `getUserBookings` answers once a token is present. */
  function BookingsResult(response: Remote<seq<UserBooking>>): (r: seq<UserBooking>)
    ensures response.Success? ==> r == response.value
    ensures response.Failure? ==> MockUser().bookedShares == Some(r)
    ensures response.Failure? ==> |r| == 2 && r[0].id == "booking1" && r[1].id == "booking2"
  {
    match response
    case Success(bookings) => bookings
    case Failure => match MockUser().bookedShares case Some(b) => b case None => []
  }

  /** A failed login or registration still leaves a token that `checkAuth`
      accepts. */
  lemma FallbackTokenAuthenticates(data: RegisterData)
    ensures HasToken(Some(LoginResult(Failure).token))
    ensures HasToken(Some(RegisterResult(data, Failure).token))
  {
  }

  /** The service's session: the `authToken` slot, the authenticated flag and
      the cached user. */
  class UserSession {
    var token: Option<string>
    var isAuthenticated: bool
    var currentUser: Option<User>

    /** The singleton as first created, over whatever the slot holds. */
    constructor (stored: Option<string>)
      ensures token == stored && !isAuthenticated && currentUser.None?
    {
      token := stored;
      isAuthenticated := false;
      currentUser := None;
    }

    method Login(response: Remote<AuthResponse>) returns (user: User)
      modifies this
      ensures user == LoginResult(response).user
      ensures token == Some(LoginResult(response).token)
      ensures isAuthenticated && currentUser == Some(user)
    {
      match response {
        case Success(body) =>
          token := Some(body.token);
          isAuthenticated := true;
          currentUser := Some(body.user);
          user := body.user;
        case Failure =>
          isAuthenticated := true;
          currentUser := Some(MockUser());
          token := Some(MockToken);
          user := MockUser();
      }
    }

    method Register(data: RegisterData, response: Remote<AuthResponse>) returns (user: User)
      modifies this
      ensures user == RegisterResult(data, response).user
      ensures token == Some(RegisterResult(data, response).token)
      ensures isAuthenticated && currentUser == Some(user)
    {
      match response {
        case Success(body) =>
          token := Some(body.token);
          isAuthenticated := true;
          currentUser := Some(body.user);
          user := body.user;
        case Failure =>
          isAuthenticated := true;
          currentUser := Some(MockUser().(name := data.name, email := data.email));
          token := Some(MockToken);
          user := currentUser.value;
      }
    }

    method Logout()
      modifies this
      ensures token.None? && !isAuthenticated && currentUser.None?
    {
      token := None;
      isAuthenticated := false;
      currentUser := None;
    }

    /** `checkAuth`: whether a token is present, remembered in the flag. */
    method CheckAuth() returns (authed: bool)
      modifies this
      ensures authed == HasToken(token) && isAuthenticated == authed
      ensures token == old(token) && currentUser == old(currentUser)
    {
      isAuthenticated := token.Some? && token.value != "";
      authed := isAuthenticated;
    }

    /** `getCurrentUser`: nothing without a token; the cached user when there
        is one; otherwise the fetched user, or `mockUser` on failure, which is
        then cached. */
    method GetCurrentUser(response: Remote<User>) returns (user: Option<User>)
      modifies this
      ensures token == old(token) && isAuthenticated == HasToken(token)
      ensures !HasToken(token) ==> user.None? && currentUser == old(currentUser)
      ensures HasToken(token) && old(currentUser).Some? ==> user == old(currentUser) && currentUser == user
      ensures HasToken(token) && old(currentUser).None? ==>
                user == Some(match response case Success(u) => u case Failure => MockUser()) && currentUser == user
    {
      var authed := CheckAuth();
      if !authed {
        return None;
      }
      if currentUser.Some? {
        return currentUser;
      }
      match response {
        case Success(u) => currentUser := Some(u);
        case Failure => currentUser := Some(MockUser());
      }
      user := currentUser;
    }

    /** `getUserBookings`: nothing without a token, otherwise the fetched
        bookings or `mockUser`'s. */
    method GetUserBookings(response: Remote<seq<UserBooking>>) returns (bookings: seq<UserBooking>)
      modifies this
      ensures token == old(token) && currentUser == old(currentUser) && isAuthenticated == HasToken(token)
      ensures !HasToken(token) ==> bookings == []
      ensures HasToken(token) ==> bookings == BookingsResult(response)
    {
      var authed := CheckAuth();
      if !authed {
        return [];
      }
      bookings := BookingsResult(response);
    }
  }

  /** A session's life: a failed login still authenticates as `mockUser`, the
      cached user is served afterwards, and after logout nothing is. */
  method SessionScenario() returns (afterLogin: bool, cached: Option<User>, afterLogout: bool, gone: Option<User>)
    ensures afterLogin && cached == Some(MockUser())
    ensures !afterLogout && gone.None?
  {
    var session := new UserSession(None);
    var _ := session.Login(Failure);
    afterLogin := session.CheckAuth();
    cached := session.GetCurrentUser(Failure);
    session.Logout();
    afterLogout := session.CheckAuth();
    gone := session.GetCurrentUser(Success(MockUser()));
  }
}
