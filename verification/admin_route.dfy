/** The administrator gate (src/components/Auth/AdminRoute.tsx): it asks the
    user service for the signed-in user, admits user "1" only, and until the
    answer arrives shows a spinner. */
module AdminRoute {
  import opened Common
  import opened UserService

  /** What the gate renders. */
  datatype View = Spinner | Children | Redirect(path: string)

  /** The answer to `getCurrentUser`: a user or none, or `Threw` when the
      promise is rejected. */
  datatype Lookup = Answered(user: Option<User>) | Threw

  /** The gate's state. */
  class AdminGate {
    var isLoading: bool
    var isAdmin: bool
    var toast: Option<string>

    /** Loading, and not an administrator yet. */
    constructor ()
      ensures isLoading && !isAdmin && toast.None?
    {
      isLoading := true;
      isAdmin := false;
      toast := None;
    }

    /** The render rule: the spinner while loading, then the protected
        children for an administrator and a redirect to /login otherwise. */
    function Render(): (view: View)
      reads this
      ensures isLoading <==> view == Spinner
      ensures !isLoading ==> (view == Children <==> isAdmin)
      ensures !isLoading && !isAdmin ==> view == Redirect("/login")
    {
      if isLoading then Spinner else if isAdmin then Children else Redirect("/login")
    }

    /** `checkAdminStatus`: a signed-in user makes the flag say whether its id
        is "1", and any other id is told it lacks permission; no user leaves
        the flag and says nothing; a rejected lookup reports an
        authentication error. Loading ends in every case. */
    method CheckAdminStatus(lookup: Lookup)
      modifies this
      ensures !isLoading
      ensures lookup.Answered? && lookup.user.Some? ==> (isAdmin <==> lookup.user.value.id == "1")
      ensures lookup.Answered? && lookup.user.Some? && lookup.user.value.id != "1" ==>
                toast == Some("You don't have permission to access this page")
      ensures lookup.Answered? && lookup.user.Some? && lookup.user.value.id == "1" ==> toast == old(toast)
      ensures lookup.Answered? && lookup.user.None? ==> isAdmin == old(isAdmin) && toast == old(toast)
      ensures lookup.Threw? ==> isAdmin == old(isAdmin) && toast == Some("Authentication error. Please log in again.")
    {
      match lookup {
        case Answered(currentUser) =>
          if currentUser.Some? {
            isAdmin := currentUser.value.id == "1";
          }
          if currentUser.Some? && currentUser.value.id != "1" {
            toast := Some("You don't have permission to access this page");
          }
        case Threw =>
          toast := Some("Authentication error. Please log in again.");
      }
      isLoading := false;
    }
  }

  /** From a fresh gate, the children are shown after the check exactly when
      the signed-in user is user "1"; everyone else, signed in or not, is sent
      to /login. */
  method GateDecision(lookup: Lookup) returns (before: View, after: View)
    ensures before == Spinner
    ensures after == Children <==> lookup.Answered? && lookup.user.Some? && lookup.user.value.id == "1"
    ensures after != Children ==> after == Redirect("/login")
  {
    var gate := new AdminGate();
    before := gate.Render();
    gate.CheckAdminStatus(lookup);
    after := gate.Render();
  }

  /** A gate over the user service: the lookup answers what
      `getCurrentUser` returns, so a session signed in by a failed login
      (which caches the demonstration user, id "1") is admitted. */
  method FallbackUserIsAdmin() returns (after: View)
    ensures after == Children
  {
    var session := new UserSession(None);
    var _ := session.Login(Failure);
    var current := session.GetCurrentUser(Failure);
    var gate := new AdminGate();
    gate.CheckAdminStatus(Answered(current));
    after := gate.Render();
  }
}
