/** The profile page (src/pages/Profile.tsx): the profile and password forms
    and their schemas, the mock updates they submit to, and the rules by
    which each form is reset. */
module Profile {
  import opened Common
  import opened UserService

  datatype ProfileForm = ProfileForm(name: string, email: string, phone: Option<string>)

  datatype PasswordForm = PasswordForm(currentPassword: string, newPassword: string, confirmPassword: string)

  const NameMessage := "Name must be at least 2 characters"
  const EmailMessage := "Invalid email address"
  const ShortPasswordMessage := "Password must be at least 6 characters"
  const MismatchMessage := "Passwords do not match"

  /** `profileSchema`: a name of two characters or more and an e-mail address
      (`emailOk`, the library's verdict); the phone is free. */
  predicate ProfileValid(form: ProfileForm, emailOk: bool)
  {
    |form.name| >= 2 && emailOk
  }

  /** The profile schema's messages. */
  function ProfileErrors(form: ProfileForm, emailOk: bool): (errors: seq<string>)
    ensures NameMessage in errors <==> |form.name| < 2
    ensures EmailMessage in errors <==> !emailOk
    ensures errors == [] <==> ProfileValid(form, emailOk)
  {
    (if |form.name| < 2 then [NameMessage] else []) + (if emailOk then [] else [EmailMessage])
  }

  datatype PasswordField = Current | New | Confirm

  /** A message attached to one field of the password form. */
  datatype FieldError = FieldError(field: PasswordField, message: string)

  /** `passwordSchema`: each field's length rule, then the refinement that
      puts "Passwords do not match" on the confirmation when the new password
      and its confirmation differ. */
  function PasswordErrors(form: PasswordForm): (errors: seq<FieldError>)
    ensures FieldError(Current, ShortPasswordMessage) in errors <==> |form.currentPassword| < 6
    ensures FieldError(New, ShortPasswordMessage) in errors <==> |form.newPassword| < 6
    ensures FieldError(Confirm, ShortPasswordMessage) in errors <==> |form.confirmPassword| < 6
    ensures FieldError(Confirm, MismatchMessage) in errors <==> form.newPassword != form.confirmPassword
    ensures forall e :: e in errors && e.message == MismatchMessage ==> e.field == Confirm
  {
    (if |form.currentPassword| < 6 then [FieldError(Current, ShortPasswordMessage)] else []) +
    (if |form.newPassword| < 6 then [FieldError(New, ShortPasswordMessage)] else []) +
    (if |form.confirmPassword| < 6 then [FieldError(Confirm, ShortPasswordMessage)] else []) +
    (if form.newPassword != form.confirmPassword then [FieldError(Confirm, MismatchMessage)] else [])
  }

  /** The password form is accepted: every field has six characters or more
      and the confirmation repeats the new password. */
  predicate PasswordValid(form: PasswordForm)
  {
    |form.currentPassword| >= 6 && |form.newPassword| >= 6 && form.newPassword == form.confirmPassword
  }

  /** The password schema reports nothing exactly for an accepted form. */
  lemma PasswordErrorsIffInvalid(form: PasswordForm)
    ensures PasswordErrors(form) == [] <==> PasswordValid(form)
  {
    var errors := PasswordErrors(form);
    if !PasswordValid(form) {
      if |form.currentPassword| < 6 { assert FieldError(Current, ShortPasswordMessage) in errors; }
      else if |form.newPassword| < 6 { assert FieldError(New, ShortPasswordMessage) in errors; }
      else { assert FieldError(Confirm, MismatchMessage) in errors; }
    }
  }

  /** The mock `updateProfile`: user '1' with the submitted name, e-mail and
      phone. */
  function UpdateProfile(form: ProfileForm): (user: User)
    ensures user.id == "1" && user.name == form.name && user.email == form.email && user.phone == form.phone
    ensures user.bookedShares.None?
  {
    User("1", form.name, form.email, form.phone, None)
  }

  /** The mock `updatePassword`, which always resolves true. */
  function UpdatePassword(form: PasswordForm): (ok: bool)
    ensures ok
  {
    true
  }

  /** The empty password form. */
  function EmptyPasswords(): PasswordForm
  {
    PasswordForm("", "", "")
  }

  /** The profile form's values for a loaded user (`user.phone || ""`). */
  function ProfileOf(user: User): (form: ProfileForm)
    ensures form.name == user.name && form.email == user.email
    ensures user.phone.Some? && user.phone.value != "" ==> form.phone == user.phone
    ensures user.phone.None? || user.phone.value == "" ==> form.phone == Some("")
  {
    ProfileForm(user.name, user.email,
                if user.phone.Some? && user.phone.value != "" then user.phone else Some(""))
  }

  /** An updated profile, loaded back, gives the submitted form (with a phone
      given). */
  lemma UpdateThenLoadRoundTrip(form: ProfileForm)
    requires form.phone.Some?
    ensures ProfileOf(UpdateProfile(form)) == form
  {
  }

  /** The page's state: each form's values, the values each form counts as
      unchanged (react-hook-form's defaults, which a reset replaces), and the
      last toast. */
  class ProfilePage {
    var profileForm: ProfileForm
    var profileDefaults: ProfileForm
    var passwordForm: PasswordForm
    var toast: Option<string>

    /** `isDirty`: the profile form differs from its defaults. */
    predicate ProfileDirty()
      reads this
    {
      profileForm != profileDefaults
    }

    /** The first render, before the user query has answered: empty forms. */
    constructor ()
      ensures profileForm == ProfileForm("", "", Some("")) && !ProfileDirty()
      ensures passwordForm == EmptyPasswords() && toast.None?
    {
      profileForm := ProfileForm("", "", Some(""));
      profileDefaults := ProfileForm("", "", Some(""));
      passwordForm := EmptyPasswords();
      toast := None;
    }

    /** A render: with the user loaded and the profile form untouched, the
        form is reset to the user's values; edits in progress are kept. */
    method Render(user: Option<User>)
      modifies this
      ensures user.Some? && !old(ProfileDirty()) ==>
                profileForm == ProfileOf(user.value) && profileDefaults == profileForm
      ensures user.None? || old(ProfileDirty()) ==>
                profileForm == old(profileForm) && profileDefaults == old(profileDefaults)
      ensures !ProfileDirty() <==> !old(ProfileDirty())
      ensures passwordForm == old(passwordForm) && toast == old(toast)
    {
      if user.Some? && profileForm == profileDefaults {
        profileForm := ProfileOf(user.value);
        profileDefaults := profileForm;
      }
    }

    /** Typing into the profile form. */
    method EditProfile(values: ProfileForm)
      modifies this
      ensures profileForm == values && profileDefaults == old(profileDefaults)
      ensures passwordForm == old(passwordForm) && toast == old(toast)
    {
      profileForm := values;
    }

    /** Typing into the password form. */
    method EditPasswords(values: PasswordForm)
      modifies this
      ensures passwordForm == values
      ensures profileForm == old(profileForm) && profileDefaults == old(profileDefaults) && toast == old(toast)
    {
      passwordForm := values;
    }

    /** Submitting the profile: an accepted form is sent to the mock update,
        which answers the updated user. */
    method SubmitProfile(emailOk: bool) returns (updated: Option<User>)
      modifies this
      ensures !ProfileValid(profileForm, emailOk) ==> updated.None? && toast == old(toast)
      ensures ProfileValid(profileForm, emailOk) ==>
                updated == Some(UpdateProfile(profileForm)) && toast == Some("Profile updated successfully")
      ensures profileForm == old(profileForm) && profileDefaults == old(profileDefaults)
      ensures passwordForm == old(passwordForm)
    {
      if !(|profileForm.name| >= 2 && emailOk) {
        return None;
      }
      updated := Some(UpdateProfile(profileForm));
      toast := Some("Profile updated successfully");
    }

    /** Submitting the password form: an accepted form is sent to the mock
        update, which succeeds, and the form is emptied again; a rejected form
        stays as typed. */
    method SubmitPassword()
      modifies this
      ensures !PasswordValid(old(passwordForm)) ==> passwordForm == old(passwordForm) && toast == old(toast)
      ensures PasswordValid(old(passwordForm)) ==>
                passwordForm == EmptyPasswords() && toast == Some("Password updated successfully")
      ensures profileForm == old(profileForm) && profileDefaults == old(profileDefaults)
    {
      if !(|passwordForm.currentPassword| >= 6 && |passwordForm.newPassword| >= 6 &&
           passwordForm.newPassword == passwordForm.confirmPassword) {
        return;
      }
      var ok := UpdatePassword(passwordForm);
      assert ok;
      toast := Some("Password updated successfully");
      passwordForm := EmptyPasswords();
    }
  }

  /** A user who has started editing keeps the edit when the user query
      answers afterwards. */
  method EditSurvivesLoad(user: User, edit: ProfileForm) returns (shown: ProfileForm)
    requires edit != ProfileForm("", "", Some(""))
    ensures shown == edit
  {
    var page := new ProfilePage();
    page.EditProfile(edit);
    page.Render(Some(user));
    shown := page.profileForm;
  }
}
