/** The profile page (src/app/components/Profilepage.tsx): the signed-in
    user, the editable email and new-password fields, and the handlers that
    change the email or password or sign out. */
module ProfilePage {
  import opened Common
  import opened Text

  const NoUserAlert := "No user is logged in."
  const ShortPasswordAlert := "Password must be at least 6 characters long."
  const EmailUpdatedAlert := "Email updated!"
  const PasswordUpdatedAlert := "Password updated!"
  const UnknownErrorText := "An unknown error occurred."
  const MinPasswordLength := 6

  datatype Call = UpdateEmail(user: AuthUser, email: string)
                | UpdatePassword(user: AuthUser, password: string)
                | SignOut

  /** The alert after a caught value: the Error's message, or the generic
      text for any other thrown value. */
  function ErrorText(t: Thrown): (text: string)
    ensures t.ErrorInstance? ==> text == t.message
    ensures t.OtherValue? ==> text == UnknownErrorText
  {
    MessageOf(t, UnknownErrorText)
  }

  /** The alert that closes an update: the success text when the call
      returned, the error text when it threw. */
  function OutcomeAlert(outcome: Attempt<()>, success: string): (text: string)
    ensures outcome.Returned? ==> text == success
    ensures outcome.Threw? ==> text == ErrorText(outcome.thrown)
  {
    match outcome
    case Returned(_) => success
    case Threw(t) => ErrorText(t)
  }

  /** The password guard: at least six characters. */
  predicate LongEnough(password: string)
    ensures LongEnough(password) ==> password != ""
    ensures |password| == MinPasswordLength ==> LongEnough(password)
    ensures |password| == MinPasswordLength - 1 ==> !LongEnough(password)
  {
    |password| >= MinPasswordLength
  }

  /** The placeholder avatar's letter: the upper-cased first character of
      the user's email; an empty email gives the empty string, and without
      a user or an email nothing is shown. */
  function AvatarInitial(user: Option<AuthUser>): (initial: Option<string>)
    ensures initial.None? <==> user.None? || user.value.email.None?
    ensures initial.Some? ==> |initial.value| <= 1 && (initial.value == "" <==> user.value.email.value == "")
    ensures initial.Some? && initial.value != "" ==>
      initial.value[0] == UpperChar(user.value.email.value[0]) && !('a' <= initial.value[0] <= 'z')
  {
    if user.None? || user.value.email.None? then None
    else
      var e := user.value.email.value;
      Some(if e == "" then "" else [UpperChar(e[0])])
  }

  /** The page's state. */
  class ProfileState {
    var user: Option<AuthUser>
    var email: string
    var newPassword: string

    constructor()
      ensures user == None && email == "" && newPassword == ""
    {
      user := None;
      email := "";
      newPassword := "";
    }

    /** The auth listener: without a user it sends the visitor home and
        keeps the state; with one it records the user and their email, or
        "" when the account has none. */
    method OnAuthStateChanged(currentUser: Option<AuthUser>) returns (navigateTo: Option<string>)
      modifies this`user, this`email
      ensures currentUser.None? ==> navigateTo == Some("/") && user == old(user) && email == old(email)
      ensures currentUser.Some? ==>
        navigateTo == None && user == currentUser && email == Or(currentUser.value.email, "")
    {
      if currentUser.None? {
        navigateTo := Some("/");
      } else {
        navigateTo := None;
        user := currentUser;
        email := if currentUser.value.email.Some? then currentUser.value.email.value else "";
      }
    }

    /** The email field's change handler. */
    method EditEmail(value: string)
      modifies this`email
      ensures email == value
    {
      email := value;
    }

    /** The new-password field's change handler. */
    method EditPassword(value: string)
      modifies this`newPassword
      ensures newPassword == value
    {
      newPassword := value;
    }

    /** `handleEmailChange`: without a user nothing happens; otherwise the
        email field is sent for the user and the outcome is alerted. */
    method HandleEmailChange(outcome: Attempt<()>) returns (effects: seq<Effect<Call>>)
      ensures user.None? ==> effects == []
      ensures user.Some? ==>
        effects == [Call(UpdateEmail(user.value, email)), Alert(OutcomeAlert(outcome, EmailUpdatedAlert))]
    {
      if user.None? {
        return [];
      }
      var text := match outcome
        case Returned(_) => EmailUpdatedAlert
        case Threw(t) => (if t.ErrorInstance? then t.message else UnknownErrorText);
      effects := [Call(UpdateEmail(user.value, email)), Alert(text)];
    }

    /** `handlePasswordChange`: without a user, or with a password shorter
        than six characters, it only alerts; otherwise the new password is
        sent for the user and the outcome is alerted. */
    method HandlePasswordChange(outcome: Attempt<()>) returns (effects: seq<Effect<Call>>)
      ensures user.None? ==> effects == [Alert(NoUserAlert)]
      ensures user.Some? && !LongEnough(newPassword) ==> effects == [Alert(ShortPasswordAlert)]
      ensures user.Some? && LongEnough(newPassword) ==>
        effects == [Call(UpdatePassword(user.value, newPassword)), Alert(OutcomeAlert(outcome, PasswordUpdatedAlert))]
      ensures Calls(effects) != [] <==> user.Some? && LongEnough(newPassword)
    {
      if user.None? {
        effects := [Alert(NoUserAlert)];
        CallsNone(effects);
        return;
      }
      if |newPassword| < 6 {
        effects := [Alert(ShortPasswordAlert)];
        CallsNone(effects);
        return;
      }
      var text := match outcome
        case Returned(_) => PasswordUpdatedAlert
        case Threw(t) => (if t.ErrorInstance? then t.message else UnknownErrorText);
      effects := [Call(UpdatePassword(user.value, newPassword)), Alert(text)];
      CallsAppend([Call(UpdatePassword(user.value, newPassword))], [Alert(text)]);
      CallsOfCall(UpdatePassword(user.value, newPassword));
    }

    /** `handleLogout`: sign out, then go home; if signing out throws the
        visitor stays. */
    method HandleLogout(outcome: Attempt<()>) returns (effects: seq<Effect<Call>>)
      ensures outcome.Returned? ==> effects == [Call(SignOut), Navigate("/")]
      ensures outcome.Threw? ==> effects == [Call(SignOut)]
    {
      effects := [Call(SignOut)];
      if outcome.Returned? {
        effects := effects + [Navigate("/")];
      }
    }
  }
}
