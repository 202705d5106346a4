/** The navigation bar's role resolution (src/app/components/Navbar.tsx).
    On every authentication event it stores the user and derives a role by
    comparing the user's email with the configured admin email, both
    lower-cased and trimmed; logging out clears the role and goes home. */
module Navbar {
  import opened Common
  import opened Text

  datatype Role = Admin | User

  /** An email as the navigation bar compares it: lower-cased, then trimmed. */
  function Normalized(email: string): (n: string)
    ensures n == [] <==> IsBlank(email)
  {
    Trim(ToLower(email))
  }

  /** The role for the user an authentication event reports, given the
      admin email from the environment (absent when the variable is unset).
      The user is an admin exactly when both emails are present, not blank,
      and equal once normalized; a user with a non-blank email is otherwise
      a plain user; no user, no email or a blank email gives no role. */
  function RoleFor(user: Option<AuthUser>, adminEmail: Option<string>): (r: Option<Role>)
    ensures r == Some(Admin) <==>
      && user.Some? && user.value.email.Some? && adminEmail.Some?
      && !IsBlank(user.value.email.value)
      && Normalized(user.value.email.value) == Normalized(adminEmail.value)
    ensures r == None <==>
      user.None? || user.value.email.None? || IsBlank(user.value.email.value)
    ensures (adminEmail.None? || IsBlank(adminEmail.value)) ==> r != Some(Admin)
  {
    var admin := if adminEmail.Some? then Some(Normalized(adminEmail.value)) else None;
    var mine := if user.Some? && user.value.email.Some? then Some(Normalized(user.value.email.value)) else None;
    if Truthy(mine) && Truthy(admin) && mine == admin then Some(Admin)
    else if Truthy(mine) then Some(User)
    else None
  }

  /** Case and surrounding whitespace in the user's email never change the
      role: padding an email with blanks and lower-casing it leaves the
      resolved role as it was. */
  lemma RoleIgnoresCaseAndPadding(uid: string, email: string, pre: string, post: string, adminEmail: Option<string>)
    requires IsBlank(pre) && IsBlank(post)
    ensures RoleFor(Some(AuthUser(uid, Some(pre + ToLower(email) + post))), adminEmail)
         == RoleFor(Some(AuthUser(uid, Some(email))), adminEmail)
  {
    var padded := pre + ToLower(email) + post;
    ToLowerConcat(pre + ToLower(email), post);
    ToLowerConcat(pre, ToLower(email));
    ToLowerIdempotent(email);
    assert ToLower(padded) == ToLower(pre) + ToLower(email) + ToLower(post);
    TrimPadded(ToLower(pre), ToLower(email), ToLower(post));
    assert Normalized(padded) == Normalized(email);
  }

  /** The navigation bar's state: the last user reported and the role. */
  class NavbarState {
    const adminEmail: Option<string>
    var user: Option<AuthUser>
    var role: Option<Role>

    /** The role is the one resolved for the stored user, unless logout
        has cleared it. */
    predicate Valid()
      reads this
    {
      role == RoleFor(user, adminEmail) || role == None
    }

    constructor(adminEmail: Option<string>)
      ensures this.adminEmail == adminEmail
      ensures user == None && role == None
      ensures Valid()
    {
      this.adminEmail := adminEmail;
      user := None;
      role := None;
    }

    /** The authentication listener: store the user, then resolve the role. */
    method OnAuthStateChanged(currentUser: Option<AuthUser>)
      modifies this
      ensures user == currentUser
      ensures role == RoleFor(currentUser, adminEmail)
      ensures Valid()
    {
      user := currentUser;
      role := RoleFor(currentUser, adminEmail);
    }

    /** Logout: once sign-out succeeds the role is cleared, whatever it was,
        and the app navigates to "/". The stored user is left for the next
        authentication event to clear. A failed sign-out rejects before
        either step runs. */
    method HandleLogout(signOut: Attempt<()>) returns (navigateTo: Option<string>)
      requires Valid()
      modifies this
      ensures Valid()
      ensures user == old(user)
      ensures signOut.Returned? ==> role == None && navigateTo == Some("/")
      ensures signOut.Threw? ==> role == old(role) && navigateTo == None
    {
      navigateTo := None;
      if signOut.Returned? {
        role := None;
        navigateTo := Some("/");
      }
    }

    /** The "Admin" and "Certificate" links are shown only to an admin: in a
        valid state they are shown only when the stored user's email is
        non-blank and matches the configured admin email once both are
        lower-cased and trimmed. */
    predicate ShowsAdminLinks()
      reads this
      ensures ShowsAdminLinks() && Valid() ==>
        && user.Some? && user.value.email.Some? && adminEmail.Some?
        && !IsBlank(user.value.email.value)
        && Normalized(user.value.email.value) == Normalized(adminEmail.value)
    {
      role == Some(Admin)
    }
  }
}
