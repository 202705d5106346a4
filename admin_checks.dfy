/** The site decides "is this the admin?" in three places, each a little
    differently: the blog listing compares emails exactly, the admin page
    compares them lower-cased, and the navigation bar compares them
    lower-cased and trimmed. These lemmas relate the three tests. */
module AdminChecks {
  import opened Common
  import opened Text
  import BlogPage
  import AdminPage
  import Navbar

  /** Whoever the listing treats as admin, the admin page admits too. */
  lemma ListingAdminIsPageAdmin(user: Option<AuthUser>, adminEmail: string)
    requires BlogPage.IsAdmin(user, Some(adminEmail))
    ensures AdminPage.IsAdmin(user, adminEmail)
  {
  }

  /** Whoever the admin page admits with a non-blank email, the navigation
      bar shows the admin links to. */
  lemma PageAdminIsNavbarAdmin(user: Option<AuthUser>, adminEmail: string)
    requires AdminPage.IsAdmin(user, adminEmail)
    requires !IsBlank(user.value.email.value)
    ensures Navbar.RoleFor(user, Some(adminEmail)) == Some(Navbar.Admin)
  {
  }

  /** Emails that differ only in letter case: the admin page admits the
      user, the listing does not offer deletion. */
  lemma CaseOnlyDifference(uid: string)
    ensures var user := Some(AuthUser(uid, Some("Admin@x.com")));
      && AdminPage.IsAdmin(user, "admin@x.com")
      && !BlogPage.IsAdmin(user, Some("admin@x.com"))
  {
    var mixed, lower := "Admin@x.com", "admin@x.com";
    assert ToLower(mixed)[0] == ToLower(lower)[0];
    assert ToLower(mixed) == ToLower(lower);
    assert mixed[0] != lower[0];
  }

  /** Emails that differ only in a leading space: the navigation bar shows
      the admin links, the admin page turns the user away. */
  lemma LeadingSpaceDifference(uid: string, adminEmail: string)
    requires !IsBlank(adminEmail)
    ensures var user := Some(AuthUser(uid, Some(" " + adminEmail)));
      && Navbar.RoleFor(user, Some(adminEmail)) == Some(Navbar.Admin)
      && !AdminPage.IsAdmin(user, adminEmail)
  {
    var padded := " " + adminEmail;
    assert IsBlank(" ") && IsBlank("");
    ToLowerConcat(" ", adminEmail);
    TrimPadded(" ", ToLower(adminEmail), "");
    assert " " + ToLower(adminEmail) + "" == ToLower(padded);
    BlankConcat(" ", adminEmail);
    assert |ToLower(padded)| != |ToLower(adminEmail)|;
  }
}
