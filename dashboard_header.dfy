/** The page title of frontend/components/DashboardHeader.tsx and the name it
    greets the user with. */
module DashboardHeader {
  import opened Wrappers
  import opened Types
  import Text

  /** The title and (for the fallback page only) the description line. */
  datatype HeaderDetails = HeaderDetails(title: string, description: Option<string>)

  const WelcomePrefix := "Welcome back, "

  /** getHeaderDetails (DashboardHeader.tsx:9-37). */
  function GetHeaderDetails(page: DashboardPage, name: string): (h: HeaderDetails)
    ensures page == Home ==> h == HeaderDetails(WelcomePrefix + name, None)
    ensures page == Sessions ==> h == HeaderDetails("AI Guide Session", None)
    ensures page == Resources ==> h == HeaderDetails("Wellness Resources", None)
    ensures page == Profile ==> h == HeaderDetails("Profile Settings", None)
    ensures page == Community ==> h == HeaderDetails("Dashboard", Some(""))
    ensures h.description.Some? <==> page == Community
  {
    match page
    case Home => HeaderDetails(WelcomePrefix + name, None)
    case Sessions => HeaderDetails("AI Guide Session", None)
    case Resources => HeaderDetails("Wellness Resources", None)
    case Profile => HeaderDetails("Profile Settings", None)
    case Community => HeaderDetails("Dashboard", Some(""))
  }

  /** The name the header is given (DashboardHeader.tsx:46): the user name,
      else the part of the e-mail before the first "@", else "User". */
  function DisplayName(currentUserName: string, email: Option<string>): (r: string)
    ensures r != ""
    ensures currentUserName != "" ==> r == currentUserName
    ensures currentUserName == "" && email.Some? && Text.BeforeFirst(email.value, '@') != "" ==>
      r == Text.BeforeFirst(email.value, '@')
    ensures currentUserName == "" && (email.None? || Text.BeforeFirst(email.value, '@') == "") ==> r == "User"
  {
    if currentUserName != "" then currentUserName
    else if email.Some? && Text.BeforeFirst(email.value, '@') != "" then Text.BeforeFirst(email.value, '@')
    else "User"
  }

  /** The e-mail fallback is the address's local part: a prefix of it that
      holds no "@" and stops at the first "@" when there is one. */
  lemma DisplayNameFromEmail(email: string)
    requires email != "" && email[0] != '@'
    ensures var r := DisplayName("", Some(email));
      && r == email[..|r|] && '@' !in r
      && ('@' in email ==> email[|r|] == '@')
  {
    var r := Text.BeforeFirst(email, '@');
    assert r != "" by {
      assert email[0] != '@';
    }
  }

  /** The home page greets the user by the name the header was given, and so never greets an empty name. */
  lemma HomeGreetsUser(currentUserName: string, email: Option<string>)
    ensures var name := DisplayName(currentUserName, email);
      var t := GetHeaderDetails(Home, name).title;
      && |t| > |WelcomePrefix| && t[..|WelcomePrefix|] == WelcomePrefix && t[|WelcomePrefix|..] == name
  {
  }

  /** The name Dashboard passes (Dashboard.tsx:306): the logged-in user's name, else the name fetched from the database. */
  function HeaderName(currentUser: Option<User>, fetchedName: string): (r: string)
    ensures currentUser.Some? && currentUser.value.name.Some? && currentUser.value.name.value != "" ==>
      r == currentUser.value.name.value
    ensures !(currentUser.Some? && currentUser.value.name.Some? && currentUser.value.name.value != "") ==>
      r == fetchedName
  {
    if currentUser.Some? && currentUser.value.name.Some? && currentUser.value.name.value != "" then currentUser.value.name.value
    else fetchedName
  }
}
