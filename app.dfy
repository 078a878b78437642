/**
 * The application shell: which page is shown, the signed-in user, the key that
 * remounts the page, and the colour theme; the handlers move between the
 * sign-in, information and chat pages.
 */
module App {
  import opened Wrappers
  import opened Text
  import opened Types

  const LoginPageName := "login"
  const InfoPageName := "info"
  const ChatPageName := "chat"

  /** What `renderPage` returns. `Blank` is the `null` that `userData && ...` gives. */
  datatype View =
    | LoginView
    | InfoView(user: UserData)
    | ChatView(user: UserData, theme: Theme)
    | Blank

  /** `renderPage`, over the page name as the running program holds it. */
  function RenderPage(page: string, userData: Option<UserData>, theme: Theme): (r: View)
    ensures r == LoginView <==> page != InfoPageName && page != ChatPageName
    ensures r == Blank <==> (page == InfoPageName || page == ChatPageName) && userData.None?
    ensures r.InfoView? <==> page == InfoPageName && userData.Some?
    ensures r.InfoView? ==> r.user == userData.value
    ensures r.ChatView? <==> page == ChatPageName && userData.Some?
    ensures r.ChatView? ==> r.user == userData.value && r.theme == theme
  {
    if page == LoginPageName then LoginView
    else if page == InfoPageName then (if userData.Some? then InfoView(userData.value) else Blank)
    else if page == ChatPageName then (if userData.Some? then ChatView(userData.value, theme) else Blank)
    else LoginView
  }

  /** The states the handlers can reach: a known page, and a user on every page past sign-in. */
  predicate Reachable(page: string, userData: Option<UserData>) {
    (page == LoginPageName || page == InfoPageName || page == ChatPageName)
    && (page != LoginPageName ==> userData.Some?)
  }

  /** In a reachable state something is always shown. */
  lemma ReachableNeverBlank(page: string, userData: Option<UserData>, theme: Theme)
    requires Reachable(page, userData)
    ensures RenderPage(page, userData, theme) != Blank
  {
  }

  class AppShell {
    var page: string
    var userData: Option<UserData>
    /** `Date.now()` at the last start-over; a new value remounts the page. */
    var pageKey: int
    var theme: Theme

    predicate Valid()
      reads this
    {
      Reachable(page, userData)
    }

    /** What `renderPage()` shows inside the keyed container: never nothing in a state
        the handlers keep valid. */
    function Shown(): (v: View)
      reads this
      ensures Valid() ==> v != Blank
    {
      RenderPage(page, userData, theme)
    }

    constructor (now: int)
      ensures page == LoginPageName && userData == None && pageKey == now && theme == NeonBlue
      ensures Valid()
    {
      page := LoginPageName;
      userData := None;
      pageKey := now;
      theme := NeonBlue;
    }

    /** `handleLogin`: the user is exactly the name and e-mail, and the information page follows. */
    method HandleLogin(name: string, email: string)
      modifies this`userData, this`page
      ensures userData == Some(UserData(name, email, None)) && page == InfoPageName
      ensures Valid()
    {
      userData := Some(UserData(name, email, None));
      page := InfoPageName;
    }

    /** `handleInfoSubmit`: the submitted user replaces the old one, and the chat page follows. */
    method HandleInfoSubmit(data: UserData)
      modifies this`userData, this`page
      ensures userData == Some(data) && page == ChatPageName
      ensures Valid()
    {
      userData := Some(data);
      page := ChatPageName;
    }

    /** `handleStartOver`: back to sign-in with no user and a fresh page key; the theme stays. */
    method HandleStartOver(now: int)
      modifies this`userData, this`page, this`pageKey
      ensures userData == None && page == LoginPageName && pageKey == now
      ensures Valid()
    {
      userData := None;
      page := LoginPageName;
      pageKey := now;
    }

    /** `setTheme`, handed down to the chat page. */
    method SetTheme(t: Theme)
      modifies this`theme
      ensures theme == t
      ensures Valid() == old(Valid())
    {
      theme := t;
    }
  }
}
