/** The Google sign-in button (components/auth/google-login-button.tsx):
    the guards before the Google API is used, the callback's ID-token
    check, and the session update after the backend exchange — token first,
    then the profile, with a degraded path when the profile fetch fails —
    together with the role and account mapping and the error toast. */
module GoogleLogin {
  import opened Wrappers
  import opened Strings
  import opened Users
  import TokenHolder
  import Navigation

  /** The account profile as `getMe` returns it. `roles` is `None` when it
      is not an array. */
  datatype Profile = Profile(
    id: string,
    email: Option<string>,
    userName: Option<string>,
    firstName: Option<string>,
    lastName: Option<string>,
    avatar: Option<string>,
    roles: Option<seq<string>>,
    createdAt: Option<string>)

  /** The first role, lower-cased, when `roles` is a non-empty array. */
  function FirstRole(roles: Option<seq<string>>): Option<string> {
    if roles.Some? && |roles.value| > 0 then Some(Lower(roles.value[0])) else None
  }

  function MapRole(roles: Option<seq<string>>): AccountRole {
    match FirstRole(roles)
    case None => Consumer
    case Some(r) =>
      if r == "admin" || r == "administrator" then Admin
      else if r == "merchant" then Merchant
      else if r == "guest" then Guest
      else Consumer
  }

  /** Each account role comes from exactly one set of first-role spellings;
      in particular Admin is produced by nothing but "admin" and
      "administrator" in any letter case, and a missing or empty role list
      gives Consumer. */
  lemma MapRoleRule(roles: Option<seq<string>>)
    ensures var first := FirstRole(roles);
      && (MapRole(roles) == Admin <==> first == Some("admin") || first == Some("administrator"))
      && (MapRole(roles) == Merchant <==> first == Some("merchant"))
      && (MapRole(roles) == Guest <==> first == Some("guest"))
      && (first.None? ==> MapRole(roles) == Consumer)
  {
  }

  /** The role is decided by the first entry alone. */
  lemma MapRoleFirstOnly(first: string, rest: seq<string>, others: seq<string>)
    ensures MapRole(Some([first] + rest)) == MapRole(Some([first] + others))
  {
    assert FirstRole(Some([first] + rest)) == FirstRole(Some([first] + others));
  }

  /** The stored account built from the profile. */
  function MapAccount(p: Profile, role: AccountRole): User {
    User(p.id, p.email, None, OrElse(p.userName, p.email), p.firstName, p.lastName,
         if Present(p.firstName) && Present(p.lastName) then Some(p.firstName.value + " " + p.lastName.value)
         else OrElse(p.userName, p.email),
         p.avatar, Account(role), Some("active"), p.createdAt)
  }

  /** The user name falls back to the email; the full name is "first last"
      exactly when both names are non-empty, and otherwise the user name or
      email. */
  lemma MapAccountFields(p: Profile, role: AccountRole)
    ensures var u := MapAccount(p, role);
      && u.id == p.id && u.email == p.email && u.role == Account(role)
      && (Present(p.userName) ==> u.userName == p.userName)
      && (!Present(p.userName) ==> u.userName == p.email)
      && (Present(p.firstName) && Present(p.lastName) ==>
            u.fullName == Some(p.firstName.value + " " + p.lastName.value))
      && (!(Present(p.firstName) && Present(p.lastName)) ==> u.fullName == u.userName)
      && u.status == Some("active")
  {
  }

  datatype ToastKind = SuccessToast | ErrorToastKind
  datatype Toast = Toast(kind: ToastKind, title: string, description: string)

  /** The body of an API error response. `errors` maps each field to its
      messages, in `Object.entries` order. */
  datatype ApiErrorData = ApiErrorData(errors: Option<seq<(string, seq<string>)>>,
                                       message: Option<string>, title: Option<string>)
  /** A thrown error: its `message` and, for HTTP errors, the response body. */
  datatype Thrown = Thrown(message: Option<string>, responseData: Option<ApiErrorData>)

  const GenericError := "An unexpected error occurred. Please try again."

  /** One "field: m1, m2" line per field, joined with newlines. */
  function FieldLines(errors: seq<(string, seq<string>)>): string {
    Join(FieldLineList(errors), "\n")
  }

  function FieldLineList(errors: seq<(string, seq<string>)>): (lines: seq<string>)
    ensures |lines| == |errors|
    ensures forall i :: 0 <= i < |errors| ==> lines[i] == errors[i].0 + ": " + Join(errors[i].1, ", ")
  {
    if errors == [] then []
    else [errors[0].0 + ": " + Join(errors[0].1, ", ")] + FieldLineList(errors[1..])
  }

  /** The toast for an error caught in the session update. */
  function ErrorToast(e: Thrown): Toast {
    if e.responseData.Some? && e.responseData.value.errors.Some? then
      Toast(ErrorToastKind, ValueOr(e.responseData.value.title, "Login failed"),
            FieldLines(e.responseData.value.errors.value))
    else if e.responseData.Some? && Present(e.responseData.value.message) then
      Toast(ErrorToastKind, "Login Failed", e.responseData.value.message.value)
    else if Present(e.message) then
      Toast(ErrorToastKind, "Login Failed", e.message.value)
    else
      Toast(ErrorToastKind, "Login Failed", GenericError)
  }

  /** The description is taken from the first source present: field errors,
      then the response's message, then the error's own message, then the
      generic text. */
  lemma ErrorToastOrder(e: Thrown)
    ensures ErrorToast(e).kind == ErrorToastKind && ErrorToast(e).title != ""
    ensures var hasFields := e.responseData.Some? && e.responseData.value.errors.Some?;
            var hasData := e.responseData.Some? && Present(e.responseData.value.message);
      && (hasFields ==> ErrorToast(e).description == FieldLines(e.responseData.value.errors.value))
      && (!hasFields && hasData ==> ErrorToast(e).description == e.responseData.value.message.value)
      && (!hasFields && !hasData && Present(e.message) ==> ErrorToast(e).description == e.message.value)
      && (!hasFields && !hasData && !Present(e.message) ==> ErrorToast(e) == Toast(ErrorToastKind, "Login Failed", GenericError))
      && (!hasFields ==> ErrorToast(e).description != "")
  {
  }

  /** Fields come out one per line, in order: for two fields the
      description is "f1: m, m\nf2: m". */
  lemma FieldLinesPair(a: (string, seq<string>), b: (string, seq<string>))
    ensures FieldLines([a, b]) == a.0 + ": " + Join(a.1, ", ") + "\n" + b.0 + ": " + Join(b.1, ", ")
  {
    var lines := FieldLineList([a, b]);
    var la := a.0 + ": " + Join(a.1, ", ");
    var lb := b.0 + ": " + Join(b.1, ", ");
    assert lines == [la, lb];
    assert lines[1..] == [lb];
    assert Join([lb], "\n") == lb;
    assert Join(lines, "\n") == lines[0] + "\n" + Join(lines[1..], "\n");
  }

  /** A write of the persisted session, kept as a record of what was
      written and in which order. */
  datatype Snapshot = Snapshot(user: Option<User>, token: string, isAuthenticated: bool)

  /** Whether `window.google` is there after the script step: already or
      newly available, still missing after the script resolved, or the
      script failed with an error. */
  datatype ScriptState = Available | Missing | LoadError(error: Thrown)

  const ConfigurationErrorText :=
    "Google Client ID is not configured. Please add NEXT_PUBLIC_GOOGLE_CLIENT_ID to your .env file."

  class GoogleLoginButton {
    var isLoading: bool
    const store: AuthStore
    const tokens: TokenHolder.TokenCell
    const router: Navigation.Router
    ghost var persisted: seq<Snapshot>

    constructor (store: AuthStore, tokens: TokenHolder.TokenCell, router: Navigation.Router)
      ensures this.store == store && this.tokens == tokens && this.router == router
      ensures !isLoading && persisted == []
    {
      this.store := store;
      this.tokens := tokens;
      this.router := router;
      isLoading := false;
      persisted := [];
    }

    /** `handleGoogleLogin` up to the hand-off to the Google prompt.
        Without a client id no Google API is touched; once Google is
        available the button stays loading until the callback. */
    method HandleGoogleLogin(clientId: Option<string>, script: ScriptState)
      returns (toast: Option<Toast>, initialized: bool)
      modifies this
      ensures persisted == old(persisted)
      ensures !Present(clientId) ==>
        !initialized && !isLoading && toast == Some(Toast(ErrorToastKind, "Configuration Error", ConfigurationErrorText))
      ensures Present(clientId) && script == Available ==> initialized && isLoading && toast == None
      ensures Present(clientId) && script == Missing ==>
        !initialized && !isLoading && toast == Some(Toast(ErrorToastKind, "Login Failed", "Google Sign-In failed to load"))
      ensures Present(clientId) && script.LoadError? ==>
        !initialized && !isLoading &&
        toast == Some(Toast(ErrorToastKind, "Login Failed",
                            ValueOr(script.error.message, "Failed to initialize Google login. Please try again.")))
    {
      isLoading := true;
      if !Present(clientId) {
        toast := Some(Toast(ErrorToastKind, "Configuration Error", ConfigurationErrorText));
        isLoading := false;
        initialized := false;
        return;
      }
      var failure: Option<Thrown> := None;
      match script {
        case Available =>
        case Missing => failure := Some(Thrown(Some("Google Sign-In failed to load"), None));
        case LoadError(e) => failure := Some(e);
      }
      if failure.Some? {
        toast := Some(Toast(ErrorToastKind, "Login Failed",
                            ValueOr(failure.value.message, "Failed to initialize Google login. Please try again.")));
        isLoading := false;
        initialized := false;
      } else {
        toast := None;
        initialized := true;
      }
    }

    /** `handleGoogleCallback` followed by `processGoogleLogin`.
        `loginResult` is the backend's answer to the ID token (its
        `accessToken`, or the error thrown), and `getMe` stands for the
        profile request, which the HTTP client sends with the token
        currently held in the token cell. */
    method HandleGoogleCallback(credential: Option<string>,
                                loginResult: Result<Option<string>, Thrown>,
                                getMe: Option<string> -> Result<Profile, Thrown>)
      returns (toast: Toast)
      modifies this, store, tokens, router
      ensures !isLoading
      ensures !Present(credential) ==>
        && toast == Toast(ErrorToastKind, "Login Failed", "No ID token received from Google")
        && persisted == old(persisted) && tokens.currentToken == old(tokens.currentToken)
        && router.pushed == old(router.pushed)
        && store.user == old(store.user) && store.token == old(store.token)
        && store.isAuthenticated == old(store.isAuthenticated)
      ensures Present(credential) && loginResult.Failure? ==>
        && toast == ErrorToast(loginResult.error)
        && persisted == old(persisted) && tokens.currentToken == old(tokens.currentToken)
        && router.pushed == old(router.pushed)
        && store.user == old(store.user) && store.token == old(store.token)
        && store.isAuthenticated == old(store.isAuthenticated)
      ensures Present(credential) && loginResult.Success? && !Present(loginResult.value) ==>
        && toast == Toast(ErrorToastKind, "Login Failed", "Invalid response from server")
        && persisted == old(persisted) && tokens.currentToken == old(tokens.currentToken)
        && router.pushed == old(router.pushed)
        && store.user == old(store.user) && store.token == old(store.token)
        && store.isAuthenticated == old(store.isAuthenticated)
      ensures Present(credential) && loginResult.Success? && Present(loginResult.value) ==>
        var t := loginResult.value.value;
        && tokens.currentToken == Some(t)
        && store.token == Some(t) && store.isAuthenticated
        && match getMe(Some(t))
           case Success(p) =>
             var u := MapAccount(p, MapRole(p.roles));
             && store.user == Some(u)
             && persisted == old(persisted) + [Snapshot(None, t, true), Snapshot(Some(u), t, true)]
             && router.pushed == old(router.pushed) + [if MapRole(p.roles) == Admin then "/admin" else "/"]
             && toast.kind == SuccessToast && toast.title == "Welcome!"
           case Failure(_) =>
             && store.user == old(store.user)
             && persisted == old(persisted) + [Snapshot(None, t, true), Snapshot(None, t, true)]
             && router.pushed == old(router.pushed) + ["/"]
             && toast.kind == SuccessToast && toast.title == "Logged in"
    {
      if !Present(credential) {
        toast := Toast(ErrorToastKind, "Login Failed", "No ID token received from Google");
        isLoading := false;
        return;
      }
      match loginResult {
        case Failure(e) =>
          toast := ErrorToast(e);
        case Success(accessToken) =>
          if !Present(accessToken) {
            toast := ErrorToast(Thrown(Some("Invalid response from server"), None));
          } else {
            var t := accessToken.value;
            persisted := persisted + [Snapshot(None, t, true)];
            tokens.SetToken(Some(t));
            var held := tokens.GetToken();
            match getMe(held) {
              case Success(p) =>
                var role := MapRole(p.roles);
                var mapped := MapAccount(p, role);
                store.SignIn(mapped, t);
                persisted := persisted + [Snapshot(Some(mapped), t, true)];
                toast := Toast(SuccessToast, "Welcome!", "You have successfully logged in with Google.");
                if role == Admin {
                  router.Push("/admin");
                } else {
                  router.Push("/");
                }
              case Failure(_) =>
                store.SignInTokenOnly(t);
                persisted := persisted + [Snapshot(None, t, true)];
                toast := Toast(SuccessToast, "Logged in", "Successfully logged in with Google.");
                router.Push("/");
            }
          }
      }
      isLoading := false;
    }
  }
}
