/** The session store (stores/auth-store.ts): the signed-in user, the token
    and the authenticated flag, written by the mock `login`, by `logout`
    and, through `setState`, by the Google sign-in flow. */
module Users {
  import opened Wrappers
  import opened Strings
  import opened Domain

  /** The backend account roles (types/user.types.ts). */
  datatype AccountRole = Admin | Merchant | Consumer | Guest

  /** The store's `user` has two writers with different role enums: the
      mock login writes a demo role, the Google flow an account role. */
  datatype StoreRole = Demo(demo: DemoRole) | Account(account: AccountRole)

  /** A stored user; absent optional fields are `None`. */
  datatype User = User(
    id: string,
    email: Option<string>,
    name: Option<string>,
    userName: Option<string>,
    firstName: Option<string>,
    lastName: Option<string>,
    fullName: Option<string>,
    avatar: Option<string>,
    role: StoreRole,
    status: Option<string>,
    createdAt: Option<string>)

  /** The demo role follows the email address exactly. */
  function MockRole(email: string): (r: DemoRole)
    ensures r == DemoAdmin <==> email == "admin@demo.io"
    ensures r == Manager <==> email == "manager@demo.io"
    ensures r == Staff <==> email != "admin@demo.io" && email != "manager@demo.io"
  {
    if email == "admin@demo.io" then DemoAdmin
    else if email == "manager@demo.io" then Manager
    else Staff
  }

  /** `email.split("@")[0]`: the text before the first '@'. */
  function LocalPart(email: string): (r: string)
    ensures |r| <= |email| && r == email[..|r|]
    ensures '@' !in r
    ensures |r| < |email| ==> email[|r|] == '@'
  {
    if email == [] || email[0] == '@' then [] else [email[0]] + LocalPart(email[1..])
  }

  /** `s.charAt(0).toUpperCase() + s.slice(1)` */
  function Capitalized(s: string): (r: string)
    ensures |r| == |s|
    ensures s != [] ==> r[0] == UpperChar(s[0]) && r[1..] == s[1..]
  {
    if s == [] then [] else [UpperChar(s[0])] + s[1..]
  }

  const AvatarSeedUrl := "https://api.dicebear.com/7.x/avataaars/svg?seed="
  const MockTokenPrefix := "mock-jwt-token-"

  /** The user the mock login builds; `id` stands for the random id. */
  function MockUser(email: string, id: string): User {
    User(id, Some(email), Some(Capitalized(LocalPart(email))), None, None, None, None,
         Some(AvatarSeedUrl + email), Demo(MockRole(email)), None, None)
  }

  /** The mock user carries the input email, a demo role, an avatar seeded
      with the email, and as name the capitalised local part. */
  lemma MockUserFields(email: string, id: string)
    ensures var u := MockUser(email, id);
      && u.id == id
      && u.email == Some(email)
      && u.role.Demo?
      && u.avatar.Some? && StartsWith(u.avatar.value, AvatarSeedUrl)
      && u.avatar.value[|AvatarSeedUrl|..] == email
      && u.name.Some? && |u.name.value| == |LocalPart(email)|
      && (LocalPart(email) != [] ==> u.name.value[0] == UpperChar(email[0]))
      && (LocalPart(email) != [] ==> u.name.value[1..] == LocalPart(email)[1..])
  {
    var u := MockUser(email, id);
    assert u.avatar.value[..|AvatarSeedUrl|] == AvatarSeedUrl;
  }

  class AuthStore {
    var user: Option<User>
    var token: Option<string>
    var isAuthenticated: bool

    /** Authenticated always comes with a token. */
    predicate Valid()
      reads this
    {
      isAuthenticated ==> token.Some?
    }

    constructor ()
      ensures user == None && token == None && !isAuthenticated
      ensures Valid()
    {
      user := None;
      token := None;
      isAuthenticated := false;
    }

    /** `login`: `randomId` and `randomSuffix` stand for the two random
        draws. The password takes no part. */
    method Login(email: string, password: string, randomId: string, randomSuffix: string)
      modifies this
      ensures user == Some(MockUser(email, randomId))
      ensures token == Some(MockTokenPrefix + randomSuffix)
      ensures isAuthenticated
      ensures Valid()
    {
      user := Some(MockUser(email, randomId));
      token := Some(MockTokenPrefix + randomSuffix);
      isAuthenticated := true;
    }

    /** `logout`: back to the initial state. */
    method Logout()
      modifies this
      ensures user == None && token == None && !isAuthenticated
      ensures Valid()
    {
      user := None;
      token := None;
      isAuthenticated := false;
    }

    /** `setState({ user, token, isAuthenticated: true })` */
    method SignIn(u: User, t: string)
      modifies this
      ensures user == Some(u) && token == Some(t) && isAuthenticated
      ensures Valid()
    {
      user := Some(u);
      token := Some(t);
      isAuthenticated := true;
    }

    /** `setState({ token, isAuthenticated: true })`: the user is kept. */
    method SignInTokenOnly(t: string)
      modifies this
      ensures user == old(user) && token == Some(t) && isAuthenticated
      ensures Valid()
    {
      token := Some(t);
      isAuthenticated := true;
    }
  }
}
