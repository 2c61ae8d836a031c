/** The account menu (components/dashboard/user-menu.tsx): the display
    name fallback chain, the initials, and logout. */
module AccountMenu {
  import opened Wrappers
  import opened Strings
  import opened Users
  import Navigation

  /** The display-name candidates in fallback order: user name, full name,
      the trimmed "first last", email, and the literal "User". */
  function NameCandidates(u: User): seq<string> {
    [u.userName.GetOr(""), u.fullName.GetOr(""),
     Trim(u.firstName.GetOr("") + " " + u.lastName.GetOr("")),
     u.email.GetOr(""), "User"]
  }

  function DisplayName(u: User): (name: string)
    ensures name != ""
  {
    var joined := Trim(u.firstName.GetOr("") + " " + u.lastName.GetOr(""));
    ValueOr(u.userName, ValueOr(u.fullName, if joined != "" then joined else ValueOr(u.email, "User")))
  }

  /** A first name of one no-break space trims away, so the display name
      falls through to the email (or "User"). */
  lemma NoBreakSpaceNameFallsThrough(u: User)
    requires !Present(u.userName) && !Present(u.fullName)
    requires u.firstName == Some("\U{00A0}") && u.lastName.None?
    ensures DisplayName(u) == ValueOr(u.email, "User")
  {
    assert u.firstName.GetOr("") + " " + u.lastName.GetOr("") == ['\U{00A0}', ' '];
    TrimNoBreakSpace();
  }

  lemma TrimNoBreakSpace()
    ensures Trim(['\U{00A0}', ' ']) == ""
  {
    var s := ['\U{00A0}', ' '];
    assert IsWhitespace(s[0]) && s[1..] == [' '];
    assert IsWhitespace(' ') && [' '][1..] == [];
  }

  /** The display name is the first non-empty candidate. */
  lemma DisplayNameIsFirstNonEmpty(u: User)
    ensures var c := NameCandidates(u);
      exists k :: 0 <= k < |c| && DisplayName(u) == c[k] && forall i :: 0 <= i < k ==> c[i] == ""
  {
    var c := NameCandidates(u);
    assert c[2] == Trim(u.firstName.GetOr("") + " " + u.lastName.GetOr(""));
    var k := if c[0] != "" then 0 else if c[1] != "" then 1 else if c[2] != "" then 2
             else if c[3] != "" then 3 else 4;
    assert DisplayName(u) == c[k];
    assert forall i :: 0 <= i < k ==> c[i] == "";
  }

  /** `s.split(" ")`: a run of n spaces gives n - 1 empty parts between
      its neighbours, and "" splits into [""]. */
  function Split(s: string): (parts: seq<string>)
    ensures |parts| >= 1
    ensures forall i :: 0 <= i < |parts| ==> ' ' !in parts[i]
  {
    if s == [] then [""]
    else if s[0] == ' ' then [""] + Split(s[1..])
    else
      var rest := Split(s[1..]);
      [[s[0]] + rest[0]] + rest[1..]
  }

  /** Joining the parts with single spaces gives the string back. */
  lemma {:induction false} JoinSplit(s: string)
    ensures Join(Split(s), " ") == s
  {
    if s != [] {
      JoinSplit(s[1..]);
      var rest := Split(s[1..]);
      if s[0] == ' ' {
        assert Split(s) == [""] + rest;
        assert Join(Split(s), " ") == "" + " " + Join(rest, " ");
      } else if |rest| == 1 {
        assert Split(s) == [[s[0]] + rest[0]];
      } else {
        assert Split(s) == [[s[0]] + rest[0]] + rest[1..];
        assert Join(rest, " ") == rest[0] + " " + Join(rest[1..], " ");
        assert Join(Split(s), " ") == [s[0]] + rest[0] + " " + Join(rest[1..], " ");
      }
    }
  }

  /** Splitting at a space splits the two sides independently. */
  lemma {:induction false} SplitAtSpace(a: string, b: string)
    ensures Split(a + " " + b) == Split(a) + Split(b)
  {
    var s := a + " " + b;
    if a == [] {
      assert s == " " + b && s[1..] == b;
    } else {
      assert s[0] == a[0] && s[1..] == a[1..] + " " + b;
      SplitAtSpace(a[1..], b);
      if a[0] != ' ' {
        var left := Split(a[1..]);
        assert Split(s[1..]) == left + Split(b);
        assert (left + Split(b))[0] == left[0];
        assert (left + Split(b))[1..] == left[1..] + Split(b);
      }
    }
  }

  /** `.filter(Boolean)` on strings. */
  function NonEmpty(parts: seq<string>): (r: seq<string>)
    ensures |r| <= |parts|
    ensures forall i :: 0 <= i < |r| ==> r[i] != ""
  {
    if parts == [] then []
    else (if parts[0] != "" then [parts[0]] else []) + NonEmpty(parts[1..])
  }

  lemma {:induction false} NonEmptyAppend(a: seq<string>, b: seq<string>)
    ensures NonEmpty(a + b) == NonEmpty(a) + NonEmpty(b)
  {
    if a == [] {
      assert a + b == b;
    } else {
      assert (a + b)[0] == a[0] && (a + b)[1..] == a[1..] + b;
      NonEmptyAppend(a[1..], b);
    }
  }

  /** The non-empty space-separated words of a name. */
  function Words(name: string): seq<string> {
    NonEmpty(Split(name))
  }

  /** `.map((n) => n[0]).join("")` */
  function Heads(words: seq<string>): (r: string)
    requires forall i :: 0 <= i < |words| ==> words[i] != ""
    ensures |r| == |words|
    ensures forall i :: 0 <= i < |words| ==> r[i] == words[i][0]
  {
    if words == [] then [] else [words[0][0]] + Heads(words[1..])
  }

  function Initials(name: string): string {
    Upper(Heads(Words(name)))
  }

  /** Each word of a name contributes, in order, its upper-cased first
      character. */
  lemma InitialsRule(name: string)
    ensures |Initials(name)| == |Words(name)|
    ensures forall i :: 0 <= i < |Words(name)| ==>
      Initials(name)[i] == UpperChar(Words(name)[i][0]) && ' ' !in Words(name)[i]
  {
    var parts := Split(name);
    forall i | 0 <= i < |Words(name)| ensures ' ' !in Words(name)[i] {
      WordOfSplit(parts, i);
    }
  }

  lemma {:induction false} WordOfSplit(parts: seq<string>, i: nat)
    requires forall j :: 0 <= j < |parts| ==> ' ' !in parts[j]
    requires i < |NonEmpty(parts)|
    ensures ' ' !in NonEmpty(parts)[i]
  {
    if parts[0] != "" && i == 0 {
    } else if parts[0] != "" {
      WordOfSplit(parts[1..], i - 1);
    } else {
      WordOfSplit(parts[1..], i);
    }
  }

  /** The words of "a b" are those of a followed by those of b. */
  lemma WordsAtSpace(a: string, b: string)
    ensures Words(a + " " + b) == Words(a) + Words(b)
  {
    SplitAtSpace(a, b);
    NonEmptyAppend(Split(a), Split(b));
  }

  /** Runs of spaces contribute no words, hence no initials. */
  lemma RunsOfSpaces(a: string, b: string)
    ensures Words(a + " " + " " + b) == Words(a + " " + b)
    ensures Initials(a + " " + " " + b) == Initials(a + " " + b)
  {
    assert a + " " + " " + b == a + " " + (" " + b);
    WordsAtSpace(a, " " + b);
    assert " " + b == "" + " " + b;
    WordsAtSpace("", b);
    WordsAtSpace(a, b);
  }

  /** What the menu shows for a signed-in user. */
  datatype MenuView = MenuView(heading: string, displayName: string, initials: string,
                               email: Option<string>, role: StoreRole, avatar: string)

  /** Nothing is rendered without a user. */
  function Render(user: Option<User>): (v: Option<MenuView>)
    ensures v.None? <==> user.None?
  {
    match user
    case None => None
    case Some(u) =>
      var name := DisplayName(u);
      Some(MenuView(ValueOr(u.userName, name), name, Initials(name), u.email, u.role,
                    ValueOr(u.avatar, "/placeholder.svg")))
  }

  /** The heading `userName || displayName` is always the display name,
      which already starts with the user name. */
  lemma HeadingIsDisplayName(u: User)
    ensures Render(Some(u)).value.heading == DisplayName(u)
  {
  }

  /** `handleLogout`: clear the session, then go to the login page. */
  method HandleLogout(store: AuthStore, router: Navigation.Router)
    modifies store, router
    ensures store.user == None && store.token == None && !store.isAuthenticated
    ensures router.pushed == old(router.pushed) + ["/login"]
  {
    store.Logout();
    router.Push("/login");
  }
}
