/**
 * The page shell: the header title derived from the current path, the
 * signed-in user's name with its default, and the sidebar's highlighted
 * item.
 */
module Layout {
  import opened Options
  import opened JsText

  const DefaultUserName := "Guest User"

  /** What the stored user record yields: nothing stored, text that does
      not parse, or a record whose `name` may be absent. */
  datatype StoredUser = NothingStored | Unparsable | Record(name: Option<string>)

  /** The user name after the mount effect: a stored, non-empty name, and
      'Guest User' in every other case. */
  function UserName(stored: StoredUser): (r: string)
    ensures r != []
    ensures stored.Record? && stored.name.Some? && stored.name.value != [] ==> r == stored.name.value
    ensures !(stored.Record? && stored.name.Some? && stored.name.value != []) ==> r == DefaultUserName
  {
    match stored
    case Record(Some(n)) => if n != [] then n else DefaultUserName
    case _ => DefaultUserName
  }

  /** `name.split(' ')[0]`: the text before the first space, or the whole
      name when it has none. */
  function FirstWord(name: string): (r: string)
    ensures IsPrefix(r, name)
    ensures ' ' !in r
    ensures |r| < |name| ==> name[|r|] == ' '
  {
    if name == [] || name[0] == ' ' then []
    else [name[0]] + FirstWord(name[1..])
  }

  /** A name without spaces is its own first word. */
  lemma {:induction false} FirstWordOfOneWord(name: string)
    requires ' ' !in name
    ensures FirstWord(name) == name
  {
    if name != [] {
      assert name[0] in name;
      assert forall c :: c in name[1..] ==> c in name;
      FirstWordOfOneWord(name[1..]);
    }
  }

  /** The paths with a fixed title, in the order `getTitle` compares them. */
  const Routes: seq<(string, string)> := [
    ("/scan", "Scan & Pay"),
    ("/wallet", "Offline Wallet"),
    ("/send-bank", "Bank Transfer"),
    ("/send-mobile", "Send to Contact"),
    ("/cibil", "Credit Score"),
    ("/shield", "Scam Shield"),
    ("/form-filler", "AI Form Filler"),
    ("/history", "Transaction History"),
    ("/bills", "Bill Payments")
  ]

  /** The title of an unlisted path: the first '/' removed, then the first
      '-' turned into a space, then upper-cased. */
  function FallbackTitle(path: string): (r: string)
    ensures |r| == |path| - (if IndexOf(path, "/") >= 0 then 1 else 0)
    ensures forall i :: 0 <= i < |r| ==> !('a' <= r[i] <= 'z')
  {
    var noSlash := ReplaceFirst(path, "/", "");
    ToUpper(ReplaceFirst(noSlash, "-", " "))
  }

  /** Upper-casing works character by character, so it distributes over
      concatenation. */
  lemma ToUpperConcat(a: string, b: string)
    ensures ToUpper(a + b) == ToUpper(a) + ToUpper(b)
  {
    assert forall i :: 0 <= i < |a + b| ==> (a + b)[i] == if i < |a| then a[i] else b[i - |a|];
  }

  /** A leading '/' is the one `replace('/', '')` removes. */
  lemma LeadingSlashRemoved(path: string)
    requires IsPrefix("/", path)
    ensures ReplaceFirst(path, "/", "") == path[1..]
  {
    IndexOfFirst(path, "/", 0);
    assert path[..0] + "" + path[1..] == path[1..];
  }

  /** On a path starting with '/': that '/' is dropped, the first '-' of
      what follows (if any) becomes a space, everything else is kept, and
      all of it is upper-cased. (`indexOf` is -1 exactly when there is no
      '-', by `IndexOfIffIncludes`.) */
  lemma FallbackTitleValue(path: string)
    requires IsPrefix("/", path)
    ensures var rest := path[1..]; var k := IndexOf(rest, "-");
      && (k < 0 ==> FallbackTitle(path) == ToUpper(rest))
      && (k >= 0 ==> k < |rest| && FallbackTitle(path) == ToUpper(rest[..k]) + " " + ToUpper(rest[k + 1..]))
  {
    var rest := path[1..];
    LeadingSlashRemoved(path);
    var k := IndexOf(rest, "-");
    if k >= 0 {
      ToUpperConcat(rest[..k] + " ", rest[k + 1..]);
      ToUpperConcat(rest[..k], " ");
      assert ToUpper(" ") == " ";
    }
  }

  /** In `a + "-" + d`, with no '-' in `a`, the first '-' is the one
      after `a`. */
  lemma FirstDashAfter(a: string, d: string)
    requires forall i :: 0 <= i < |a| ==> a[i] != '-'
    ensures IndexOf(a + "-" + d, "-") == |a|
  {
    var s := a + "-" + d;
    assert IsPrefix("-", s[|a|..]) by { assert s[|a|] == '-'; }
    forall j | 0 <= j < |a|
      ensures !IsPrefix("-", s[j..])
    {
      assert s[j..][0] == s[j] == a[j];
    }
    IndexOfFirst(s, "-", |a|);
  }

  /** A path "/a-d" whose first '-' follows `a` reads `a`, a space and
      `d`, upper-cased: only that first '-' becomes a space, and any
      later '-' in `d` is kept (upper-casing leaves '-' alone). */
  lemma FirstDashToSpace(a: string, d: string)
    requires forall i :: 0 <= i < |a| ==> a[i] != '-'
    ensures FallbackTitle("/" + (a + "-" + d)) == ToUpper(a) + " " + ToUpper(d)
  {
    var rest := a + "-" + d;
    var path := "/" + rest;
    FirstDashAfter(a, d);
    assert IsPrefix("/", path) && path[1..] == rest;
    FallbackTitleValue(path);
    assert rest[..|a|] == a && rest[|a| + 1..] == d;
  }

  /** `getTitle`. */
  function Title(path: string, userName: string): (r: string)
    ensures IsPrefix("Welcome, ", r) <==> path == "/"
  {
    if path == "/" then
      var g := "Welcome, " + FirstWord(userName);
      assert g[..9] == "Welcome, ";
      g
    else
      var t :=
        if path == "/scan" then "Scan & Pay"
        else if path == "/wallet" then "Offline Wallet"
        else if path == "/send-bank" then "Bank Transfer"
        else if path == "/send-mobile" then "Send to Contact"
        else if path == "/cibil" then "Credit Score"
        else if path == "/shield" then "Scam Shield"
        else if path == "/form-filler" then "AI Form Filler"
        else if path == "/history" then "Transaction History"
        else if path == "/bills" then "Bill Payments"
        else FallbackTitle(path);
      GreetingLetters(t);
      t
  }

  /** A text that starts with the greeting starts with "We". */
  lemma GreetingLetters(t: string)
    ensures IsPrefix("Welcome, ", t) ==> |t| > 1 && t[0] == 'W' && t[1] == 'e'
  {
    if IsPrefix("Welcome, ", t) {
      assert t[..9][0] == t[0] && t[..9][1] == t[1];
    }
  }

  /** Each listed path shows its listed title. */
  lemma ListedTitle(path: string, userName: string, i: nat)
    requires i < |Routes| && path == Routes[i].0
    ensures Title(path, userName) == Routes[i].1
  {
    var r := Routes;
    assert r[0].0 == "/scan" && r[1].0 == "/wallet" && r[2].0 == "/send-bank";
    assert r[3].0 == "/send-mobile" && r[4].0 == "/cibil" && r[5].0 == "/shield";
    assert r[6].0 == "/form-filler" && r[7].0 == "/history" && r[8].0 == "/bills";
    assert path != "/" by { assert |path| > 1; }
  }

  /** The title is the greeting on the home path, the listed title on a
      listed path, and the rewritten path everywhere else. */
  lemma TitleCases(path: string, userName: string)
    ensures path == "/" ==> Title(path, userName) == "Welcome, " + FirstWord(userName)
    ensures forall i :: 0 <= i < |Routes| && path == Routes[i].0 ==> Title(path, userName) == Routes[i].1
    ensures path != "/" && (forall i :: 0 <= i < |Routes| ==> path != Routes[i].0) ==>
      Title(path, userName) == FallbackTitle(path)
  {
    forall i | 0 <= i < |Routes| && path == Routes[i].0
      ensures Title(path, userName) == Routes[i].1
    {
      ListedTitle(path, userName, i);
    }
    if path != "/" && (forall i :: 0 <= i < |Routes| ==> path != Routes[i].0) {
      var r := Routes;
      assert path != r[0].0 && path != r[1].0 && path != r[2].0;
      assert path != r[3].0 && path != r[4].0 && path != r[5].0;
      assert path != r[6].0 && path != r[7].0 && path != r[8].0;
    }
  }

  /** The greeting for the default user. */
  lemma GuestGreeting()
    ensures Title("/", UserName(NothingStored)) == "Welcome, Guest"
  {
    var g := "Guest User";
    assert g[5] == ' ' && ' ' !in g[..5];
    FirstWordPrefix(g, 5);
  }

  /** The first word ends at the first space. */
  lemma {:induction false} FirstWordPrefix(name: string, k: nat)
    requires k < |name| && name[k] == ' ' && ' ' !in name[..k]
    ensures FirstWord(name) == name[..k]
  {
    if k == 0 {
    } else {
      assert name[0] in name[..k];
      assert name[1..][k - 1] == ' ';
      assert name[1..][..k - 1] == name[..k][1..];
      assert forall c :: c in name[..k][1..] ==> c in name[..k];
      FirstWordPrefix(name[1..], k - 1);
      assert name[..k] == [name[0]] + name[..k][1..];
    }
  }

  /** The sidebar's routes, top to bottom. */
  const SidebarRoutes: seq<string> := ["/", "/wallet", "/cibil", "/shield", "/form-filler"]

  /** Which sidebar items are highlighted on `path`. */
  function ActiveItems(path: string): (r: seq<bool>)
    ensures |r| == |SidebarRoutes|
    ensures forall i :: 0 <= i < |r| ==> (r[i] <==> path == SidebarRoutes[i])
  {
    seq(|SidebarRoutes|, i requires 0 <= i < |SidebarRoutes| => path == SidebarRoutes[i])
  }

  /** At most one item is highlighted, and a path off the sidebar
      highlights none. */
  lemma AtMostOneActive(path: string)
    ensures forall i, j :: 0 <= i < j < |SidebarRoutes| ==> !(ActiveItems(path)[i] && ActiveItems(path)[j])
    ensures path !in SidebarRoutes ==> forall i :: 0 <= i < |SidebarRoutes| ==> !ActiveItems(path)[i]
  {
    var s := SidebarRoutes;
    assert s[0] == "/" && s[1] == "/wallet" && s[2] == "/cibil" && s[3] == "/shield" && s[4] == "/form-filler";
    assert |s[0]| == 1 && |s[1]| == 7 && |s[2]| == 6 && |s[3]| == 7 && |s[4]| == 12;
    assert s[1][1] == 'w' && s[3][1] == 's';
  }
}
