/**
 * The application's routing decision: which page a path shows for the
 * signed-in profile (or none), and which navigation links are offered.
 */
module AppRouting {
  import opened Wrappers
  import opened Text

  datatype UserType = CustomerUser | DriverUser

  datatype Page =
    | LoginPage | CustomerPage | DriverPage | AdminPage
    | ShopsHomePage | ShopsCartPage | ShopDetailPage(shopId: string)
    | NotFoundPage

  /** `s.split(sep)`: the pieces between separators, empty pieces included. */
  function Split(s: string, sep: char): (parts: seq<string>)
    ensures |parts| >= 1
    decreases |s|
  {
    if |s| == 0 then [""]
    else
      var rest := Split(s[1..], sep);
      if s[0] == sep then [""] + rest else [[s[0]] + rest[0]] + rest[1..]
  }

  /** A word without separators followed by one separator splits off as one piece. */
  lemma {:induction false} SplitAfterWord(w: string, t: string, sep: char)
    requires sep !in w
    ensures Split(w + [sep] + t, sep) == [w] + Split(t, sep)
    decreases |w|
  {
    var s := w + [sep] + t;
    if |w| == 0 {
      assert s[1..] == t;
    } else {
      assert s[1..] == w[1..] + [sep] + t;
      SplitAfterWord(w[1..], t, sep);
      assert [w[0]] + w[1..] == w;
    }
  }

  /** A string without separators is a single piece. */
  lemma {:induction false} SplitWithoutSeparator(w: string, sep: char)
    requires sep !in w
    ensures Split(w, sep) == [w]
    decreases |w|
  {
    if |w| > 0 {
      SplitWithoutSeparator(w[1..], sep);
      assert [w[0]] + w[1..] == w;
    }
  }

  const ShopsPath := "/customer/shops"
  const ShopsPrefix := "/customer/shops/"

  /** The shop path's third segment is the first piece of what follows the prefix. */
  lemma ShopSegment(rest: string)
    ensures |Split(ShopsPrefix + rest, '/')| >= 4
    ensures Split(ShopsPrefix + rest, '/')[3] == Split(rest, '/')[0]
  {
    var t2 := "shops" + ['/'] + rest;
    var t1 := "customer" + ['/'] + t2;
    SplitAfterWord("shops", rest, '/');
    SplitAfterWord("customer", t2, '/');
    SplitAfterWord("", t1, '/');
    ShopsPrefixSpelledOut(rest);
  }

  lemma ShopsPrefixSpelledOut(rest: string)
    ensures ShopsPrefix + rest == "" + ['/'] + ("customer" + ['/'] + ("shops" + ['/'] + rest))
  {
    assert ShopsPrefix == "" + ['/'] + "customer" + ['/'] + "shops" + ['/'];
  }

  predicate IsCustomer(profile: Option<UserType>) {
    profile == Some(CustomerUser)
  }

  /** `render()`: the page for a path and profile. */
  function Route(path: string, profile: Option<UserType>): (page: Page)
    ensures page in {ShopsHomePage, ShopsCartPage} || page.ShopDetailPage? || page == CustomerPage
      ==> IsCustomer(profile)
    ensures page == DriverPage ==> profile == Some(DriverUser)
  {
    if path == ShopsPath then
      if !IsCustomer(profile) then LoginPage else ShopsHomePage
    else if StartsWith(path, ShopsPrefix) then
      if !IsCustomer(profile) then LoginPage
      else
        var parts := Split(path, '/');
        var shopId := if |parts| > 3 then parts[3] else "";
        if shopId == "cart" then ShopsCartPage else ShopDetailPage(shopId)
    else if path == "/" || path == "/login" then LoginPage
    else if path == "/customer" then
      if !IsCustomer(profile) then LoginPage else CustomerPage
    else if path == "/driver" then
      if profile != Some(DriverUser) then LoginPage else DriverPage
    else if path == "/admin" then AdminPage
    else NotFoundPage
  }

  /** Every shop path shows the login page to anyone but a customer. */
  lemma ShopPathsNeedCustomer(rest: string, profile: Option<UserType>)
    requires !IsCustomer(profile)
    ensures Route(ShopsPath, profile) == LoginPage
    ensures Route(ShopsPrefix + rest, profile) == LoginPage
  {
    assert StartsWith(ShopsPrefix + rest, ShopsPrefix);
    assert ShopsPrefix + rest != ShopsPath by {
      assert |ShopsPrefix + rest| > |ShopsPath|;
    }
  }

  /**
   * For a customer, a third segment "cart" shows the cart and any other
   * third segment (up to the next slash) shows that shop.
   */
  lemma ShopSubpaths(id: string, tail: string)
    requires '/' !in id
    ensures Route(ShopsPrefix + id, Some(CustomerUser))
      == if id == "cart" then ShopsCartPage else ShopDetailPage(id)
    ensures Route(ShopsPrefix + id + "/" + tail, Some(CustomerUser))
      == if id == "cart" then ShopsCartPage else ShopDetailPage(id)
  {
    var p1 := ShopsPrefix + id;
    assert StartsWith(p1, ShopsPrefix);
    assert p1 != ShopsPath by { assert |p1| > |ShopsPath|; }
    ShopSegment(id);
    SplitWithoutSeparator(id, '/');
    var p2 := ShopsPrefix + id + "/" + tail;
    assert p2 == ShopsPrefix + (id + ['/'] + tail);
    assert StartsWith(p2, ShopsPrefix);
    assert p2 != ShopsPath by { assert |p2| > |ShopsPath|; }
    ShopSegment(id + ['/'] + tail);
    SplitAfterWord(id, tail, '/');
  }

  /** "/" and "/login" show the login page, "/admin" the admin page, whoever is signed in. */
  lemma FixedPages(profile: Option<UserType>)
    ensures Route("/", profile) == LoginPage && Route("/login", profile) == LoginPage
    ensures Route("/admin", profile) == AdminPage
  {
    assert !StartsWith("/", ShopsPrefix) && !StartsWith("/login", ShopsPrefix) && !StartsWith("/admin", ShopsPrefix);
  }

  /** "/customer" and "/driver" show their page exactly to the matching profile. */
  lemma RolePages(profile: Option<UserType>)
    ensures Route("/customer", profile) == (if IsCustomer(profile) then CustomerPage else LoginPage)
    ensures Route("/driver", profile) == (if profile == Some(DriverUser) then DriverPage else LoginPage)
  {
    assert !StartsWith("/customer", ShopsPrefix) && !StartsWith("/driver", ShopsPrefix);
  }

  /** Any path outside the table is not found. */
  lemma UnknownPathNotFound(path: string, profile: Option<UserType>)
    requires path !in {"/", "/login", "/customer", "/driver", "/admin", ShopsPath}
    requires !StartsWith(path, ShopsPrefix)
    ensures Route(path, profile) == NotFoundPage
  {
  }

  /** The navigation bar: Login, the profile's own page, Admin. */
  function NavLinks(profile: Option<UserType>): (links: seq<string>)
    ensures |links| >= 2 && links[0] == "/login" && links[|links| - 1] == "/admin"
    ensures "/customer" in links <==> IsCustomer(profile)
    ensures "/driver" in links <==> profile == Some(DriverUser)
  {
    ["/login"]
    + (if IsCustomer(profile) then ["/customer"] else [])
    + (if profile == Some(DriverUser) then ["/driver"] else [])
    + ["/admin"]
  }
}
