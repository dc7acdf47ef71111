// The page chrome: which menu links are highlighted for the current path,
// and the labels the header derives from the signed-in email.

module Sidebar {
  import opened Wrappers
  import opened Text

  const Home := "/home"
  const Support := "/support"
  const Tasks := "/tasks"
  const Settings := "/settings"

  /** The overview links, in menu order. */
  const MainMenu: seq<string> := [Home, Support, Tasks]

  datatype MenuLink = MenuLink(href: string, active: bool)

  /** Hidden on the sign-in page; otherwise the overview links and the settings link. */
  datatype SidebarView = Hidden | Shown(menu: seq<MenuLink>, settingsActive: bool)

  /** A menu link is highlighted on its own path and on every path below it. */
  predicate IsActive(pathname: Option<string>, href: string) {
    pathname == Some(href) || (pathname.Some? && StartsWith(pathname.value, href + "/"))
  }

  function Render(pathname: Option<string>): (v: SidebarView)
    ensures v.Hidden? <==> pathname == Some("/")
    ensures v.Shown? ==> (
      && |v.menu| == |MainMenu|
      && (forall i :: 0 <= i < |MainMenu| ==>
            v.menu[i].href == MainMenu[i] && v.menu[i].active == IsActive(pathname, MainMenu[i]))
      && (v.settingsActive <==> pathname == Some(Settings)))
  {
    if pathname == Some("/") then Hidden
    else Shown(seq(|MainMenu|, i requires 0 <= i < |MainMenu| => MenuLink(MainMenu[i], IsActive(pathname, MainMenu[i]))),
               pathname == Some(Settings))
  }

  /** The path's second character; every overview link decides on it. */
  lemma ActiveFixesSecondChar(p: string, href: string)
    requires |href| >= 2
    requires IsActive(Some(p), href)
    ensures |p| >= 2 && p[1] == href[1]
  {
    if p != href {
      assert p[..|href + "/"|] == href + "/";
      assert p[1] == (href + "/")[1];
    }
  }

  /** Whatever the path, at most one overview link is highlighted. */
  lemma AtMostOneActive(pathname: Option<string>, i: int, j: int)
    requires 0 <= i < j < |MainMenu|
    ensures !(IsActive(pathname, MainMenu[i]) && IsActive(pathname, MainMenu[j]))
  {
    if pathname.Some? && IsActive(pathname, MainMenu[i]) && IsActive(pathname, MainMenu[j]) {
      ActiveFixesSecondChar(pathname.value, MainMenu[i]);
      ActiveFixesSecondChar(pathname.value, MainMenu[j]);
    }
  }

  /** A path that merely begins with a link's letters, such as `/homepage`, does not highlight it. */
  lemma SeparatorRequired()
    ensures !IsActive(Some("/homepage"), Home)
    ensures IsActive(Some("/home/settings"), Home)
  {
    assert "/homepage"[..6] != Home + "/" by {
      assert "/homepage"[5] == 'p';
    }
    assert "/home/settings"[..6] == Home + "/";
  }
}

module Navigation {
  import opened Wrappers
  import opened Text
  import opened PhaseStructure
  import Sidebar

  const Home := "/home"
  const LaunchKit := "/launch-kit"
  const GrowthKit := "/growth-kit"
  const Support := "/support"

  datatype NavLink = NavLink(href: string, active: bool)
  datatype NavigationView = Hidden | Shown(links: seq<NavLink>)

  /** Home first, the signed-in kit's page when the kit is LAUNCH or GROWTH, Support last. */
  function NavItems(kitType: Option<string>): (items: seq<string>)
    ensures |items| >= 2 && items[0] == Home && items[|items| - 1] == Support
    ensures LaunchKit in items <==> kitType == Some(LAUNCH)
    ensures GrowthKit in items <==> kitType == Some(GROWTH)
    ensures |items| <= 3
  {
    [Home]
    + (if kitType == Some(LAUNCH) then [LaunchKit] else [])
    + (if kitType == Some(GROWTH) then [GrowthKit] else [])
    + [Support]
  }

  /** A link is highlighted when the path begins with its target, with no separator check. */
  predicate IsActive(pathname: Option<string>, href: string) {
    pathname.Some? && StartsWith(pathname.value, href)
  }

  function Render(pathname: Option<string>, kitType: Option<string>): (v: NavigationView)
    ensures v.Hidden? <==> pathname == Some("/")
    ensures v.Shown? ==> (
      && |v.links| == |NavItems(kitType)|
      && forall i :: 0 <= i < |v.links| ==>
           v.links[i].href == NavItems(kitType)[i] && v.links[i].active == IsActive(pathname, NavItems(kitType)[i]))
    ensures pathname.None? ==> v.Shown? && forall i :: 0 <= i < |v.links| ==> !v.links[i].active
  {
    if pathname == Some("/") then Hidden
    else
      var items := NavItems(kitType);
      Shown(seq(|items|, i requires 0 <= i < |items| => NavLink(items[i], IsActive(pathname, items[i]))))
  }

  /** Unlike the sidebar, `/homepage` highlights Home here. */
  lemma NoSeparatorCheck()
    ensures IsActive(Some("/homepage"), Home)
    ensures !Sidebar.IsActive(Some("/homepage"), Sidebar.Home)
  {
    assert "/homepage"[..5] == Home;
    Sidebar.SeparatorRequired();
  }

  /** The sidebar's rule is the stricter one: a link it highlights is highlighted here too. */
  lemma SidebarActiveImpliesActive(pathname: Option<string>, href: string)
    requires Sidebar.IsActive(pathname, href)
    ensures IsActive(pathname, href)
  {
    if pathname != Some(href) {
      assert pathname.value[..|href|] == (href + "/")[..|href|];
    }
  }
}

module Header {
  import opened Wrappers
  import opened Text

  /** `s.split('@')[0]`: the text before the first `@`, or all of `s`. */
  function BeforeAt(s: string): (r: string)
    ensures |r| <= |s| && r == s[..|r|]
    ensures '@' !in r
    ensures |r| < |s| ==> s[|r|] == '@'
  {
    if s == [] || s[0] == '@' then []
    else [s[0]] + BeforeAt(s[1..])
  }

  /** The avatar letter: the email's first character upper-cased, else `U`. */
  function Initial(email: Option<string>): (r: string)
    ensures |r| == 1
    ensures Truthy(email) ==> r[0] == UpperChar(email.value[0])
    ensures !Truthy(email) ==> r == "U"
  {
    if Truthy(email) then [UpperChar(email.value[0])] else "U"
  }

  /** The name shown: the email's text before `@`, else `User`. */
  function DisplayName(email: Option<string>): (r: string)
    ensures r != ""
    ensures Truthy(email) && BeforeAt(email.value) != "" ==> r == BeforeAt(email.value)
    ensures !Truthy(email) || BeforeAt(email.value) == "" ==> r == "User"
  {
    if Truthy(email) && BeforeAt(email.value) != "" then BeforeAt(email.value) else "User"
  }

  /** An address `local@domain` shows its local part; an address starting with `@` shows `User`. */
  lemma {:induction false} LocalPartShown(local: string, domain: string)
    requires '@' !in local
    ensures BeforeAt(local + "@" + domain) == local
    ensures local != [] ==> DisplayName(Some(local + "@" + domain)) == local
    ensures local == [] ==> DisplayName(Some(local + "@" + domain)) == "User"
  {
    var s := local + "@" + domain;
    if local != [] {
      assert s[0] == local[0];
      assert s[1..] == local[1..] + "@" + domain;
      LocalPartShown(local[1..], domain);
    } else {
      assert s[0] == '@';
    }
  }

  /** An address without `@` is shown whole. */
  lemma {:induction false} NoAtShownWhole(s: string)
    requires '@' !in s
    ensures BeforeAt(s) == s
  {
    if s != [] {
      NoAtShownWhole(s[1..]);
    }
  }
}
