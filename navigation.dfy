/** The `Header` navigation: two tabs, Ideas and Profile, of which a visitor
    without a session sees only the first; choosing a tab navigates, and the
    highlighted tab follows the current path. */
module Navigation {
  import opened Domain
  import ExpandableTabs

  datatype NavItem = NavItem(title: string, link: string)

  const IdeasTab: NavItem := NavItem("Ideas", "/")
  const ProfileTab: NavItem := NavItem("Profile", "/profile")

  /** The navigation items, in order. */
  const NavItems: seq<NavItem> := [IdeasTab, ProfileTab]

  const ProfilePath: string := "/profile"
  const LoginPath: string := "/login"

  /** The tabs offered: both with a session, only Ideas without. */
  function TabsFor(session: bool): (tabs: seq<NavItem>)
    ensures session ==> tabs == NavItems
    ensures !session ==> tabs == [IdeasTab]
    ensures 1 <= |tabs| <= |NavItems| && tabs == NavItems[..|tabs|]
  {
    if session then NavItems else [NavItems[0]]
  }

  /** `findIndex`: the first item whose link is `path`. */
  function FindIndex(items: seq<NavItem>, path: string): (r: Option<nat>)
    ensures r.None? <==> forall j :: 0 <= j < |items| ==> items[j].link != path
    ensures r.Some? ==> r.value < |items| && items[r.value].link == path
    ensures r.Some? ==> forall j :: 0 <= j < r.value ==> items[j].link != path
  {
    if items == [] then None
    else if items[0].link == path then Some(0)
    else match FindIndex(items[1..], path)
      case None => None
      case Some(i) => Some(i + 1)
  }

  /** The path `handleTabChange` navigates to for a tab index of the full
      item list, if any: nothing without an index, the login page for the
      Profile tab without a session, else the tab's own link. */
  function TabTarget(index: Option<nat>, session: bool): (target: Option<string>)
    requires index.Some? ==> index.value < |NavItems|
    ensures index.None? <==> target.None?
    ensures index.Some? && NavItems[index.value].link == ProfilePath && !session ==> target == Some(LoginPath)
    ensures index.Some? && (NavItems[index.value].link != ProfilePath || session) ==>
              target == Some(NavItems[index.value].link)
  {
    match index
    case None => None
    case Some(i) =>
      if NavItems[i].link == ProfilePath && !session then Some(LoginPath) else Some(NavItems[i].link)
  }

  /** The highlighted tab: none on the profile page without a session, else
      the first tab whose link is the path, or none. */
  function ActiveTabIndex(path: string, session: bool): (r: Option<nat>)
    ensures path == ProfilePath && !session ==> r.None?
    ensures path != ProfilePath || session ==> r == FindIndex(NavItems, path)
  {
    if path == ProfilePath && !session then None else FindIndex(NavItems, path)
  }

  /** The highlighted tab is always one of the tabs offered. */
  lemma ActiveTabIsOffered(path: string, session: bool)
    ensures ActiveTabIndex(path, session).Some? ==>
              ActiveTabIndex(path, session).value < |TabsFor(session)|
  {
    var r := ActiveTabIndex(path, session);
    if r.Some? && !session {
      assert NavItems[1].link == ProfilePath;
      assert r.value != 1;
    }
  }

  /** Choosing an offered tab leads to a page on which that tab is
      highlighted. */
  lemma ChosenTabBecomesActive(i: nat, session: bool)
    requires i < |TabsFor(session)|
    ensures var target := TabTarget(Some(i), session).value;
            ActiveTabIndex(target, session) == Some(i)
  {
    assert NavItems[0].link[0] == '/' && |NavItems[0].link| == 1;
    assert |NavItems[1].link| == 8;
    if session && i == 1 {
      assert FindIndex(NavItems, ProfilePath) == Some(1) by {
        assert NavItems[0].link != ProfilePath;
      }
    }
  }

  /** The Profile tab without a session sends the visitor to log in, and the
      login page highlights no tab. */
  lemma ProfileWithoutSessionGoesToLogin()
    ensures TabTarget(Some(1), false) == Some(LoginPath)
    ensures ActiveTabIndex(LoginPath, false).None?
  {
    assert LoginPath != NavItems[0].link && LoginPath != NavItems[1].link by {
      assert |LoginPath| == 6;
    }
  }

  /** The header's tab row never has more than three tabs, so it draws every
      offered tab and no "+n" indicator; the tab it highlights is the active
      one, passed as an index or as `null`. */
  lemma HeaderRowShowsAllTabs(path: string, session: bool, i: nat)
    ensures ExpandableTabs.VisibleTabs(TabsFor(session), false) == TabsFor(session)
    ensures !ExpandableTabs.ShowMore(|TabsFor(session)|, false)
    ensures var active := ActiveTabIndex(path, session);
            var prop := if active.None? then ExpandableTabs.Null else ExpandableTabs.Index(active.value);
            ExpandableTabs.IsSelected(prop, i) <==> active == Some(i)
  {
  }
}
