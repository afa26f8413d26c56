/** The top navigation bar: seven page links, the logo and the profile menu.
    Every control navigates without a payload. */
module Navigation {
  import opened Seqs
  import opened App

  datatype NavItem = NavItem(id: string, title: string)

  const NavItems: seq<NavItem> := [
    NavItem("dashboard", "Home"),
    NavItem("tutors", "Tutors"),
    NavItem("group-classes", "Group Classes"),
    NavItem("calendar", "Calendar"),
    NavItem("recordings", "Recordings"),
    NavItem("messages", "Messages"),
    NavItem("wallet", "Wallet")
  ]

  /** The link for the page on screen is highlighted. */
  predicate IsActive(current: string, item: NavItem)
  {
    current == item.id
  }

  function ActiveOf(current: string): NavItem -> bool
  {
    item => IsActive(current, item)
  }

  /** The highlighted links. */
  function ActiveItems(current: string): seq<NavItem>
  {
    Filter(NavItems, ActiveOf(current))
  }

  lemma NavIdsDistinct()
    ensures |NavItems| == 7
    ensures forall i, j :: 0 <= i < j < |NavItems| ==> NavItems[i].id != NavItems[j].id
  {
  }

  /** At most one link is highlighted, and one is exactly when the page on
      screen has a link. */
  lemma AtMostOneActive(current: string)
    ensures |ActiveItems(current)| <= 1
    ensures |ActiveItems(current)| == 1 <==> exists i :: 0 <= i < |NavItems| && NavItems[i].id == current
  {
    NavIdsDistinct();
    AtMostOneActiveIn(NavItems, current);
  }

  lemma AtMostOneActiveIn(items: seq<NavItem>, current: string)
    requires forall i, j :: 0 <= i < j < |items| ==> items[i].id != items[j].id
    ensures |Filter(items, ActiveOf(current))| <= 1
    ensures |Filter(items, ActiveOf(current))| == 1 <==> exists i :: 0 <= i < |items| && items[i].id == current
  {
    FilterAtMostOne(items, ActiveOf(current));
    var r := Filter(items, ActiveOf(current));
    if exists i :: 0 <= i < |items| && items[i].id == current {
      var i :| 0 <= i < |items| && items[i].id == current;
      assert items[i] in r;
    }
  }

  /** The pages without a link: nothing is highlighted there. */
  lemma NoneActiveOffBar()
    ensures forall p :: p in {TutorProfile, Booking, Settings, Login} ==> ActiveItems(Id(p)) == []
  {
    forall p | p in {TutorProfile, Booking, Settings, Login} ensures ActiveItems(Id(p)) == [] {
      PageIdRoundTrip(p, Id(p));
      NoneActive(Id(p));
    }
  }

  lemma NoneActive(current: string)
    requires PageOf(current) in {Some(TutorProfile), Some(Booking), Some(Settings), Some(Login)}
    ensures ActiveItems(current) == []
  {
    LinksNamePages();
    AtMostOneActive(current);
  }

  /** Every link names a known page other than the four without a link. */
  lemma LinksNamePages()
    ensures forall i :: 0 <= i < |NavItems| ==>
      PageOf(NavItems[i].id).Some? && PageOf(NavItems[i].id) !in {Some(TutorProfile), Some(Booking), Some(Settings), Some(Login)}
  {
  }

  /** The controls of the bar. */
  datatype NavAction = Link(item: NavItem) | Logo | Profile | WalletMenu | Logout

  function Target(a: NavAction): string
  {
    match a
    case Link(item) => item.id
    case Logo => Id(Dashboard)
    case Profile => Id(Settings)
    case WalletMenu => Id(Wallet)
    case Logout => Id(Login)
  }

  function Click(s: State, a: NavAction): State
  {
    Navigate(s, Target(a), None)
  }

  /** Each control lands on a known page, keeps the payload and leaves the
      bar visible unless it is Logout. */
  lemma ClickOutcome(s: State, a: NavAction)
    requires a.Link? ==> a.item in NavItems
    ensures PageOf(Click(s, a).current).Some?
    ensures Click(s, a).data == s.data
    ensures NavBarShown(Click(s, a)) <==> !a.Logout?
  {
    LinksNamePages();
    PageIdRoundTrip(Login, Target(a));
  }

  /** After a link click, that link is the one highlighted. */
  lemma ClickHighlights(s: State, item: NavItem)
    requires item in NavItems
    ensures ActiveItems(Click(s, Link(item)).current) == [item]
  {
    NavIdsDistinct();
    OnlyActiveIn(NavItems, item);
  }

  lemma OnlyActiveIn(items: seq<NavItem>, item: NavItem)
    requires forall i, j :: 0 <= i < j < |items| ==> items[i].id != items[j].id
    requires item in items
    ensures Filter(items, ActiveOf(item.id)) == [item]
  {
    var r := Filter(items, ActiveOf(item.id));
    AtMostOneActiveIn(items, item.id);
    assert item in r;
  }
}
