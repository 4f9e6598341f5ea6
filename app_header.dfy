/**
 * The header's navigation: the four items in their fixed order, which one is
 * active for the current path, and the account link shown to signed-in users.
 */
module AppHeader {
  import opened Text

  datatype NavKind = HomeItem | DashboardItem | LoginItem | PlusItem

  datatype NavItem = NavItem(href: string, caption: string, kind: NavKind)

  const NAV_ITEMS: seq<NavItem> := [
    NavItem("/", "Home", HomeItem),
    NavItem("/dashboard", "Dashboard", DashboardItem),
    NavItem("/login", "Login", LoginItem),
    NavItem("/plus", "Plus", PlusItem)
  ]

  /** `isItemActive`: home on the two root paths, the others on their path prefix. */
  predicate IsItemActive(pathname: string, item: NavItem)
    ensures IsItemActive(pathname, item) ==> pathname != [] && pathname[0] == '/'
  {
    match item.kind
    case HomeItem => pathname == "/" || pathname == "/app"
    case DashboardItem => StartsWith(pathname, "/dashboard")
    case LoginItem => StartsWith(pathname, "/login")
    case PlusItem => StartsWith(pathname, "/plus")
  }

  /** The prefixes tell themselves apart by their second character. */
  lemma SecondChar(pathname: string, prefix: string)
    requires |prefix| >= 2 && StartsWith(pathname, prefix)
    ensures pathname[1] == prefix[1]
  {
    assert pathname[..|prefix|][1] == pathname[1];
  }

  /** For any path at most one item of the header is active. */
  lemma AtMostOneActive(pathname: string, i: nat, j: nat)
    requires i < |NAV_ITEMS| && j < |NAV_ITEMS|
    requires IsItemActive(pathname, NAV_ITEMS[i]) && IsItemActive(pathname, NAV_ITEMS[j])
    ensures i == j
  {
    var a, b := NAV_ITEMS[i].kind, NAV_ITEMS[j].kind;
    if a != HomeItem {
      var p := if a == DashboardItem then "/dashboard" else if a == LoginItem then "/login" else "/plus";
      SecondChar(pathname, p);
    }
    if b != HomeItem {
      var p := if b == DashboardItem then "/dashboard" else if b == LoginItem then "/login" else "/plus";
      SecondChar(pathname, p);
    }
  }

  /** The dashboard and the pages under it light up the dashboard item only. */
  lemma DashboardPathsActivateDashboard(pathname: string)
    requires StartsWith(pathname, "/dashboard")
    ensures forall k :: 0 <= k < |NAV_ITEMS| ==> (IsItemActive(pathname, NAV_ITEMS[k]) <==> k == 1)
  {
    SecondChar(pathname, "/dashboard");
  }

  /** The look of a header button. */
  datatype ItemStyle = PlusActive | Active | PlusLocked | PlusIdle | Idle

  function StyleOf(item: NavItem, active: bool, hasAccess: bool): (r: ItemStyle)
    ensures (r == PlusActive || r == Active) <==> active
    ensures (r == PlusActive || r == PlusLocked || r == PlusIdle) <==> item.kind == PlusItem
    ensures r == PlusLocked <==> item.kind == PlusItem && !active && !hasAccess
  {
    if item.kind == PlusItem && active then PlusActive
    else if active then Active
    else if item.kind == PlusItem && !hasAccess then PlusLocked
    else if item.kind == PlusItem then PlusIdle
    else Idle
  }

  /** One rendered header link. */
  datatype NavLink = NavLink(href: string, caption: string, kind: NavKind, active: bool, style: ItemStyle)

  /** The header's links: the items in order, the login item turned into the account link for signed-in users. */
  function NavLinks(pathname: string, isSignedIn: bool, hasAccess: bool): (r: seq<NavLink>)
    ensures |r| == |NAV_ITEMS|
    ensures forall k :: 0 <= k < |r| ==> r[k].kind == NAV_ITEMS[k].kind && r[k].active == IsItemActive(pathname, NAV_ITEMS[k])
    ensures forall k :: 0 <= k < |r| ==> r[k].style == StyleOf(NAV_ITEMS[k], r[k].active, hasAccess)
    ensures forall k :: 0 <= k < |r| && !(isSignedIn && NAV_ITEMS[k].kind == LoginItem) ==>
      r[k].href == NAV_ITEMS[k].href && r[k].caption == NAV_ITEMS[k].caption
    ensures isSignedIn ==> r[2].href == "/settings" && r[2].caption == "Account"
  {
    seq(|NAV_ITEMS|, k requires 0 <= k < |NAV_ITEMS| =>
      var item := NAV_ITEMS[k];
      var active := IsItemActive(pathname, item);
      var account := item.kind == LoginItem && isSignedIn;
      NavLink(if account then "/settings" else item.href, if account then "Account" else item.caption,
              item.kind, active, StyleOf(item, active, hasAccess))
    )
  }
}
