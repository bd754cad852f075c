/**
 * The desktop navigation (src/components/layout/Sidebar.tsx): a table of
 * links, each possibly restricted to roles, shown in table order and marked
 * active by equality (`exact` items) or by path prefix; plus the
 * administration section for owners and managers.
 */
module Sidebar {
  import opened Wrappers
  import opened Seqs
  import opened Domain

  /** One entry of a navigation table; `roles` is `None` when the entry has no `roles` array. */
  datatype NavItem = NavItem(name: string, href: string, exact: bool, roles: Option<seq<Role>>)

  /** A rendered link. */
  datatype Link = Link(name: string, href: string, active: bool)

  /** The item is rendered unless it has roles and there is no user or the user's role is not listed. */
  predicate Visible(item: NavItem, user: Option<User>)
  {
    !(item.roles.Some? && (user.None? || user.value.role !in item.roles.value))
  }

  function VisibleTo(user: Option<User>): NavItem -> bool
  {
    item => Visible(item, user)
  }

  /** The items the `map` keeps (the others render as `null`), in table order. */
  function VisibleItems(items: seq<NavItem>, user: Option<User>): (r: seq<NavItem>)
    ensures forall item :: item in r ==> item in items && (item.roles.None? || HasRole(user, item.roles.value))
    ensures forall item :: item in items && item.roles.None? ==> item in r
    ensures forall item :: item in items && item.roles.Some? && HasRole(user, item.roles.value) ==> item in r
  {
    Filter(items, VisibleTo(user))
  }

  /** The visible items appear in the order of the table. */
  lemma VisibleItemsKeepTableOrder(items: seq<NavItem>, user: Option<User>) returns (idx: seq<nat>)
    ensures |idx| == |VisibleItems(items, user)|
    ensures forall k :: 0 <= k < |idx| ==> idx[k] < |items| && items[idx[k]] == VisibleItems(items, user)[k]
    ensures forall k, l :: 0 <= k < l < |idx| ==> idx[k] < idx[l]
  {
    idx := FilterPreservesOrder(items, VisibleTo(user));
  }

  /** `isActive(path)`: the pathname starts with the path. */
  predicate PrefixActive(href: string, pathname: string)
  {
    StartsWith(pathname, href)
  }

  /** How a main item is marked: `item.exact ? pathname === href : isActive(href)`. */
  predicate ItemActive(item: NavItem, pathname: string)
  {
    if item.exact then pathname == item.href else PrefixActive(item.href, pathname)
  }

  function MainLinks(items: seq<NavItem>, user: Option<User>, pathname: string): (r: seq<Link>)
    ensures |r| == |VisibleItems(items, user)|
    ensures forall k :: 0 <= k < |r| ==>
      var item := VisibleItems(items, user)[k];
      r[k] == Link(item.name, item.href, ItemActive(item, pathname))
  {
    var v := VisibleItems(items, user);
    seq(|v|, k requires 0 <= k < |v| => Link(v[k].name, v[k].href, ItemActive(v[k], pathname)))
  }

  function AdminLinks(items: seq<NavItem>, user: Option<User>, pathname: string): (r: seq<Link>)
    ensures |r| == |VisibleItems(items, user)|
    ensures forall k :: 0 <= k < |r| ==>
      var item := VisibleItems(items, user)[k];
      r[k] == Link(item.name, item.href, PrefixActive(item.href, pathname))
  {
    var v := VisibleItems(items, user);
    seq(|v|, k requires 0 <= k < |v| => Link(v[k].name, v[k].href, PrefixActive(v[k].href, pathname)))
  }

  const OwnerOrManager: seq<Role> := [Owner, Manager]

  const NavItems: seq<NavItem> := [
    NavItem("Dashboard", "/", true, None),
    NavItem("Echipe", "/teams", false, Some(OwnerOrManager)),
    NavItem("Sarcini", "/tasks", false, None),
    NavItem("Comenzi", "/orders", false, None),
    NavItem("Timp liber", "/timeoff", false, None)
  ]

  /** The company settings link of the administration section. */
  function AdminItems(companyId: string): (r: seq<NavItem>)
    ensures |r| == 1 && r[0].name == "Setări firmă" && r[0].href == "/company/" + companyId
    ensures !r[0].exact && r[0].roles == Some(OwnerOrManager)
  {
    [NavItem("Setări firmă", "/company/" + companyId, false, Some(OwnerOrManager))]
  }

  /** `user && (user.role === OWNER || user.role === MANAGER)`. */
  predicate ShowsAdminSection(user: Option<User>)
  {
    user.Some? && (user.value.role == Owner || user.value.role == Manager)
  }

  /** Every link the sidebar renders for this user at this pathname, top to bottom. */
  function SidebarLinks(user: Option<User>, pathname: string): (r: seq<Link>)
    ensures ShowsAdminSection(user) ==> |r| == |VisibleItems(NavItems, user)| + 1
    ensures !ShowsAdminSection(user) ==> |r| == |VisibleItems(NavItems, user)|
    ensures var main := MainLinks(NavItems, user, pathname);
      r[..|main|] == main
      && (ShowsAdminSection(user) ==> r[|main|..] == AdminLinks(AdminItems(CompanyIdText(user)), user, pathname))
      && (!ShowsAdminSection(user) ==> r == main)
  {
    MainLinks(NavItems, user, pathname)
      + (if ShowsAdminSection(user) then AdminLinks(AdminItems(CompanyIdText(user)), user, pathname) else [])
  }

  /** The administration section shows exactly for owners and managers. */
  lemma AdminSectionForOwnersAndManagers(user: Option<User>)
    ensures ShowsAdminSection(user) <==> HasRole(user, OwnerOrManager)
  {
  }

  /**
   * Inside the administration section the settings link is always visible
   * and points at the user's company, or at `/company/undefined` for an
   * owner or manager who has no company yet.
   */
  lemma AdminLinkWhenShown(user: Option<User>, pathname: string)
    requires ShowsAdminSection(user)
    ensures var links := SidebarLinks(user, pathname);
      var href := "/company/" + CompanyIdText(user);
      links[|links| - 1] == Link("Setări firmă", href, StartsWith(pathname, href))
  {
    var items := AdminItems(CompanyIdText(user));
    assert Visible(items[0], user);
    assert VisibleItems(items, user) == items;
    var links := SidebarLinks(user, pathname);
    var admin := AdminLinks(items, user, pathname);
    assert links[|links| - |admin|..] == admin;
    assert links[|links| - 1] == admin[0];
  }

  /** The dashboard link is active only on `/` itself, although every path starts with `/`. */
  lemma DashboardActiveOnlyAtRoot(pathname: string)
    ensures ItemActive(NavItems[0], pathname) <==> pathname == "/"
  {
  }

  /** A technician sees dashboard, tasks, orders and time off, in that order, and no administration. */
  lemma TechnicianSidebar(user: User)
    requires user.role == Technician
    ensures VisibleItems(NavItems, Some(user)) == NavItems[..1] + NavItems[2..]
    ensures !ShowsAdminSection(Some(user))
  {
    SidebarWithoutTeams(Some(user));
  }

  /** Whoever is neither owner nor manager loses exactly the teams entry. */
  lemma SidebarWithoutTeams(user: Option<User>)
    requires !HasRole(user, OwnerOrManager)
    ensures VisibleItems(NavItems, user) == NavItems[..1] + NavItems[2..]
  {
    assert forall j :: 0 <= j < |NavItems| && j != 1 ==> NavItems[j].roles.None? by {
      forall j | 0 <= j < |NavItems| && j != 1
        ensures NavItems[j].roles.None?
      {
        assert j == 0 || j == 2 || j == 3 || j == 4;
      }
    }
    HidesOnlyRestricted(NavItems, user, 1);
  }

  /** A table whose one role-restricted entry is hidden from the user shows everything else. */
  lemma HidesOnlyRestricted(items: seq<NavItem>, user: Option<User>, i: nat)
    requires i < |items| && !Visible(items[i], user)
    requires forall j :: 0 <= j < |items| && j != i ==> items[j].roles.None?
    ensures VisibleItems(items, user) == items[..i] + items[i + 1..]
  {
    FilterDropsOne(items, VisibleTo(user), i);
  }

  /** Owners and managers see the whole table. */
  lemma OwnerOrManagerSidebar(user: User)
    requires user.role in OwnerOrManager
    ensures VisibleItems(NavItems, Some(user)) == NavItems
  {
    FilterKeepsAll(NavItems, VisibleTo(Some(user)));
  }
}
