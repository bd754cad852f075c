/**
 * The bottom bar for small screens
 * (src/components/layout/MobileNavigation.tsx): the desktop table without
 * the `exact` flag, where `/` is instead special-cased in `isActive`.
 */
module MobileNavigation {
  import opened Wrappers
  import opened Seqs
  import opened Domain
  import opened Sidebar

  /** `isActive`: `/` only on `/` itself, every other path by prefix. */
  predicate BottomActive(href: string, pathname: string)
  {
    if href == "/" then pathname == "/" else PrefixActive(href, pathname)
  }

  /** The bar's table; its entries carry no `exact` flag. */
  const BottomItems: seq<NavItem> := [
    NavItem("Dashboard", "/", false, None),
    NavItem("Echipe", "/teams", false, Some(OwnerOrManager)),
    NavItem("Sarcini", "/tasks", false, None),
    NavItem("Comenzi", "/orders", false, None),
    NavItem("Timp liber", "/timeoff", false, None)
  ]

  /** The links the bar renders, left to right. */
  function BottomLinks(user: Option<User>, pathname: string): (r: seq<Link>)
    ensures |r| == |VisibleItems(BottomItems, user)|
    ensures forall k :: 0 <= k < |r| ==>
      var item := VisibleItems(BottomItems, user)[k];
      r[k] == Link(item.name, item.href, BottomActive(item.href, pathname))
  {
    var v := VisibleItems(BottomItems, user);
    seq(|v|, k requires 0 <= k < |v| => Link(v[k].name, v[k].href, BottomActive(v[k].href, pathname)))
  }

  /** Only the teams entry is restricted. */
  lemma OnlyTeamsRestricted()
    ensures forall k :: 0 <= k < |BottomItems| ==> (BottomItems[k].roles.Some? <==> BottomItems[k].href == "/teams")
  {
  }

  /** The bar's `/` special case and the sidebar's `exact` flag mark the same entries. */
  lemma ActiveAgreesWithSidebar(k: nat, pathname: string)
    requires k < |BottomItems|
    ensures BottomActive(BottomItems[k].href, pathname) == ItemActive(NavItems[k], pathname)
  {
  }

  /** Whoever is neither owner nor manager loses exactly the teams entry of the bar. */
  lemma BottomWithoutTeams(user: Option<User>)
    requires !HasRole(user, OwnerOrManager)
    ensures VisibleItems(BottomItems, user) == BottomItems[..1] + BottomItems[2..]
  {
    assert forall j :: 0 <= j < |BottomItems| && j != 1 ==> BottomItems[j].roles.None? by {
      forall j | 0 <= j < |BottomItems| && j != 1
        ensures BottomItems[j].roles.None?
      {
        assert j == 0 || j == 2 || j == 3 || j == 4;
      }
    }
    HidesOnlyRestricted(BottomItems, user, 1);
  }

  /** Both tables keep the same positions for every user. */
  lemma SameVisiblePositions(user: Option<User>)
    ensures HasRole(user, OwnerOrManager) ==>
      VisibleItems(BottomItems, user) == BottomItems && VisibleItems(NavItems, user) == NavItems
    ensures !HasRole(user, OwnerOrManager) ==>
      && VisibleItems(BottomItems, user) == BottomItems[..1] + BottomItems[2..]
      && VisibleItems(NavItems, user) == NavItems[..1] + NavItems[2..]
  {
    if HasRole(user, OwnerOrManager) {
      FilterKeepsAll(BottomItems, VisibleTo(user));
      FilterKeepsAll(NavItems, VisibleTo(user));
    } else {
      BottomWithoutTeams(user);
      SidebarWithoutTeams(user);
    }
  }

  /** Position by position, the visible entries of both tables have the same name, target and marking. */
  predicate AgreeAt(b: seq<NavItem>, s: seq<NavItem>, pathname: string, k: int)
    requires 0 <= k < |b| && k < |s|
  {
    b[k].name == s[k].name && b[k].href == s[k].href && BottomActive(b[k].href, pathname) == ItemActive(s[k], pathname)
  }

  lemma AgreeForOwnersAndManagers(user: Option<User>, pathname: string)
    requires HasRole(user, OwnerOrManager)
    ensures var b := VisibleItems(BottomItems, user); var s := VisibleItems(NavItems, user);
      |b| == |s| && forall k :: 0 <= k < |b| ==> AgreeAt(b, s, pathname, k)
  {
    SameVisiblePositions(user);
    forall k | 0 <= k < |BottomItems| ensures AgreeAt(BottomItems, NavItems, pathname, k) {
      ActiveAgreesWithSidebar(k, pathname);
    }
  }

  lemma AgreeForOthers(user: Option<User>, pathname: string)
    requires !HasRole(user, OwnerOrManager)
    ensures var b := VisibleItems(BottomItems, user); var s := VisibleItems(NavItems, user);
      |b| == |s| && forall k :: 0 <= k < |b| ==> AgreeAt(b, s, pathname, k)
  {
    SameVisiblePositions(user);
    var b := VisibleItems(BottomItems, user);
    var s := VisibleItems(NavItems, user);
    forall k | 0 <= k < |b| ensures AgreeAt(b, s, pathname, k) {
      var j := if k == 0 then 0 else k + 1;
      DropOneAt(BottomItems, 1, k);
      DropOneAt(NavItems, 1, k);
      ActiveAgreesWithSidebar(j, pathname);
    }
  }

  /** The bottom bar renders exactly the links of the sidebar's main section. */
  lemma BottomBarMatchesSidebar(user: Option<User>, pathname: string)
    ensures BottomLinks(user, pathname) == MainLinks(NavItems, user, pathname)
  {
    var b := VisibleItems(BottomItems, user);
    var s := VisibleItems(NavItems, user);
    if HasRole(user, OwnerOrManager) {
      AgreeForOwnersAndManagers(user, pathname);
    } else {
      AgreeForOthers(user, pathname);
    }
    var bl := BottomLinks(user, pathname);
    var ml := MainLinks(NavItems, user, pathname);
    assert |bl| == |ml|;
    forall k | 0 <= k < |bl| ensures bl[k] == ml[k] {
      assert AgreeAt(b, s, pathname, k);
    }
  }
}
