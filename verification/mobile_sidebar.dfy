/**
 * The drawer navigation for small screens
 * (src/components/layout/MobileSidebar.tsx): the desktop table plus an
 * invitations entry, the same administration section, and a logout button
 * that also closes the drawer.
 */
module MobileSidebar {
  import opened Wrappers
  import opened Seqs
  import opened Domain
  import opened Sidebar
  import AuthContext
  import ProtectedRoute

  /** The invitations entry, the one entry the drawer adds to the desktop table. */
  function InvitationsItem(user: Option<User>): (item: NavItem)
    ensures item.name == "Invitații" && !item.exact && item.roles == Some(OwnerOrManager)
    ensures CompanyOf(user).Some? ==> item.href == "/invitations/" + user.value.companyId
    ensures CompanyOf(user).None? ==> item.href == "/invitations/undefined"
  {
    NavItem("Invitații", "/invitations/" + CompanyIdText(user), false, Some(OwnerOrManager))
  }

  /** The drawer's table: the desktop entries in the same order, then invitations. */
  function MobileNavItems(user: Option<User>): (r: seq<NavItem>)
    ensures |r| == |NavItems| + 1 && r[..|NavItems|] == NavItems && r[|NavItems|] == InvitationsItem(user)
  {
    NavItems + [InvitationsItem(user)]
  }

  /** Every link the drawer renders for this user at this pathname, top to bottom. */
  function MobileSidebarLinks(user: Option<User>, pathname: string): (r: seq<Link>)
    ensures ShowsAdminSection(user) ==> |r| == |VisibleItems(MobileNavItems(user), user)| + 1
    ensures !ShowsAdminSection(user) ==> |r| == |VisibleItems(MobileNavItems(user), user)|
    ensures var main := MainLinks(MobileNavItems(user), user, pathname);
      r[..|main|] == main
      && (ShowsAdminSection(user) ==> r[|main|..] == AdminLinks(AdminItems(CompanyIdText(user)), user, pathname))
      && (!ShowsAdminSection(user) ==> r == main)
  {
    MainLinks(MobileNavItems(user), user, pathname)
      + (if ShowsAdminSection(user) then AdminLinks(AdminItems(CompanyIdText(user)), user, pathname) else [])
  }

  /** The drawer shows what the sidebar shows, then invitations for owners and managers only. */
  lemma MobileSeesSidebarPlusInvitations(user: Option<User>)
    ensures VisibleItems(MobileNavItems(user), user)
      == VisibleItems(NavItems, user) + (if HasRole(user, OwnerOrManager) then [InvitationsItem(user)] else [])
  {
    FilterSnoc(NavItems, InvitationsItem(user), VisibleTo(user));
  }

  /** The invitations entry is shown exactly to the users the invitations route admits. */
  lemma InvitationsEntryMatchesRoute(user: User, location: string)
    ensures Visible(InvitationsItem(Some(user)), Some(user))
      <==> ProtectedRoute.Admits(ProtectedRoute.Guard(false, Some(user), Some(ProtectedRoute.InvitationsRoles), true, location))
  {
  }

  /**
   * For owners and managers the drawer renders the sidebar's links with the
   * invitations link between the main entries and the administration
   * section; for everybody else it renders exactly the sidebar's links.
   */
  lemma MobileLinksExtendSidebarLinks(user: Option<User>, pathname: string)
    ensures !HasRole(user, OwnerOrManager) ==> MobileSidebarLinks(user, pathname) == SidebarLinks(user, pathname)
    ensures HasRole(user, OwnerOrManager) ==>
      var main := MainLinks(NavItems, user, pathname);
      var inv := InvitationsItem(user);
      MobileSidebarLinks(user, pathname)
        == main + [Link(inv.name, inv.href, PrefixActive(inv.href, pathname))]
           + SidebarLinks(user, pathname)[|main|..]
  {
    MobileSeesSidebarPlusInvitations(user);
    var mobile := MainLinks(MobileNavItems(user), user, pathname);
    var main := MainLinks(NavItems, user, pathname);
    var v := VisibleItems(NavItems, user);
    if HasRole(user, OwnerOrManager) {
      var inv := InvitationsItem(user);
      var extra := [Link(inv.name, inv.href, PrefixActive(inv.href, pathname))];
      assert mobile == main + extra by {
        assert |mobile| == |main| + 1;
        forall k | 0 <= k < |mobile|
          ensures mobile[k] == (main + extra)[k]
        {
          if k < |main| {
            assert VisibleItems(MobileNavItems(user), user)[k] == v[k];
          }
        }
      }
    } else {
      assert mobile == main by {
        forall k | 0 <= k < |mobile|
          ensures mobile[k] == main[k]
        {
          assert VisibleItems(MobileNavItems(user), user)[k] == v[k];
        }
      }
    }
  }

  /** `handleLogout`: end the session, then close the drawer when a callback was given. */
  method HandleLogout(auth: AuthContext.AuthProvider, hasOnNavigate: bool) returns (navigated: bool)
    modifies auth
    ensures auth.user == None && auth.storage == AuthContext.LoggedOutStorage(old(auth.storage))
    ensures auth.loading == old(auth.loading) && auth.error == old(auth.error)
    ensures navigated == hasOnNavigate
  {
    auth.Logout();
    navigated := hasOnNavigate;
  }
}
