/**
 * The admin sidebar (src/components/admin/Sidebar.js) and the routes the
 * admin dashboard (src/Pages/AdminDashboard.js) mounts for each role.
 */
module Sidebar {
  import opened Common
  import ProtectedRoute

  datatype SidebarLink = SidebarLink(path: string, text: string)

  const ProductManager := "Product Manager"
  const SalesManager := "Sales Manager"

  const ProductManagerLinks: seq<SidebarLink> := [
    SidebarLink("products", "Products"),
    SidebarLink("stock", "Stock"),
    SidebarLink("deliveries", "Deliveries"),
    SidebarLink("comments", "Comments")
  ]

  const SalesManagerLinks: seq<SidebarLink> := [
    SidebarLink("pricing", "Pricing"),
    SidebarLink("discounts", "Discounts"),
    SidebarLink("invoices", "Invoices"),
    SidebarLink("analytics", "Analytics"),
    SidebarLink("returns", "Returns")
  ]

  /** The links for `userRole`: the product manager's list for that exact
      role, the sales manager's list for any other role or none. */
  function Links(userRole: Option<string>): (links: seq<SidebarLink>)
    ensures userRole == Some(ProductManager) ==> links == ProductManagerLinks
    ensures userRole != Some(ProductManager) ==> links == SalesManagerLinks
  {
    if userRole == Some(ProductManager) then ProductManagerLinks else SalesManagerLinks
  }

  /** The `to` of a link. */
  function Target(link: SidebarLink): (to: string)
    ensures |to| == 7 + |link.path| && to[..7] == "/admin/" && to[7..] == link.path
  {
    "/admin/" + link.path
  }

  function Paths(links: seq<SidebarLink>): (paths: seq<string>)
    ensures |paths| == |links| && forall k :: 0 <= k < |links| ==> paths[k] == links[k].path
  {
    seq(|links|, k requires 0 <= k < |links| => links[k].path)
  }

  /** Whatever the role, the paths are exactly one of the two lists, in
      order, and no path repeats, so the link keys are distinct. */
  lemma LinksForRole(userRole: Option<string>)
    ensures userRole == Some(ProductManager) ==>
              Paths(Links(userRole)) == ["products", "stock", "deliveries", "comments"]
    ensures userRole != Some(ProductManager) ==>
              Paths(Links(userRole)) == ["pricing", "discounts", "invoices", "analytics", "returns"]
    ensures forall k, l :: 0 <= k < l < |Links(userRole)| ==> Links(userRole)[k].path != Links(userRole)[l].path
  {
  }

  /** Two links with distinct paths have distinct targets. */
  lemma TargetsDistinct(a: SidebarLink, b: SidebarLink)
    requires a.path != b.path
    ensures Target(a) != Target(b)
  {
    assert Target(a)[7..] == a.path;
  }

  /** The nested routes `AdminDashboard` mounts for a role: none for a role
      other than the two managers. */
  function RoutedPaths(userRole: Option<string>): (paths: set<string>)
    ensures userRole == Some(ProductManager) ==> paths == {"products", "stock", "deliveries", "comments"}
    ensures userRole == Some(SalesManager) ==> paths == {"pricing", "discounts", "invoices", "analytics", "returns"}
    ensures userRole != Some(ProductManager) && userRole != Some(SalesManager) ==> paths == {}
  {
    var productRoutes: set<string> := {"products", "stock", "deliveries", "comments"};
    var salesRoutes: set<string> := {"pricing", "discounts", "invoices", "analytics", "returns"};
    if userRole == Some(ProductManager) then productRoutes
    else if userRole == Some(SalesManager) then salesRoutes
    else {}
  }

  /** The role list of the admin route in src/App.js. */
  const AdminRoles := [ProductManager, SalesManager]

  /** Every sidebar link a user who passes the admin guard sees leads to a
      mounted route. */
  lemma SidebarLinksAreRouted(user: User, k: nat)
    requires ProtectedRoute.Guard(false, Some(user), Some(AdminRoles)) == ProtectedRoute.RenderChildren
    requires k < |Links(user.role)|
    ensures Links(user.role)[k].path in RoutedPaths(user.role)
  {
    assert user.role == Some(ProductManager) || user.role == Some(SalesManager);
  }

  /** Without that guard the sidebar would show the sales links to a user
      with any other role while the dashboard mounts no route for them. */
  lemma OtherRoleSeesUnroutedLinks(userRole: Option<string>)
    requires userRole != Some(ProductManager) && userRole != Some(SalesManager)
    ensures |Links(userRole)| == 5 && RoutedPaths(userRole) == {}
  {
  }
}
