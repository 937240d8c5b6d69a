/** The navigation sidebar (components/sidebar.tsx): five fixed routes, the
    rule that marks the current one, and when the sidebar is shown at all. */
module Sidebar {
  import opened Common

  datatype Route = Route(title: string, href: string, active: bool)

  /** The routes in the order they are listed. Invoices is active on every
      path under it (the detail, print and download pages); the others only
      on their exact path. */
  function Routes(pathname: string): (rs: seq<Route>)
    ensures |rs| == 5
    ensures rs[0].title == "Dashboard" && rs[0].href == "/"
    ensures rs[1].title == "Inventory" && rs[1].href == "/inventory"
    ensures rs[2].title == "Categories" && rs[2].href == "/categories"
    ensures rs[3].title == "Sales" && rs[3].href == "/sales"
    ensures rs[4].title == "Invoices" && rs[4].href == "/invoices"
    ensures forall i :: 0 <= i < 4 ==> (rs[i].active <==> pathname == rs[i].href)
    ensures rs[4].active <==> rs[4].href <= pathname
  {
    [ Route("Dashboard", "/", pathname == "/"),
      Route("Inventory", "/inventory", pathname == "/inventory"),
      Route("Categories", "/categories", pathname == "/categories"),
      Route("Sales", "/sales", pathname == "/sales"),
      Route("Invoices", "/invoices", "/invoices" <= pathname) ]
  }

  /** Whatever the path, at most one route is highlighted. */
  lemma AtMostOneActive(pathname: string)
    ensures forall i, j :: 0 <= i < j < 5 && Routes(pathname)[i].active ==> !Routes(pathname)[j].active
  {
    var rs := Routes(pathname);
    if "/invoices" <= pathname {
      assert pathname[..9] == "/invoices";
      assert pathname != "/inventory" by { assert "/inventory"[4] != pathname[4]; }
      assert pathname != "/categories" by { assert "/categories"[1] != pathname[1]; }
      assert pathname != "/sales" by { assert "/sales"[1] != pathname[1]; }
      assert pathname != "/";
    }
  }

  /** Each page of the console highlights its own route. */
  lemma EveryPageHighlightsItsRoute(id: string)
    ensures forall i :: 0 <= i < 5 ==> Routes(Routes("")[i].href)[i].active
    ensures Routes("/invoices/" + id)[4].active
    ensures Routes("/invoices/" + id + "/print")[4].active
    ensures Routes("/invoices/" + id + "/download")[4].active
  {
    assert "/invoices" <= "/invoices/" + id;
    assert "/invoices" <= "/invoices/" + id + "/print";
    assert "/invoices" <= "/invoices/" + id + "/download";
  }

  /** How the sidebar is laid out when it is rendered. */
  datatype Layout = Layout(slidIn: bool, overlay: bool, collapseButton: bool)

  /** Nothing on a closed mobile sidebar; otherwise slid in when open,
      overlaying the page on mobile, with the collapse button on desktop. */
  function Render(isMobile: bool, isOpen: bool): (r: Option<Layout>)
    ensures r.None? <==> isMobile && !isOpen
    ensures r.Some? ==> r.value.slidIn == isOpen && r.value.overlay == isMobile && r.value.collapseButton == !isMobile
    ensures isMobile && r.Some? ==> r.value.slidIn
  {
    if isMobile && !isOpen then None
    else Some(Layout(isOpen, isMobile, !isMobile))
  }
}
