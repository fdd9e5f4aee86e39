/** The side menu (src/components/Sidebar.js): the eight entries, each with
    the roles that see it, filtered by the logged-in user's role. */
module Sidebar {
  import opened Seqs
  import opened Domain
  import opened App

  datatype MenuItem = MenuItem(id: string, view: string, roles: seq<string>)

  const AdminVendedor: seq<string> := ["admin", "vendedor"]
  const AdminOnly: seq<string> := ["admin"]

  /** `menuItems`, in the order the menu lists them. */
  const MenuItems: seq<MenuItem> := [
    MenuItem("dashboard", "dashboard", AdminVendedor),
    MenuItem("usuarios", "usuarios", AdminOnly),
    MenuItem("productos", "productos", AdminVendedor),
    MenuItem("proveedores", "proveedores", AdminOnly),
    MenuItem("categorias", "categorias", AdminVendedor),
    MenuItem("ventas", "ventas", AdminVendedor),
    MenuItem("historial", "historial", AdminVendedor),
    MenuItem("corte", "corte", AdminVendedor)
  ]

  /** `item.roles.includes(currentUser?.rol)`: with no user the role is
      undefined, which no entry lists. */
  function ShownTo(currentUser: Option<User>, item: MenuItem): bool {
    currentUser.Some? && currentUser.value.rol in item.roles
  }

  /** `filteredMenuItems` */
  function FilteredMenuItems(currentUser: Option<User>): (r: seq<MenuItem>)
    ensures forall item | item in r :: item in MenuItems && currentUser.Some? && currentUser.value.rol in item.roles
    ensures forall k :: 0 <= k < |MenuItems| && ShownTo(currentUser, MenuItems[k]) ==> MenuItems[k] in r
  {
    Filter(MenuItems, (item: MenuItem) => ShownTo(currentUser, item))
  }

  /** The entries keep menu order: split the menu anywhere, and the user's
      entries are those shown from the first part, then those from the rest. */
  lemma MenuKeepsOrder(currentUser: Option<User>, k: int)
    requires 0 <= k <= |MenuItems|
    ensures FilteredMenuItems(currentUser) ==
              Filter(MenuItems[..k], (item: MenuItem) => ShownTo(currentUser, item)) +
              Filter(MenuItems[k..], (item: MenuItem) => ShownTo(currentUser, item))
  {
    assert MenuItems == MenuItems[..k] + MenuItems[k..];
    FilterConcat(MenuItems[..k], MenuItems[k..], (item: MenuItem) => ShownTo(currentUser, item));
  }

  /** An administrator sees the whole menu. */
  lemma AdminSeesAll(u: User)
    requires u.rol == "admin"
    ensures FilteredMenuItems(Some(u)) == MenuItems
    ensures |FilteredMenuItems(Some(u))| == 8
  {
    assert forall k :: 0 <= k < |MenuItems| ==> "admin" in MenuItems[k].roles;
    FilterAll(MenuItems, (item: MenuItem) => ShownTo(Some(u), item));
  }

  /** A seller sees six entries, neither 'usuarios' nor 'proveedores' among
      them. */
  lemma VendedorSeesSix(u: User)
    requires u.rol == "vendedor"
    ensures |FilteredMenuItems(Some(u))| == 6
    ensures forall item | item in FilteredMenuItems(Some(u)) :: item.view != "usuarios" && item.view != "proveedores"
  {
    var p := (item: MenuItem) => ShownTo(Some(u), item);
    var m := MenuItems;
    assert "vendedor" == AdminVendedor[1];
    assert "vendedor" !in AdminOnly;
    assert p(m[0]) && !p(m[1]) && p(m[2]) && !p(m[3]) && p(m[4]) && p(m[5]) && p(m[6]) && p(m[7]);
    ShownSuffixes(m, p);
    NonAdminSeesNoAdminView(u);
  }

  /** No user but an administrator is offered 'usuarios' or 'proveedores'. */
  lemma NonAdminSeesNoAdminView(u: User)
    requires u.rol != "admin"
    ensures forall item | item in FilteredMenuItems(Some(u)) :: item.view != "usuarios" && item.view != "proveedores"
  {
    forall item | item in FilteredMenuItems(Some(u)) ensures item.view != "usuarios" && item.view != "proveedores" {
      var k :| 0 <= k < |MenuItems| && MenuItems[k] == item;
      MenuEntry(k);
      assert item.roles != AdminOnly;
    }
  }

  /** Each entry is either for administrators only, and then leads to one of
      the two administrator views, or for both roles and leads elsewhere. */
  lemma MenuEntry(k: int)
    requires 0 <= k < |MenuItems|
    ensures MenuItems[k].roles == AdminOnly || MenuItems[k].roles == AdminVendedor
    ensures MenuItems[k].roles == AdminVendedor ==>
              MenuItems[k].view != "usuarios" && MenuItems[k].view != "proveedores"
  {
    var m := MenuItems;
    if k == 0 { assert m[k].view == "dashboard"; }
    else if k == 1 { }
    else if k == 2 { assert m[k].view == "productos"; }
    else if k == 3 { }
    else if k == 4 { assert m[k].view == "categorias"; }
    else if k == 5 { assert m[k].view == "ventas"; }
    else if k == 6 { assert m[k].view == "historial"; }
    else { assert m[k].view == "corte"; }
  }

  /** The seller's filter, one menu entry at a time from the end. */
  lemma ShownSuffixes(m: seq<MenuItem>, p: MenuItem -> bool)
    requires |m| == 8
    requires p(m[0]) && !p(m[1]) && p(m[2]) && !p(m[3]) && p(m[4]) && p(m[5]) && p(m[6]) && p(m[7])
    ensures |Filter(m, p)| == 6
  {
    var t7 := Filter(m[7..], p);
    var t6 := Filter(m[6..], p);
    var t5 := Filter(m[5..], p);
    var t4 := Filter(m[4..], p);
    var t3 := Filter(m[3..], p);
    var t2 := Filter(m[2..], p);
    var t1 := Filter(m[1..], p);
    assert t7 == [m[7]] by {
      assert m[7..][1..] == [];
      FilterCons(m[7..], p);
    }
    assert t6 == [m[6]] + t7 by {
      assert m[6..][1..] == m[7..];
      FilterCons(m[6..], p);
    }
    assert t5 == [m[5]] + t6 by {
      assert m[5..][1..] == m[6..];
      FilterCons(m[5..], p);
    }
    assert t4 == [m[4]] + t5 by {
      assert m[4..][1..] == m[5..];
      FilterCons(m[4..], p);
    }
    assert t3 == t4 by {
      assert m[3..][1..] == m[4..];
      FilterCons(m[3..], p);
    }
    assert t2 == [m[2]] + t3 by {
      assert m[2..][1..] == m[3..];
      FilterCons(m[2..], p);
    }
    assert t1 == t2 by {
      assert m[1..][1..] == m[2..];
      FilterCons(m[1..], p);
    }
    assert Filter(m, p) == [m[0]] + t1 by {
      FilterCons(m, p);
    }
  }

  /** With no user logged in the menu is empty. */
  lemma NoUserNoMenu()
    ensures FilteredMenuItems(None) == []
  {
    FilterNone(MenuItems, (item: MenuItem) => ShownTo(None, item));
  }

  /** Every entry the menu shows leads to a view `checkAccess` allows, so
      the sidebar never offers a view that `handleViewChange` refuses. */
  lemma MenuAgreesWithAccess(currentUser: Option<User>)
    ensures forall item | item in FilteredMenuItems(currentUser) :: CheckAccess(currentUser, item.view)
  {
    forall item | item in FilteredMenuItems(currentUser) ensures CheckAccess(currentUser, item.view) {
      var k :| 0 <= k < |MenuItems| && MenuItems[k] == item;
      MenuEntry(k);
      if currentUser.value.rol != "admin" {
        assert item.roles != AdminOnly;
      }
    }
  }
}
