/**
 * The sidebar's menu (src/components/layout/Sidebar.tsx): nine items in a fixed order, each
 * with an access flag computed from the role checks, filtered to those the user may see.
 */
module Sidebar {
  import opened Base
  import opened Schema
  import Seqs
  import Auth

  /** Who an item's access flag admits: everyone, managers (`isManager()`) or admins (`isAdmin()`). */
  datatype Gate = Everyone | Managers | Admins

  datatype NavItem = NavItem(name: string, path: string, gate: Gate)

  /** The entries of `navItems`. */
  const DashboardItem := NavItem("Dashboard", "/dashboard", Everyone)
  const ProductsItem := NavItem("Products", "/products", Everyone)
  const SalesItem := NavItem("Sales", "/sales", Everyone)
  const PurchasesItem := NavItem("Purchases", "/purchases", Managers)
  const CustomersItem := NavItem("Customers", "/customers", Everyone)
  const SuppliersItem := NavItem("Suppliers", "/suppliers", Managers)
  const ReportsItem := NavItem("Reports", "/reports", Managers)
  const UsersItem := NavItem("Users", "/users", Admins)
  const SettingsItem := NavItem("Settings", "/settings", Admins)

  /** `navItems`, in declaration order. */
  const Menu: seq<NavItem> := [
    DashboardItem, ProductsItem, SalesItem, PurchasesItem, CustomersItem,
    SuppliersItem, ReportsItem, UsersItem, SettingsItem
  ]

  /** An item's `access` flag for the current user. */
  predicate Access(user: Option<User>, gate: Gate)
  {
    match gate
    case Everyone => true
    case Managers => Auth.IsManager(user)
    case Admins => Auth.IsAdmin(user)
  }

  function HasAccess(user: Option<User>): (p: NavItem -> bool)
  {
    (item: NavItem) => Access(user, item.gate)
  }

  /** `navItems.filter(item => item.access)` */
  function Visible(user: Option<User>): (items: seq<NavItem>)
  {
    Seqs.Filter(Menu, HasAccess(user))
  }

  /**
   * The menu shows exactly the items the user's role admits, in declaration order; items
   * open to everyone are shown even when nobody is signed in.
   */
  lemma VisibleSpec(user: Option<User>)
    ensures Seqs.IsSubsequence(Visible(user), Menu)
    ensures forall item :: item in Visible(user) <==> item in Menu && Access(user, item.gate)
    ensures forall item :: item in Menu && item.gate == Everyone ==> item in Visible(user)
  {
    Seqs.FilterIsSubsequence(Menu, HasAccess(user));
    forall item ensures item in Visible(user) <==> item in Menu && Access(user, item.gate) {
      Seqs.FilterMembership(Menu, HasAccess(user), item);
    }
  }

  /**
   * A user whose role passes every check another's passes sees everything the other sees,
   * in the same order.
   */
  lemma MoreRightsShowMore(user: Option<User>, other: Option<User>)
    requires Auth.IsManager(user) ==> Auth.IsManager(other)
    requires Auth.IsAdmin(user) ==> Auth.IsAdmin(other)
    ensures Seqs.IsSubsequence(Visible(user), Visible(other))
  {
    Seqs.FilterNarrowing(Menu, HasAccess(user), HasAccess(other));
  }

  /** An admin sees the whole menu. */
  lemma AdminSeesAll(user: Option<User>)
    requires Auth.IsAdmin(user)
    ensures Visible(user) == Menu
  {
    Auth.RoleHierarchy(user);
    forall i | 0 <= i < |Menu| ensures HasAccess(user)(Menu[i]) {
    }
    Seqs.FilterAll(Menu, HasAccess(user));
  }

  /** The menu filtered part by part: the items open to everyone, then the gated runs. */
  lemma VisibleInParts(user: Option<User>)
    ensures Visible(user) ==
      Seqs.Filter(Menu[..3], HasAccess(user)) + Seqs.Filter([Menu[3]], HasAccess(user)) +
      Seqs.Filter([Menu[4]], HasAccess(user)) + Seqs.Filter(Menu[5..7], HasAccess(user)) +
      Seqs.Filter(Menu[7..], HasAccess(user))
  {
    var p := HasAccess(user);
    var a, b, c, d, e := Menu[..3], [Menu[3]], [Menu[4]], Menu[5..7], Menu[7..];
    assert Menu == a + b + c + d + e;
    Seqs.FilterAppend(a + b + c + d, e, p);
    Seqs.FilterAppend(a + b + c, d, p);
    Seqs.FilterAppend(a + b, c, p);
    Seqs.FilterAppend(a, b, p);
  }

  /** A manager who is not an admin sees all but Users and Settings. */
  lemma ManagerSees(user: Option<User>)
    requires Auth.IsManager(user) && !Auth.IsAdmin(user)
    ensures Visible(user) ==
      [DashboardItem, ProductsItem, SalesItem, PurchasesItem, CustomersItem, SuppliersItem, ReportsItem]
  {
    var p := HasAccess(user);
    VisibleInParts(user);
    Seqs.FilterAll(Menu[..3], p);
    Seqs.FilterAll([Menu[3]], p);
    Seqs.FilterAll([Menu[4]], p);
    Seqs.FilterAll(Menu[5..7], p);
    Seqs.FilterNone(Menu[7..], p);
    assert Menu[..3] + [Menu[3]] + [Menu[4]] + Menu[5..7] == Menu[..7];
    assert Visible(user) == Menu[..7];
  }

  /** A cashier, or nobody, sees only Dashboard, Products, Sales and Customers. */
  lemma OthersSee(user: Option<User>)
    requires !Auth.IsManager(user)
    ensures Visible(user) == [DashboardItem, ProductsItem, SalesItem, CustomersItem]
  {
    var p := HasAccess(user);
    Auth.RoleHierarchy(user);
    VisibleInParts(user);
    Seqs.FilterAll(Menu[..3], p);
    Seqs.FilterNone([Menu[3]], p);
    Seqs.FilterAll([Menu[4]], p);
    Seqs.FilterNone(Menu[5..7], p);
    Seqs.FilterNone(Menu[7..], p);
    assert Visible(user) == Menu[..3] + [Menu[4]];
  }

  /**
   * What each role sees: an admin all nine items, a manager all but Users and Settings, and a
   * cashier, or nobody, only Dashboard, Products, Sales and Customers.
   */
  lemma VisibleByRole(user: Option<User>)
    ensures Auth.IsAdmin(user) ==> Visible(user) == Menu && |Visible(user)| == 9
    ensures Auth.IsManager(user) && !Auth.IsAdmin(user) ==>
      Visible(user) == [DashboardItem, ProductsItem, SalesItem, PurchasesItem, CustomersItem, SuppliersItem, ReportsItem]
    ensures !Auth.IsManager(user) ==> Visible(user) == [DashboardItem, ProductsItem, SalesItem, CustomersItem]
  {
    if Auth.IsAdmin(user) {
      AdminSeesAll(user);
    } else if Auth.IsManager(user) {
      ManagerSees(user);
    } else {
      OthersSee(user);
    }
  }
}
