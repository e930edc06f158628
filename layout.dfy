/// The application frame (components/Layout.tsx): which tabs a user may open,
/// the menu built from them, and the heading shown for the open tab.
module Layout {
  import opened Seqs
  import opened Types

  /** `getTabLabel`: the heading of each tab, never empty. */
  function TabLabel(tab: MainTab): (heading: string)
    ensures heading != ""
  {
    match tab
    case Production => "Production"
    case PrestationProd => "Prestations de Production"
    case PrestationEtuvage => "Étuvage"
    case Stock => "Stocks"
    case Insights => "Analyses IA"
    case Management => "Gestion"
  }

  /** No two tabs share a heading. */
  lemma TabLabelInjective(a: MainTab, b: MainTab)
    requires TabLabel(a) == TabLabel(b)
    ensures a == b
  {
  }

  /**
    * `isTabAllowed`: an administrator may open every tab; anyone else never
    * the management tab, and any other tab exactly when it was granted.
    */
  function IsTabAllowed(user: User, tab: MainTab): (allowed: bool)
    ensures user.role == Admin ==> allowed
    ensures tab == Management ==> (allowed <==> user.role == Admin)
    ensures user.role != Admin && tab != Management ==> (allowed <==> tab in user.allowedTabs)
  {
    if user.role == Admin then true
    else if tab == Management then false
    else tab in user.allowedTabs
  }

  /** A menu entry: the tab it opens, its caption, and whether it is shown. */
  datatype MenuItem = MenuItem(id: MainTab, caption: string, allowed: bool)

  /**
    * `menuItems`: the six entries in their fixed order. The management entry
    * tests the role directly instead of calling `isTabAllowed`.
    */
  function MenuItems(user: User): (r: seq<MenuItem>)
    ensures MapSeq(r, (i: MenuItem) => i.id) == AllTabs
  {
    var r := [
      MenuItem(Production, "Production", IsTabAllowed(user, Production)),
      MenuItem(PrestationProd, "Prestations", IsTabAllowed(user, PrestationProd)),
      MenuItem(PrestationEtuvage, "Étuvage", IsTabAllowed(user, PrestationEtuvage)),
      MenuItem(Stock, "Stocks", IsTabAllowed(user, Stock)),
      MenuItem(Insights, "Analyses IA", IsTabAllowed(user, Insights)),
      MenuItem(Management, "Gestion", user.role == Admin)];
    assert MapSeq(r, (i: MenuItem) => i.id) == AllTabs;
    r
  }

  function Shown(i: MenuItem): bool { i.allowed }

  /**
    * `menuItems.filter(item => item.allowed)`: the sidebar and the bottom
    * bar, at most one entry per tab, each one a tab the user may open.
    */
  function VisibleMenu(user: User): (r: seq<MenuItem>)
    ensures |r| <= |AllTabs|
    ensures forall i :: i in r ==> i.allowed && IsTabAllowed(user, i.id)
  {
    MenuAgreesWithPermissions(user);
    Keep(MenuItems(user), Shown)
  }

  /** Every entry's `allowed` flag agrees with `isTabAllowed` for its tab, the management entry included. */
  lemma MenuAgreesWithPermissions(user: User)
    ensures forall i :: i in MenuItems(user) ==> (i.allowed <==> IsTabAllowed(user, i.id))
  {
  }

  /**
    * The visible menu offers exactly the tabs the user may open, in the fixed
    * order of the tab list.
    */
  lemma {:induction false} VisibleMenuTabs(user: User)
    ensures MapSeq(VisibleMenu(user), (i: MenuItem) => i.id) == Keep(AllTabs, (t: MainTab) => IsTabAllowed(user, t))
  {
    var items := MenuItems(user);
    var id := (i: MenuItem) => i.id;
    var allowed := (t: MainTab) => IsTabAllowed(user, t);
    MenuAgreesWithPermissions(user);
    forall n | 0 <= n <= |items|
      ensures MapSeq(Keep(items[..n], Shown), id) == Keep(MapSeq(items[..n], id), allowed)
    {
      KeepMapPrefix(items, id, allowed, n);
    }
    assert items[..|items|] == items;
  }

  /** Filtering entries and then taking their tabs is taking their tabs and then filtering, prefix by prefix. */
  lemma {:induction false} KeepMapPrefix(items: seq<MenuItem>, id: MenuItem -> MainTab, allowed: MainTab -> bool, n: nat)
    requires n <= |items|
    requires forall i :: i in items ==> (Shown(i) <==> allowed(id(i)))
    ensures MapSeq(Keep(items[..n], Shown), id) == Keep(MapSeq(items[..n], id), allowed)
    decreases n
  {
    if n > 0 {
      var x := items[n - 1];
      assert items[..n] == items[..n - 1] + [x];
      KeepMapPrefix(items, id, allowed, n - 1);
      KeepSnoc(items[..n - 1], x, Shown);
      MapSeqSnoc(items[..n - 1], x, id);
      KeepSnoc(MapSeq(items[..n - 1], id), id(x), allowed);
      if Shown(x) {
        MapSeqSnoc(Keep(items[..n - 1], Shown), x, id);
      }
    }
  }

  /** An administrator sees the whole menu. */
  lemma AdminSeesEverything(user: User)
    requires user.role == Admin
    ensures VisibleMenu(user) == MenuItems(user)
  {
    KeepAll(MenuItems(user), Shown);
  }

  /** Whatever was granted, an operator's menu never offers the management tab. */
  lemma OperatorNeverManages(user: User)
    requires user.role == Operator
    ensures forall i :: i in VisibleMenu(user) ==> i.id != Management
  {
  }
}
