/**
 * The admin console frame (app/admin/layout.tsx): what it renders for a
 * pathname and the guard's `loading` and `user`, and which menu entry is
 * highlighted.
 */
module AdminLayout {
  import opened Wrappers
  import opened AuthGuard

  const FallbackName: string := "Admin"

  datatype MenuItem = MenuItem(href: string, caption: string)

  const MenuItems: seq<MenuItem> := [
    MenuItem("/admin", "Tổng quan"),
    MenuItem("/admin/categories", "Danh mục"),
    MenuItem("/admin/products", "Sản phẩm"),
    MenuItem("/admin/promotions", "Ưu đãi"),
    MenuItem("/admin/banners", "Banner")
  ]

  datatype MenuEntry = MenuEntry(href: string, caption: string, active: bool)

  /** What the layout returns. */
  datatype View =
    | Children                       // the page alone, no frame
    | Spinner                        // the loading screen
    | Blank                          // `null`
    | Console(displayName: string, email: string, menu: seq<MenuEntry>)

  /** `user?.name || "Admin"`. */
  function DisplayName(u: User): (name: string)
    ensures name != ""
    ensures u.name != "" ==> name == u.name
  {
    if u.name != "" then u.name else FallbackName
  }

  /** The sidebar entries for `pathname`. */
  function Menu(pathname: string): (menu: seq<MenuEntry>)
    ensures |menu| == |MenuItems|
    ensures forall i :: 0 <= i < |menu| ==>
      menu[i].href == MenuItems[i].href && menu[i].caption == MenuItems[i].caption
      && (menu[i].active <==> pathname == MenuItems[i].href)
  {
    seq(|MenuItems|, i requires 0 <= i < |MenuItems| =>
      MenuEntry(MenuItems[i].href, MenuItems[i].caption, pathname == MenuItems[i].href))
  }

  /**
   * The render decision: the login page is shown bare whatever the guard
   * says (`useAuth(true)` still runs there); elsewhere the spinner while
   * loading, nothing without a user, and the console otherwise.
   */
  function Render(pathname: string, loading: bool, user: Option<User>): (v: View)
    ensures pathname == LoginPath ==> v == Children
    ensures pathname != LoginPath && loading ==> v == Spinner
    ensures pathname != LoginPath && !loading && user.None? ==> v == Blank
    ensures v.Console? <==> pathname != LoginPath && !loading && user.Some?
    ensures v.Console? ==>
      v.displayName == DisplayName(user.value) && v.email == user.value.email && v.menu == Menu(pathname)
  {
    if pathname == LoginPath then Children
    else if loading then Spinner
    else if user.None? then Blank
    else Console(DisplayName(user.value), user.value.email, Menu(pathname))
  }

  /** At most one menu entry is highlighted, and none off the menu's own paths. */
  lemma AtMostOneActive(pathname: string)
    ensures var menu := Menu(pathname);
      forall i, j :: 0 <= i < j < |menu| ==> !(menu[i].active && menu[j].active)
    ensures (forall i :: 0 <= i < |MenuItems| ==> MenuItems[i].href != pathname) ==>
      forall e :: e in Menu(pathname) ==> !e.active
  {
    var menu := Menu(pathname);
    forall i, j | 0 <= i < j < |menu| ensures !(menu[i].active && menu[j].active) {
      assert MenuItems[i].href != MenuItems[j].href;
    }
  }
}
