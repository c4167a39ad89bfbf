/** The sidebar: the navigation entries, which one is highlighted for the
    current location, the settings entries a role may see, and the
    collapse and expand state. */
module Sidebar {
  import opened Seqs
  import opened Text
  import opened MockData
  import opened Scoping

  datatype SubItem = SubItem(title: string, path: string)

  datatype NavItem = NavItem(title: string, path: string, subItems: seq<SubItem>)

  const navItems: seq<NavItem> := [
    NavItem("Dashboard", "/", []),
    NavItem("Guests", "/guests", []),
    NavItem("Rooms", "/rooms", []),
    NavItem("Reservations", "/reservations", []),
    NavItem("Settings", "/settings", [
      SubItem("Profile", "/settings/profile"),
      SubItem("Notifications", "/settings/notifications"),
      SubItem("User Access", "/settings/users"),
      SubItem("System", "/settings/system")])
  ]

  /** `path + "/"` begins `location` iff `path` does and a slash follows it. */
  lemma SlashPrefix(location: string, path: string)
    ensures StartsWith(location, path + "/") <==>
              |location| > |path| && location[..|path|] == path && location[|path|] == '/'
  {
    if StartsWith(location, path + "/") {
      assert location[..|path|] == location[..|path| + 1][..|path|];
      assert location[|path|] == location[..|path| + 1][|path|];
    }
    if |location| > |path| && location[..|path|] == path && location[|path|] == '/' {
      assert location[..|path| + 1] == location[..|path|] + [location[|path|]];
    }
  }

  /** An entry is highlighted on its own path and on every path below it:
      its path begins the location and is the whole of it or followed by a
      slash, so `/rooms` is active on `/rooms/room-1` but not on `/roomsx`. */
  predicate IsActive(location: string, path: string)
    ensures IsActive(location, path) <==>
              |location| >= |path| && location[..|path|] == path &&
              (|location| == |path| || location[|path|] == '/')
  {
    SlashPrefix(location, path);
    location == path || StartsWith(location, path + "/")
  }

  /** A settings entry is highlighted on its own path only: unlike a
      top-level entry, not on the paths below it. */
  predicate IsSubActive(location: string, path: string)
    ensures IsSubActive(location, path) <==> IsActive(location, path) && |location| == |path|
    ensures StartsWith(location, path + "/") ==> !IsSubActive(location, path) && IsActive(location, path)
  {
    location == path
  }

  /** The dashboard entry, at `/`, is highlighted at the root only (and on
      locations that start with `//`), not on the other pages. */
  lemma RootActive(location: string)
    ensures IsActive(location, "/") <==> location == "/" || StartsWith(location, "//")
  {
  }

  /** At most one top-level entry is highlighted for any location. */
  lemma OneActiveEntry(location: string, i: int, j: int)
    requires 0 <= i < j < |navItems|
    ensures !(IsActive(location, navItems[i].path) && IsActive(location, navItems[j].path))
  {
  }

  /** User access and system settings are listed for super-admins only. */
  predicate RestrictedPath(path: string)
  {
    path == "/settings/users" || path == "/settings/system"
  }

  function SubItemFilter(user: User): SubItem -> bool
  {
    (s: SubItem) => !(RestrictedPath(s.path) && user.role != SuperAdmin)
  }

  /** The settings entries rendered for `user`, in order. */
  function VisibleSubItems(user: User, items: seq<SubItem>): (r: seq<SubItem>)
    ensures user.role == SuperAdmin ==> r == items
    ensures forall s :: s in r <==> s in items && (user.role == SuperAdmin || !RestrictedPath(s.path))
    ensures IsSubsequence(r, items)
  {
    FilterSubsequence(items, SubItemFilter(user));
    if user.role == SuperAdmin then
      FilterAll(items, SubItemFilter(user));
      Filter(items, SubItemFilter(user))
    else
      Filter(items, SubItemFilter(user))
  }

  /** A branch-admin's settings menu is Profile and Notifications. */
  lemma BranchAdminSettingsMenu(user: User)
    requires user.role == BranchAdmin
    ensures VisibleSubItems(user, navItems[4].subItems) == navItems[4].subItems[..2]
  {
    var items := navItems[4].subItems;
    var f := SubItemFilter(user);
    assert items == items[..2] + items[2..];
    FilterAppend(items[..2], items[2..], f);
    FilterAll(items[..2], f);
    FilterNone(items[2..], f);
  }

  /** Only entries with settings entries have an expand button. */
  predicate HasSubItems(path: string)
  {
    exists i :: 0 <= i < |navItems| && navItems[i].path == path && navItems[i].subItems != []
  }

  lemma OnlySettingsExpands(path: string)
    ensures HasSubItems(path) <==> path == "/settings"
  {
    if path == "/settings" {
      assert navItems[4].path == path;
    }
  }

  /** The expand button: collapses the entry if it is the expanded one,
      otherwise expands it (closing any other). */
  function ToggledExpansion(expanded: Option<string>, path: string): (r: Option<string>)
    ensures r.None? <==> expanded == Some(path)
    ensures r.Some? ==> r.value == path
  {
    if expanded == Some(path) then None else Some(path)
  }

  /** Pressing the same entry's button twice returns to where it started,
      unless another entry was expanded before. */
  lemma ToggleTwice(expanded: Option<string>, path: string)
    requires expanded.None? || expanded == Some(path)
    ensures ToggledExpansion(ToggledExpansion(expanded, path), path) == expanded
  {
  }

  class SidebarState {
    var collapsed: bool
    var expandedItem: Option<string>

    ghost predicate Valid()
      reads this
    {
      expandedItem.None? || HasSubItems(expandedItem.value)
    }

    /** The sidebar opens wide with the settings entries shown. */
    constructor()
      ensures !collapsed && expandedItem == Some("/settings") && Valid()
    {
      collapsed := false;
      expandedItem := Some("/settings");
      OnlySettingsExpands("/settings");
    }

    method ToggleCollapsed()
      modifies this
      ensures collapsed == !old(collapsed) && expandedItem == old(expandedItem)
    {
      collapsed := !collapsed;
    }

    method ToggleExpanded(path: string)
      requires Valid() && HasSubItems(path)
      modifies this
      ensures Valid()
      ensures expandedItem == ToggledExpansion(old(expandedItem), path) && collapsed == old(collapsed)
    {
      expandedItem := ToggledExpansion(expandedItem, path);
    }

    /** An entry's settings list is shown while the sidebar is wide and the
      entry is expanded; expanded entries are always the settings entry. */
    predicate ShowsSubItems(path: string)
      reads this
    {
      !collapsed && expandedItem == Some(path)
    }
  }
}
