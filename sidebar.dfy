/**
 * The navigation sidebar: which menu sections are expanded, which are shown to the user and
 * which one is highlighted for the current path. The menu itself and the logged-in user are
 * parameters; icons and the logout call are not part of this model.
 */
module Sidebar {
  import opened Wrappers
  import opened SearchModal

  datatype MenuItem = MenuItem(path: string, text: string, icon: string)

  datatype MenuSection = MenuSection(title: string, items: seq<MenuItem>)

  const AdminSection := "Administração"

  /**
   * `toggleSection`: an expanded section is collapsed (every copy of its title removed), a
   * collapsed one is appended.
   */
  function Toggled(expanded: seq<string>, title: string): (r: seq<string>)
    ensures title in expanded ==> title !in r
    ensures title !in expanded ==> r == expanded + [title]
    ensures forall t :: t != title ==> (t in r <==> t in expanded)
  {
    if title in expanded then Filter(expanded, t => t != title) else expanded + [title]
  }

  /** Toggling twice restores which sections are expanded; from collapsed it restores the list itself. */
  lemma ToggleTwice(expanded: seq<string>, title: string)
    ensures forall t :: t in Toggled(Toggled(expanded, title), title) <==> t in expanded
    ensures title !in expanded ==> Toggled(Toggled(expanded, title), title) == expanded
  {
    if title !in expanded {
      FilterAppendDropped(expanded, title);
    }
  }

  lemma {:induction false} FilterAppendDropped(xs: seq<string>, title: string)
    requires title !in xs
    ensures Filter(xs + [title], t => t != title) == xs
  {
    if xs == [] {
      assert [title][1..] == [];
    } else {
      assert (xs + [title])[1..] == xs[1..] + [title];
      FilterAppendDropped(xs[1..], title);
      assert [xs[0]] + xs[1..] == xs;
    }
  }

  /** The administration section is only for administrators. */
  predicate Visible(s: MenuSection, isAdmin: Option<bool>)
  {
    s.title != AdminSection || isAdmin == Some(true)
  }

  /** The sections drawn, in menu order. */
  function VisibleSections(sections: seq<MenuSection>, isAdmin: Option<bool>): (r: seq<MenuSection>)
    ensures forall s :: s in r <==> s in sections && Visible(s, isAdmin)
  {
    Filter(sections, s => Visible(s, isAdmin))
  }

  /** A user who is not an administrator never sees the administration section. */
  lemma NoAdminSectionForOthers(sections: seq<MenuSection>, isAdmin: Option<bool>)
    requires isAdmin != Some(true)
    ensures forall s :: s in VisibleSections(sections, isAdmin) ==> s.title != AdminSection
  {
  }

  /** `isActivePath`: an exact match of the current path. */
  predicate IsActivePath(pathname: string, path: string)
  {
    pathname == path
  }

  /** A section is highlighted when one of its items is at exactly the current path. */
  predicate HasActiveItem(s: MenuSection, pathname: string)
  {
    exists i :: 0 <= i < |s.items| && IsActivePath(pathname, s.items[i].path)
  }

  /** The items of a section are listed only when the sidebar is open and the section expanded. */
  predicate ItemsShown(s: MenuSection, collapsed: bool, expanded: seq<string>)
  {
    !collapsed && s.title in expanded
  }

  class SidebarState {
    var expandedSections: seq<string>

    constructor()
      ensures expandedSections == [AdminSection]
    {
      expandedSections := [AdminSection];
    }

    /** A click on a section header: it toggles the section, unless the sidebar is collapsed. */
    method ClickSection(title: string, collapsed: bool)
      modifies this`expandedSections
      ensures collapsed ==> expandedSections == old(expandedSections)
      ensures !collapsed ==> expandedSections == Toggled(old(expandedSections), title)
    {
      if !collapsed {
        expandedSections := Toggled(expandedSections, title);
      }
    }
  }
}
