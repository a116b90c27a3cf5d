/**
 * The dashboard frame: the fixed sidebar table, the rule that highlights the
 * item of the current path, and the mobile sidebar's open flag.
 */
module DashboardLayout {
  import opened Text
  import Lists

  datatype SidebarItem = SidebarItem(name: string, href: string)

  /** The overview's path; every other item's path extends it. */
  const DashboardRoot := "/dashboard"

  /** The path segments after the root, in sidebar order after the overview. */
  const Sections: seq<string> := ["/content-lab", "/captions", "/posting", "/creators", "/campaigns", "/profile", "/admin"]

  const SidebarItems: seq<SidebarItem> := [
    SidebarItem("Overview", DashboardRoot),
    SidebarItem("Content Lab", DashboardRoot + Sections[0]),
    SidebarItem("AI Caption Writer", DashboardRoot + Sections[1]),
    SidebarItem("Multi-Platform Posting", DashboardRoot + Sections[2]),
    SidebarItem("Creator Discovery", DashboardRoot + Sections[3]),
    SidebarItem("Campaign Manager", DashboardRoot + Sections[4]),
    SidebarItem("Profile & Billing", DashboardRoot + Sections[5]),
    SidebarItem("Admin Panel", DashboardRoot + Sections[6])
  ]

  /** `isActive`: the overview only on its exact path, every other item on any path starting with its own. */
  predicate IsActive(pathname: string, path: string) {
    if path == DashboardRoot then pathname == DashboardRoot else StartsWith(pathname, path)
  }

  /** Two prefixes of one string are comparable: one is a prefix of the other. */
  lemma PrefixesComparable(s: string, a: string, b: string)
    ensures StartsWith(s, a) && StartsWith(s, b) ==> StartsWith(b, a) || StartsWith(a, b)
  {
    if StartsWith(s, a) && StartsWith(s, b) {
      if |a| <= |b| {
        assert b[..|a|] == s[..|b|][..|a|] == s[..|a|];
      } else {
        assert a[..|b|] == s[..|a|][..|b|] == s[..|b|];
      }
    }
  }

  /** No section is a prefix of another: their first four characters already differ. */
  lemma SectionsNotPrefixes(i: nat, j: nat)
    requires i < |Sections| && j < |Sections| && i != j
    ensures !StartsWith(Sections[j], Sections[i])
  {
    var heads := ["/con", "/cap", "/pos", "/cre", "/cam", "/pro", "/adm"];
    assert forall k :: 0 <= k < |Sections| ==> |Sections[k]| >= 4 && Sections[k][..4] == heads[k];
    DifferEarly(Sections[i], Sections[j], 4);
  }

  /** The same holds once the root is put in front of both. */
  lemma SectionPathsNotPrefixes(i: nat, j: nat)
    requires i < |Sections| && j < |Sections| && i != j
    ensures !StartsWith(DashboardRoot + Sections[j], DashboardRoot + Sections[i])
  {
    var a, b := DashboardRoot + Sections[i], DashboardRoot + Sections[j];
    assert StartsWith(b, a) ==> StartsWith(Sections[j], Sections[i]) by {
      if StartsWith(b, a) {
        assert Sections[j][..|Sections[i]|] == b[..|a|][|DashboardRoot|..] == a[|DashboardRoot|..];
      }
    }
    SectionsNotPrefixes(i, j);
  }

  /** The sidebar path of item `k`. */
  lemma ItemHref(k: nat)
    requires 1 <= k < |SidebarItems|
    ensures SidebarItems[k].href == DashboardRoot + Sections[k - 1]
    ensures |SidebarItems[k].href| > |DashboardRoot|
  {
  }

  /** For any path, no two sidebar items are highlighted together. */
  lemma AtMostOneActive(pathname: string, i: nat, j: nat)
    requires i < j < |SidebarItems|
    ensures !(IsActive(pathname, SidebarItems[i].href) && IsActive(pathname, SidebarItems[j].href))
  {
    ItemHref(j);
    if i > 0 {
      ItemHref(i);
      PrefixesComparable(pathname, SidebarItems[i].href, SidebarItems[j].href);
      SectionPathsNotPrefixes(i - 1, j - 1);
      SectionPathsNotPrefixes(j - 1, i - 1);
    }
  }

  predicate ItemActive(pathname: string, item: SidebarItem) {
    IsActive(pathname, item.href)
  }

  /** The highlighted items for a path: never more than one. */
  function ActiveItems(pathname: string): (r: seq<SidebarItem>)
    ensures |r| <= 1
    ensures forall it :: it in r <==> it in SidebarItems && IsActive(pathname, it.href)
  {
    forall i, j | 0 <= i < j < |SidebarItems|
      ensures !(ItemActive(pathname, SidebarItems[i]) && ItemActive(pathname, SidebarItems[j]))
    {
      AtMostOneActive(pathname, i, j);
    }
    Lists.FilterAtMostOne(it => ItemActive(pathname, it), SidebarItems);
    Lists.Filter(it => ItemActive(pathname, it), SidebarItems)
  }

  /** On an item's own path, that item and only that item is highlighted. */
  lemma OwnPathHighlightsItem(k: nat)
    requires k < |SidebarItems|
    ensures ActiveItems(SidebarItems[k].href) == [SidebarItems[k]]
  {
    var x := SidebarItems[k];
    assert IsActive(x.href, x.href) by {
      assert x.href[..|x.href|] == x.href;
    }
    var r := ActiveItems(x.href);
    assert x in SidebarItems;
    Lists.SingletonOf(r, x);
  }

  /** A deeper path under a section still highlights that section's item, but never the overview. */
  lemma SubpathHighlightsSection(k: nat, rest: string)
    requires 1 <= k < |SidebarItems|
    ensures IsActive(SidebarItems[k].href + rest, SidebarItems[k].href)
    ensures !IsActive(SidebarItems[k].href + rest, DashboardRoot)
  {
    ItemHref(k);
    assert (SidebarItems[k].href + rest)[..|SidebarItems[k].href|] == SidebarItems[k].href;
  }

  /** The mobile sidebar's state, and the path the router reports. */
  class Sidebar {
    var sidebarOpen: bool
    var pathname: string

    constructor (pathname: string)
      ensures !sidebarOpen && this.pathname == pathname
    {
      sidebarOpen := false;
      this.pathname := pathname;
    }

    /** The items the sidebar highlights. */
    function Highlighted(): seq<SidebarItem>
      reads this
    {
      ActiveItems(pathname)
    }

    /** The menu button in the top bar. */
    method OpenMenu()
      modifies this
      ensures sidebarOpen && pathname == old(pathname)
    {
      sidebarOpen := true;
    }

    /** The overlay or the close button. */
    method Dismiss()
      modifies this
      ensures !sidebarOpen && pathname == old(pathname)
    {
      sidebarOpen := false;
    }

    /** A navigation link: the sidebar closes and the path becomes the link's, which highlights that item alone (`OwnPathHighlightsItem`). */
    method FollowLink(k: nat)
      requires k < |SidebarItems|
      modifies this
      ensures !sidebarOpen
      ensures pathname == SidebarItems[k].href
    {
      pathname := SidebarItems[k].href;
      sidebarOpen := false;
    }
  }
}
