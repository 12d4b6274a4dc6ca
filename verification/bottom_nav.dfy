/**
 * The mobile bottom navigation bar: its five destinations and which of them is
 * highlighted for the current path.
 */
module BottomNav {
  import opened Wrappers
  import opened Text

  datatype NavItem = NavItem(href: string, title: string)

  /** The five destinations, in display order. */
  const NavItems: seq<NavItem> := [
    NavItem("/", "首页"),
    NavItem("/locations", "寻找单杠"),
    NavItem("/calculator", "计算器"),
    NavItem("/data", "数据社区"),
    NavItem("/stories", "故事")
  ]

  /**
   * An item is highlighted when the path equals its href, or, for every item but
   * the home page, when the path starts with its href. A missing path
   * highlights only by equality, which never holds.
   */
  predicate IsActive(pathname: Option<string>, href: string): (active: bool)
    ensures active <==>
      (pathname.Some? && if href == "/" then pathname.value == "/" else StartsWith(pathname.value, href))
  {
    assert pathname == Some(href) ==> pathname.value[..|href|] == href;
    pathname == Some(href) || (href != "/" && pathname.Some? && StartsWith(pathname.value, href))
  }

  /** The home item is highlighted on the root path only. */
  lemma HomeActiveOnlyAtRoot(pathname: Option<string>)
    ensures IsActive(pathname, NavItems[0].href) <==> pathname == Some("/")
  {
  }

  /** Any other item is highlighted exactly on the paths that start with its href. */
  lemma SectionActiveIffPrefix(path: string, i: int)
    requires 1 <= i < |NavItems|
    ensures IsActive(Some(path), NavItems[i].href) <==> StartsWith(path, NavItems[i].href)
  {
    var href := NavItems[i].href;
    if path == href {
      assert path[..|href|] == href;
    }
  }

  /** The prefix test is on characters, not path segments: "/datax" highlights the community item. */
  lemma PrefixIsNotSegmentAware()
    ensures IsActive(Some("/datax"), NavItems[3].href)
    ensures IsActive(Some("/data/123"), NavItems[3].href)
  {
    assert "/datax"[..5] == "/data";
    assert "/data/123"[..5] == "/data";
  }

  /** Without a path nothing is highlighted. */
  lemma NoPathNothingActive(i: int)
    requires 0 <= i < |NavItems|
    ensures !IsActive(None, NavItems[i].href)
  {
  }

  /** A string cannot start with two hrefs that differ in their second character. */
  lemma DivergingPrefixes(s: string, a: string, b: string)
    requires |a| >= 2 && |b| >= 2 && a[1] != b[1]
    ensures !(StartsWith(s, a) && StartsWith(s, b))
  {
    if StartsWith(s, a) {
      assert s[1] == s[..|a|][1] == a[1];
    }
  }

  /** No two items are highlighted at once. */
  lemma AtMostOneActive(pathname: Option<string>, i: int, j: int)
    requires 0 <= i < j < |NavItems|
    ensures !(IsActive(pathname, NavItems[i].href) && IsActive(pathname, NavItems[j].href))
  {
    var a, b := NavItems[i].href, NavItems[j].href;
    if i == 0 {
      if pathname == Some("/") {
        assert |b| > 1;
      }
    } else if pathname.Some? {
      var path := pathname.value;
      assert path == a ==> StartsWith(path, a) by {
        if path == a {
          assert path[..|a|] == a;
        }
      }
      assert path == b ==> StartsWith(path, b) by {
        if path == b {
          assert path[..|b|] == b;
        }
      }
      DivergingPrefixes(path, a, b);
    }
  }
}
