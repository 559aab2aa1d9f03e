// The operator console's navigation: which sidebar item is highlighted for
// the current path (the dashboard only on its own path, the others on
// their path and everything below it), the bottom bar of the small-screen
// layout (which has no such exception), the small-screen title, and the
// items of its "More" drawer. Only the item paths are modelled.
module AdminLayout {
  import opened Wrappers
  import opened JsText

  /** The sidebar items' paths, in order. */
  const DesktopPaths: seq<string> := [
    "/admin", "/admin/users", "/admin/products", "/admin/customer", "/admin/sales-lab",
    "/admin/gamification", "/admin/cms", "/admin/ai-quality", "/admin/settings"]

  /** The bottom bar: its labels and paths; "More" has no path. */
  const MobileItems: seq<(string, Option<string>)> := [
    ("Catalog", Some("/admin/products")), ("Customer", Some("/admin/customer")),
    ("Sales Lab", Some("/admin/sales-lab")), ("Dash", Some("/admin")), ("More", None)]

  /** `pathname === path || pathname.startsWith(path + '/')`. */
  predicate UnderPath(pathname: string, path: string)
  {
    pathname == path || StartsWith(pathname, path + "/")
  }

  /** A path on or below `path` starts with `path`. */
  lemma PrefixOfSlashed(pathname: string, path: string)
    ensures UnderPath(pathname, path) ==> StartsWith(pathname, path)
  {
    if StartsWith(pathname, path + "/") {
      assert pathname[..|path|] == pathname[..|path| + 1][..|path|] == (path + "/")[..|path|] == path;
    }
  }

  /** A sidebar item is highlighted: the dashboard on exactly '/admin',
    * any other item on its path or below it. */
  function DesktopActive(itemPath: string, pathname: string): (b: bool)
    ensures b ==> StartsWith(pathname, itemPath)
    ensures pathname == itemPath ==> b
  {
    PrefixOfSlashed(pathname, itemPath);
    if itemPath == "/admin" then pathname == "/admin" else UnderPath(pathname, itemPath)
  }

  /** A bottom-bar item is highlighted: never without a path, otherwise on
    * its path or below it. */
  function MobileActive(path: Option<string>, pathname: string): (b: bool)
    ensures b ==> path.Some? && StartsWith(pathname, path.value)
    ensures path.Some? && pathname == path.value ==> b
  {
    if path.None? then false
    else
      PrefixOfSlashed(pathname, path.value);
      UnderPath(pathname, path.value)
  }

  /** The dashboard is highlighted only on its own path. */
  lemma DashboardOnlyOnItsPath(pathname: string)
    ensures DesktopActive("/admin", pathname) <==> pathname == "/admin"
  {
  }

  /** A path that merely starts with an item's path, without a '/' after
    * it, is not below it; a path continuing with '/' is. */
  lemma SiblingPathNotActive(itemPath: string, pathname: string)
    requires |itemPath| < |pathname| && pathname[..|itemPath|] == itemPath
    ensures pathname[|itemPath|] != '/' ==> !DesktopActive(itemPath, pathname)
    ensures pathname[|itemPath|] == '/' && itemPath != "/admin" ==> DesktopActive(itemPath, pathname)
  {
    var n := |itemPath|;
    if StartsWith(pathname, itemPath + "/") {
      assert pathname[n] == pathname[..n + 1][n] == (itemPath + "/")[n] == '/';
    }
    if pathname[n] == '/' {
      assert pathname[..n + 1] == itemPath + "/";
    }
  }

  /** The bottom bar's "Dash" item, lacking the dashboard exception, is
    * highlighted on every page below '/admin'. */
  lemma DashActiveEverywhere(pathname: string)
    requires StartsWith(pathname, "/admin/")
    ensures MobileActive(MobileItems[3].1, pathname)
    ensures !DesktopActive(DesktopPaths[0], pathname)
  {
    assert MobileItems[3].1 == Some("/admin");
    assert "/admin" + "/" == "/admin/";
  }

  /** "More" is never highlighted. */
  lemma MoreNeverActive(pathname: string)
    ensures !MobileActive(MobileItems[4].1, pathname)
  {
  }

  predicate NoSlash(x: string)
  {
    forall k :: 0 <= k < |x| ==> x[k] != '/'
  }

  /** Every sidebar item but the dashboard is '/admin/' and one segment
    * without a slash, and the paths are distinct. */
  lemma ItemShapes()
    ensures forall i :: 1 <= i < |DesktopPaths| ==>
      StartsWith(DesktopPaths[i], "/admin/") && NoSlash(DesktopPaths[i][7..])
    ensures forall i, j :: 0 <= i < j < |DesktopPaths| ==> DesktopPaths[i] != DesktopPaths[j]
  {
  }

  /** The characters up to the first slash. */
  function TakeUntilSlash(s: string): (r: string)
    ensures NoSlash(r) && |r| <= |s|
  {
    if s == [] || s[0] == '/' then [] else [s[0]] + TakeUntilSlash(s[1..])
  }

  /** A string that is a slash-free segment, possibly followed by a slash
    * and more, starts with exactly that segment. */
  lemma {:induction false} TakeUntilSlashOf(s: string, x: string)
    requires NoSlash(x)
    requires s == x || StartsWith(s, x + "/")
    ensures TakeUntilSlash(s) == x
  {
    if x != [] {
      assert s[0] == x[0];
      if s == x {
        TakeUntilSlashOf(s[1..], x[1..]);
      } else {
        assert s[1..][..|x[1..] + "/"|] == (x + "/")[1..];
        TakeUntilSlashOf(s[1..], x[1..]);
      }
    } else if s != x {
      assert s[0] == (x + "/")[0];
    }
  }

  /** A path lies under '/admin/x' and '/admin/y', for segments without a
    * slash, only when x and y are the same segment: both are the path's
    * segment after '/admin/'. */
  lemma UnderBothSame(pathname: string, p: string, q: string)
    requires StartsWith(p, "/admin/") && NoSlash(p[7..])
    requires StartsWith(q, "/admin/") && NoSlash(q[7..])
    requires UnderPath(pathname, p) && UnderPath(pathname, q)
    ensures p == q
  {
    SegmentOfPath(pathname, p);
    SegmentOfPath(pathname, q);
    assert p == p[..7] + p[7..] && q == q[..7] + q[7..];
  }

  /** The segment after '/admin/' of a path under '/admin/x' is x. */
  lemma SegmentOfPath(pathname: string, p: string)
    requires StartsWith(p, "/admin/") && NoSlash(p[7..])
    requires UnderPath(pathname, p)
    ensures |pathname| >= 7 && pathname[..7] == p[..7]
    ensures TakeUntilSlash(pathname[7..]) == p[7..]
  {
    if pathname == p {
      TakeUntilSlashOf(pathname[7..], p[7..]);
    } else {
      assert pathname[7..][..|p[7..] + "/"|] == (p + "/")[7..];
      TakeUntilSlashOf(pathname[7..], p[7..]);
    }
  }

  /** On exactly '/admin' only the dashboard is highlighted. */
  lemma DashboardExcludesOthers(j: nat)
    requires 1 <= j < |DesktopPaths|
    ensures !DesktopActive(DesktopPaths[j], "/admin")
  {
    ItemShapes();
  }

  /** For any path at most one sidebar item is highlighted. */
  lemma AtMostOneDesktopActive(pathname: string, i: nat, j: nat)
    requires i < j < |DesktopPaths|
    ensures !(DesktopActive(DesktopPaths[i], pathname) && DesktopActive(DesktopPaths[j], pathname))
  {
    ItemShapes();
    if i == 0 {
      if pathname == "/admin" {
        DashboardExcludesOthers(j);
      }
    } else if DesktopActive(DesktopPaths[i], pathname) && DesktopActive(DesktopPaths[j], pathname) {
      UnderBothSame(pathname, DesktopPaths[i], DesktopPaths[j]);
    }
  }

  /** The small-screen title: the index of the sidebar item whose path is
    * exactly the current one (its label is shown), None for 'Admin'. */
  function TitleItem(pathname: string): (r: Option<nat>)
    ensures r.Some? ==> r.value < |DesktopPaths| && DesktopPaths[r.value] == pathname
    ensures r.None? <==> pathname !in DesktopPaths
  {
    TitleFrom(pathname, 0)
  }

  function TitleFrom(pathname: string, k: nat): (r: Option<nat>)
    requires k <= |DesktopPaths|
    ensures r.Some? ==> k <= r.value < |DesktopPaths| && DesktopPaths[r.value] == pathname
    ensures r.None? <==> pathname !in DesktopPaths[k..]
    decreases |DesktopPaths| - k
  {
    if k == |DesktopPaths| then None
    else if DesktopPaths[k] == pathname then Some(k)
    else
      assert DesktopPaths[k..] == [DesktopPaths[k]] + DesktopPaths[k + 1..];
      TitleFrom(pathname, k + 1)
  }

  /** The "More" drawer: the sidebar items after the first three. */
  function MorePaths(): (r: seq<string>)
    ensures |r| == |DesktopPaths| - 3
    ensures forall i :: 0 <= i < |r| ==> r[i] == DesktopPaths[i + 3]
  {
    DesktopPaths[3..]
  }
}
