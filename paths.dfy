/**
 * Paths as plain strings: Ruby's `File.dirname`, the "at or below"
 * relation a subtree move is defined by, and re-rooting a path from one
 * subtree to another.
 */
module Paths {
  import opened Wrappers
  import opened Strings

  type Path = string

  /** `s` with every trailing '/' removed. */
  function StripTrailingSlashes(s: string): (r: string)
    ensures StartsWith(s, r)
    ensures r == [] || r[|r| - 1] != '/'
    ensures forall k :: |r| <= k < |s| ==> s[k] == '/'
  {
    if |s| > 0 && s[|s| - 1] == '/' then StripTrailingSlashes(s[..|s| - 1]) else s
  }

  /** The index of the last '/' in `s`, if any. */
  function LastSlash(s: string): (r: Option<nat>)
    ensures r.Some? ==> r.value < |s| && s[r.value] == '/'
    ensures r.Some? ==> forall k :: r.value < k < |s| ==> s[k] != '/'
    ensures r.None? ==> '/' !in s
  {
    if |s| == 0 then None
    else if s[|s| - 1] == '/' then Some(|s| - 1)
    else
      var r := LastSlash(s[..|s| - 1]);
      assert s == s[..|s| - 1] + [s[|s| - 1]];
      r
  }

  /** The number of '/' at the start of `p`. */
  function LeadingSlashes(p: Path): (n: nat)
    ensures n <= |p|
    ensures forall k :: 0 <= k < n ==> p[k] == '/'
    ensures n < |p| ==> p[n] != '/'
    decreases |p|
  {
    if |p| > 0 && p[0] == '/' then
      var m := LeadingSlashes(p[1..]);
      assert forall k :: 1 <= k < m + 1 ==> p[k] == p[1..][k - 1];
      m + 1
    else 0
  }

  /** `p` with a run of two or more leading '/' cut to one, as `File.dirname` first does. */
  function CollapseRoot(p: Path): (r: Path)
    ensures |r| <= |p| && r == p[|p| - |r|..]
    ensures |p| > 0 ==> |r| > 0
    ensures !(|r| >= 2 && r[0] == '/' && r[1] == '/')
    ensures forall k :: 0 <= k < |p| - |r| ==> p[k] == '/'
    ensures r != p ==> r[0] == '/'
    ensures !(|p| >= 2 && p[0] == '/' && p[1] == '/') ==> r == p
  {
    var n := LeadingSlashes(p);
    if n >= 2 then p[n - 1..] else p
  }

  /**
   * Ruby's `File.dirname` on a POSIX system: cut leading slashes to one,
   * drop trailing slashes, then the last component, then the slashes
   * before it; "." when no directory part is left, "/" when only the
   * root is.
   */
  function Dirname(p: Path): (d: Path)
    ensures d != ""
    ensures var q := CollapseRoot(p);
      d == "." || d == "/" || (|d| < |q| && StartsWith(q, d) && d[|d| - 1] != '/' && q[|d|] == '/')
    ensures !(|d| >= 2 && d[0] == '/' && d[1] == '/')
  {
    DirnameOf(CollapseRoot(p))
  }

  /** `Dirname` of a path that does not start with two slashes. */
  function DirnameOf(p: Path): (d: Path)
    requires !(|p| >= 2 && p[0] == '/' && p[1] == '/')
    ensures d != ""
    ensures d == "." || d == "/" || (|d| < |p| && StartsWith(p, d) && d[|d| - 1] != '/' && p[|d|] == '/')
    ensures !(|d| >= 2 && d[0] == '/' && d[1] == '/')
  {
    var t := StripTrailingSlashes(p);
    if t == "" then (if p == "" then "." else "/")
    else
      match LastSlash(t)
      case None => "."
      case Some(i) =>
        var h := StripTrailingSlashes(t[..i]);
        if h == "" then "/"
        else
          assert StartsWith(p, h) by {
            assert p[..|h|] == t[..i][..|h|];
          }
          assert p[|h|] == '/' by {
            if |h| < i { assert t[..i][|h|] == '/'; }
          }
          h
  }

  /** Leading slashes are collapsed the same way whatever follows a path that does not end in '/'. */
  lemma CollapseRootAppend(d: Path, name: string)
    requires d != "" && d[|d| - 1] != '/'
    ensures CollapseRoot(d + "/" + name) == CollapseRoot(d) + "/" + name
  {
    var p := d + "/" + name;
    LeadingSlashesAppend(d, "/" + name);
    assert p == d + ("/" + name);
    var n := LeadingSlashes(d);
    if n >= 2 {
      assert p[n - 1..] == d[n - 1..] + ("/" + name);
    }
  }

  /** Appending to a path that does not end in '/' keeps its leading slashes. */
  lemma LeadingSlashesAppend(d: Path, x: string)
    requires d != "" && d[|d| - 1] != '/'
    ensures LeadingSlashes(d + x) == LeadingSlashes(d)
  {
    var n, m := LeadingSlashes(d), LeadingSlashes(d + x);
    assert n < |d|;
    assert (d + x)[n] == d[n];
  }

  /**
   * The directory of `<d>/<name>` is `d` with its leading slashes cut to
   * one, for a plain name; that is `d` itself unless `d` starts with `//`.
   */
  lemma DirnameOfChild(d: Path, name: string)
    requires d != "" && d[|d| - 1] != '/'
    requires name != [] && '/' !in name
    ensures Dirname(d + "/" + name) == CollapseRoot(d)
    ensures !(|d| >= 2 && d[0] == '/' && d[1] == '/') ==> Dirname(d + "/" + name) == d
  {
    CollapseRootAppend(d, name);
    var c := CollapseRoot(d);
    assert c[|c| - 1] == d[|d| - 1];
    DirnameOfPlainChild(c, name);
  }

  /** `DirnameOf` of `<c>/<name>` is `c`. */
  lemma DirnameOfPlainChild(c: Path, name: string)
    requires c != "" && c[|c| - 1] != '/' && !(|c| >= 2 && c[0] == '/' && c[1] == '/')
    requires name != [] && '/' !in name
    ensures !(|c + "/" + name| >= 2 && (c + "/" + name)[0] == '/' && (c + "/" + name)[1] == '/')
    ensures DirnameOf(c + "/" + name) == c
  {
    var p := c + "/" + name;
    assert |c| == 1 ==> p[1] == '/' && p[0] == c[0];
    assert p[|p| - 1] == name[|name| - 1];
    assert StripTrailingSlashes(p) == p;
    assert p[|c|] == '/';
    match LastSlash(p)
    case None =>
      assert false;
    case Some(i) =>
      assert p[..|c|] == c;
  }

  /** A doubled leading slash comes out single: `File.dirname("//a/b.xcodeproj")` is `/a`. */
  lemma DirnameCollapsesRoot()
    ensures Dirname("//a/b.xcodeproj") == "/a"
  {
    CollapseRootExample();
    DirnameOfChild("//a", "b.xcodeproj");
  }

  lemma CollapseRootExample()
    ensures CollapseRoot("//a") == "/a"
    ensures "//a" + "/" + "b.xcodeproj" == "//a/b.xcodeproj"
    ensures '/' !in "b.xcodeproj"
  {
    var d: Path := "//a";
    assert d[1..] == "/a";
  }

  /** `p` is `a` itself or lies inside the directory `a`. */
  predicate Under(p: Path, a: Path)
  {
    StartsWith(p, a) && (|p| == |a| || p[|a|] == '/')
  }

  /** `p` lies strictly inside the directory `root` (what a glob below it visits). */
  predicate StrictlyUnder(p: Path, root: Path)
  {
    StartsWith(p, root + "/")
  }

  /** The path that `p`, at or below `a`, has once `a` is moved to `b`. */
  function Reroot(p: Path, a: Path, b: Path): (q: Path)
    requires StartsWith(p, a)
    ensures StartsWith(q, b) && |q| == |b| + |p| - |a|
    ensures Under(p, a) ==> Under(q, b)
    ensures q[|b|..] == p[|a|..]
  {
    var q := b + p[|a|..];
    assert q[|b|..] == p[|a|..];
    q
  }

  /** Moving back from `b` to `a` undoes a re-rooting. */
  lemma RerootBack(p: Path, a: Path, b: Path)
    requires StartsWith(p, a)
    ensures Reroot(Reroot(p, a, b), b, a) == p
  {
    assert p == a + p[|a|..];
  }

  /** Distinct paths below `a` stay distinct once re-rooted. */
  lemma RerootInjective(p1: Path, p2: Path, a: Path, b: Path)
    requires StartsWith(p1, a) && StartsWith(p2, a)
    requires Reroot(p1, a, b) == Reroot(p2, a, b)
    ensures p1 == p2
  {
    RerootBack(p1, a, b);
    RerootBack(p2, a, b);
  }

  lemma RerootInjectiveAll(a: Path, b: Path)
    ensures forall p1: Path, p2: Path {:trigger Reroot(p1, a, b), Reroot(p2, a, b)} ::
      StartsWith(p1, a) && StartsWith(p2, a) && Reroot(p1, a, b) == Reroot(p2, a, b) ==> p1 == p2
  {
    forall p1: Path, p2: Path | StartsWith(p1, a) && StartsWith(p2, a) && Reroot(p1, a, b) == Reroot(p2, a, b)
      ensures p1 == p2
    {
      RerootInjective(p1, p2, a, b);
    }
  }

  /** Being at or below a directory is transitive. */
  lemma UnderTransitive(p: Path, q: Path, d: Path)
    requires Under(p, q) && Under(q, d)
    ensures Under(p, d)
  {
    assert p[..|d|] == p[..|q|][..|d|];
    if |q| > |d| {
      assert p[|d|] == q[|d|];
    }
  }

  /** A common leading part does not affect being at or below. */
  lemma UnderDropPrefix(P: Path, x: Path, y: Path)
    ensures Under(P + x, P + y) <==> Under(x, y)
  {
    var p, q := P + x, P + y;
    if |y| <= |x| {
      assert p[..|q|] == P + x[..|y|];
      assert (P + x[..|y|] == P + y) <==> (x[..|y|] == y) by {
        if P + x[..|y|] == P + y {
          assert (P + x[..|y|])[|P|..] == x[..|y|];
          assert (P + y)[|P|..] == y;
        }
      }
      if |x| > |y| {
        assert p[|q|] == x[|y|];
      }
    }
  }

  /**
   * Paths below two different plain names in the same directory are never
   * at or below one another: `<P><u><t>` is not under `<P><v><w>` when
   * `t` and `w` are empty or start a deeper level.
   */
  lemma SiblingsApart(P: Path, u: string, t: string, v: string, w: string)
    requires '/' !in u && '/' !in v && u != v
    requires t == "" || t[0] == '/'
    requires w == "" || w[0] == '/'
    ensures !Under(P + u + t, P + v + w)
  {
    var x, y := u + t, v + w;
    assert P + u + t == P + x && P + v + w == P + y;
    UnderDropPrefix(P, x, y);
    if |u| == |v| {
      var k :| 0 <= k < |u| && u[k] != v[k];
      assert x[k] == u[k] && y[k] == v[k];
      if |y| <= |x| {
        assert x[..|y|][k] != y[k];
      }
    } else if |u| < |v| {
      assert v[|u|] in v;
      if t != "" {
        assert x[|u|] == '/' && y[|u|] == v[|u|];
        if |y| <= |x| {
          assert x[..|y|][|u|] != y[|u|];
        }
      }
    } else {
      assert u[|v|] in u;
      assert x[|v|] == u[|v|];
      if w != "" {
        assert y[|v|] == '/';
        if |y| <= |x| {
          assert x[..|y|][|v|] != y[|v|];
        }
      }
    }
  }

  /** Neither path is at or below the other. */
  predicate Apart(p: Path, q: Path)
  {
    !Under(p, q) && !Under(q, p)
  }

  /** A plain name is at or below another path only when it is that path. */
  lemma PlainNotUnder(u: Path, v: Path)
    requires '/' !in u && u != v
    ensures !Under(u, v)
  {
    if |v| < |u| {
      assert u[|v|] in u;
    } else if |v| == |u| {
      assert u[..|v|] == u;
    }
  }

  /** Two different plain names in one directory are apart. */
  lemma PlainApart(P: Path, u: string, v: string)
    requires '/' !in u && '/' !in v && u != v
    ensures Apart(P + u, P + v)
  {
    UnderDropPrefix(P, u, v);
    UnderDropPrefix(P, v, u);
    PlainNotUnder(u, v);
    PlainNotUnder(v, u);
  }

  /** Two relative paths that differ at a position both reach are apart below any directory. */
  lemma DivergeApart(P: Path, x: Path, y: Path, k: nat)
    requires k < |x| && k < |y| && x[k] != y[k]
    ensures Apart(P + x, P + y)
  {
    UnderDropPrefix(P, x, y);
    UnderDropPrefix(P, y, x);
    if |y| <= |x| {
      assert x[..|y|][k] == x[k];
    }
    if |x| <= |y| {
      assert y[..|x|][k] == y[k];
    }
  }

  /** Paths that are apart are different. */
  lemma ApartDistinct(p: Path, q: Path)
    requires Apart(p, q)
    ensures p != q
  {
    assert p[..|p|] == p;
  }
}
