/**
 * The three manifests of `rename_files` (the storyboard, the prefixed demo
 * sources and the project-named files), taken apart into directory, token
 * and tail. From that layout: every source and destination is apart from
 * every other, so each listed file ends up at its own renamed path.
 */
module Manifests {
  import opened Strings
  import opened Paths
  import opened Files
  import opened Renames

  const HomeDir: string := "Business/Pages/Home/"
  const TestDir: string := "Business/Pages/Test/"

  /** The directory part of each name in PrefixedFiles. */
  const PrefixedDirs: seq<string> := ["", "", HomeDir, HomeDir, TestDir, TestDir]

  /** What follows `CPD` in each name in PrefixedFiles. */
  const PrefixedTails: seq<string> := [
    "AppDelegate.h", "AppDelegate.m",
    "HomeViewController.h", "HomeViewController.m",
    "TestPage.h", "TestPage.m"]

  /** Every name in ProjectNamedFiles is at the top of the source folder. */
  const ProjectNamedDirs: seq<string> := ["", "", ""]

  /** What follows `PROJECT` in each name in ProjectNamedFiles. */
  const ProjectNamedTails: seq<string> := ["-Info.plist", "-Prefix.pch", ".entitlements"]

  // ---------------------------------------------------------------------
  // Layouts, for any list of names
  // ---------------------------------------------------------------------

  /**
   * Each of `names` is its directory part, the token `f` and a tail
   * without '/': the directory cannot start `f` and the tail holds no
   * `f`, so the rename replaces the token in the middle and nothing else.
   */
  predicate Layout(names: seq<string>, dirs: seq<string>, tails: seq<string>, f: string, r: string)
  {
    && |f| > 0 && '/' !in f && '/' !in r && |dirs| == |names| && |tails| == |names|
    && forall i :: 0 <= i < |names| ==> LayoutAt(names, dirs, tails, f, r, i)
  }

  /** Entry `i` of a layout. */
  predicate LayoutAt(names: seq<string>, dirs: seq<string>, tails: seq<string>, f: string, r: string, i: nat)
    requires |f| > 0 && i < |names| && |dirs| == |names| && |tails| == |names|
  {
    && names[i] == dirs[i] + f + tails[i] && f[0] !in dirs[i] && '/' !in tails[i]
    && Kept(tails[i], f)
  }

  /**
   * `t` holds no occurrence of `f`, in one of two plain ways: the first
   * character of `f` is not in `t`, or it is there once, at `m`, followed
   * by a character other than the second of `f`.
   */
  predicate Kept(t: string, f: string)
    requires |f| > 0
  {
    || f[0] !in t
    || exists m :: 0 <= m < |t| - 1 && |f| >= 2 && FalseStartAt(t, f, m)
  }

  predicate FalseStartAt(t: string, f: string, m: nat)
    requires |f| >= 2 && m < |t| - 1
  {
    t[m] == f[0] && t[m + 1] != f[1] && f[0] !in t[..m] && f[0] !in t[m + 1..]
  }

  /** A kept tail comes through ReplaceAll unchanged. */
  lemma KeptUnchanged(t: string, f: string, r: string)
    requires |f| > 0 && Kept(t, f)
    ensures ReplaceAll(t, f, r) == t
  {
    if f[0] !in t {
      ReplaceAllFree(t, f, r);
    } else {
      var m :| 0 <= m < |t| - 1 && |f| >= 2 && FalseStartAt(t, f, m);
      assert t == t[..m] + [f[0]] + t[m + 1..];
      ReplaceAllFalseStart(t[..m], t[m + 1..], f, r);
    }
  }

  /**
   * How two entries `<d1>..<t1>` and `<d2>..<t2>` part ways: in one
   * directory, their tails differ `k` characters from the end; or `d1` is
   * the top and `d2` has a '/' at `k`, before `t1` ends; or the two
   * directories differ at `k`.
   */
  predicate Separated(d1: string, t1: string, d2: string, t2: string, k: nat)
  {
    || (d1 == d2 && k < |t1| && k < |t2| && t1[|t1| - 1 - k] != t2[|t2| - 1 - k])
    || (d1 == "" && k < |d2| && k < |t1| && d2[k] == '/')
    || (k < |d1| && k < |d2| && d1[k] != d2[k])
  }

  /** `<d><f><t>` is renamed to `<d><r><t>`. */
  lemma ShapedName(x: string, d: string, t: string, f: string, r: string)
    requires |f| > 0 && x == d + f + t && f[0] !in d && ReplaceAll(t, f, r) == t
    ensures ReplaceAll(x, f, r) == d + r + t
  {
    ReplaceAllShaped(d, t, f, r);
  }

  /** Two entries `<d1><a><t1>` and `<d2><b><t2>` that are separated are apart below `base`. */
  lemma EntriesApart(base: Path, x: Path, d1: string, a: string, t1: string,
                     y: Path, d2: string, b: string, t2: string, k: nat)
    requires x == d1 + a + t1 && y == d2 + b + t2
    requires '/' !in a && '/' !in b && '/' !in t1 && '/' !in t2
    requires Separated(d1, t1, d2, t2, k)
    ensures Apart(base + x, base + y)
  {
    if d1 == d2 && k < |t1| && k < |t2| && t1[|t1| - 1 - k] != t2[|t2| - 1 - k] {
      var u, v := a + t1, b + t2;
      assert base + x == (base + d1) + u && base + y == (base + d1) + v;
      assert u[|u| - 1 - k] == t1[|t1| - 1 - k] && v[|v| - 1 - k] == t2[|t2| - 1 - k];
      PlainApart(base + d1, u, v);
    } else if d1 == "" && k < |d2| && k < |t1| && d2[k] == '/' {
      assert x == a + t1;
      assert x[k] in x;
      assert y[k] == d2[k];
      DivergeApart(base, x, y, k);
    } else {
      assert x[k] == d1[k] && y[k] == d2[k];
      DivergeApart(base, x, y, k);
    }
  }

  /** An entry and its renamed form are apart when the replacement differs from the token. */
  lemma RenamedApart(base: Path, x: Path, y: Path, d: string, a: string, b: string, t: string)
    requires x == d + a + t && y == d + b + t && a != b
    requires '/' !in a && '/' !in b && '/' !in t
    ensures Apart(base + x, base + y)
  {
    var u, v := a + t, b + t;
    assert base + x == (base + d) + u && base + y == (base + d) + v;
    if |a| == |b| {
      assert u[..|a|] == a && v[..|a|] == b;
    }
    PlainApart(base + d, u, v);
  }

  /** Two separated entries, each before or after its rename, are apart. */
  lemma PairApart(base: Path, x: Path, d1: string, t1: string, f1: string, r1: string,
                  y: Path, d2: string, t2: string, f2: string, r2: string, k: nat)
    requires |f1| > 0 && |f2| > 0 && '/' !in f1 && '/' !in r1 && '/' !in f2 && '/' !in r2
    requires x == d1 + f1 + t1 && f1[0] !in d1 && '/' !in t1 && Kept(t1, f1)
    requires y == d2 + f2 + t2 && f2[0] !in d2 && '/' !in t2 && Kept(t2, f2)
    requires Separated(d1, t1, d2, t2, k) || Separated(d2, t2, d1, t1, k)
    ensures var rx, ry := Destination(base, x, f1, r1), Destination(base, y, f2, r2);
      Apart(base + x, base + y) && Apart(base + x, ry) && Apart(rx, base + y) && Apart(rx, ry)
  {
    KeptUnchanged(t1, f1, r1);
    KeptUnchanged(t2, f2, r2);
    ShapedName(x, d1, t1, f1, r1);
    ShapedName(y, d2, t2, f2, r2);
    var x', y' := ReplaceAll(x, f1, r1), ReplaceAll(y, f2, r2);
    if Separated(d1, t1, d2, t2, k) {
      EntriesApart(base, x, d1, f1, t1, y, d2, f2, t2, k);
      EntriesApart(base, x, d1, f1, t1, y', d2, r2, t2, k);
      EntriesApart(base, x', d1, r1, t1, y, d2, f2, t2, k);
      EntriesApart(base, x', d1, r1, t1, y', d2, r2, t2, k);
    } else {
      EntriesApart(base, y, d2, f2, t2, x, d1, f1, t1, k);
      EntriesApart(base, y', d2, r2, t2, x, d1, f1, t1, k);
      EntriesApart(base, y, d2, f2, t2, x', d1, r1, t1, k);
      EntriesApart(base, y', d2, r2, t2, x', d1, r1, t1, k);
    }
  }

  /** A laid-out loop whose entries are pairwise separated is disjoint. */
  lemma LayoutDisjoint(base: Path, names: seq<string>, dirs: seq<string>, tails: seq<string>,
                       f: string, r: string, sep: (nat, nat) -> nat)
    requires Layout(names, dirs, tails, f, r)
    requires forall i, j :: 0 <= i < |names| && 0 <= j < |names| && i != j ==>
      Separated(dirs[i], tails[i], dirs[j], tails[j], sep(i, j))
      || Separated(dirs[j], tails[j], dirs[i], tails[i], sep(i, j))
    ensures Disjoint(base, names, f, r)
  {
    forall i, j | 0 <= i < |names| && 0 <= j < |names| && i != j
      ensures Apart(base + names[i], base + names[j])
      ensures Apart(base + names[i], Destination(base, names[j], f, r))
      ensures Apart(Destination(base, names[i], f, r), Destination(base, names[j], f, r))
    {
      assert LayoutAt(names, dirs, tails, f, r, i) && LayoutAt(names, dirs, tails, f, r, j);
      PairApart(base, names[i], dirs[i], tails[i], f, r, names[j], dirs[j], tails[j], f, r, sep(i, j));
    }
  }

  /** Entries of two laid-out loops, pairwise separated, are apart before and after their renames. */
  lemma LayoutsApart(base: Path, n1: seq<string>, d1: seq<string>, t1: seq<string>, f1: string, r1: string,
                     n2: seq<string>, d2: seq<string>, t2: seq<string>, f2: string, r2: string,
                     sep: (nat, nat) -> nat)
    requires Layout(n1, d1, t1, f1, r1) && Layout(n2, d2, t2, f2, r2)
    requires forall i, j :: 0 <= i < |n1| && 0 <= j < |n2| ==>
      Separated(d1[i], t1[i], d2[j], t2[j], sep(i, j)) || Separated(d2[j], t2[j], d1[i], t1[i], sep(i, j))
    ensures forall i, j :: 0 <= i < |n1| && 0 <= j < |n2| ==>
      var rx, ry := Destination(base, n1[i], f1, r1), Destination(base, n2[j], f2, r2);
      Apart(base + n1[i], base + n2[j]) && Apart(base + n1[i], ry) && Apart(rx, base + n2[j]) && Apart(rx, ry)
  {
    forall i, j | 0 <= i < |n1| && 0 <= j < |n2|
      ensures var rx, ry := Destination(base, n1[i], f1, r1), Destination(base, n2[j], f2, r2);
        Apart(base + n1[i], base + n2[j]) && Apart(base + n1[i], ry) && Apart(rx, base + n2[j]) && Apart(rx, ry)
    {
      assert LayoutAt(n1, d1, t1, f1, r1, i) && LayoutAt(n2, d2, t2, f2, r2, j);
      PairApart(base, n1[i], d1[i], t1[i], f1, r1, n2[j], d2[j], t2[j], f2, r2, sep(i, j));
    }
  }

  /**
   * A path `<dy><ty>` separated from every entry of a laid-out loop is
   * neither a source nor a destination of it.
   */
  lemma LayoutAvoids(base: Path, names: seq<string>, dirs: seq<string>, tails: seq<string>, f: string, r: string,
                     y: Path, dy: string, ty: string, sep: nat -> nat)
    requires Layout(names, dirs, tails, f, r) && y == dy + ty && '/' !in ty
    requires forall i :: 0 <= i < |names| ==> Separated(dirs[i], tails[i], dy, ty, sep(i))
    ensures forall i :: 0 <= i < |names| ==>
      base + names[i] != base + y && Destination(base, names[i], f, r) != base + y
  {
    forall i | 0 <= i < |names|
      ensures base + names[i] != base + y && Destination(base, names[i], f, r) != base + y
    {
      assert LayoutAt(names, dirs, tails, f, r, i);
      KeptUnchanged(tails[i], f, r);
      ShapedName(names[i], dirs[i], tails[i], f, r);
      assert y == dy + "" + ty;
      EntriesApart(base, names[i], dirs[i], f, tails[i], y, dy, "", ty, sep(i));
      EntriesApart(base, ReplaceAll(names[i], f, r), dirs[i], r, tails[i], y, dy, "", ty, sep(i));
      ApartDistinct(base + names[i], base + y);
      ApartDistinct(Destination(base, names[i], f, r), base + y);
    }
  }

  /** When the replacement differs from the token, no entry of a laid-out loop is renamed into itself. */
  lemma LayoutMovesAway(base: Path, names: seq<string>, dirs: seq<string>, tails: seq<string>, f: string, r: string)
    requires Layout(names, dirs, tails, f, r) && f != r
    ensures forall i :: 0 <= i < |names| ==> Apart(base + names[i], Destination(base, names[i], f, r))
  {
    forall i | 0 <= i < |names| ensures Apart(base + names[i], Destination(base, names[i], f, r)) {
      assert LayoutAt(names, dirs, tails, f, r, i);
      KeptUnchanged(tails[i], f, r);
      ShapedName(names[i], dirs[i], tails[i], f, r);
      RenamedApart(base, names[i], ReplaceAll(names[i], f, r), dirs[i], f, r, tails[i]);
    }
  }

  // ---------------------------------------------------------------------
  // The manifests of rename_files
  // ---------------------------------------------------------------------

  /** The names of PrefixedFiles, taken apart. */
  lemma PrefixedNames()
    ensures forall i :: 0 <= i < 6 ==>
      PrefixedFiles[i] == PrefixedDirs[i] + "CPD" + PrefixedTails[i]
      && 'C' !in PrefixedDirs[i] && '/' !in PrefixedTails[i]
  {
    PrefixedName0(); PrefixedName1(); PrefixedName2();
    PrefixedName3(); PrefixedName4(); PrefixedName5();
  }

  /** No tail of PrefixedFiles holds `CPD`. */
  lemma PrefixedTailsKept()
    ensures forall i :: 0 <= i < 6 ==> Kept(PrefixedTails[i], "CPD")
  {
    ControllerFalseStart(PrefixedTails[2]);
    ControllerFalseStart(PrefixedTails[3]);
  }

  /** The `C` of `Controller` is no `CPD`. */
  lemma ControllerFalseStart(t: string)
    requires t == "HomeViewController.h" || t == "HomeViewController.m"
    ensures FalseStartAt(t, "CPD", 8)
  {
    assert t[..8] == "HomeView";
  }

  lemma PrefixedName0()
    ensures PrefixedFiles[0] == PrefixedDirs[0] + "CPD" + PrefixedTails[0]
    ensures 'C' !in PrefixedDirs[0] && '/' !in PrefixedTails[0]
  {
  }

  lemma PrefixedName1()
    ensures PrefixedFiles[1] == PrefixedDirs[1] + "CPD" + PrefixedTails[1]
    ensures 'C' !in PrefixedDirs[1] && '/' !in PrefixedTails[1]
  {
  }

  lemma PrefixedName2()
    ensures PrefixedFiles[2] == PrefixedDirs[2] + "CPD" + PrefixedTails[2]
    ensures 'C' !in PrefixedDirs[2] && '/' !in PrefixedTails[2]
  {
  }

  lemma PrefixedName3()
    ensures PrefixedFiles[3] == PrefixedDirs[3] + "CPD" + PrefixedTails[3]
    ensures 'C' !in PrefixedDirs[3] && '/' !in PrefixedTails[3]
  {
  }

  lemma PrefixedName4()
    ensures PrefixedFiles[4] == PrefixedDirs[4] + "CPD" + PrefixedTails[4]
    ensures 'C' !in PrefixedDirs[4] && '/' !in PrefixedTails[4]
  {
  }

  lemma PrefixedName5()
    ensures PrefixedFiles[5] == PrefixedDirs[5] + "CPD" + PrefixedTails[5]
    ensures 'C' !in PrefixedDirs[5] && '/' !in PrefixedTails[5]
  {
  }

  lemma PrefixedLayout(r: string)
    requires '/' !in r
    ensures Layout(PrefixedFiles, PrefixedDirs, PrefixedTails, "CPD", r)
  {
    PrefixedNames();
    PrefixedTailsKept();
    forall i | 0 <= i < 6 ensures LayoutAt(PrefixedFiles, PrefixedDirs, PrefixedTails, "CPD", r, i) {
    }
  }

  /** The names of ProjectNamedFiles, taken apart. */
  lemma ProjectNamedNames()
    ensures forall i :: 0 <= i < 3 ==>
      ProjectNamedFiles[i] == ProjectNamedDirs[i] + "PROJECT" + ProjectNamedTails[i]
      && 'P' !in ProjectNamedDirs[i] && '/' !in ProjectNamedTails[i]
  {
  }

  /** No tail of ProjectNamedFiles holds `PROJECT`. */
  lemma ProjectNamedTailsKept()
    ensures forall i :: 0 <= i < 3 ==> Kept(ProjectNamedTails[i], "PROJECT")
  {
    var t := ProjectNamedTails[1];
    assert t[..1] == "-";
    assert FalseStartAt(t, "PROJECT", 1);
  }

  lemma ProjectNamedLayout(r: string)
    requires '/' !in r
    ensures Layout(ProjectNamedFiles, ProjectNamedDirs, ProjectNamedTails, "PROJECT", r)
  {
    ProjectNamedNames();
    ProjectNamedTailsKept();
    forall i | 0 <= i < 3 ensures LayoutAt(ProjectNamedFiles, ProjectNamedDirs, ProjectNamedTails, "PROJECT", r, i) {
    }
  }

  /** Where two prefixed files part ways: their last characters, or their directories. */
  function PrefixedSep(i: nat, j: nat): nat
  {
    if i / 2 == j / 2 then 0 else if i < 2 || j < 2 then 8 else 15
  }

  /** Where a prefixed file and a project-named file part ways. */
  function CrossSep(i: nat, j: nat): nat
  {
    if i < 2 then 1 else 8
  }

  /** The shape of the prefixed-file tables, by position. */
  lemma PrefixedTable(i: nat)
    requires i < 6
    ensures PrefixedDirs[i] == if i < 2 then "" else if i < 4 then HomeDir else TestDir
    ensures var t := PrefixedTails[i];
      && |t| > 8 && t[|t| - 2] == '.' && t[|t| - 1] == (if i % 2 == 0 then 'h' else 'm')
      && (i < 2 ==> |t| > 10)
  {
  }

  lemma ProjectNamedTable(j: nat)
    requires j < 3
    ensures ProjectNamedDirs[j] == ""
    ensures var t := ProjectNamedTails[j];
      && |t| > 10 && t[|t| - 2] != '.' && t[|t| - 1] == (if j == 0 then 't' else if j == 1 then 'h' else 's')
  {
  }

  lemma PrefixedSeparated(i: nat, j: nat)
    requires i < 6 && j < 6 && i != j
    ensures Separated(PrefixedDirs[i], PrefixedTails[i], PrefixedDirs[j], PrefixedTails[j], PrefixedSep(i, j))
         || Separated(PrefixedDirs[j], PrefixedTails[j], PrefixedDirs[i], PrefixedTails[i], PrefixedSep(i, j))
  {
    PrefixedTable(i);
    PrefixedTable(j);
  }

  lemma ProjectNamedSeparated(i: nat, j: nat)
    requires i < 3 && j < 3 && i != j
    ensures Separated(ProjectNamedDirs[i], ProjectNamedTails[i], ProjectNamedDirs[j], ProjectNamedTails[j], 0)
  {
    ProjectNamedTable(i);
    ProjectNamedTable(j);
  }

  lemma CrossSeparated(i: nat, j: nat)
    requires i < 6 && j < 3
    ensures Separated(PrefixedDirs[i], PrefixedTails[i], ProjectNamedDirs[j], ProjectNamedTails[j], CrossSep(i, j))
         || Separated(ProjectNamedDirs[j], ProjectNamedTails[j], PrefixedDirs[i], PrefixedTails[i], CrossSep(i, j))
  {
    PrefixedTable(i);
    ProjectNamedTable(j);
  }

  const StoryboardDir: string := "Base.lproj/"
  const StoryboardTail: string := "Main.storyboard"

  lemma StoryboardSeparated(i: nat, j: nat)
    requires i < 6 && j < 3
    ensures Separated(PrefixedDirs[i], PrefixedTails[i], StoryboardDir, StoryboardTail, if i < 2 then 10 else 1)
    ensures Separated(ProjectNamedDirs[j], ProjectNamedTails[j], StoryboardDir, StoryboardTail, 10)
  {
    PrefixedTable(i);
    ProjectNamedTable(j);
  }

  /**
   * With plain replacements, the three manifests never collide: each
   * rename loop is disjoint, the two loops are apart from each other, and
   * the storyboard is none of their sources or destinations.
   */
  lemma ManifestsApart(folder: Path, prefix: string, pod: string)
    requires '/' !in prefix && '/' !in pod
    ensures var base := SourceBase(folder);
      && Disjoint(base, PrefixedFiles, "CPD", prefix)
      && Disjoint(base, ProjectNamedFiles, "PROJECT", pod)
    ensures var base := SourceBase(folder);
      forall i, j :: 0 <= i < |PrefixedFiles| && 0 <= j < |ProjectNamedFiles| ==>
        var rx, ry := Destination(base, PrefixedFiles[i], "CPD", prefix), Destination(base, ProjectNamedFiles[j], "PROJECT", pod);
        Apart(base + PrefixedFiles[i], base + ProjectNamedFiles[j]) && Apart(base + PrefixedFiles[i], ry)
        && Apart(rx, base + ProjectNamedFiles[j]) && Apart(rx, ry)
    ensures var base, sb := SourceBase(folder), SourceBase(folder) + StoryboardFiles[0];
      && (forall i :: 0 <= i < |PrefixedFiles| ==>
            base + PrefixedFiles[i] != sb && Destination(base, PrefixedFiles[i], "CPD", prefix) != sb)
      && (forall j :: 0 <= j < |ProjectNamedFiles| ==>
            base + ProjectNamedFiles[j] != sb && Destination(base, ProjectNamedFiles[j], "PROJECT", pod) != sb)
  {
    var base := SourceBase(folder);
    PrefixedLayout(prefix);
    ProjectNamedLayout(pod);
    forall i, j | 0 <= i < 6 && 0 <= j < 6 && i != j
      ensures Separated(PrefixedDirs[i], PrefixedTails[i], PrefixedDirs[j], PrefixedTails[j], PrefixedSep(i, j))
           || Separated(PrefixedDirs[j], PrefixedTails[j], PrefixedDirs[i], PrefixedTails[i], PrefixedSep(i, j))
    {
      PrefixedSeparated(i, j);
    }
    LayoutDisjoint(base, PrefixedFiles, PrefixedDirs, PrefixedTails, "CPD", prefix, PrefixedSep);
    forall i, j | 0 <= i < 3 && 0 <= j < 3 && i != j
      ensures Separated(ProjectNamedDirs[i], ProjectNamedTails[i], ProjectNamedDirs[j], ProjectNamedTails[j], 0)
    {
      ProjectNamedSeparated(i, j);
    }
    LayoutDisjoint(base, ProjectNamedFiles, ProjectNamedDirs, ProjectNamedTails, "PROJECT", pod, (i, j) => 0);
    forall i, j | 0 <= i < 6 && 0 <= j < 3
      ensures Separated(PrefixedDirs[i], PrefixedTails[i], ProjectNamedDirs[j], ProjectNamedTails[j], CrossSep(i, j))
           || Separated(ProjectNamedDirs[j], ProjectNamedTails[j], PrefixedDirs[i], PrefixedTails[i], CrossSep(i, j))
    {
      CrossSeparated(i, j);
    }
    LayoutsApart(base, PrefixedFiles, PrefixedDirs, PrefixedTails, "CPD", prefix,
                 ProjectNamedFiles, ProjectNamedDirs, ProjectNamedTails, "PROJECT", pod, CrossSep);
    forall i | 0 <= i < 6
      ensures Separated(PrefixedDirs[i], PrefixedTails[i], StoryboardDir, StoryboardTail, if i < 2 then 10 else 1)
    {
      StoryboardSeparated(i, 0);
    }
    forall j | 0 <= j < 3 ensures Separated(ProjectNamedDirs[j], ProjectNamedTails[j], StoryboardDir, StoryboardTail, 10) {
      StoryboardSeparated(0, j);
    }
    assert StoryboardFiles[0] == StoryboardDir + StoryboardTail;
    LayoutAvoids(base, PrefixedFiles, PrefixedDirs, PrefixedTails, "CPD", prefix,
                 StoryboardFiles[0], StoryboardDir, StoryboardTail, i => if i < 2 then 10 else 1);
    LayoutAvoids(base, ProjectNamedFiles, ProjectNamedDirs, ProjectNamedTails, "PROJECT", pod,
                 StoryboardFiles[0], StoryboardDir, StoryboardTail, j => 10);
  }

  /** Both rename loops of `rename_files` are independent, for plain replacements. */
  lemma ManifestsIndependent(folder: Path, prefix: string, pod: string)
    requires '/' !in prefix && '/' !in pod
    ensures Independent(SourceBase(folder), PrefixedFiles, "CPD", prefix)
    ensures Independent(SourceBase(folder), ProjectNamedFiles, "PROJECT", pod)
  {
    ManifestsApart(folder, prefix, pod);
    DisjointIndependent(SourceBase(folder), PrefixedFiles, "CPD", prefix);
    DisjointIndependent(SourceBase(folder), ProjectNamedFiles, "PROJECT", pod);
  }

  /** Renaming a token to something else takes each entry out of its old place. */
  lemma ManifestsMoveAway(folder: Path, prefix: string, pod: string)
    requires '/' !in prefix && '/' !in pod
    ensures var base := SourceBase(folder);
      prefix != "CPD" ==> forall i :: 0 <= i < |PrefixedFiles| ==>
        !Under(base + PrefixedFiles[i], Destination(base, PrefixedFiles[i], "CPD", prefix))
    ensures var base := SourceBase(folder);
      pod != "PROJECT" ==> forall j :: 0 <= j < |ProjectNamedFiles| ==>
        !Under(base + ProjectNamedFiles[j], Destination(base, ProjectNamedFiles[j], "PROJECT", pod))
  {
    var base := SourceBase(folder);
    if prefix != "CPD" {
      PrefixedLayout(prefix);
      LayoutMovesAway(base, PrefixedFiles, PrefixedDirs, PrefixedTails, "CPD", prefix);
    }
    if pod != "PROJECT" {
      ProjectNamedLayout(pod);
      LayoutMovesAway(base, ProjectNamedFiles, ProjectNamedDirs, ProjectNamedTails, "PROJECT", pod);
    }
  }

  /** A prefixed file, through the whole demo-kept stage. */
  lemma PrefixedPlaced(fs: Fs, folder: Path, pod: string, prefix: string, i: nat)
    requires '/' !in prefix && '/' !in pod && i < |PrefixedFiles|
    requires DemoKeptRenames(fs, folder, pod, prefix).Done?
    ensures var base := SourceBase(folder);
      Placed(fs, DemoKeptRenames(fs, folder, pod, prefix).fs,
             base + PrefixedFiles[i], Destination(base, PrefixedFiles[i], "CPD", prefix))
  {
    var base := SourceBase(folder);
    var src, dst := base + PrefixedFiles[i], Destination(base, PrefixedFiles[i], "CPD", prefix);
    ManifestsApart(folder, prefix, pod);
    var s1 := RewriteEach(fs, base, StoryboardFiles, "CPD", prefix).fs;
    var s2 := RenameEach(s1, base, PrefixedFiles, "CPD", prefix);
    var s3 := RenameEach(s2, base, ProjectNamedFiles, "PROJECT", pod);
    assert DemoKeptRenames(fs, folder, pod, prefix).fs == s3;
    RewriteEachFrame(fs, base, StoryboardFiles, "CPD", prefix, src);
    RewriteEachFrame(fs, base, StoryboardFiles, "CPD", prefix, dst);
    RenameEachPlaces(s1, base, PrefixedFiles, "CPD", prefix, i);
    PlacedAfterFrame(fs, s1, s2, src, dst);
    RenameEachFrame(s2, base, ProjectNamedFiles, "PROJECT", pod, src);
    RenameEachFrame(s2, base, ProjectNamedFiles, "PROJECT", pod, dst);
    PlacedBeforeFrame(fs, s2, s3, src, dst);
  }

  /** A project-named file, through the whole demo-kept stage. */
  lemma ProjectNamedPlaced(fs: Fs, folder: Path, pod: string, prefix: string, j: nat)
    requires '/' !in prefix && '/' !in pod && j < |ProjectNamedFiles|
    requires DemoKeptRenames(fs, folder, pod, prefix).Done?
    ensures var base := SourceBase(folder);
      Placed(fs, DemoKeptRenames(fs, folder, pod, prefix).fs,
             base + ProjectNamedFiles[j], Destination(base, ProjectNamedFiles[j], "PROJECT", pod))
  {
    var base := SourceBase(folder);
    var src, dst := base + ProjectNamedFiles[j], Destination(base, ProjectNamedFiles[j], "PROJECT", pod);
    ManifestsApart(folder, prefix, pod);
    var s1 := RewriteEach(fs, base, StoryboardFiles, "CPD", prefix).fs;
    var s2 := RenameEach(s1, base, PrefixedFiles, "CPD", prefix);
    var s3 := RenameEach(s2, base, ProjectNamedFiles, "PROJECT", pod);
    assert DemoKeptRenames(fs, folder, pod, prefix).fs == s3;
    RewriteEachFrame(fs, base, StoryboardFiles, "CPD", prefix, src);
    RewriteEachFrame(fs, base, StoryboardFiles, "CPD", prefix, dst);
    RenameEachFrame(s1, base, PrefixedFiles, "CPD", prefix, src);
    RenameEachFrame(s1, base, PrefixedFiles, "CPD", prefix, dst);
    RenameEachPlaces(s2, base, ProjectNamedFiles, "PROJECT", pod, j);
    PlacedAfterFrame(s1, s2, s3, src, dst);
    PlacedAfterFrame(fs, s1, s3, src, dst);
  }

  /**
   * Lines 78-113 with the demo kept, once the storyboard step has gone
   * through: each prefixed and each project-named file that exists is
   * at its renamed path with its contents, one that is missing leaves
   * its renamed path as it was, and one whose token is replaced by
   * something else is gone from its old path.
   */
  lemma DemoKeptPlaces(fs: Fs, folder: Path, pod: string, prefix: string)
    requires '/' !in prefix && '/' !in pod
    requires DemoKeptRenames(fs, folder, pod, prefix).Done?
    ensures var base, s := SourceBase(folder), DemoKeptRenames(fs, folder, pod, prefix).fs;
      forall i :: 0 <= i < |PrefixedFiles| ==>
        Placed(fs, s, base + PrefixedFiles[i], Destination(base, PrefixedFiles[i], "CPD", prefix))
    ensures var base, s := SourceBase(folder), DemoKeptRenames(fs, folder, pod, prefix).fs;
      forall j :: 0 <= j < |ProjectNamedFiles| ==>
        Placed(fs, s, base + ProjectNamedFiles[j], Destination(base, ProjectNamedFiles[j], "PROJECT", pod))
    ensures var base, s := SourceBase(folder), DemoKeptRenames(fs, folder, pod, prefix).fs;
      prefix != "CPD" ==> forall i :: 0 <= i < |PrefixedFiles| && Present(fs, base + PrefixedFiles[i]) ==>
        !Present(s, base + PrefixedFiles[i])
    ensures var base, s := SourceBase(folder), DemoKeptRenames(fs, folder, pod, prefix).fs;
      pod != "PROJECT" ==> forall j :: 0 <= j < |ProjectNamedFiles| && Present(fs, base + ProjectNamedFiles[j]) ==>
        !Present(s, base + ProjectNamedFiles[j])
  {
    ManifestsMoveAway(folder, prefix, pod);
    forall i | 0 <= i < |PrefixedFiles|
      ensures Placed(fs, DemoKeptRenames(fs, folder, pod, prefix).fs,
                     SourceBase(folder) + PrefixedFiles[i], Destination(SourceBase(folder), PrefixedFiles[i], "CPD", prefix))
    {
      PrefixedPlaced(fs, folder, pod, prefix, i);
    }
    forall j | 0 <= j < |ProjectNamedFiles|
      ensures Placed(fs, DemoKeptRenames(fs, folder, pod, prefix).fs,
                     SourceBase(folder) + ProjectNamedFiles[j], Destination(SourceBase(folder), ProjectNamedFiles[j], "PROJECT", pod))
    {
      ProjectNamedPlaced(fs, folder, pod, prefix, j);
    }
  }

  /** Every entry of a manifest, and its renamed form, lies inside `<folder>/PROJECT`. */
  lemma InsideSources(folder: Path, x: string)
    ensures Under(SourceBase(folder) + x, SourceFolder(folder))
  {
    var sf := SourceFolder(folder);
    assert SourceBase(folder) + x == sf + "/" + x;
    assert (sf + "/" + x)[..|sf|] == sf;
    assert (sf + "/" + x)[|sf|] == '/';
  }

  /** The scheme and bundle renames leave the sources alone, so a placement after them holds from the start. */
  lemma PlacedPastBundles(fs: Fs, s: Fs, t: Fs, folder: Path, pod: string, x: string, y: string)
    requires '/' !in pod && SchemeAndBundle(fs, folder, pod) == Done(s)
    requires Placed(s, t, SourceBase(folder) + x, SourceBase(folder) + y)
    ensures Placed(fs, t, SourceBase(folder) + x, SourceBase(folder) + y)
  {
    var os, ns, ob, nb := OldScheme(folder), NewScheme(folder, pod), OldBundle(folder), NewBundle(folder, pod);
    var src, dst := SourceBase(folder) + x, SourceBase(folder) + y;
    InsideSources(folder, x);
    InsideSources(folder, y);
    SourcesApartFromBundles(folder, pod, src);
    SourcesApartFromBundles(folder, pod, dst);
    TwoMovesFrame(fs, os, ns, ob, nb, src);
    TwoMovesFrame(fs, os, ns, ob, nb, dst);
    PlacedAfterFrame(fs, s, t, src, dst);
  }

  /** A prefixed file, through `rename_files` with the demo kept. */
  lemma PrefixedPlacedFromStart(fs: Fs, folder: Path, pod: string, prefix: string, i: nat)
    requires '/' !in prefix && '/' !in pod && i < |PrefixedFiles|
    requires RenameFiles(fs, folder, pod, prefix, false).Done?
    ensures var base := SourceBase(folder);
      Placed(fs, RenameFiles(fs, folder, pod, prefix, false).fs,
             base + PrefixedFiles[i], Destination(base, PrefixedFiles[i], "CPD", prefix))
  {
    var s := SchemeAndBundle(fs, folder, pod).fs;
    var t := DemoKeptRenames(s, folder, pod, prefix).fs;
    assert RenameFiles(fs, folder, pod, prefix, false).fs == t;
    PrefixedPlaced(s, folder, pod, prefix, i);
    PlacedPastBundles(fs, s, t, folder, pod, PrefixedFiles[i], ReplaceAll(PrefixedFiles[i], "CPD", prefix));
  }

  /** A project-named file, through `rename_files` with the demo kept. */
  lemma ProjectNamedPlacedFromStart(fs: Fs, folder: Path, pod: string, prefix: string, j: nat)
    requires '/' !in prefix && '/' !in pod && j < |ProjectNamedFiles|
    requires RenameFiles(fs, folder, pod, prefix, false).Done?
    ensures var base := SourceBase(folder);
      Placed(fs, RenameFiles(fs, folder, pod, prefix, false).fs,
             base + ProjectNamedFiles[j], Destination(base, ProjectNamedFiles[j], "PROJECT", pod))
  {
    var s := SchemeAndBundle(fs, folder, pod).fs;
    var t := DemoKeptRenames(s, folder, pod, prefix).fs;
    assert RenameFiles(fs, folder, pod, prefix, false).fs == t;
    ProjectNamedPlaced(s, folder, pod, prefix, j);
    PlacedPastBundles(fs, s, t, folder, pod, ProjectNamedFiles[j], ReplaceAll(ProjectNamedFiles[j], "PROJECT", pod));
  }

  /**
   * `rename_files` with the demo kept, when it succeeds: every file of
   * the two rename manifests is placed, relative to the tree before the
   * scheme and the bundle were renamed, and moved off its old path when
   * its token is replaced by something else.
   */
  lemma RenameFilesPlaces(fs: Fs, folder: Path, pod: string, prefix: string)
    requires '/' !in prefix && '/' !in pod
    requires RenameFiles(fs, folder, pod, prefix, false).Done?
    ensures var base, s := SourceBase(folder), RenameFiles(fs, folder, pod, prefix, false).fs;
      forall i :: 0 <= i < |PrefixedFiles| ==>
        Placed(fs, s, base + PrefixedFiles[i], Destination(base, PrefixedFiles[i], "CPD", prefix))
    ensures var base, s := SourceBase(folder), RenameFiles(fs, folder, pod, prefix, false).fs;
      forall j :: 0 <= j < |ProjectNamedFiles| ==>
        Placed(fs, s, base + ProjectNamedFiles[j], Destination(base, ProjectNamedFiles[j], "PROJECT", pod))
    ensures var base, s := SourceBase(folder), RenameFiles(fs, folder, pod, prefix, false).fs;
      prefix != "CPD" ==> forall i :: 0 <= i < |PrefixedFiles| && Present(fs, base + PrefixedFiles[i]) ==>
        !Present(s, base + PrefixedFiles[i])
    ensures var base, s := SourceBase(folder), RenameFiles(fs, folder, pod, prefix, false).fs;
      pod != "PROJECT" ==> forall j :: 0 <= j < |ProjectNamedFiles| && Present(fs, base + ProjectNamedFiles[j]) ==>
        !Present(s, base + ProjectNamedFiles[j])
  {
    ManifestsMoveAway(folder, prefix, pod);
    forall i | 0 <= i < |PrefixedFiles|
      ensures Placed(fs, RenameFiles(fs, folder, pod, prefix, false).fs,
                     SourceBase(folder) + PrefixedFiles[i], Destination(SourceBase(folder), PrefixedFiles[i], "CPD", prefix))
    {
      PrefixedPlacedFromStart(fs, folder, pod, prefix, i);
    }
    forall j | 0 <= j < |ProjectNamedFiles|
      ensures Placed(fs, RenameFiles(fs, folder, pod, prefix, false).fs,
                     SourceBase(folder) + ProjectNamedFiles[j], Destination(SourceBase(folder), ProjectNamedFiles[j], "PROJECT", pod))
    {
      ProjectNamedPlacedFromStart(fs, folder, pod, prefix, j);
    }
  }
}
