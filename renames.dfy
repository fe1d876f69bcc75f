/**
 * The rename manifest of `rename_files` and `rename_project_folder`,
 * stated on filesystem values. All paths are built by concatenation
 * from the project folder, as the source builds them.
 */
module Renames {
  import opened Strings
  import opened Paths
  import opened Files
  import opened Errors

  /** Files whose contents get `CPD` replaced when the demo is kept. */
  const StoryboardFiles: seq<string> := ["Base.lproj/Main.storyboard"]

  /** Demo source files whose names get `CPD` replaced when the demo is kept. */
  const PrefixedFiles: seq<string> := [
    "CPDAppDelegate.h", "CPDAppDelegate.m",
    "Business/Pages/Home/CPDHomeViewController.h",
    "Business/Pages/Home/CPDHomeViewController.m",
    "Business/Pages/Test/CPDTestPage.h",
    "Business/Pages/Test/CPDTestPage.m"]

  /** Per-project files whose names get `PROJECT` replaced when the demo is kept. */
  const ProjectNamedFiles: seq<string> := ["PROJECT-Info.plist", "PROJECT-Prefix.pch", "PROJECT.entitlements"]

  /** The bundle directory of a project called `name`: `<name>.xcodeproj`. */
  function BundleName(name: string): (b: string)
    ensures |b| == |name| + 10 && b[..|name|] == name
    ensures '/' !in name ==> '/' !in b
  {
    var b := name + ".xcodeproj";
    assert b[..|name|] == name;
    b
  }

  /** The shared scheme of `name`, below its bundle: `/xcshareddata/xcschemes/<name>.xcscheme`. */
  function SchemeTail(name: string): (t: string)
    ensures t != "" && t[0] == '/'
  {
    "/xcshareddata/xcschemes/" + name + ".xcscheme"
  }

  /** `<folder>/PROJECT.xcodeproj`. */
  function OldBundle(folder: Path): Path
  {
    folder + "/" + BundleName("PROJECT")
  }

  /** `<folder>/<pod>.xcodeproj`. */
  function NewBundle(folder: Path, pod: string): Path
  {
    folder + "/" + BundleName(pod)
  }

  /** `scheme_path + "PROJECT.xcscheme"`, where `scheme_path` is the old bundle's scheme directory. */
  function OldScheme(folder: Path): Path
  {
    OldBundle(folder) + SchemeTail("PROJECT")
  }

  /** `scheme_path + <pod> + ".xcscheme"`: the scheme renamed, still inside the old bundle. */
  function NewScheme(folder: Path, pod: string): Path
  {
    OldBundle(folder) + SchemeTail(pod)
  }

  /** Where the scheme ends up once both renames are done. */
  function FinalScheme(folder: Path, pod: string): Path
  {
    NewBundle(folder, pod) + SchemeTail(pod)
  }

  /** The template source folder `<folder>/PROJECT`. */
  function SourceFolder(folder: Path): Path
  {
    folder + "/" + "PROJECT"
  }

  /** What the manifest entries are relative to: `<folder>/PROJECT/`. */
  function SourceBase(folder: Path): Path
  {
    SourceFolder(folder) + "/"
  }

  function RenamedFolder(folder: Path, pod: string): Path
  {
    folder + "/" + pod
  }

  /**
   * One storyboard step: skipped when the path does not exist, its text
   * rewritten when it is a file, and a read error when it is a directory.
   */
  function RewriteOne(fs: Fs, path: Path, f: string, r: string): (o: Outcome)
    requires |f| > 0
    ensures o.fs.dirs == fs.dirs && o.fs.files.Keys == fs.files.Keys
    ensures WellFormed(fs) ==> WellFormed(o.fs)
    ensures o.Failed? ==> o.fs == fs && o.error == IsADirectory(path) && path in fs.dirs
  {
    if !Present(fs, path) then Done(fs)
    else if path in fs.dirs then Failed(fs, IsADirectory(path))
    else Done(Written(fs, path, ReplaceAll(fs.files[path], f, r)))
  }

  /** The storyboard loop: RewriteOne for each name in order, stopping at an error. */
  function RewriteEach(fs: Fs, base: Path, names: seq<string>, f: string, r: string): (o: Outcome)
    requires |f| > 0
    // contents are rewritten in place: no path appears or disappears
    ensures o.fs.dirs == fs.dirs && o.fs.files.Keys == fs.files.Keys
    ensures WellFormed(fs) ==> WellFormed(o.fs)
    // the only error is a listed path that is a directory
    ensures o.Failed? ==> exists i :: 0 <= i < |names| && o.error == IsADirectory(base + names[i]) && base + names[i] in fs.dirs
  {
    if |names| == 0 then Done(fs)
    else
      var init := names[..|names| - 1];
      assert forall i :: 0 <= i < |init| ==> init[i] == names[i];
      match RewriteEach(fs, base, init, f, r)
      case Failed(s, e) => Failed(s, e)
      case Done(s) => RewriteOne(s, base + names[|names| - 1], f, r)
  }

  /** Once the storyboard loop has failed, the later names are not reached. */
  lemma {:induction false} RewriteEachStops(fs: Fs, base: Path, names: seq<string>, f: string, r: string, i: nat)
    requires |f| > 0 && i <= |names| && RewriteEach(fs, base, names[..i], f, r).Failed?
    ensures RewriteEach(fs, base, names, f, r) == RewriteEach(fs, base, names[..i], f, r)
    decreases |names|
  {
    if i < |names| {
      var init := names[..|names| - 1];
      assert init[..i] == names[..i];
      RewriteEachStops(fs, base, init, f, r, i);
    } else {
      assert names[..i] == names;
    }
  }

  /** Where the manifest entry `name` is renamed to. */
  function Destination(base: Path, name: string, f: string, r: string): Path
    requires |f| > 0
  {
    base + ReplaceAll(name, f, r)
  }

  /** One conditional rename: `next unless File.exist? before`, then `File.rename`. */
  function RenameOne(fs: Fs, base: Path, name: string, f: string, r: string): (s: Fs)
    requires |f| > 0
    ensures WellFormed(fs) ==> WellFormed(s)
    ensures !Present(fs, base + name) ==> s == fs
  {
    MoveWellFormed(fs, base + name, Destination(base, name, f, r));
    if Present(fs, base + name) then Move(fs, base + name, Destination(base, name, f, r)) else fs
  }

  /** A conditional rename loop over `names`, in order. */
  function RenameEach(fs: Fs, base: Path, names: seq<string>, f: string, r: string): (s: Fs)
    requires |f| > 0
    ensures WellFormed(fs) ==> WellFormed(s)
  {
    if |names| == 0 then fs
    else
      RenameOne(RenameEach(fs, base, names[..|names| - 1], f, r), base, names[|names| - 1], f, r)
  }

  /** Lines 72-76: the scheme, then the bundle that contains it; neither is checked for existence. */
  function SchemeAndBundle(fs: Fs, folder: Path, pod: string): (o: Outcome)
    ensures WellFormed(fs) ==> WellFormed(o.fs)
    // the scheme is renamed first, and a missing scheme stops the stage before anything changes
    ensures !Present(fs, OldScheme(folder)) ==> o == Failed(fs, NoSuchEntry(OldScheme(folder)))
    ensures o.Failed? ==> o.error == NoSuchEntry(OldScheme(folder)) || o.error == NoSuchEntry(OldBundle(folder))
  {
    match Renamed(fs, OldScheme(folder), NewScheme(folder, pod))
    case Failed(s, e) => Failed(s, e)
    case Done(s) => Renamed(s, OldBundle(folder), NewBundle(folder, pod))
  }

  /** Lines 80-112, run only when the demo is kept. */
  function DemoKeptRenames(fs: Fs, folder: Path, pod: string, prefix: string): (o: Outcome)
    ensures WellFormed(fs) ==> WellFormed(o.fs)
    // only the storyboard step can fail, when its path is a directory
    ensures o.Failed? ==> o.error == IsADirectory(SourceBase(folder) + StoryboardFiles[0])
  {
    var base := SourceBase(folder);
    match RewriteEach(fs, base, StoryboardFiles, "CPD", prefix)
    case Failed(s, e) => Failed(s, e)
    case Done(s) =>
      Done(RenameEach(RenameEach(s, base, PrefixedFiles, "CPD", prefix), base, ProjectNamedFiles, "PROJECT", pod))
  }

  /** `rename_files`. */
  function RenameFiles(fs: Fs, folder: Path, pod: string, prefix: string, removeDemo: bool): (o: Outcome)
    ensures WellFormed(fs) ==> WellFormed(o.fs)
    // the three ways it can fail; the storyboard one only with the demo kept
    ensures o.Failed? ==>
      || o.error == NoSuchEntry(OldScheme(folder))
      || o.error == NoSuchEntry(OldBundle(folder))
      || (!removeDemo && o.error == IsADirectory(SourceBase(folder) + StoryboardFiles[0]))
  {
    match SchemeAndBundle(fs, folder, pod)
    case Failed(s, e) => Failed(s, e)
    case Done(s) => if removeDemo then Done(s) else DemoKeptRenames(s, folder, pod, prefix)
  }

  /** `rename_project_folder`: only a directory named PROJECT is moved. */
  function RenameProjectFolder(fs: Fs, folder: Path, pod: string): (r: Fs)
    ensures WellFormed(fs) ==> WellFormed(r)
    ensures SourceFolder(folder) in fs.dirs ==> RenamedFolder(folder, pod) in r.dirs
    ensures SourceFolder(folder) !in fs.dirs ==> r == fs
  {
    MoveWellFormed(fs, SourceFolder(folder), RenamedFolder(folder, pod));
    assert Reroot(SourceFolder(folder), SourceFolder(folder), RenamedFolder(folder, pod)) == RenamedFolder(folder, pod);
    assert Under(SourceFolder(folder), SourceFolder(folder)) by {
      assert SourceFolder(folder)[..|SourceFolder(folder)|] == SourceFolder(folder);
    }
    if SourceFolder(folder) in fs.dirs then Move(fs, SourceFolder(folder), RenamedFolder(folder, pod)) else fs
  }

  /** The stages after `@project.save`: `rename_files`, then `rename_project_folder`. */
  function RenameStages(fs: Fs, folder: Path, pod: string, prefix: string, removeDemo: bool): (o: Outcome)
    ensures WellFormed(fs) ==> WellFormed(o.fs)
    ensures o.Failed? ==> o == RenameFiles(fs, folder, pod, prefix, removeDemo)
  {
    match RenameFiles(fs, folder, pod, prefix, removeDemo)
    case Failed(s, e) => Failed(s, e)
    case Done(s) => Done(RenameProjectFolder(s, folder, pod))
  }

  // ---------------------------------------------------------------------
  // Properties
  // ---------------------------------------------------------------------

  /** `<pod>.xcodeproj` is a plain name, different from `PROJECT.xcodeproj` and from `PROJECT`. */
  lemma BundleNameFacts(pod: string)
    requires '/' !in pod && pod != "PROJECT"
    ensures '/' !in BundleName(pod)
    ensures BundleName(pod) != BundleName("PROJECT")
    ensures BundleName(pod) != "PROJECT"
  {
    var b, o := BundleName(pod), BundleName("PROJECT");
    if |pod| == 7 {
      var k :| 0 <= k < 7 && pod[k] != "PROJECT"[k];
      assert b[..7][k] == pod[k] && o[..7][k] == "PROJECT"[k];
    }
  }

  /** Without the scheme file the whole rename stage fails at once, with nothing changed. */
  lemma SchemeRequired(fs: Fs, folder: Path, pod: string, prefix: string, removeDemo: bool)
    requires !Present(fs, OldScheme(folder))
    ensures RenameFiles(fs, folder, pod, prefix, removeDemo) == Failed(fs, NoSuchEntry(OldScheme(folder)))
  {
  }

  /** Without the bundle, the stage fails after the scheme rename, which is not undone. */
  lemma BundleRequired(fs: Fs, folder: Path, pod: string, prefix: string, removeDemo: bool)
    requires Present(fs, OldScheme(folder)) && !Present(fs, OldBundle(folder))
    ensures RenameFiles(fs, folder, pod, prefix, removeDemo)
         == Failed(Move(fs, OldScheme(folder), NewScheme(folder, pod)), NoSuchEntry(OldBundle(folder)))
  {
    var ob := OldBundle(folder);
    assert |ob| < |OldScheme(folder)| && |ob| < |NewScheme(folder, pod)|;
    assert !Under(ob, OldScheme(folder)) && !Under(ob, NewScheme(folder, pod));
  }

  /**
   * A file `a1` renamed to `b1` inside the directory `a2`, which is
   * renamed next to `b2`, ends up at `b1` re-rooted below `b2`.
   */
  lemma RenameThenMoveParent(fs: Fs, a1: Path, b1: Path, a2: Path, b2: Path)
    requires a1 in fs.files && Present(fs, a2)
    requires |a2| < |a1| && |a2| < |b1| && Under(b1, a2)
    ensures Present(Move(fs, a1, b1), a2)
    ensures var r := Move(Move(fs, a1, b1), a2, b2);
      Reroot(b1, a2, b2) in r.files && r.files[Reroot(b1, a2, b2)] == fs.files[a1]
  {
    assert Reroot(a1, a1, b1) == b1;
  }

  /** A directory moved away, and everything below it, is gone unless the new name is below it. */
  lemma MoveClears(fs: Fs, a: Path, b: Path, p: Path)
    requires Under(p, a) && !Under(p, b)
    ensures !Present(Move(fs, a, b), p)
  {
  }

  /** Moving a file within a directory and then the directory away leaves neither old path behind. */
  lemma MoveParentClears(fs: Fs, a1: Path, b1: Path, a2: Path, b2: Path)
    requires Under(a1, a2) && !Under(a1, b2) && !Under(a2, b2)
    ensures !Present(Move(Move(fs, a1, b1), a2, b2), a1) && !Present(Move(Move(fs, a1, b1), a2, b2), a2)
  {
    MoveClears(Move(fs, a1, b1), a2, b2, a1);
    MoveClears(Move(fs, a1, b1), a2, b2, a2);
  }

  /**
   * The shapes of the scheme and bundle paths, written `<P><U><T1>`,
   * `<P><U><T2>`, `<P><U>` and `<P><V>`: both scheme paths lie below the
   * old bundle, the renamed scheme re-rooted below the new bundle is
   * `<P><V><T2>`, and for different plain names `U` and `V` nothing below
   * the old bundle is below the new one.
   */
  lemma NestedPaths(P: Path, U: string, V: string, T1: string, T2: string)
    requires T1 != "" && T1[0] == '/' && T2 != "" && T2[0] == '/'
    ensures Under(P + U + T1, P + U) && Under(P + U + T2, P + U)
    ensures |P + U| < |P + U + T1| && |P + U| < |P + U + T2|
    ensures Reroot(P + U + T2, P + U, P + V) == P + V + T2
    ensures '/' !in U && '/' !in V && U != V ==> !Under(P + U + T1, P + V) && !Under(P + U, P + V)
  {
    assert (P + U + T1)[..|P + U|] == P + U;
    assert (P + U + T2)[..|P + U|] == P + U;
    assert (P + U + T2)[|P + U|..] == T2;
    if '/' !in U && '/' !in V && U != V {
      SiblingsApart(P, U, T1, V, "");
      SiblingsApart(P, U, "", V, "");
      assert P + V + "" == P + V && P + U + "" == P + U;
    }
  }

  /** The scheme and bundle paths, as `NestedPaths` describes them. */
  lemma SchemePaths(folder: Path, pod: string)
    ensures Under(OldScheme(folder), OldBundle(folder)) && Under(NewScheme(folder, pod), OldBundle(folder))
    ensures |OldBundle(folder)| < |OldScheme(folder)| && |OldBundle(folder)| < |NewScheme(folder, pod)|
    ensures Reroot(NewScheme(folder, pod), OldBundle(folder), NewBundle(folder, pod)) == FinalScheme(folder, pod)
    ensures '/' !in pod && pod != "PROJECT" ==>
      !Under(OldScheme(folder), NewBundle(folder, pod)) && !Under(OldBundle(folder), NewBundle(folder, pod))
  {
    var P, U, V := folder + "/", BundleName("PROJECT"), BundleName(pod);
    var T1, T2 := SchemeTail("PROJECT"), SchemeTail(pod);
    assert OldScheme(folder) == P + U + T1 && NewScheme(folder, pod) == P + U + T2;
    assert OldBundle(folder) == P + U && NewBundle(folder, pod) == P + V;
    assert FinalScheme(folder, pod) == P + V + T2;
    NestedPaths(P, U, V, T1, T2);
    if '/' !in pod && pod != "PROJECT" {
      BundleNameFacts(pod);
    }
  }

  /** The scheme stage, unfolded: both renames happen when the scheme file and the bundle exist. */
  lemma SchemeAndBundleDone(fs: Fs, folder: Path, pod: string)
    requires OldScheme(folder) in fs.files && Present(fs, OldBundle(folder))
    ensures Present(Move(fs, OldScheme(folder), NewScheme(folder, pod)), OldBundle(folder))
      ==> SchemeAndBundle(fs, folder, pod)
          == Done(Move(Move(fs, OldScheme(folder), NewScheme(folder, pod)), OldBundle(folder), NewBundle(folder, pod)))
  {
  }

  /**
   * The scheme is renamed inside the old bundle first and then travels
   * with the bundle: its contents end up at
   * `<folder>/<pod>.xcodeproj/xcshareddata/xcschemes/<pod>.xcscheme`.
   */
  lemma SchemeTravelsWithBundle(fs: Fs, folder: Path, pod: string)
    requires OldScheme(folder) in fs.files && Present(fs, OldBundle(folder))
    ensures SchemeAndBundle(fs, folder, pod).Done?
    ensures var r := SchemeAndBundle(fs, folder, pod).fs;
      FinalScheme(folder, pod) in r.files && r.files[FinalScheme(folder, pod)] == fs.files[OldScheme(folder)]
  {
    SchemePaths(folder, pod);
    RenameThenMoveParent(fs, OldScheme(folder), NewScheme(folder, pod), OldBundle(folder), NewBundle(folder, pod));
    SchemeAndBundleDone(fs, folder, pod);
  }

  /** For a plain pod name other than PROJECT, neither old path is left after the scheme stage. */
  lemma SchemeStageLeavesNoOldPaths(fs: Fs, folder: Path, pod: string)
    requires OldScheme(folder) in fs.files && Present(fs, OldBundle(folder))
    requires '/' !in pod && pod != "PROJECT"
    ensures var r := SchemeAndBundle(fs, folder, pod).fs;
      !Present(r, OldScheme(folder)) && !Present(r, OldBundle(folder))
  {
    var os, ns, ob, nb := OldScheme(folder), NewScheme(folder, pod), OldBundle(folder), NewBundle(folder, pod);
    SchemePaths(folder, pod);
    RenameThenMoveParent(fs, os, ns, ob, nb);
    SchemeAndBundleDone(fs, folder, pod);
    MoveParentClears(fs, os, ns, ob, nb);
  }

  /**
   * With the shared scheme and the bundle in place, the scheme's contents
   * end up at the final scheme path, and the only error left is a
   * storyboard path that is a directory.
   */
  lemma RenameStagesPlaceScheme(fs: Fs, folder: Path, pod: string, prefix: string, removeDemo: bool)
    requires '/' !in pod
    requires OldScheme(folder) in fs.files && Present(fs, OldBundle(folder))
    ensures var o, q := RenameStages(fs, folder, pod, prefix, removeDemo), FinalScheme(folder, pod);
      (o.Failed? ==> o.error == IsADirectory(SourceBase(folder) + StoryboardFiles[0]))
      && q in o.fs.files && o.fs.files[q] == fs.files[OldScheme(folder)]
  {
    var q := FinalScheme(folder, pod);
    SchemeTravelsWithBundle(fs, folder, pod);
    var s := SchemeAndBundle(fs, folder, pod).fs;
    var o2 := if removeDemo then Done(s) else DemoKeptRenames(s, folder, pod, prefix);
    assert RenameFiles(fs, folder, pod, prefix, removeDemo) == o2;
    if !removeDemo {
      DemoKeptKeepsScheme(s, folder, pod, prefix);
    }
    assert q in o2.fs.files && o2.fs.files[q] == fs.files[OldScheme(folder)];
    if o2.Done? {
      FinalSchemeOutsideSources(folder, pod, "");
      ProjectFolderFrame(o2.fs, folder, pod, q);
    }
  }

  /** `rename_project_folder` leaves alone what lies outside both the source folder and its new name. */
  lemma ProjectFolderFrame(fs: Fs, folder: Path, pod: string, p: Path)
    requires !Under(p, SourceFolder(folder)) && !Under(p, RenamedFolder(folder, pod))
    ensures var r := RenameProjectFolder(fs, folder, pod);
      (p in r.files <==> p in fs.files) && (p in r.dirs <==> p in fs.dirs)
      && (p in r.files ==> r.files[p] == fs.files[p])
  {
  }

  /** `t` is empty or starts a deeper level: what follows a directory in a path below it. */
  lemma TailAfterDirectory(p: Path, d: Path)
    requires Under(p, d)
    ensures p == d + p[|d|..]
    ensures p[|d|..] == "" || p[|d|..][0] == '/'
  {
  }

  /**
   * With the demo removed, only the scheme and the bundle move: nothing at
   * or below `<folder>/PROJECT` is renamed or rewritten (lines 78-113 are
   * skipped).
   */
  lemma DemoRemovedLeavesSources(fs: Fs, folder: Path, pod: string, prefix: string, p: Path)
    requires '/' !in pod && Under(p, SourceFolder(folder))
    requires RenameFiles(fs, folder, pod, prefix, true).Done?
    ensures var r := RenameFiles(fs, folder, pod, prefix, true).fs;
      (p in r.files <==> p in fs.files) && (p in r.dirs <==> p in fs.dirs)
      && (p in r.files ==> r.files[p] == fs.files[p])
  {
    SourcesApartFromBundles(folder, pod, p);
    var os, ns, ob, nb := OldScheme(folder), NewScheme(folder, pod), OldBundle(folder), NewBundle(folder, pod);
    TwoMovesFrame(fs, os, ns, ob, nb, p);
  }

  /** Nothing at or below `<folder>/PROJECT` is at or below the scheme or bundle paths. */
  lemma SourcesApartFromBundles(folder: Path, pod: string, p: Path)
    requires '/' !in pod && Under(p, SourceFolder(folder))
    ensures !Under(p, OldBundle(folder)) && !Under(p, NewBundle(folder, pod))
    ensures !Under(p, OldScheme(folder)) && !Under(p, NewScheme(folder, pod))
  {
    var os, ns, ob, nb := OldScheme(folder), NewScheme(folder, pod), OldBundle(folder), NewBundle(folder, pod);
    TailAfterDirectory(p, SourceFolder(folder));
    var t := p[|SourceFolder(folder)|..];
    assert p == (folder + "/") + "PROJECT" + t;
    SiblingsApart(folder + "/", "PROJECT", t, BundleName("PROJECT"), "");
    SiblingsApart(folder + "/", "PROJECT", t, BundleName(pod), "");
    assert !Under(p, ob) && !Under(p, nb);
    SchemePaths(folder, pod);
    if Under(p, os) { UnderTransitive(p, os, ob); }
    if Under(p, ns) { UnderTransitive(p, ns, ob); }
  }

  /** An entry outside the sources and targets of two moves keeps its kind and contents. */
  lemma TwoMovesFrame(fs: Fs, a1: Path, b1: Path, a2: Path, b2: Path, p: Path)
    requires !Under(p, a1) && !Under(p, b1) && !Under(p, a2) && !Under(p, b2)
    ensures var r := Move(Move(fs, a1, b1), a2, b2);
      (p in r.files <==> p in fs.files) && (p in r.dirs <==> p in fs.dirs)
      && (p in r.files ==> r.files[p] == fs.files[p])
  {
  }

  /** A path the storyboard loop does not name keeps its entry; directories never change. */
  lemma {:induction false} RewriteEachFrame(fs: Fs, base: Path, names: seq<string>, f: string, r: string, p: Path)
    requires |f| > 0
    requires forall i :: 0 <= i < |names| ==> p != base + names[i]
    ensures var o := RewriteEach(fs, base, names, f, r);
      o.fs.dirs == fs.dirs && (p in o.fs.files <==> p in fs.files)
      && (p in o.fs.files ==> o.fs.files[p] == fs.files[p])
    decreases |names|
  {
    if |names| > 0 {
      var init := names[..|names| - 1];
      assert forall i :: 0 <= i < |init| ==> init[i] == names[i];
      RewriteEachFrame(fs, base, init, f, r, p);
    }
  }

  /**
   * The final scheme lies in the new bundle, beside the source folder:
   * no path below `<folder>/PROJECT/`, and neither the source folder nor
   * its renamed form, contains it.
   */
  lemma FinalSchemeOutsideSources(folder: Path, pod: string, x: string)
    requires '/' !in pod
    ensures !Under(FinalScheme(folder, pod), SourceBase(folder) + x)
    ensures !Under(FinalScheme(folder, pod), SourceFolder(folder))
    ensures !Under(FinalScheme(folder, pod), RenamedFolder(folder, pod))
  {
    var P, b := folder + "/", BundleName(pod);
    assert SourceBase(folder) + x == P + "PROJECT" + ("/" + x);
    assert |b| != |"PROJECT"| && |b| != |pod|;
    SiblingsApart(P, b, SchemeTail(pod), "PROJECT", "/" + x);
    SiblingsApart(P, b, SchemeTail(pod), "PROJECT", "");
    SiblingsApart(P, b, SchemeTail(pod), pod, "");
    assert P + "PROJECT" + "" == SourceFolder(folder) && P + pod + "" == RenamedFolder(folder, pod);
  }

  /**
   * The demo-kept steps leave the final scheme alone, and the only way
   * they fail is a storyboard path that is a directory.
   */
  lemma DemoKeptKeepsScheme(fs: Fs, folder: Path, pod: string, prefix: string)
    requires '/' !in pod
    ensures var o, q := DemoKeptRenames(fs, folder, pod, prefix), FinalScheme(folder, pod);
      (o.Failed? ==> o.error == IsADirectory(SourceBase(folder) + StoryboardFiles[0]))
      && (q in o.fs.files <==> q in fs.files) && (q in o.fs.files ==> o.fs.files[q] == fs.files[q])
  {
    var q, base := FinalScheme(folder, pod), SourceBase(folder);
    FinalSchemeOutsideSources(folder, pod, StoryboardFiles[0]);
    RewriteEachFrame(fs, base, StoryboardFiles, "CPD", prefix, q);
    var o := RewriteEach(fs, base, StoryboardFiles, "CPD", prefix);
    assert StoryboardFiles[..0] == [];
    if o.Done? {
      forall i | 0 <= i < |PrefixedFiles|
        ensures !Under(q, base + PrefixedFiles[i]) && !Under(q, Destination(base, PrefixedFiles[i], "CPD", prefix))
      {
        FinalSchemeOutsideSources(folder, pod, PrefixedFiles[i]);
        FinalSchemeOutsideSources(folder, pod, ReplaceAll(PrefixedFiles[i], "CPD", prefix));
      }
      RenameEachFrame(o.fs, base, PrefixedFiles, "CPD", prefix, q);
      var s2 := RenameEach(o.fs, base, PrefixedFiles, "CPD", prefix);
      forall i | 0 <= i < |ProjectNamedFiles|
        ensures !Under(q, base + ProjectNamedFiles[i]) && !Under(q, Destination(base, ProjectNamedFiles[i], "PROJECT", pod))
      {
        FinalSchemeOutsideSources(folder, pod, ProjectNamedFiles[i]);
        FinalSchemeOutsideSources(folder, pod, ReplaceAll(ProjectNamedFiles[i], "PROJECT", pod));
      }
      RenameEachFrame(s2, base, ProjectNamedFiles, "PROJECT", pod, q);
    }
  }

  /** An entry outside every source and destination of a rename loop is untouched by it. */
  lemma {:induction false} RenameEachFrame(fs: Fs, base: Path, names: seq<string>, f: string, r: string, p: Path)
    requires |f| > 0
    requires forall i :: 0 <= i < |names| ==> !Under(p, base + names[i]) && !Under(p, Destination(base, names[i], f, r))
    ensures var s := RenameEach(fs, base, names, f, r);
      (p in s.files <==> p in fs.files) && (p in s.dirs <==> p in fs.dirs)
      && (p in s.files ==> s.files[p] == fs.files[p])
    decreases |names|
  {
    if |names| > 0 {
      var init := names[..|names| - 1];
      assert forall i :: 0 <= i < |init| ==> init[i] == names[i];
      RenameEachFrame(fs, base, init, f, r, p);
    }
  }

  /**
   * No step of a rename loop touches the source or the result of another:
   * a later source or destination is never at or below an earlier one,
   * nor the other way round.
   */
  predicate Independent(base: Path, names: seq<string>, f: string, r: string)
    requires |f| > 0
  {
    forall i, j :: 0 <= i < j < |names| ==>
      var si, sj := base + names[i], base + names[j];
      var ti, tj := Destination(base, names[i], f, r), Destination(base, names[j], f, r);
      !Under(sj, si) && !Under(sj, ti) && !Under(ti, sj) && !Under(ti, tj)
  }

  /**
   * Dropping the last step keeps the remaining steps independent, and the
   * last step neither moves nor overwrites the destination of step `k`.
   */
  lemma IndependentPrefix(base: Path, names: seq<string>, f: string, r: string, k: nat)
    requires |f| > 0 && Independent(base, names, f, r) && k < |names| - 1
    ensures Independent(base, names[..|names| - 1], f, r)
    ensures names[..|names| - 1][k] == names[k]
    ensures var n := |names|;
      !Under(Destination(base, names[k], f, r), base + names[n - 1])
      && !Under(Destination(base, names[k], f, r), Destination(base, names[n - 1], f, r))
  {
    var init := names[..|names| - 1];
    assert forall i :: 0 <= i < |init| ==> init[i] == names[i];
  }

  /** The earlier steps of an independent loop leave the last step's source alone. */
  lemma LastSourceUntouched(fs: Fs, base: Path, names: seq<string>, f: string, r: string)
    requires |f| > 0 && Independent(base, names, f, r) && |names| > 0
    ensures var p, s := base + names[|names| - 1], RenameEach(fs, base, names[..|names| - 1], f, r);
      (p in s.files <==> p in fs.files) && (p in s.files ==> s.files[p] == fs.files[p])
  {
    var n := |names|;
    var init := names[..n - 1];
    assert forall i :: 0 <= i < |init| ==> init[i] == names[i];
    RenameEachFrame(fs, base, init, f, r, base + names[n - 1]);
  }

  /** A file that a rename step neither moves nor overwrites keeps its place and contents. */
  lemma RenameOneKeeps(fs: Fs, base: Path, name: string, f: string, r: string, p: Path)
    requires |f| > 0 && p in fs.files
    requires !Under(p, base + name) && !Under(p, Destination(base, name, f, r))
    ensures var s := RenameOne(fs, base, name, f, r);
      p in s.files && s.files[p] == fs.files[p]
  {
  }

  /** A rename step whose source is a file puts its contents at the destination. */
  lemma RenameOneArrives(fs: Fs, base: Path, name: string, f: string, r: string)
    requires |f| > 0 && base + name in fs.files
    ensures var s, q := RenameOne(fs, base, name, f, r), Destination(base, name, f, r);
      q in s.files && s.files[q] == fs.files[base + name]
  {
    var src := base + name;
    assert Reroot(src, src, Destination(base, name, f, r)) == Destination(base, name, f, r);
  }

  /**
   * Each listed file that exists ends up, with its contents, at its
   * renamed path, when the steps of the loop are independent.
   */
  lemma {:induction false} RenameEachMoves(fs: Fs, base: Path, names: seq<string>, f: string, r: string, k: nat)
    requires |f| > 0 && Independent(base, names, f, r)
    requires k < |names| && base + names[k] in fs.files
    ensures var s := RenameEach(fs, base, names, f, r);
      Destination(base, names[k], f, r) in s.files
      && s.files[Destination(base, names[k], f, r)] == fs.files[base + names[k]]
    decreases |names|
  {
    var n := |names|;
    var init := names[..n - 1];
    var s' := RenameEach(fs, base, init, f, r);
    assert RenameEach(fs, base, names, f, r) == RenameOne(s', base, names[n - 1], f, r);
    if k == n - 1 {
      LastSourceUntouched(fs, base, names, f, r);
      RenameOneArrives(s', base, names[k], f, r);
    } else {
      IndependentPrefix(base, names, f, r, k);
      RenameEachMoves(fs, base, init, f, r, k);
      RenameOneKeeps(s', base, names[n - 1], f, r, Destination(base, names[k], f, r));
    }
  }

  /**
   * Distinct steps of a rename loop are apart: no source or destination
   * of one is at or below a source or destination of another.
   */
  predicate Disjoint(base: Path, names: seq<string>, f: string, r: string)
    requires |f| > 0
  {
    forall i, j :: 0 <= i < |names| && 0 <= j < |names| && i != j ==>
      Apart(base + names[i], base + names[j])
      && Apart(base + names[i], Destination(base, names[j], f, r))
      && Apart(Destination(base, names[i], f, r), Destination(base, names[j], f, r))
  }

  lemma DisjointIndependent(base: Path, names: seq<string>, f: string, r: string)
    requires |f| > 0 && Disjoint(base, names, f, r)
    ensures Independent(base, names, f, r)
  {
  }

  /** Dropping the last step keeps a loop disjoint. */
  lemma DisjointInit(base: Path, names: seq<string>, f: string, r: string)
    requires |f| > 0 && Disjoint(base, names, f, r) && |names| > 0
    ensures Disjoint(base, names[..|names| - 1], f, r)
  {
    var init := names[..|names| - 1];
    assert forall i :: 0 <= i < |init| ==> init[i] == names[i];
  }

  /** In a disjoint loop, the source and destination of step `k` are apart from every other step. */
  lemma DisjointOthers(base: Path, names: seq<string>, f: string, r: string, k: nat)
    requires |f| > 0 && Disjoint(base, names, f, r) && k < |names|
    ensures forall i :: 0 <= i < |names| && i != k ==>
      var p, q := base + names[k], Destination(base, names[k], f, r);
      !Under(p, base + names[i]) && !Under(p, Destination(base, names[i], f, r))
      && !Under(q, base + names[i]) && !Under(q, Destination(base, names[i], f, r))
  {
  }

  /** A rename step leaves alone an entry outside its source and destination. */
  lemma RenameOneFrame(fs: Fs, base: Path, name: string, f: string, r: string, p: Path)
    requires |f| > 0 && !Under(p, base + name) && !Under(p, Destination(base, name, f, r))
    ensures var s := RenameOne(fs, base, name, f, r);
      (p in s.files <==> p in fs.files) && (p in s.dirs <==> p in fs.dirs)
      && (p in s.files ==> s.files[p] == fs.files[p])
  {
  }

  /** A rename step to a place outside its source empties the source. */
  lemma RenameOneVacates(fs: Fs, base: Path, name: string, f: string, r: string)
    requires |f| > 0 && Present(fs, base + name) && !Under(base + name, Destination(base, name, f, r))
    ensures !Present(RenameOne(fs, base, name, f, r), base + name)
  {
    var p := base + name;
    assert p[..|p|] == p;
  }

  /**
   * A listed entry that is missing is skipped: whatever is at its
   * destination stays as it was, when the loop is disjoint.
   */
  lemma {:induction false} RenameEachSkips(fs: Fs, base: Path, names: seq<string>, f: string, r: string, k: nat)
    requires |f| > 0 && Disjoint(base, names, f, r)
    requires k < |names| && !Present(fs, base + names[k])
    ensures SameAt(fs, RenameEach(fs, base, names, f, r), Destination(base, names[k], f, r))
    decreases |names|
  {
    var n := |names|;
    var init := names[..n - 1];
    var q := Destination(base, names[k], f, r);
    var s' := RenameEach(fs, base, init, f, r);
    assert RenameEach(fs, base, names, f, r) == RenameOne(s', base, names[n - 1], f, r);
    assert forall i :: 0 <= i < |init| ==> init[i] == names[i];
    DisjointOthers(base, names, f, r, k);
    if k == n - 1 {
      RenameEachFrame(fs, base, init, f, r, base + names[k]);
      RenameEachFrame(fs, base, init, f, r, q);
    } else {
      DisjointInit(base, names, f, r);
      RenameEachSkips(fs, base, init, f, r, k);
      RenameOneFrame(s', base, names[n - 1], f, r, q);
      SameAtTransitive(fs, s', RenameOne(s', base, names[n - 1], f, r), q);
    }
  }

  lemma SameAtTransitive(a: Fs, b: Fs, c: Fs, p: Path)
    requires SameAt(a, b, p) && SameAt(b, c, p)
    ensures SameAt(a, c, p)
  {
  }

  /** A listed entry that exists and is renamed elsewhere is no longer at its old path. */
  lemma {:induction false} RenameEachVacates(fs: Fs, base: Path, names: seq<string>, f: string, r: string, k: nat)
    requires |f| > 0 && Disjoint(base, names, f, r)
    requires k < |names| && Present(fs, base + names[k])
    requires !Under(base + names[k], Destination(base, names[k], f, r))
    ensures !Present(RenameEach(fs, base, names, f, r), base + names[k])
    decreases |names|
  {
    var n := |names|;
    var init := names[..n - 1];
    var p := base + names[k];
    var s' := RenameEach(fs, base, init, f, r);
    assert RenameEach(fs, base, names, f, r) == RenameOne(s', base, names[n - 1], f, r);
    assert forall i :: 0 <= i < |init| ==> init[i] == names[i];
    DisjointOthers(base, names, f, r, k);
    if k == n - 1 {
      RenameEachFrame(fs, base, init, f, r, p);
      RenameOneVacates(s', base, names[k], f, r);
    } else {
      DisjointInit(base, names, f, r);
      RenameEachVacates(fs, base, init, f, r, k);
      RenameOneFrame(s', base, names[n - 1], f, r, p);
    }
  }

  /** `p` holds the same entry, if any, in `a` and in `b`. */
  predicate SameAt(a: Fs, b: Fs, p: Path)
  {
    (p in a.files <==> p in b.files) && (p in a.dirs <==> p in b.dirs)
    && (p in a.files ==> a.files[p] == b.files[p])
  }

  /**
   * What a conditional rename of `src` to `dst` leaves behind, from `fs`
   * to `s`: a file at `src` is now at `dst` with its contents; when there
   * is nothing at `src`, `dst` is as it was; and an entry at `src` that
   * was moved somewhere outside it is gone from `src`.
   */
  predicate Placed(fs: Fs, s: Fs, src: Path, dst: Path)
  {
    && (src in fs.files ==> dst in s.files && s.files[dst] == fs.files[src])
    && (!Present(fs, src) ==> SameAt(fs, s, dst))
    && (Present(fs, src) && !Under(src, dst) ==> !Present(s, src))
  }

  /** In a disjoint loop, every step is Placed by the whole loop. */
  lemma RenameEachPlaces(fs: Fs, base: Path, names: seq<string>, f: string, r: string, k: nat)
    requires |f| > 0 && Disjoint(base, names, f, r) && k < |names|
    ensures Placed(fs, RenameEach(fs, base, names, f, r), base + names[k], Destination(base, names[k], f, r))
  {
    var src, dst := base + names[k], Destination(base, names[k], f, r);
    if src in fs.files {
      DisjointIndependent(base, names, f, r);
      RenameEachMoves(fs, base, names, f, r, k);
    }
    if !Present(fs, src) {
      RenameEachSkips(fs, base, names, f, r, k);
    }
    if Present(fs, src) && !Under(src, dst) {
      RenameEachVacates(fs, base, names, f, r, k);
    }
  }

  /** Steps before a rename that leave both of its paths alone do not change what it places. */
  lemma PlacedAfterFrame(fs: Fs, s1: Fs, s2: Fs, src: Path, dst: Path)
    requires SameAt(fs, s1, src) && SameAt(fs, s1, dst) && Placed(s1, s2, src, dst)
    ensures Placed(fs, s2, src, dst)
  {
  }

  /** Steps after a rename that leave both of its paths alone do not undo it. */
  lemma PlacedBeforeFrame(fs: Fs, s1: Fs, s2: Fs, src: Path, dst: Path)
    requires Placed(fs, s1, src, dst) && SameAt(s1, s2, src) && SameAt(s1, s2, dst)
    ensures Placed(fs, s2, src, dst)
  {
  }

  /** The storyboard, when it is a file, gets every `CPD` replaced by the prefix and nothing else changes. */
  lemma StoryboardRewritten(fs: Fs, folder: Path, prefix: string)
    requires WellFormed(fs)
    ensures var path := SourceBase(folder) + StoryboardFiles[0];
      var o := RewriteEach(fs, SourceBase(folder), StoryboardFiles, "CPD", prefix);
      && (path in fs.files ==> o == Done(Written(fs, path, Join(Split(fs.files[path], "CPD"), prefix))))
      && (path in fs.dirs ==> o == Failed(fs, IsADirectory(path)))
      && (!Present(fs, path) ==> o == Done(fs))
  {
    var path := SourceBase(folder) + StoryboardFiles[0];
    assert StoryboardFiles[..0] == [];
    if path in fs.files {
      ReplaceAllIsSplitJoin(fs.files[path], "CPD", prefix);
    }
  }

  /**
   * `rename_project_folder`: when `<folder>/PROJECT` is a directory, it
   * moves with everything below it to `<folder>/<pod>` and (for a plain
   * pod name other than PROJECT) nothing is left below the old name;
   * otherwise nothing changes.
   */
  lemma ProjectFolderMoved(fs: Fs, folder: Path, pod: string)
    ensures var r := RenameProjectFolder(fs, folder, pod);
      var src, dst := SourceFolder(folder), RenamedFolder(folder, pod);
      && (src !in fs.dirs ==> r == fs)
      && (src in fs.dirs ==>
            (forall p :: p in fs.files && Under(p, src) ==>
               Reroot(p, src, dst) in r.files && r.files[Reroot(p, src, dst)] == fs.files[p])
            && ('/' !in pod && pod != "PROJECT" ==> forall p :: Under(p, src) ==> !Present(r, p)))
  {
    var src, dst := SourceFolder(folder), RenamedFolder(folder, pod);
    if src in fs.dirs && '/' !in pod && pod != "PROJECT" {
      forall p | Under(p, src) ensures !Under(p, dst) {
        TailAfterDirectory(p, src);
        var t := p[|src|..];
        assert p == (folder + "/") + "PROJECT" + t;
        SiblingsApart(folder + "/", "PROJECT", t, pod, "");
      }
    }
  }
}
