/**
 * `Pod::ProjectManipulator`: the object that turns the template project
 * into the named project, stage by stage, on the disk and on the opened
 * project descriptor.
 */
module Manipulator {
  import opened Wrappers
  import opened Strings
  import opened Paths
  import opened Errors
  import opened Files
  import opened Substitution
  import opened Renames
  import opened Descriptor

  /** What a run leaves behind: the disk, the descriptor it saved (if it got that far), and the error it stopped with. */
  datatype RunResult = RunResult(fs: Fs, saved: Option<Project>, error: Option<Error>)

  /**
   * `run`, stage by stage: substitute tokens below the project folder,
   * open the descriptor, remove the demo when asked, save, rename the
   * files, rename the source folder. An exception ends the run where it
   * is raised.
   */
  function RunSpec(fs: Fs, folder: Path, c: Configurator, prefix: string, removeDemo: bool,
                   loaded: Project, appPath: string): (r: RunResult)
    ensures WellFormed(fs) ==> WellFormed(r.fs)
    // the descriptor is saved unless demo removal crashed, and then nothing is renamed
    ensures r.saved.None? <==> removeDemo && RemoveDemo(loaded, c.podName, appPath).Crashed?
    ensures r.saved.None? ==> r.error.Some? && r.fs == Substituted(fs, folder, Replacements(c, prefix))
    // what is saved is the descriptor with the demo removed, or as it was loaded
    ensures r.saved.Some? ==> r.saved.value == (if removeDemo then RemoveDemo(loaded, c.podName, appPath).project else loaded)
  {
    var fs1 := Substituted(fs, folder, Replacements(c, prefix));
    var removal := if removeDemo then RemoveDemo(loaded, c.podName, appPath) else Removed(loaded);
    match removal
    case Crashed(_, e) => RunResult(fs1, None, Some(e))
    case Removed(d) =>
      match RenameStages(fs1, folder, c.podName, prefix, removeDemo)
      case Failed(s, e) => RunResult(s, Some(d), Some(e))
      case Done(s) => RunResult(s, Some(d), None)
  }

  /**
   * A crash in demo removal ends the run before `@project.save`: the
   * descriptor on disk is not replaced, none of the partial removals is
   * kept, and no file is renamed; only the substitution pass has run.
   */
  lemma DemoCrashSavesNothing(fs: Fs, folder: Path, c: Configurator, prefix: string, loaded: Project, appPath: string)
    requires RemoveDemo(loaded, c.podName, appPath).Crashed?
    ensures var r := RunSpec(fs, folder, c, prefix, true, loaded, appPath);
      r == RunResult(Substituted(fs, folder, Replacements(c, prefix)), None, Some(RemoveDemo(loaded, c.podName, appPath).error))
  {
  }

  /** The scheme file lies below the project folder, so the substitution pass rewrites it. */
  lemma SchemeIsVisited(fs: Fs, folder: Path)
    requires WellFormed(fs) && OldScheme(folder) in fs.files
    ensures Visited(fs, folder, OldScheme(folder))
  {
    assert OldScheme(folder) == (folder + "/") + (BundleName("PROJECT") + SchemeTail("PROJECT"));
  }

  /**
   * End to end: when the template has its shared scheme and its bundle,
   * and the run gets past the save, the substituted scheme ends up at
   * `<folder>/<pod>.xcodeproj/xcshareddata/xcschemes/<pod>.xcscheme`.
   * The only error still possible then is a storyboard path that is a
   * directory.
   */
  lemma {:induction false} RunPlacesScheme(fs: Fs, folder: Path, c: Configurator, prefix: string, removeDemo: bool,
                                           loaded: Project, appPath: string)
    requires WellFormed(fs) && '/' !in c.podName
    requires OldScheme(folder) in fs.files && Present(fs, OldBundle(folder))
    ensures var r := RunSpec(fs, folder, c, prefix, removeDemo, loaded, appPath);
      r.saved.Some? ==>
        (r.error.None? || r.error == Some(IsADirectory(SourceBase(folder) + StoryboardFiles[0])))
        && FinalScheme(folder, c.podName) in r.fs.files
        && r.fs.files[FinalScheme(folder, c.podName)] == Rewritten(Replacements(c, prefix), fs.files[OldScheme(folder)])
  {
    var pod, pairs := c.podName, Replacements(c, prefix);
    var fs1 := Substituted(fs, folder, pairs);
    SubstitutedEffect(fs, folder, pairs);
    SchemeIsVisited(fs, folder);
    RenameStagesPlaceScheme(fs1, folder, pod, prefix, removeDemo);
  }

  class ProjectManipulator {
    const xcodeprojPath: Path
    const configurator: Configurator
    const removeDemoTarget: bool
    const prefix: string
    const disk: FileSystem

    var stringReplacements: seq<(string, string)>
    /** The opened descriptor (`@project`), once `run` has opened it. */
    var project: Option<Project>
    /** What `@project.save` last wrote back. */
    var saved: Option<Project>

    constructor (xcodeprojPath: Path, configurator: Configurator, removeDemoTarget: bool, prefix: string, disk: FileSystem)
      ensures this.xcodeprojPath == xcodeprojPath && this.configurator == configurator
      ensures this.removeDemoTarget == removeDemoTarget && this.prefix == prefix && this.disk == disk
      ensures stringReplacements == [] && project == None && saved == None
    {
      this.xcodeprojPath := xcodeprojPath;
      this.configurator := configurator;
      this.removeDemoTarget := removeDemoTarget;
      this.prefix := prefix;
      this.disk := disk;
      stringReplacements := [];
      project := None;
      saved := None;
    }

    /** `project_folder`: the directory that holds the `.xcodeproj`. */
    function ProjectFolder(): (folder: Path)
      ensures folder != ""
      ensures var q := CollapseRoot(xcodeprojPath);
        folder == "." || folder == "/" || (StartsWith(q, folder) && |folder| < |q| && q[|folder|] == '/')
      ensures !(|folder| >= 2 && folder[0] == '/' && folder[1] == '/')
    {
      Dirname(xcodeprojPath)
    }

    /** The `for find, replace in @string_replacements` loop over one file's text. */
    static method SubstituteText(pairs: seq<(string, string)>, original: string) returns (text: string)
      requires ValidPairs(pairs)
      ensures text == ApplyAll(pairs, original)
    {
      text := original;
      for j := 0 to |pairs|
        invariant text == ApplyAll(pairs[..j], original)
      {
        assert pairs[..j + 1][..j] == pairs[..j];
        text := ReplaceAll(text, pairs[j].0, pairs[j].1);
      }
      assert pairs[..|pairs|] == pairs;
    }

    /** `replace_internal_project_settings`. */
    method ReplaceInternalProjectSettings()
      requires disk.Valid() && ValidPairs(stringReplacements)
      modifies disk
      ensures disk.Valid()
      ensures disk.State() == Substituted(old(disk.State()), ProjectFolder(), stringReplacements)
    {
      var root := ProjectFolder();
      var pairs := stringReplacements;
      ghost var s0 := disk.State();
      var todo := (set p | p in disk.files && StrictlyUnder(p, root)) + (set p | p in disk.dirs && StrictlyUnder(p, root));
      SubstitutedEnds(s0, root, pairs, todo);
      while todo != {}
        invariant forall p :: p in todo ==> StrictlyUnder(p, root) && Present(s0, p)
        invariant disk.Valid()
        invariant disk.State() == SubstitutedExcept(s0, root, pairs, todo)
        decreases todo
      {
        var name :| name in todo;
        SubstitutedStep(s0, root, pairs, todo, name);
        todo := todo - {name};
        if !disk.IsDirectory(name) {
          var text := SubstituteText(pairs, disk.files[name]);
          disk.Write(name, Puts(text));
        }
      }
    }

    /** `remove_demo_project` on the opened descriptor. */
    method RemoveDemoProject(appPath: string) returns (err: Option<Error>)
      requires project.Some?
      modifies this`project
      ensures var o := RemoveDemo(old(project).value, configurator.podName, appPath);
        project == Some(o.project) && (err.Some? <==> o.Crashed?) && (o.Crashed? ==> err == Some(o.error))
    {
      var d := project.value;
      var i := AppTarget(d);
      if i.None? {
        return Some(NoApplicationTarget);
      }
      d := d.(targets := RemoveAt(d.targets, i.value));
      project := Some(d);
      var j := AppGroup(d, configurator.podName);
      if j.None? {
        return Some(NoAppGroup);
      }
      d := d.(mainGroupChildren := RemoveAt(d.mainGroupChildren, j.value));
      project := Some(d);
      var k := AppProduct(d, appPath);
      if k.None? {
        return Some(NoAppProduct);
      }
      d := d.(products := RemoveAt(d.products, k.value));
      project := Some(d);
      err := None;
    }

    /** A list of contents rewrites below `base`, as the storyboard loop does them. */
    method RewriteListed(base: Path, names: seq<string>, f: string, r: string) returns (err: Option<Error>)
      requires |f| > 0 && disk.Valid()
      modifies disk
      ensures disk.Valid()
      ensures var o := RewriteEach(old(disk.State()), base, names, f, r);
        disk.State() == o.fs && (err.Some? <==> o.Failed?) && (o.Failed? ==> err == Some(o.error))
    {
      ghost var s0 := disk.State();
      for i := 0 to |names|
        invariant disk.Valid()
        invariant RewriteEach(s0, base, names[..i], f, r) == Done(disk.State())
      {
        assert names[..i + 1][..i] == names[..i];
        var path := base + names[i];
        if disk.Exists(path) {
          if disk.IsDirectory(path) {
            RewriteEachStops(s0, base, names, f, r, i + 1);
            return Some(IsADirectory(path));
          }
          var buffer := ReplaceAll(disk.files[path], f, r);
          disk.Write(path, buffer);
        }
      }
      assert names[..|names|] == names;
      err := None;
    }

    /** A list of conditional renames below `base`, as the two file loops do them. */
    method RenameListed(base: Path, names: seq<string>, f: string, r: string)
      requires |f| > 0 && disk.Valid()
      modifies disk
      ensures disk.Valid()
      ensures disk.State() == RenameEach(old(disk.State()), base, names, f, r)
    {
      ghost var s0 := disk.State();
      for i := 0 to |names|
        invariant disk.Valid()
        invariant disk.State() == RenameEach(s0, base, names[..i], f, r)
      {
        assert names[..i + 1][..i] == names[..i];
        var before := base + names[i];
        if disk.Exists(before) {
          var after := base + ReplaceAll(names[i], f, r);
          var _ := disk.Rename(before, after);
        }
      }
      assert names[..|names|] == names;
    }

    /** `rename_files`. */
    method RenameFiles() returns (err: Option<Error>)
      requires disk.Valid()
      modifies disk
      ensures disk.Valid()
      ensures var o := Renames.RenameFiles(old(disk.State()), ProjectFolder(), configurator.podName, prefix, removeDemoTarget);
        disk.State() == o.fs && (err.Some? <==> o.Failed?) && (o.Failed? ==> err == Some(o.error))
    {
      var folder, pod := ProjectFolder(), configurator.podName;
      err := disk.Rename(OldScheme(folder), NewScheme(folder, pod));
      if err.Some? {
        return;
      }
      err := disk.Rename(OldBundle(folder), NewBundle(folder, pod));
      if err.Some? {
        return;
      }
      if !removeDemoTarget {
        var base := SourceBase(folder);
        err := RewriteListed(base, StoryboardFiles, "CPD", prefix);
        if err.Some? {
          return;
        }
        RenameListed(base, PrefixedFiles, "CPD", prefix);
        RenameListed(base, ProjectNamedFiles, "PROJECT", pod);
      }
    }

    /** `rename_project_folder`. */
    method RenameProjectFolder()
      requires disk.Valid()
      modifies disk
      ensures disk.Valid()
      ensures disk.State() == Renames.RenameProjectFolder(old(disk.State()), ProjectFolder(), configurator.podName)
    {
      var folder := ProjectFolder();
      if disk.IsDirectory(SourceFolder(folder)) {
        var _ := disk.Rename(SourceFolder(folder), RenamedFolder(folder, configurator.podName));
      }
    }

    /**
     * `run`, with the opened descriptor and the path line 57 compares
     * product paths with given as parameters.
     */
    method Run(loaded: Project, appPath: string) returns (err: Option<Error>)
      requires disk.Valid()
      modifies this, disk
      ensures disk.Valid()
      ensures stringReplacements == Replacements(configurator, prefix)
      ensures var r := RunSpec(old(disk.State()), ProjectFolder(), configurator, prefix, removeDemoTarget, loaded, appPath);
        disk.State() == r.fs && err == r.error && saved == (if r.saved.Some? then r.saved else old(saved))
    ensures project == Some(if removeDemoTarget then RemoveDemo(loaded, configurator.podName, appPath).project else loaded)
    {
      stringReplacements := Replacements(configurator, prefix);
      ReplaceInternalProjectSettings();
      project := Some(loaded);
      if removeDemoTarget {
        err := RemoveDemoProject(appPath);
        if err.Some? {
          return;
        }
      }
      saved := project;
      err := RenameFiles();
      if err.Some? {
        return;
      }
      RenameProjectFolder();
    }
  }
}
