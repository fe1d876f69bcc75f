/**
 * An abstract filesystem: the contents of every regular file by path, and
 * the set of directory paths. `Fs` is its value; `FileSystem` is the
 * object whose methods change it in place, as `File.open(.., "w")` and
 * `File.rename` change the disk.
 */
module Files {
  import opened Strings
  import opened Paths
  import opened Errors
  import opened Wrappers

  datatype Fs = Fs(files: map<Path, string>, dirs: set<Path>)

  /** No path is both a regular file and a directory. */
  predicate WellFormed(fs: Fs)
  {
    fs.files.Keys !! fs.dirs
  }

  /** Ruby's `File.exist?`: a file or a directory is there. */
  predicate Present(fs: Fs, p: Path)
  {
    p in fs.files || p in fs.dirs
  }

  /** The state a stage reached, and the error it stopped with, if any. */
  datatype Outcome = Done(fs: Fs) | Failed(fs: Fs, error: Error)

  /** The files outside both subtrees, unchanged. */
  function KeptFiles(m: map<Path, string>, a: Path, b: Path): (r: map<Path, string>)
    ensures forall p {:trigger p in r} {:trigger p in m} :: p in r <==> p in m && !Under(p, a) && !Under(p, b)
    ensures forall p {:trigger r[p]} :: p in r ==> r[p] == m[p]
  {
    map p | p in m && !Under(p, a) && !Under(p, b) :: m[p]
  }

  /** The files at or below `a`, re-rooted below `b`. */
  function MovedFiles(m: map<Path, string>, a: Path, b: Path): (r: map<Path, string>)
    ensures forall p {:trigger Reroot(p, a, b)} :: p in m && Under(p, a) ==> Reroot(p, a, b) in r && r[Reroot(p, a, b)] == m[p]
    ensures forall q {:trigger q in r} :: q in r ==> Under(q, b)
    ensures forall q {:trigger q in r} :: q in r ==> Under(q, b) && var p := Reroot(q, b, a); p in m && Under(p, a) && r[q] == m[p]
  {
    RerootInjectiveAll(a, b);
    var r := map p | p in m && Under(p, a) :: Reroot(p, a, b) := m[p];
    forall p | p in m && Under(p, a) ensures Reroot(p, a, b) in r && r[Reroot(p, a, b)] == m[p] {
    }
    forall q | q in r ensures Under(q, b) && var p := Reroot(q, b, a); p in m && Under(p, a) && r[q] == m[p] {
      var p :| p in m && Under(p, a) && Reroot(p, a, b) == q;
      RerootBack(p, a, b);
      assert r[Reroot(p, a, b)] == m[p];
    }
    r
  }

  function MoveFiles(m: map<Path, string>, a: Path, b: Path): (r: map<Path, string>)
    ensures forall p {:trigger Reroot(p, a, b)} :: p in m && Under(p, a) ==> Reroot(p, a, b) in r && r[Reroot(p, a, b)] == m[p]
    ensures forall p {:trigger p in r} {:trigger p in m} :: p in m && !Under(p, a) && !Under(p, b) ==> p in r && r[p] == m[p]
    ensures forall q {:trigger q in r} :: q in r && !Under(q, b) ==> q in m && !Under(q, a)
    ensures forall q {:trigger q in r} :: q in r && Under(q, b) ==>
      var p := Reroot(q, b, a); p in m && Under(p, a) && r[q] == m[p]
  {
    KeptFiles(m, a, b) + MovedFiles(m, a, b)
  }

  function MoveDirs(s: set<Path>, a: Path, b: Path): (r: set<Path>)
    ensures forall p {:trigger Reroot(p, a, b)} :: p in s && Under(p, a) ==> Reroot(p, a, b) in r
    ensures forall p {:trigger p in r} {:trigger p in s} :: p in s && !Under(p, a) && !Under(p, b) ==> p in r
    ensures forall q {:trigger q in r} :: q in r && !Under(q, b) ==> q in s && !Under(q, a)
    ensures forall q {:trigger q in r} :: q in r && Under(q, b) ==> var p := Reroot(q, b, a); p in s && Under(p, a)
  {
    var r := (set p | p in s && !Under(p, a) && !Under(p, b)) + (set p | p in s && Under(p, a) :: Reroot(p, a, b));
    forall q | q in r && Under(q, b) ensures var p := Reroot(q, b, a); p in s && Under(p, a) {
      var p :| p in s && Under(p, a) && Reroot(p, a, b) == q;
      RerootBack(p, a, b);
    }
    r
  }

  /**
   * What `File.rename(a, b)` does to an existing entry `a`: `a` and
   * everything below it reappear below `b` with the same contents, and
   * whatever was at or below `b` before is gone.
   */
  function Move(fs: Fs, a: Path, b: Path): (r: Fs)
    // every file and directory at or below `a` is now at the same place below `b`
    ensures forall p {:trigger Reroot(p, a, b)} :: p in fs.files && Under(p, a) ==>
      Reroot(p, a, b) in r.files && r.files[Reroot(p, a, b)] == fs.files[p]
    ensures forall p {:trigger Reroot(p, a, b)} :: p in fs.dirs && Under(p, a) ==> Reroot(p, a, b) in r.dirs
    // entries outside both subtrees are untouched
    ensures forall p {:trigger p in r.files} {:trigger p in fs.files} {:trigger p in r.dirs} {:trigger p in fs.dirs} ::
      !Under(p, a) && !Under(p, b) ==> (p in r.files <==> p in fs.files) && (p in r.dirs <==> p in fs.dirs)
    ensures forall p {:trigger r.files[p]} :: !Under(p, a) && !Under(p, b) && p in r.files ==> r.files[p] == fs.files[p]
    // the old subtree is gone unless it lies inside the new one
    ensures forall p {:trigger p in r.files} {:trigger p in r.dirs} :: Under(p, a) && !Under(p, b) ==> !Present(r, p)
    // everything now at or below `b` came from the same place below `a`
    ensures forall q {:trigger q in r.files} :: q in r.files && Under(q, b) ==>
      var p := Reroot(q, b, a); p in fs.files && Under(p, a) && r.files[q] == fs.files[p]
    ensures forall q {:trigger q in r.dirs} :: q in r.dirs && Under(q, b) ==>
      var p := Reroot(q, b, a); p in fs.dirs && Under(p, a)
  {
    Fs(MoveFiles(fs.files, a, b), MoveDirs(fs.dirs, a, b))
  }

  /** A move keeps files and directories apart. */
  lemma MoveWellFormed(fs: Fs, a: Path, b: Path)
    ensures WellFormed(fs) ==> WellFormed(Move(fs, a, b))
  {
    var r := Move(fs, a, b);
    forall q | q in r.files && WellFormed(fs) ensures q !in r.dirs {
      if Under(q, b) {
        var p := Reroot(q, b, a);
        assert p in fs.files;
        assert q in r.dirs ==> p in fs.dirs;
      } else {
        assert !Under(q, a);
        assert q in fs.files;
      }
    }
  }

  /** `File.rename(a, b)`: moves an existing entry, fails on a missing one. */
  function Renamed(fs: Fs, a: Path, b: Path): (o: Outcome)
    ensures o.Failed? <==> !Present(fs, a)
    ensures o.Failed? ==> o.fs == fs && o.error == NoSuchEntry(a)
    ensures WellFormed(fs) ==> WellFormed(o.fs)
  {
    MoveWellFormed(fs, a, b);
    if Present(fs, a) then Done(Move(fs, a, b)) else Failed(fs, NoSuchEntry(a))
  }

  /** Overwriting a file's contents (`File.open(p, "w")` and a write). */
  function Written(fs: Fs, p: Path, text: string): (r: Fs)
    requires p !in fs.dirs
    ensures r.dirs == fs.dirs && r.files.Keys == fs.files.Keys + {p}
    ensures p in r.files && r.files[p] == text
    ensures forall q :: q in fs.files && q != p ==> r.files[q] == fs.files[q]
    ensures WellFormed(fs) ==> WellFormed(r)
  {
    Fs(fs.files[p := text], fs.dirs)
  }

  /** The disk, updated in place. */
  class FileSystem {
    var files: map<Path, string>
    var dirs: set<Path>

    ghost predicate Valid()
      reads this
    {
      WellFormed(State())
    }

    function State(): Fs
      reads this
    {
      Fs(files, dirs)
    }

    constructor (files: map<Path, string>, dirs: set<Path>)
      requires files.Keys !! dirs
      ensures Valid() && State() == Fs(files, dirs)
    {
      this.files := files;
      this.dirs := dirs;
    }

    /** Ruby's `File.exist?`. */
    function Exists(p: Path): (b: bool)
      reads this
      ensures b <==> Present(State(), p)
    {
      p in files || p in dirs
    }

    /** Ruby's `Dir.exist?`. */
    function IsDirectory(p: Path): (b: bool)
      reads this
      ensures b <==> p in State().dirs
    {
      p in dirs
    }

    method Write(p: Path, text: string)
      requires Valid() && p !in dirs
      modifies this
      ensures Valid()
      ensures State() == Written(old(State()), p, text)
    {
      files := files[p := text];
    }

    method Rename(a: Path, b: Path) returns (err: Option<Error>)
      requires Valid()
      modifies this
      ensures Valid()
      ensures var o := Renamed(old(State()), a, b);
        State() == o.fs && (err.Some? <==> o.Failed?) && (o.Failed? ==> err == Some(o.error))
    {
      if !Exists(a) {
        return Some(NoSuchEntry(a));
      }
      MoveWellFormed(State(), a, b);
      var moved := Move(State(), a, b);
      files, dirs := moved.files, moved.dirs;
      err := None;
    }
  }
}
