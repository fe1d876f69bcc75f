/**
 * The token substitution pass of `replace_internal_project_settings`:
 * every regular file below the project folder has the five placeholder
 * tokens replaced, one after the other, and is written back with `puts`.
 */
module Substitution {
  import opened Strings
  import opened Paths
  import opened Files

  /** The metadata values the configurator supplies, as opaque strings. */
  datatype Configurator = Configurator(userName: string, date: string, year: string, podName: string)

  /** Every token to search for is non-empty. */
  predicate ValidPairs(pairs: seq<(string, string)>)
  {
    forall k :: 0 <= k < |pairs| ==> |pairs[k].0| > 0
  }

  /** The `@string_replacements` hash, in its insertion (and iteration) order. */
  function Replacements(c: Configurator, prefix: string): (pairs: seq<(string, string)>)
    ensures |pairs| == 5 && ValidPairs(pairs)
  {
    [ ("PROJECT_OWNER", c.userName),
      ("TODAYS_DATE", c.date),
      ("TODAYS_YEAR", c.year),
      ("PROJECT", c.podName),
      ("CPD", prefix) ]
  }

  /** `text` after `text = text.gsub(find, replace)` for each pair in order. */
  function ApplyAll(pairs: seq<(string, string)>, text: string): (o: string)
    requires ValidPairs(pairs)
    // every character comes from the text or from one of the replacements
    ensures forall c :: c in o ==> c in text || exists k :: 0 <= k < |pairs| && c in pairs[k].1
    // replacements as long as their tokens keep the length
    ensures (forall k :: 0 <= k < |pairs| ==> |pairs[k].1| == |pairs[k].0|) ==> |o| == |text|
  {
    if |pairs| == 0 then text
    else
      var init, last := pairs[..|pairs| - 1], pairs[|pairs| - 1];
      assert forall k :: 0 <= k < |init| ==> init[k] == pairs[k];
      ReplaceAll(ApplyAll(init, text), last.0, last.1)
  }

  /** The same pass seen from its first pair: replace it, then the rest. */
  lemma {:induction false} ApplyAllFirst(pairs: seq<(string, string)>, text: string)
    requires ValidPairs(pairs) && |pairs| > 0
    ensures ApplyAll(pairs, text) == ApplyAll(pairs[1..], ReplaceAll(text, pairs[0].0, pairs[0].1))
    decreases |pairs|
  {
    var n := |pairs|;
    if n > 1 {
      var init := pairs[..n - 1];
      ApplyAllFirst(init, text);
      assert init[1..] == pairs[1..][..n - 2];
      assert init[0] == pairs[0];
    }
  }

  /** A text holding none of the tokens comes through the pass unchanged. */
  lemma {:induction false} ApplyAllNoTokens(pairs: seq<(string, string)>, text: string)
    requires ValidPairs(pairs)
    requires forall k :: 0 <= k < |pairs| ==> !Contains(text, pairs[k].0)
    ensures ApplyAll(pairs, text) == text
    decreases |pairs|
  {
    var n := |pairs|;
    if n > 0 {
      var init := pairs[..n - 1];
      ApplyAllNoTokens(init, text);
      ReplaceAllAbsent(text, pairs[n - 1].0, pairs[n - 1].1);
    }
  }

  /** What `file.puts text` writes: `text`, and a newline unless it already ends in one. */
  function Puts(text: string): (r: string)
    ensures EndsWith(r, "\n")
    ensures r == text <==> EndsWith(text, "\n")
    ensures r == text || r == text + "\n"
  {
    if EndsWith(text, "\n") then text else text + "\n"
  }

  /** The new contents of a visited file. */
  function Rewritten(pairs: seq<(string, string)>, text: string): string
    requires ValidPairs(pairs)
  {
    Puts(ApplyAll(pairs, text))
  }

  /** The glob below `root` visits `p`, and `p` is not skipped as a directory. */
  predicate Visited(fs: Fs, root: Path, p: Path)
  {
    StrictlyUnder(p, root) && p !in fs.dirs
  }

  /** The filesystem after the substitution pass over `root`. */
  function Substituted(fs: Fs, root: Path, pairs: seq<(string, string)>): (r: Fs)
    requires ValidPairs(pairs)
    // no path is added, removed or renamed, and no directory changes
    ensures r.dirs == fs.dirs && r.files.Keys == fs.files.Keys
    ensures WellFormed(fs) ==> WellFormed(r)
    // files outside the folder keep their contents; every file below it ends in a newline
    ensures forall p :: p in fs.files && !StrictlyUnder(p, root) ==> r.files[p] == fs.files[p]
    ensures forall p :: p in fs.files && StrictlyUnder(p, root) && p !in fs.dirs ==> EndsWith(r.files[p], "\n")
  {
    Fs(map p | p in fs.files :: if Visited(fs, root, p) then Rewritten(pairs, fs.files[p]) else fs.files[p],
       fs.dirs)
  }

  /** The filesystem part-way through the pass: the visited files outside `todo` are done. */
  function SubstitutedExcept(fs: Fs, root: Path, pairs: seq<(string, string)>, todo: set<Path>): Fs
    requires ValidPairs(pairs)
  {
    Fs(map p | p in fs.files :: if Visited(fs, root, p) && p !in todo then Rewritten(pairs, fs.files[p]) else fs.files[p],
       fs.dirs)
  }

  /** Visiting one more path of the pass: a directory is skipped, a file is rewritten. */
  lemma SubstitutedStep(fs: Fs, root: Path, pairs: seq<(string, string)>, todo: set<Path>, name: Path)
    requires ValidPairs(pairs) && name in todo && StrictlyUnder(name, root)
    ensures SubstitutedExcept(fs, root, pairs, todo).dirs == fs.dirs
    ensures SubstitutedExcept(fs, root, pairs, todo).files.Keys == fs.files.Keys
    ensures name in fs.files ==> SubstitutedExcept(fs, root, pairs, todo).files[name] == fs.files[name]
    ensures name in fs.dirs ==>
      SubstitutedExcept(fs, root, pairs, todo - {name}) == SubstitutedExcept(fs, root, pairs, todo)
    ensures name in fs.files && name !in fs.dirs ==>
      SubstitutedExcept(fs, root, pairs, todo - {name})
        == Written(SubstitutedExcept(fs, root, pairs, todo), name, Rewritten(pairs, fs.files[name]))
  {
    if name in fs.dirs {
      SkipDirectory(fs, root, pairs, todo, name);
    } else if name in fs.files {
      RewriteFile(fs, root, pairs, todo, name);
    }
  }

  /** A directory found by the glob is skipped: the pass state does not change. */
  lemma SkipDirectory(fs: Fs, root: Path, pairs: seq<(string, string)>, todo: set<Path>, name: Path)
    requires ValidPairs(pairs) && name in fs.dirs
    ensures SubstitutedExcept(fs, root, pairs, todo - {name}) == SubstitutedExcept(fs, root, pairs, todo)
  {
    var a, b := SubstitutedExcept(fs, root, pairs, todo - {name}), SubstitutedExcept(fs, root, pairs, todo);
    assert a.files == b.files;
  }

  /** A visited file is overwritten with its substituted text. */
  lemma RewriteFile(fs: Fs, root: Path, pairs: seq<(string, string)>, todo: set<Path>, name: Path)
    requires ValidPairs(pairs) && name in todo && Visited(fs, root, name) && name in fs.files
    ensures SubstitutedExcept(fs, root, pairs, todo - {name})
      == Written(SubstitutedExcept(fs, root, pairs, todo), name, Rewritten(pairs, fs.files[name]))
  {
    var a := SubstitutedExcept(fs, root, pairs, todo - {name});
    var b := Written(SubstitutedExcept(fs, root, pairs, todo), name, Rewritten(pairs, fs.files[name]));
    assert a.files == b.files;
  }

  /** Nothing is done before the pass starts; everything is done once nothing is left. */
  lemma SubstitutedEnds(fs: Fs, root: Path, pairs: seq<(string, string)>, todo: set<Path>)
    requires ValidPairs(pairs)
    requires forall p :: p in fs.files && StrictlyUnder(p, root) ==> p in todo
    ensures SubstitutedExcept(fs, root, pairs, {}) == Substituted(fs, root, pairs)
    ensures SubstitutedExcept(fs, root, pairs, todo) == fs
  {
    var a := SubstitutedExcept(fs, root, pairs, todo);
    assert a.files == fs.files;
  }

  /**
   * The pass adds, removes and renames no path, leaves directories and
   * everything outside `root` alone, and gives each visited file its
   * substituted text, newline-terminated.
   */
  lemma SubstitutedEffect(fs: Fs, root: Path, pairs: seq<(string, string)>)
    requires ValidPairs(pairs)
    ensures var r := Substituted(fs, root, pairs);
      r.dirs == fs.dirs && r.files.Keys == fs.files.Keys
      && (WellFormed(fs) ==> WellFormed(r))
      && (forall p :: p in fs.files && !Visited(fs, root, p) ==> r.files[p] == fs.files[p])
      && (forall p :: p in fs.files && Visited(fs, root, p) ==>
            r.files[p] == Rewritten(pairs, fs.files[p]) && EndsWith(r.files[p], "\n"))
  {
  }

  /**
   * `PROJECT_OWNER` is replaced before `PROJECT`, so the literal token
   * `PROJECT_OWNER` turns into the user name (with the later tokens
   * replaced inside it), never into the pod name followed by `_OWNER`.
   */
  lemma OwnerReplacedBeforeProject(c: Configurator, prefix: string)
    ensures ApplyAll(Replacements(c, prefix), "PROJECT_OWNER")
         == ApplyAll(Replacements(c, prefix)[1..], c.userName)
    ensures (forall k :: 1 <= k < 5 ==> !Contains(c.userName, Replacements(c, prefix)[k].0))
         ==> ApplyAll(Replacements(c, prefix), "PROJECT_OWNER") == c.userName
  {
    var pairs := Replacements(c, prefix);
    ApplyAllFirst(pairs, "PROJECT_OWNER");
    var s: string := "PROJECT_OWNER";
    assert s[..|s|] == s;
    assert ReplaceAll(s, s, c.userName) == c.userName + ReplaceAll(s[|s|..], s, c.userName);
    assert s[|s|..] == "";
    assert ReplaceAll("", s, c.userName) == "";
    assert c.userName + "" == c.userName;
    assert pairs[0] == (s, c.userName);
    if forall k :: 1 <= k < 5 ==> !Contains(c.userName, pairs[k].0) {
      ApplyAllNoTokens(pairs[1..], c.userName);
    }
  }

  /**
   * The order matters: were `PROJECT` replaced first, `PROJECT_OWNER`
   * would become the pod name followed by `_OWNER`.
   */
  lemma ProjectFirstWouldSplitOwner(pod: string, user: string)
    requires !Contains(pod + "_OWNER", "PROJECT_OWNER")
    ensures ApplyAll([("PROJECT", pod), ("PROJECT_OWNER", user)], "PROJECT_OWNER") == pod + "_OWNER"
  {
    var pairs := [("PROJECT", pod), ("PROJECT_OWNER", user)];
    var s: string := "PROJECT_OWNER";
    var f: string := "PROJECT";
    assert s[..|f|] == f;
    assert s[|f|..] == "_OWNER";
    var t: string := "_OWNER";
    assert ReplaceAll(t, f, pod) == t by {
      assert t[..|t|] == t;
      assert t[1..] == "OWNER" && |t[1..]| < |f|;
    }
    assert ReplaceAll(s, f, pod) == pod + "_OWNER";
    assert pairs[..1] == [("PROJECT", pod)];
    assert ApplyAll(pairs[..1], s) == pod + "_OWNER";
    ReplaceAllAbsent(pod + "_OWNER", "PROJECT_OWNER", user);
  }

  /**
   * A replacement can complete a token with the text that follows it, so
   * "no replacement value contains a token" does not guarantee that no
   * token is left: `CPDPD` with `CPD` replaced by `ABC` gives `ABCPD`.
   */
  lemma ReplacementCanFormToken()
    ensures ReplaceAll("CPDPD", "CPD", "ABC") == "ABCPD"
    ensures !Contains("ABC", "CPD") && Contains("ABCPD", "CPD")
  {
    var s: string := "CPDPD";
    assert s[..3] == "CPD" && s[3..] == "PD";
    var abc: string := "ABC";
    assert !Contains(abc, "CPD") by {
      forall i: nat | i <= |abc| ensures !OccursAt(abc, "CPD", i) {
        if i == 0 { assert abc[0..3][0] == 'A'; }
      }
    }
    var out: string := "ABCPD";
    assert OccursAt(out, "CPD", 2) by {
      assert out[2..5] == "CPD";
    }
  }
}
