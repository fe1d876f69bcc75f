/**
 * Literal (non-regex) substring search and replace-all, as Ruby's
 * `String#gsub` behaves when its pattern is a plain string: occurrences
 * are found from left to right and do not overlap.
 */
module Strings {
  import opened Wrappers

  predicate StartsWith(s: string, p: string)
  {
    |p| <= |s| && s[..|p|] == p
  }

  /** Ruby's `String#end_with?`. */
  predicate EndsWith(s: string, suffix: string)
  {
    |suffix| <= |s| && s[|s| - |suffix|..] == suffix
  }

  /** `f` occurs in `s` starting at index `i`. */
  predicate OccursAt(s: string, f: string, i: nat)
  {
    i + |f| <= |s| && s[i..i + |f|] == f
  }

  predicate Contains(s: string, f: string)
  {
    exists i: nat | i <= |s| :: OccursAt(s, f, i)
  }

  lemma OccursAtTail(s: string, f: string, i: nat)
    requires |s| > 0
    ensures OccursAt(s[1..], f, i) <==> OccursAt(s, f, i + 1)
  {
    if i + |f| <= |s[1..]| {
      assert s[1..][i..i + |f|] == s[i + 1..i + 1 + |f|];
    }
  }

  /** The leftmost index at which `f` occurs in `s`, if any. */
  function FindFirst(s: string, f: string): (r: Option<nat>)
    requires |f| > 0
    ensures r.Some? ==> OccursAt(s, f, r.value)
    ensures r.Some? ==> forall j: nat :: j < r.value ==> !OccursAt(s, f, j)
    ensures r.None? ==> !Contains(s, f)
    decreases |s|
  {
    if |s| < |f| then None
    else if s[..|f|] == f then Some(0)
    else
      var rest := FindFirst(s[1..], f);
      assert !OccursAt(s, f, 0);
      assert forall j: nat :: OccursAt(s[1..], f, j) <==> OccursAt(s, f, j + 1) by {
        forall j: nat ensures OccursAt(s[1..], f, j) <==> OccursAt(s, f, j + 1) {
          OccursAtTail(s, f, j);
        }
      }
      match rest
      case None =>
        assert forall j: nat :: !OccursAt(s, f, j) by {
          forall j: nat ensures !OccursAt(s, f, j) {
            if j > 0 { assert !OccursAt(s[1..], f, j - 1); }
          }
        }
        None
      case Some(i) =>
        assert forall j: nat :: j < i + 1 ==> !OccursAt(s, f, j) by {
          forall j: nat | j < i + 1 ensures !OccursAt(s, f, j) {
            if j > 0 { assert !OccursAt(s[1..], f, j - 1); }
          }
        }
        Some(i + 1)
  }

  /**
   * `s` with every occurrence of `f` replaced by `r`, scanning from the
   * left and resuming after each replaced occurrence.
   */
  function ReplaceAll(s: string, f: string, r: string): (o: string)
    requires |f| > 0
    // nothing is invented: every character comes from the text or the replacement
    ensures forall c :: c in o ==> c in s || c in r
    // a replacement as long as the pattern keeps the length
    ensures |r| == |f| ==> |o| == |s|
    decreases |s|
  {
    if |s| < |f| then s
    else if s[..|f|] == f then r + ReplaceAll(s[|f|..], f, r)
    else [s[0]] + ReplaceAll(s[1..], f, r)
  }

  /**
   * Reference definition: the pieces of `s` between the leftmost
   * non-overlapping occurrences of `f` (Ruby's `s.split(f, -1)`).
   */
  function Split(s: string, f: string): (parts: seq<string>)
    requires |f| > 0
    ensures |parts| > 0
    decreases |s|
  {
    match FindFirst(s, f)
    case None => [s]
    case Some(i) => [s[..i]] + Split(s[i + |f|..], f)
  }

  /** No piece of a split contains the separator. */
  lemma {:induction false} SplitPiecesFree(s: string, f: string)
    requires |f| > 0
    ensures forall k :: 0 <= k < |Split(s, f)| ==> !Contains(Split(s, f)[k], f)
    decreases |s|
  {
    match FindFirst(s, f)
    case None =>
      SplitNone(s, f);
    case Some(i) =>
      BeforeFirstFree(s, f, i);
      SplitPiecesFree(s[i + |f|..], f);
      SplitAt(s, f, i);
      ConsFree(s[..i], Split(s[i + |f|..], f), Split(s, f), f);
  }

  /** The text before the first occurrence does not contain `f`. */
  lemma BeforeFirstFree(s: string, f: string, i: nat)
    requires |f| > 0 && FindFirst(s, f) == Some(i)
    ensures !Contains(s[..i], f)
  {
    forall j: nat ensures !OccursAt(s[..i], f, j) {
      if OccursAt(s[..i], f, j) {
        assert s[..i][j..j + |f|] == s[j..j + |f|];
        assert OccursAt(s, f, j);
      }
    }
  }

  /** A free piece in front of free pieces. */
  lemma ConsFree(x: string, ps: seq<string>, qs: seq<string>, f: string)
    requires qs == [x] + ps && !Contains(x, f)
    requires forall k :: 0 <= k < |ps| ==> !Contains(ps[k], f)
    ensures forall k :: 0 <= k < |qs| ==> !Contains(qs[k], f)
  {
    forall k | 0 <= k < |qs| ensures !Contains(qs[k], f) {
      if k > 0 { assert qs[k] == ps[k - 1]; }
    }
  }

  /** The pieces joined with `sep` between consecutive pieces (Ruby's `join`). */
  function Join(parts: seq<string>, sep: string): string
  {
    if |parts| == 0 then ""
    else if |parts| == 1 then parts[0]
    else parts[0] + sep + Join(parts[1..], sep)
  }

  /** Splitting at `f` and joining with `f` gives back the input. */
  lemma {:induction false} SplitJoin(s: string, f: string)
    requires |f| > 0
    ensures Join(Split(s, f), f) == s
    decreases |s|
  {
    match FindFirst(s, f)
    case None =>
    case Some(i) =>
      var rest := s[i + |f|..];
      SplitJoin(rest, f);
      assert Split(s, f) == [s[..i]] + Split(rest, f);
      assert s == s[..i] + f + rest by {
        assert s[i..i + |f|] == f;
      }
  }

  /** Putting a character in front of a string extends its first piece. */
  lemma SplitCons(s: string, f: string)
    requires |f| > 0 && |s| > 0
    requires !OccursAt(s, f, 0)
    ensures Split(s, f) == [[s[0]] + Split(s[1..], f)[0]] + Split(s[1..], f)[1..]
  {
    FindFirstCons(s, f);
    match FindFirst(s[1..], f)
    case None => SplitConsNone(s, f);
    case Some(i) => SplitConsAt(s, f, i);
  }

  lemma SplitConsNone(s: string, f: string)
    requires |f| > 0 && |s| > 0
    requires FindFirst(s, f).None? && FindFirst(s[1..], f).None?
    ensures Split(s, f) == [[s[0]] + Split(s[1..], f)[0]] + Split(s[1..], f)[1..]
  {
    var t := s[1..];
    SplitNone(s, f);
    SplitNone(t, f);
    assert s == [s[0]] + t;
  }

  lemma SplitConsAt(s: string, f: string, i: nat)
    requires |f| > 0 && |s| > 0
    requires FindFirst(s, f) == Some(i + 1) && FindFirst(s[1..], f) == Some(i)
    ensures Split(s, f) == [[s[0]] + Split(s[1..], f)[0]] + Split(s[1..], f)[1..]
  {
    var t := s[1..];
    SplitAt(s, f, i + 1);
    SplitAt(t, f, i);
    assert s[i + 1 + |f|..] == t[i + |f|..];
    PiecesCons(s, i, Split(s, f), Split(t, f), Split(t[i + |f|..], f));
  }

  /** Sequence bookkeeping for `SplitConsAt`. */
  lemma PiecesCons(s: string, i: nat, P: seq<string>, Q: seq<string>, rest: seq<string>)
    requires i < |s|
    requires P == [s[..i + 1]] + rest && Q == [s[1..][..i]] + rest
    ensures P == [[s[0]] + Q[0]] + Q[1..]
  {
    assert s[..i + 1] == [s[0]] + s[1..][..i];
  }

  /** `Split` where `f` does not occur. */
  lemma SplitNone(s: string, f: string)
    requires |f| > 0 && FindFirst(s, f).None?
    ensures Split(s, f) == [s]
  {
  }

  /** `Split` at the first occurrence `i` of `f`. */
  lemma SplitAt(s: string, f: string, i: nat)
    requires |f| > 0 && FindFirst(s, f) == Some(i)
    ensures Split(s, f) == [s[..i]] + Split(s[i + |f|..], f)
  {
  }

  /** Where `f` does not occur at the front, the search goes on one character later. */
  lemma FindFirstCons(s: string, f: string)
    requires |f| > 0 && |s| > 0
    requires !OccursAt(s, f, 0)
    ensures FindFirst(s, f) == match FindFirst(s[1..], f) case None => None case Some(i) => Some(i + 1)
  {
    if |s| >= |f| {
      assert s[..|f|] != f;
    }
  }

  lemma JoinCons(c: char, parts: seq<string>, sep: string)
    requires |parts| > 0
    ensures Join([[c] + parts[0]] + parts[1..], sep) == [c] + Join(parts, sep)
  {
    var q := [[c] + parts[0]] + parts[1..];
    if |parts| > 1 {
      assert q[1..] == parts[1..];
    }
  }

  /** Replacing all occurrences is joining the pieces between them with `r`. */
  lemma {:induction false} ReplaceAllIsSplitJoin(s: string, f: string, r: string)
    requires |f| > 0
    ensures ReplaceAll(s, f, r) == Join(Split(s, f), r)
    decreases |s|
  {
    if |s| < |f| {
      SplitShort(s, f);
    } else if s[..|f|] == f {
      FindFirstFront(s, f);
      ReplaceAllIsSplitJoin(s[|f|..], f, r);
      SplitAt(s, f, 0);
      JoinFront(Split(s, f), Split(s[|f|..], f), r);
    } else {
      assert !OccursAt(s, f, 0);
      ReplaceAllIsSplitJoin(s[1..], f, r);
      SplitCons(s, f);
      JoinCons(s[0], Split(s[1..], f), r);
    }
  }

  /** A text shorter than `f` is one piece. */
  lemma SplitShort(s: string, f: string)
    requires 0 < |f| && |s| < |f|
    ensures FindFirst(s, f).None? && Split(s, f) == [s]
  {
    SplitNone(s, f);
  }

  /** `f` at the front is the first occurrence. */
  lemma FindFirstFront(s: string, f: string)
    requires 0 < |f| <= |s| && s[..|f|] == f
    ensures FindFirst(s, f) == Some(0)
  {
  }

  /** Joining pieces that start with an empty one. */
  lemma JoinFront(parts: seq<string>, rest: seq<string>, sep: string)
    requires parts == [""] + rest && |rest| > 0
    ensures Join(parts, sep) == sep + Join(rest, sep)
  {
    assert parts[1..] == rest;
  }

  /** No occurrence of `f`: nothing is replaced. */
  lemma ReplaceAllAbsent(s: string, f: string, r: string)
    requires |f| > 0 && !Contains(s, f)
    ensures ReplaceAll(s, f, r) == s
  {
    ReplaceAllIsSplitJoin(s, f, r);
    assert FindFirst(s, f).None?;
  }

  /** Replacing `f` by itself changes nothing. */
  lemma ReplaceAllSelf(s: string, f: string)
    requires |f| > 0
    ensures ReplaceAll(s, f, f) == s
  {
    ReplaceAllIsSplitJoin(s, f, f);
    SplitJoin(s, f);
  }

  /** The number of occurrences ReplaceAll replaces. */
  function Count(s: string, f: string): nat
    requires |f| > 0
  {
    |Split(s, f)| - 1
  }

  /** Each replaced occurrence changes the length by `|r| - |f|`. */
  lemma {:induction false} ReplaceAllLength(s: string, f: string, r: string)
    requires |f| > 0
    ensures |ReplaceAll(s, f, r)| == |s| + Count(s, f) * (|r| - |f|)
    decreases |s|
  {
    if |s| < |f| {
      SplitShort(s, f);
    } else if s[..|f|] == f {
      ReplaceAllLength(s[|f|..], f, r);
      LengthFront(s, f, r);
    } else {
      ReplaceAllLength(s[1..], f, r);
      LengthCons(s, f, r);
    }
  }

  /** The step of `ReplaceAllLength` where `f` is at the front. */
  lemma LengthFront(s: string, f: string, r: string)
    requires 0 < |f| <= |s| && s[..|f|] == f
    requires |ReplaceAll(s[|f|..], f, r)| == |s[|f|..]| + Count(s[|f|..], f) * (|r| - |f|)
    ensures |ReplaceAll(s, f, r)| == |s| + Count(s, f) * (|r| - |f|)
  {
    var rest := s[|f|..];
    FindFirstFront(s, f);
    SplitAt(s, f, 0);
    assert Count(s, f) == Count(rest, f) + 1;
    MulStep(Count(rest, f), |r| - |f|);
  }

  /** The step of `ReplaceAllLength` where `f` is not at the front. */
  lemma LengthCons(s: string, f: string, r: string)
    requires 0 < |f| <= |s| && s[..|f|] != f
    requires |ReplaceAll(s[1..], f, r)| == |s[1..]| + Count(s[1..], f) * (|r| - |f|)
    ensures |ReplaceAll(s, f, r)| == |s| + Count(s, f) * (|r| - |f|)
  {
    SplitCons(s, f);
    assert Count(s, f) == Count(s[1..], f);
  }

  lemma MulStep(c: int, d: int)
    ensures (c + 1) * d == c * d + d
  {
  }

  /** ReplaceAll keeps everything before the first occurrence and replaces it. */
  lemma ReplaceAllAtFirst(s: string, f: string, r: string, i: nat)
    requires |f| > 0 && FindFirst(s, f) == Some(i)
    ensures ReplaceAll(s, f, r) == s[..i] + r + ReplaceAll(s[i + |f|..], f, r)
  {
    var rest := s[i + |f|..];
    SplitAt(s, f, i);
    JoinPrefix(s[..i], Split(rest, f), Split(s, f), r);
    ReplaceAllIsSplitJoin(s, f, r);
    ReplaceAllIsSplitJoin(rest, f, r);
  }

  /** Joining a piece in front of at least one more. */
  lemma JoinPrefix(x: string, ps: seq<string>, qs: seq<string>, sep: string)
    requires qs == [x] + ps && |ps| > 0
    ensures Join(qs, sep) == x + sep + Join(ps, sep)
  {
    assert qs[1..] == ps;
  }

  /** A replacement of a different length changes the length. */
  lemma ReplaceAllChangesLength(s: string, f: string, r: string)
    requires |f| > 0 && Contains(s, f) && |r| != |f|
    ensures |ReplaceAll(s, f, r)| != |s|
  {
    ReplaceAllLength(s, f, r);
    var i := FindFirst(s, f).value;
    assert Split(s, f) == [s[..i]] + Split(s[i + |f|..], f);
    MulNonZero(Count(s, f), |r| - |f|);
  }

  lemma MulNonZero(c: int, d: int)
    requires c >= 1 && d != 0
    ensures c * d != 0
  {
  }

  /** A different replacement of the same length shows at the first occurrence. */
  lemma ReplaceAllChangesFirst(s: string, f: string, r: string)
    requires |f| > 0 && Contains(s, f) && |r| == |f| && r != f
    ensures ReplaceAll(s, f, r) != s
  {
    var i := FindFirst(s, f).value;
    ReplaceAllAtFirst(s, f, r, i);
    var out := ReplaceAll(s, f, r);
    assert out[i..i + |r|] == r;
    assert s[i..i + |f|] == f;
  }

  /**
   * ReplaceAll leaves `s` as it was exactly when `f` does not occur in it
   * or is replaced by itself.
   */
  lemma ReplaceAllUnchangedIff(s: string, f: string, r: string)
    requires |f| > 0
    ensures ReplaceAll(s, f, r) == s <==> (!Contains(s, f) || r == f)
  {
    if !Contains(s, f) {
      ReplaceAllAbsent(s, f, r);
    } else if r == f {
      ReplaceAllSelf(s, f);
    } else if |r| != |f| {
      ReplaceAllChangesLength(s, f, r);
    } else {
      ReplaceAllChangesFirst(s, f, r);
    }
  }

  /** Characters that cannot start `f` pass through ReplaceAll unchanged. */
  lemma {:induction false} ReplaceAllSkip(x: string, y: string, f: string, r: string)
    requires |f| > 0 && f[0] !in x
    ensures ReplaceAll(x + y, f, r) == x + ReplaceAll(y, f, r)
    decreases |x|
  {
    var s := x + y;
    if |x| == 0 {
      assert s == y;
    } else {
      assert x[0] in x;
      assert s[1..] == x[1..] + y;
      ReplaceAllSkip(x[1..], y, f, r);
      if |s| >= |f| {
        assert s[..|f|][0] == x[0];
        assert [x[0]] + (x[1..] + ReplaceAll(y, f, r)) == x + ReplaceAll(y, f, r);
      }
    }
  }

  /** A string without the first character of `f` is left as it is. */
  lemma ReplaceAllFree(x: string, f: string, r: string)
    requires |f| > 0 && f[0] !in x
    ensures ReplaceAll(x, f, r) == x
  {
    ReplaceAllSkip(x, [], f, r);
    assert x + [] == x;
  }

  /** An occurrence of `f` at the front is replaced, and the scan resumes after it. */
  lemma ReplaceAllFront(t: string, f: string, r: string)
    requires |f| > 0
    ensures ReplaceAll(f + t, f, r) == r + ReplaceAll(t, f, r)
  {
    var s := f + t;
    assert s[..|f|] == f;
    assert s[|f|..] == t;
  }

  /**
   * The first character of `f` followed by a character other than the
   * second is no occurrence: `x + [f[0]] + y` stays as it is.
   */
  lemma ReplaceAllFalseStart(x: string, y: string, f: string, r: string)
    requires |f| >= 2 && f[0] !in x && f[0] !in y && |y| > 0 && y[0] != f[1]
    ensures ReplaceAll(x + [f[0]] + y, f, r) == x + [f[0]] + y
  {
    var z := [f[0]] + y;
    assert x + [f[0]] + y == x + z;
    ReplaceAllSkip(x, z, f, r);
    assert z[1..] == y;
    ReplaceAllFree(y, f, r);
    if |z| >= |f| {
      assert z[..|f|][1] == y[0];
    }
  }

  /** `d + f + t` becomes `d + r + t` when `d` cannot start `f` and `t` holds no `f`. */
  lemma ReplaceAllShaped(d: string, t: string, f: string, r: string)
    requires |f| > 0 && f[0] !in d && ReplaceAll(t, f, r) == t
    ensures ReplaceAll(d + f + t, f, r) == d + r + t
  {
    assert d + f + t == d + (f + t);
    ReplaceAllSkip(d, f + t, f, r);
    ReplaceAllFront(t, f, r);
    assert d + (r + t) == d + r + t;
  }
}
