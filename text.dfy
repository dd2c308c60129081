/**
 * String helpers with Python's and Go's meaning: occurrence of a substring,
 * `str.split(sep)` with a non-empty separator, the matching join, and the
 * ASCII part of `str.lower()`.
 */
module Text {
  import opened Wrappers

  /** `sub` occurs in `s` starting at index `i`. */
  predicate OccursAt(sub: string, s: string, i: int)
  {
    0 <= i && i + |sub| <= |s| && s[i..i + |sub|] == sub
  }

  /** Python's `sub in s`. */
  predicate Contains(s: string, sub: string)
  {
    exists i :: 0 <= i <= |s| - |sub| && OccursAt(sub, s, i)
  }

  /** The first index at or after `from` where `sep` occurs, as `str.find` scans. */
  function FindFrom(s: string, sep: string, from: nat): (r: Option<nat>)
    requires |sep| > 0
    ensures r.Some? ==> from <= r.value && OccursAt(sep, s, r.value)
    ensures r.Some? ==> forall j :: from <= j < r.value ==> !OccursAt(sep, s, j)
    ensures r.None? ==> forall j :: from <= j ==> !OccursAt(sep, s, j)
    decreases |s| - from
  {
    if from + |sep| > |s| then None
    else if s[from..from + |sep|] == sep then Some(from)
    else FindFrom(s, sep, from + 1)
  }

  /**
   * Python's `s.split(sep)` for a non-empty `sep`: cut at every occurrence
   * found scanning left to right, occurrences not overlapping.
   */
  function Split(s: string, sep: string): (parts: seq<string>)
    requires |sep| > 0
    ensures |parts| >= 1
    decreases |s|
  {
    match FindFrom(s, sep, 0)
    case None => [s]
    case Some(i) => [s[..i]] + Split(s[i + |sep|..], sep)
  }

  /** Python's `sep.join(parts)`. */
  function Join(parts: seq<string>, sep: string): string
    requires |parts| >= 1
  {
    if |parts| == 1 then parts[0] else parts[0] + sep + Join(parts[1..], sep)
  }

  function Last<T>(s: seq<T>): T
    requires |s| > 0
  {
    s[|s| - 1]
  }

  /** One step of a split: the piece before the first occurrence, then the rest. */
  lemma SplitStep(s: string, sep: string, i: nat)
    requires |sep| > 0 && FindFrom(s, sep, 0) == Some(i)
    ensures i + |sep| <= |s|
    ensures Split(s, sep) == [s[..i]] + Split(s[i + |sep|..], sep)
    ensures s == s[..i] + sep + s[i + |sep|..]
  {
    assert s[i..i + |sep|] == sep;
    assert s == s[..i] + s[i..i + |sep|] + s[i + |sep|..];
  }

  lemma JoinCons(x: string, tail: seq<string>, sep: string)
    requires |tail| >= 1
    ensures Join([x] + tail, sep) == x + sep + Join(tail, sep)
  {
    assert ([x] + tail)[1..] == tail;
  }

  /** Joining the pieces of a split with the same separator gives the string back. */
  lemma {:induction false} SplitJoin(s: string, sep: string)
    requires |sep| > 0
    ensures Join(Split(s, sep), sep) == s
    decreases |s|
  {
    var r := FindFrom(s, sep, 0);
    if r.Some? {
      var i := r.value;
      SplitStep(s, sep, i);
      var rest := s[i + |sep|..];
      SplitJoin(rest, sep);
      JoinCons(s[..i], Split(rest, sep), sep);
    }
  }

  /** A prefix that ends before the first occurrence holds no occurrence. */
  lemma PrefixBeforeFirstIsFree(s: string, sep: string, i: nat)
    requires |sep| > 0 && i <= |s|
    requires forall j :: 0 <= j < i ==> !OccursAt(sep, s, j)
    ensures !Contains(s[..i], sep)
  {
    var p := s[..i];
    forall j | 0 <= j <= |p| - |sep|
      ensures !OccursAt(sep, p, j)
    {
      assert p[j..j + |sep|] == s[j..j + |sep|];
      assert !OccursAt(sep, s, j);
    }
  }

  /** No occurrence from index 0 on means the separator is absent. */
  lemma NotFoundMeansAbsent(s: string, sep: string)
    requires |sep| > 0 && FindFrom(s, sep, 0).None?
    ensures !Contains(s, sep)
  {
  }

  /** No piece produced by a split contains the separator. */
  lemma {:induction false} SplitPiecesAreFree(s: string, sep: string)
    requires |sep| > 0
    ensures forall k :: 0 <= k < |Split(s, sep)| ==> !Contains(Split(s, sep)[k], sep)
    decreases |s|
  {
    var r := FindFrom(s, sep, 0);
    if r.None? {
      NotFoundMeansAbsent(s, sep);
    } else {
      var i := r.value;
      SplitStep(s, sep, i);
      var rest := s[i + |sep|..];
      SplitPiecesAreFree(rest, sep);
      PrefixBeforeFirstIsFree(s, sep, i);
      var parts := Split(s, sep);
      forall k | 0 <= k < |parts|
        ensures !Contains(parts[k], sep)
      {
        if k > 0 {
          assert parts[k] == Split(rest, sep)[k - 1];
        }
      }
    }
  }

  /** `tail` ends `s` and directly follows an occurrence of `sep` in `s`. */
  predicate FollowsSeparator(s: string, sep: string, tail: string)
  {
    |tail| + |sep| <= |s| && s[|s| - |tail|..] == tail && OccursAt(sep, s, |s| - |tail| - |sep|)
  }

  lemma FollowsSeparatorExtend(pre: string, s: string, sep: string, tail: string)
    requires FollowsSeparator(s, sep, tail)
    ensures FollowsSeparator(pre + s, sep, tail)
  {
    var t := pre + s;
    var k := |s| - |tail| - |sep|;
    assert t[|pre| + k..|pre| + k + |sep|] == s[k..k + |sep|];
    assert t[|t| - |tail|..] == s[|s| - |tail|..];
  }

  /**
   * The last piece of a split is what follows the last cut: the whole
   * string when the separator does not occur, otherwise a suffix that
   * directly follows an occurrence of the separator.
   */
  lemma {:induction false} SplitLastIsSuffix(s: string, sep: string)
    requires |sep| > 0
    ensures !Contains(s, sep) ==> Last(Split(s, sep)) == s
    ensures Contains(s, sep) ==> FollowsSeparator(s, sep, Last(Split(s, sep)))
    decreases |s|
  {
    var r := FindFrom(s, sep, 0);
    if r.None? {
      NotFoundMeansAbsent(s, sep);
    } else {
      var i := r.value;
      SplitStep(s, sep, i);
      var rest := s[i + |sep|..];
      SplitLastIsSuffix(rest, sep);
      var tail := Split(rest, sep);
      assert Last(Split(s, sep)) == Last(tail);
      assert OccursAt(sep, s, i);
      if Contains(rest, sep) {
        FollowsSeparatorExtend(s[..i + |sep|], rest, sep, Last(tail));
        assert s[..i + |sep|] + rest == s;
      } else {
        assert Last(tail) == rest;
        assert s[|s| - |rest|..] == rest;
      }
    }
  }

  /** No occurrence of a one-character separator in a string without that character. */
  lemma AbsentChar(a: string, c: char)
    requires c !in a
    ensures FindFrom(a, [c], 0).None?
  {
    forall j | 0 <= j && j + 1 <= |a|
      ensures !OccursAt([c], a, j)
    {
      assert a[j..j + 1] == [a[j]];
    }
  }

  /** A string without the one-character separator is a single piece. */
  lemma SplitWithoutChar(a: string, c: char)
    requires c !in a
    ensures Split(a, [c]) == [a]
  {
    AbsentChar(a, c);
  }

  /** Cutting at the first occurrence of a one-character separator. */
  lemma SplitAtChar(a: string, c: char, b: string)
    requires c !in a
    ensures Split(a + [c] + b, [c]) == [a] + Split(b, [c])
  {
    var s := a + [c] + b;
    assert s[|a|..|a| + 1] == [c];
    forall j | 0 <= j < |a|
      ensures !OccursAt([c], s, j)
    {
      assert s[j..j + 1] == [a[j]];
    }
    var r := FindFrom(s, [c], 0);
    assert OccursAt([c], s, |a|);
    assert r.Some?;
    assert r.value == |a|;
    SplitStep(s, [c], |a|);
    assert s[..|a|] == a;
    assert s[|a| + 1..] == b;
  }

  /** Pieces without a one-character separator, joined with it, split back into themselves. */
  lemma {:induction false} SplitJoinWithoutChar(pieces: seq<string>, c: char)
    requires |pieces| >= 1 && forall i :: 0 <= i < |pieces| ==> c !in pieces[i]
    ensures Split(Join(pieces, [c]), [c]) == pieces
    decreases |pieces|
  {
    if |pieces| == 1 {
      SplitWithoutChar(pieces[0], c);
    } else {
      var rest := pieces[1..];
      SplitJoinWithoutChar(rest, c);
      SplitAtChar(pieces[0], c, Join(rest, [c]));
      assert pieces == [pieces[0]] + rest;
    }
  }

  /** The ASCII part of Python's `str.lower()`: A-Z become a-z, all else is kept. */
  function LowerChar(c: char): char
  {
    if 'A' <= c <= 'Z' then (c as int + 32) as char else c
  }

  function Lower(s: string): string
  {
    seq(|s|, i requires 0 <= i < |s| => LowerChar(s[i]))
  }

  /** Lowering works character by character, so it commutes with taking a slice. */
  lemma LowerSlice(s: string, i: nat, j: nat)
    requires i <= j <= |s|
    ensures Lower(s)[i..j] == Lower(s[i..j])
  {
  }

  /**
   * A case-insensitive search: wherever `t` occurs in `s`, its lower-cased
   * form occurs in the lower-cased `s`, so `Lower(t) in Lower(s)` holds for
   * every casing of the phrase.
   */
  lemma LowerKeepsOccurrence(t: string, s: string, i: int)
    requires OccursAt(t, s, i)
    ensures OccursAt(Lower(t), Lower(s), i)
    ensures Contains(Lower(s), Lower(t))
  {
    LowerSlice(s, i, i + |t|);
    assert |Lower(t)| == |t| && |Lower(s)| == |s|;
    assert OccursAt(Lower(t), Lower(s), i);
  }

  /** Lowering twice is lowering once. */
  lemma LowerIdempotent(s: string)
    ensures Lower(Lower(s)) == Lower(s)
  {
  }
}
