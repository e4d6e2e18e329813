/**
 * Python's `str.split(sep)` and the branch name a push event reports:
 * `ref.split('/')[-1]`, the part of the ref after its last slash.
 */
module Segments {

  const SLASH: char := '/'

  /** `s.split(sep)`: the pieces between separators, empty pieces included. */
  function Split(s: string, sep: char): (parts: seq<string>)
    ensures |parts| >= 1
    ensures forall i :: 0 <= i < |parts| ==> sep !in parts[i]
  {
    if |s| == 0 then [""]
    else
      var rest := Split(s[1..], sep);
      if s[0] == sep then [""] + rest
      else [[s[0]] + rest[0]] + rest[1..]
  }

  /** `sep.join(parts)`: the inverse of Split. */
  function Join(parts: seq<string>, sep: char): string
  {
    if |parts| == 0 then ""
    else if |parts| == 1 then parts[0]
    else parts[0] + [sep] + Join(parts[1..], sep)
  }

  /** Joining the pieces of a split gives back the original string. */
  lemma {:induction false} JoinSplit(s: string, sep: char)
    ensures Join(Split(s, sep), sep) == s
  {
    if |s| > 0 {
      var rest := Split(s[1..], sep);
      JoinSplit(s[1..], sep);
      if s[0] == sep {
        assert Split(s, sep) == [""] + rest;
        assert s == "" + [sep] + s[1..];
      } else {
        var parts := Split(s, sep);
        assert parts == [[s[0]] + rest[0]] + rest[1..];
        if |rest| == 1 {
          assert s == [s[0]] + s[1..];
        } else {
          assert parts[1..] == rest[1..];
          assert Join(rest, sep) == rest[0] + [sep] + Join(rest[1..], sep);
          assert s == [s[0]] + s[1..];
        }
      }
    }
  }

  /** Splitting the join of separator-free pieces gives back the pieces. */
  lemma {:induction false} SplitJoin(parts: seq<string>, sep: char)
    requires |parts| >= 1
    requires forall i :: 0 <= i < |parts| ==> sep !in parts[i]
    ensures Split(Join(parts, sep), sep) == parts
  {
    if |parts| == 1 {
      NoSeparator(parts[0], sep);
    } else {
      SplitJoin(parts[1..], sep);
      SplitAround(parts[0], sep, Join(parts[1..], sep));
      NoSeparator(parts[0], sep);
    }
  }

  /** A string without the separator splits into itself. */
  lemma {:induction false} NoSeparator(s: string, sep: char)
    requires sep !in s
    ensures Split(s, sep) == [s]
  {
    if |s| > 0 {
      NoSeparator(s[1..], sep);
      assert s == [s[0]] + s[1..];
    }
  }

  /** A separator between `a` and `b` splits them apart. */
  lemma {:induction false} SplitAround(a: string, sep: char, b: string)
    ensures Split(a + [sep] + b, sep) ==
      Split(a, sep)[..|Split(a, sep)| - 1] + [Split(a, sep)[|Split(a, sep)| - 1]] + Split(b, sep)
  {
    var s := a + [sep] + b;
    if |a| == 0 {
      assert s[1..] == b;
    } else {
      assert s[1..] == a[1..] + [sep] + b;
      SplitAround(a[1..], sep, b);
    }
  }

  /** `s.split('/')[-1]`. */
  function LastSegment(s: string): (r: string)
    ensures SLASH !in r
    ensures |r| <= |s| && r == s[|s| - |r|..]
    ensures |r| < |s| ==> s[|s| - |r| - 1] == SLASH
  {
    var parts := Split(s, SLASH);
    LastPieceIsSuffix(s, SLASH);
    parts[|parts| - 1]
  }

  /** The last piece of a split is what follows the last separator. */
  lemma {:induction false} LastPieceIsSuffix(s: string, sep: char)
    ensures var parts := Split(s, sep); var r := parts[|parts| - 1];
      && |r| <= |s| && r == s[|s| - |r|..]
      && (|r| < |s| ==> s[|s| - |r| - 1] == sep)
      && (|parts| == 1 ==> r == s)
      && (|parts| > 1 ==> |r| < |s|)
  {
    if |s| > 0 {
      LastPieceIsSuffix(s[1..], sep);
      var rest := Split(s[1..], sep);
      var r := rest[|rest| - 1];
      if s[0] != sep && |rest| == 1 {
        assert Split(s, sep) == [[s[0]] + rest[0]];
        assert [s[0]] + s[1..] == s;
      } else {
        assert Split(s, sep)[|Split(s, sep)| - 1] == r;
        assert s[|s| - |r|..] == s[1..][|s[1..]| - |r|..];
      }
    }
  }

  /** The branch of `prefix/name` is `name` whenever `name` holds no slash. */
  lemma LastSegmentAfterSlash(prefix: string, name: string)
    requires SLASH !in name
    ensures LastSegment(prefix + [SLASH] + name) == name
  {
    var s := prefix + [SLASH] + name;
    var r := LastSegment(s);
    assert s[|s| - |name| - 1] == SLASH;
    assert forall k :: |s| - |name| <= k < |s| ==> s[k] == name[k - (|s| - |name|)];
    assert forall k :: |s| - |r| <= k < |s| ==> s[k] == r[k - (|s| - |r|)];
    assert |r| == |name|;
    assert s[|s| - |name|..] == name;
  }

  /** A full branch ref `refs/heads/X` names the branch X. */
  lemma HeadsRefBranch(name: string)
    requires SLASH !in name
    ensures LastSegment("refs/heads/" + name) == name
  {
    assert "refs/heads/" + name == "refs/heads" + [SLASH] + name;
    LastSegmentAfterSlash("refs/heads", name);
  }
}
