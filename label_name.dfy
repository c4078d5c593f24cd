/** Turning a label directory path into a label name: everything up to the
    last '/' of the first line is dropped, ASCII letters are lower-cased, and
    every run of characters outside [a-z0-9] becomes one space. */
module LabelName {

  /** The characters the label alphabet keeps as they are. */
  predicate IsWordChar(c: char) {
    'a' <= c <= 'z' || '0' <= c <= '9'
  }

  /** A string made only of [a-z0-9] and single spaces. */
  ghost predicate IsClean(s: string) {
    && (forall i :: 0 <= i < |s| ==> IsWordChar(s[i]) || s[i] == ' ')
    && (forall i, j :: 0 <= i && j == i + 1 < |s| ==> !(s[i] == ' ' && s[j] == ' '))
  }

  // ---------------------------------------------------------------------
  // Dropping the directory part: the pattern "^.*/" (where '.' does not
  // match a newline) matches up to the last '/' before the first newline.
  // ---------------------------------------------------------------------

  /** Index of the first newline, or |s| when there is none. */
  function LineEnd(s: string): (n: nat)
    ensures n <= |s|
    ensures forall i :: 0 <= i < n ==> s[i] != '\n'
    ensures n < |s| ==> s[n] == '\n'
  {
    if s == [] then 0
    else if s[0] == '\n' then 0
    else 1 + LineEnd(s[1..])
  }

  /** Index of the last '/' among s[..n], or -1 when there is none. */
  function LastSlash(s: string, n: nat): (k: int)
    requires n <= |s|
    ensures -1 <= k < n
    ensures k >= 0 ==> s[k] == '/'
    ensures forall i :: k < i < n ==> s[i] != '/'
  {
    if n == 0 then -1
    else if s[n - 1] == '/' then n - 1
    else LastSlash(s, n - 1)
  }

  /** Drops everything up to the last '/' of the first line: what is dropped
      ends in '/' and holds no newline, and what is kept holds no '/' before
      its own first newline. */
  function StripDirectory(s: string): (r: string)
    ensures |r| <= |s| && r == s[|s| - |r|..]
    ensures |r| < |s| ==> s[|s| - |r| - 1] == '/'
    ensures '\n' !in s[..|s| - |r|]
    ensures forall i :: 0 <= i < |r| && '\n' !in r[..i + 1] ==> r[i] != '/'
    ensures '/' !in s ==> r == s
    ensures '\n' !in s ==> '/' !in r
  {
    var n := LineEnd(s);
    var k := LastSlash(s, n);
    if k < 0 then s else s[k + 1..]
  }

  // ---------------------------------------------------------------------
  // Lower-casing (ASCII only)
  // ---------------------------------------------------------------------

  /** ASCII lower-casing of one character: 'A'..'Z' move down to 'a'..'z',
      everything else stays. */
  function LowerChar(c: char): (d: char)
    ensures 'A' <= c <= 'Z' ==> d as int == c as int + 32
    ensures !('A' <= c <= 'Z') ==> d == c
    ensures IsWordChar(d) <==> ('a' <= c <= 'z' || 'A' <= c <= 'Z' || '0' <= c <= '9')
    ensures IsWordChar(c) || c == ' ' ==> d == c
  {
    if 'A' <= c <= 'Z' then (c as int + 32) as char else c
  }

  function Lower(s: string): (r: string)
    ensures |r| == |s|
    ensures forall i :: 0 <= i < |s| ==> r[i] == LowerChar(s[i])
  {
    seq(|s|, i requires 0 <= i < |s| => LowerChar(s[i]))
  }

  // ---------------------------------------------------------------------
  // Collapsing every run of characters outside [a-z0-9] into one space
  // ---------------------------------------------------------------------

  /** Drops the leading run of characters outside [a-z0-9]. */
  function DropRun(s: string): (r: string)
    ensures |r| <= |s| && r == s[|s| - |r|..]
    ensures r != [] ==> IsWordChar(r[0])
    ensures forall i :: 0 <= i < |s| - |r| ==> !IsWordChar(s[i])
  {
    if s == [] || IsWordChar(s[0]) then s else DropRun(s[1..])
  }

  function Collapse(s: string): (r: string)
    ensures |r| <= |s|
    decreases |s|
  {
    if s == [] then []
    else if IsWordChar(s[0]) then [s[0]] + Collapse(s[1..])
    else [' '] + Collapse(DropRun(s))
  }

  /** The label name of a label directory path. */
  function Normalize(path: string): (r: string)
    ensures |r| <= |path|
    ensures r == Squash(SpaceOut(Lower(StripDirectory(path))))
  {
    CollapseIsSquash(Lower(StripDirectory(path)));
    Collapse(Lower(StripDirectory(path)))
  }

  // ---------------------------------------------------------------------
  // A second description of collapsing, one character at a time: every
  // character outside [a-z0-9] becomes a space where it stands, then every
  // space that directly follows a space is dropped.
  // ---------------------------------------------------------------------

  /** Each character outside [a-z0-9] replaced by a space, in place. */
  function SpaceOut(s: string): (r: string)
    ensures |r| == |s|
  {
    if s == [] then [] else [if IsWordChar(s[0]) then s[0] else ' '] + SpaceOut(s[1..])
  }

  /** Drops every space that directly follows a space. */
  function Squash(s: string): (r: string)
    ensures |r| <= |s|
  {
    if |s| <= 1 then s
    else if s[0] == ' ' && s[1] == ' ' then Squash(s[1..])
    else [s[0]] + Squash(s[1..])
  }

  /** A space followed by a run of separators squashes to one space. */
  lemma {:induction false} SquashRun(t: string)
    ensures Squash([' '] + SpaceOut(t)) == [' '] + Squash(SpaceOut(DropRun(t)))
    decreases |t|
  {
    if t == [] {
    } else if IsWordChar(t[0]) {
      var u := [' '] + SpaceOut(t);
      assert u[1] == t[0] && u[1..] == SpaceOut(t);
    } else {
      var u := [' '] + SpaceOut(t);
      assert u[1..] == [' '] + SpaceOut(t[1..]);
      SquashRun(t[1..]);
    }
  }

  /** Collapsing is spacing out the separators and then squashing the
      spaces: each run of separators becomes one space where it stood. */
  lemma {:induction false} CollapseIsSquash(s: string)
    ensures Collapse(s) == Squash(SpaceOut(s))
    decreases |s|
  {
    if s == [] {
    } else if IsWordChar(s[0]) {
      CollapseIsSquash(s[1..]);
      var u := SpaceOut(s);
      assert u == [s[0]] + SpaceOut(s[1..]);
      if |u| > 1 {
        assert u[1..] == SpaceOut(s[1..]);
      }
    } else {
      CollapseIsSquash(DropRun(s));
      assert SpaceOut(s) == [' '] + SpaceOut(s[1..]);
      assert DropRun(s) == DropRun(s[1..]);
      SquashRun(s[1..]);
    }
  }

  /** A separator between letters stays, as one space, where it stood. */
  lemma CollapseSeparatorExample()
    ensures Collapse("a-b") == "a b"
  {
    CollapseIsSquash("a-b");
    assert SpaceOut("a-b") == "a b" by {
      var s := "a-b";
      assert s[1..] == "-b" && s[1..][1..] == "b" && s[1..][1..][1..] == [];
    }
    assert Squash("a b") == "a b" by {
      var s := "a b";
      assert s[1..] == " b" && s[1..][1..] == "b";
    }
  }

  // ---------------------------------------------------------------------
  // Properties
  // ---------------------------------------------------------------------

  /** The characters of s that are in [a-z0-9], in order. */
  function WordChars(s: string): (w: string)
    ensures forall i :: 0 <= i < |w| ==> IsWordChar(w[i])
  {
    if s == [] then []
    else if IsWordChar(s[0]) then [s[0]] + WordChars(s[1..])
    else WordChars(s[1..])
  }

  lemma {:induction false} DropRunKeepsWordChars(s: string)
    ensures WordChars(DropRun(s)) == WordChars(s)
  {
    if s != [] && !IsWordChar(s[0]) {
      DropRunKeepsWordChars(s[1..]);
    }
  }

  /** Collapsing yields a clean string, empty only for an empty input,
      and starting with a space exactly when the input starts with a
      character outside [a-z0-9]. */
  lemma {:induction false} CollapseClean(s: string)
    ensures IsClean(Collapse(s))
    ensures Collapse(s) == [] <==> s == []
    ensures Collapse(s) != [] ==> (Collapse(s)[0] == ' ' <==> !IsWordChar(s[0]))
    decreases |s|
  {
    if s != [] {
      var rest := if IsWordChar(s[0]) then s[1..] else DropRun(s);
      CollapseClean(rest);
      var r, c := Collapse(s), Collapse(rest);
      assert r == [r[0]] + c;
      assert r[1..] == c;
      if !IsWordChar(s[0]) && c != [] {
        assert IsWordChar(rest[0]);
      }
      forall i, j | 0 <= i && j == i + 1 < |r|
        ensures !(r[i] == ' ' && r[j] == ' ')
      {
        if i > 0 {
          assert r[i] == c[i - 1];
          assert r[j] == c[i];
        }
      }
    }
  }

  /** A label name is clean and holds no '/'. */
  lemma NormalizeClean(path: string)
    ensures IsClean(Normalize(path))
    ensures '/' !in Normalize(path)
  {
    CollapseClean(Lower(StripDirectory(path)));
  }

  /** Collapsing removes no letter or digit and reorders nothing: only the
      separators change. */
  lemma {:induction false} CollapseKeepsWordChars(s: string)
    ensures WordChars(Collapse(s)) == WordChars(s)
    decreases |s|
  {
    if s == [] {
    } else if IsWordChar(s[0]) {
      CollapseKeepsWordChars(s[1..]);
      assert Collapse(s) == [s[0]] + Collapse(s[1..]);
    } else {
      var t := DropRun(s);
      CollapseKeepsWordChars(t);
      DropRunKeepsWordChars(s);
      assert Collapse(s) == [' '] + Collapse(t);
      assert WordChars([' '] + Collapse(t)) == WordChars(Collapse(t));
    }
  }

  /** The rest of a clean string is clean, and a space in it is followed
      by a letter or digit. */
  lemma CleanTail(s: string)
    requires IsClean(s) && s != []
    ensures IsClean(s[1..])
    ensures s[0] == ' ' && |s| > 1 ==> IsWordChar(s[1])
  {
    var t := s[1..];
    forall i, j | 0 <= i && j == i + 1 < |t|
      ensures !(t[i] == ' ' && t[j] == ' ')
    {
      assert t[i] == s[i + 1] && t[j] == s[j + 1];
    }
    if |s| > 1 {
      assert !(s[0] == ' ' && s[1] == ' ');
    }
  }

  /** A clean string is left as it is by collapsing. */
  lemma {:induction false} CollapseFixesClean(s: string)
    requires IsClean(s)
    ensures Collapse(s) == s
    decreases |s|
  {
    if s != [] {
      CleanTail(s);
      CollapseFixesClean(s[1..]);
      if IsWordChar(s[0]) {
        assert Collapse(s) == [s[0]] + Collapse(s[1..]);
      } else {
        assert DropRun(s) == s[1..];
        assert Collapse(s) == [' '] + Collapse(s[1..]);
      }
      assert s == [s[0]] + s[1..];
    }
  }

  /** Normalising a label name again changes nothing. */
  lemma {:induction false} NormalizeIdempotent(path: string)
    ensures Normalize(Normalize(path)) == Normalize(path)
  {
    var name := Normalize(path);
    NormalizeClean(path);
    assert StripDirectory(name) == name;
    assert Lower(name) == name;
    CollapseFixesClean(name);
  }

  /** Letters and digits of the file name part survive, lower-cased and in
      order; only separators are rewritten. */
  lemma NormalizeKeepsWordChars(path: string)
    ensures WordChars(Normalize(path)) == WordChars(Lower(StripDirectory(path)))
  {
    CollapseKeepsWordChars(Lower(StripDirectory(path)));
  }

  /** Only the first line's directory part is dropped: "." does not match
      a newline, so a '/' after one is kept. */
  lemma StripDirectoryMultiline()
    ensures StripDirectory("a/b\nc/d") == "b\nc/d"
  {
    var s := "a/b\nc/d";
    assert s[1..][1..][1..][0] == '\n';
    assert LineEnd(s) == 3;
    assert LastSlash(s, 3) == 1;
  }

  /** Path and separators go, letters are lower-cased; a run of separators
      at the end is kept as one space, not trimmed. */
  lemma NormalizeExample()
    ensures Normalize("a/B-") == "b "
  {
    var s := "a/B-";
    assert s[1..][1..][1..][1..] == [];
    assert LineEnd(s) == 4;
    assert LastSlash(s, 4) == 1;
    assert StripDirectory(s) == "B-";
    assert Lower("B-") == "b-";
    assert DropRun("-") == "";
    assert Collapse("-") == " ";
  }
}
