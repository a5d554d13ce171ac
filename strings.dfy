/**
 * String helpers shared by the model: the parts of Python's `str` API the
 * core relies on (strip, split, join, replace, startswith, `in`, lower/upper
 * of one character, str() of an int).
 *
 * Whitespace is Python's str.isspace() restricted to ASCII: space, \t, \n,
 * \v, \f, \r and the four separators \x1c..\x1f.
 */
module Strings {

  predicate IsSpace(c: char) {
    var n := c as int;
    n == 32 || (9 <= n <= 13) || (28 <= n <= 31)
  }

  predicate AllSpace(s: string) {
    forall i :: 0 <= i < |s| ==> IsSpace(s[i])
  }

  predicate NoSpace(s: string) {
    forall i :: 0 <= i < |s| ==> !IsSpace(s[i])
  }

  predicate StartsWith(s: string, p: string) {
    |p| <= |s| && s[..|p|] == p
  }

  /** `p in s` */
  predicate Contains(s: string, p: string)
    decreases |s|
  {
    StartsWith(s, p) || (s != [] && Contains(s[1..], p))
  }

  lemma {:induction false} ContainsAt(s: string, p: string, i: nat)
    requires i + |p| <= |s| && s[i..i + |p|] == p
    ensures Contains(s, p)
    decreases i
  {
    if i > 0 {
      assert s[1..][i - 1..i - 1 + |p|] == s[i..i + |p|];
      ContainsAt(s[1..], p, i - 1);
    }
  }

  /** `s.lstrip()` */
  function TrimLeft(s: string): (r: string)
    ensures |r| <= |s| && r == s[|s| - |r|..]
    ensures r == [] || !IsSpace(r[0])
    ensures AllSpace(s[..|s| - |r|])
    decreases |s|
  {
    if s != [] && IsSpace(s[0]) then
      var r := TrimLeft(s[1..]);
      assert s[..|s| - |r|] == [s[0]] + s[1..][..|s| - 1 - |r|];
      r
    else s
  }

  /** `s.rstrip()` */
  function TrimRight(s: string): (r: string)
    ensures |r| <= |s| && r == s[..|r|]
    ensures r == [] || !IsSpace(r[|r| - 1])
    ensures AllSpace(s[|r|..])
    decreases |s|
  {
    if s != [] && IsSpace(s[|s| - 1]) then
      var r := TrimRight(s[..|s| - 1]);
      assert s[|r|..] == s[..|s| - 1][|r|..] + [s[|s| - 1]];
      r
    else s
  }

  /** `s.strip()`: the substring s[a..a+|r|] left once the whitespace at both ends is gone. */
  function Strip(s: string): (r: string)
    ensures |r| <= |s|
    ensures r == [] || (!IsSpace(r[0]) && !IsSpace(r[|r| - 1]))
  {
    TrimRight(TrimLeft(s))
  }

  lemma StripEmptyIffAllSpace(s: string)
    ensures Strip(s) == [] <==> AllSpace(s)
  {
    var l := TrimLeft(s);
    if Strip(s) == [] {
      assert l == [] by {
        assert AllSpace(l[0..]);
        assert l[0..] == l;
      }
      forall i | 0 <= i < |s| ensures IsSpace(s[i]) {
        assert s[..|s| - |l|][i] == s[i];
      }
    }
  }

  lemma StripOfNoSpaceEnds(s: string)
    requires s == [] || (!IsSpace(s[0]) && !IsSpace(s[|s| - 1]))
    ensures Strip(s) == s
  {
  }

  /** Longest prefix of s without whitespace. */
  function WordPrefix(s: string): (w: string)
    ensures |w| <= |s| && w == s[..|w|] && NoSpace(w)
    ensures |w| == |s| || IsSpace(s[|w|])
    decreases |s|
  {
    if s == [] || IsSpace(s[0]) then [] else [s[0]] + WordPrefix(s[1..])
  }

  /** `s.split()` with no argument: the maximal whitespace-free pieces. */
  function Words(s: string): (ws: seq<string>)
    ensures forall i :: 0 <= i < |ws| ==> ws[i] != [] && NoSpace(ws[i])
    decreases |s|
  {
    if s == [] then []
    else if IsSpace(s[0]) then Words(s[1..])
    else
      var w := WordPrefix(s);
      [w] + Words(s[|w|..])
  }

  /** `sep.join(ws)` */
  function Join(ws: seq<string>, sep: string): string
    decreases |ws|
  {
    if ws == [] then []
    else if |ws| == 1 then ws[0]
    else ws[0] + sep + Join(ws[1..], sep)
  }

  lemma {:induction false} JoinThree(a: string, b: string, c: string, sep: string)
    ensures Join([a, b, c], sep) == a + sep + b + sep + c
  {
    var ws := [a, b, c];
    assert ws[1..] == [b, c];
    assert ws[1..][1..] == [c];
    assert Join([b, c], sep) == b + sep + c;
    assert Join(ws, sep) == a + sep + (b + sep + c);
  }

  /** `s.replace(pat, rep)`: non-overlapping occurrences, left to right. */
  function ReplaceAll(s: string, pat: string, rep: string): string
    requires pat != []
    decreases |s|
  {
    if |s| < |pat| then s
    else if s[..|pat|] == pat then rep + ReplaceAll(s[|pat|..], pat, rep)
    else [s[0]] + ReplaceAll(s[1..], pat, rep)
  }

  /**
   * Where `pat` does not start before position |base| of base + pat, the
   * replacement only removes the final occurrence.
   */
  lemma {:induction false} ReplaceAllTrailing(base: string, pat: string)
    requires pat != []
    requires forall i :: 0 <= i < |base| ==> !StartsWith((base + pat)[i..], pat)
    ensures ReplaceAll(base + pat, pat, []) == base
    decreases |base|
  {
    var s := base + pat;
    if base == [] {
      assert s[..|pat|] == pat;
      assert s[|pat|..] == [];
    } else {
      assert !StartsWith(s[0..], pat);
      assert s[0..] == s;
      assert s[1..] == base[1..] + pat;
      forall i | 0 <= i < |base[1..]|
        ensures !StartsWith((base[1..] + pat)[i..], pat)
      {
        assert (base[1..] + pat)[i..] == s[i + 1..];
      }
      ReplaceAllTrailing(base[1..], pat);
    }
  }

  /** The part of s before the first occurrence of p: `s.split(p, 1)[0]`. */
  function CutAt(s: string, p: string): (r: string)
    requires p != []
    ensures |r| <= |s| && r == s[..|r|]
    ensures |r| < |s| ==> StartsWith(s[|r|..], p)
    ensures forall i :: 0 <= i < |r| ==> !StartsWith(s[i..], p)
    decreases |s|
  {
    if StartsWith(s, p) then []
    else if s == [] then []
    else
      var rest := CutAt(s[1..], p);
      assert forall i :: 1 <= i <= |s| ==> s[i..] == s[1..][i - 1..];
      [s[0]] + rest
  }

  /** `s.split(sep)` for a one-character separator: the pieces between separators, in order. */
  function Split(s: string, sep: char): (ps: seq<string>)
    ensures ps != []
    ensures forall i :: 0 <= i < |ps| ==> sep !in ps[i]
    decreases |s|
  {
    var head := CutAt(s, [sep]);
    if |head| == |s| then
      assert s[..|s|] == s;
      assert forall i :: 0 <= i < |s| ==> s[i] != sep by {
        forall i | 0 <= i < |s| ensures s[i] != sep {
          assert !StartsWith(s[i..], [sep]);
          assert s[i..][..1] == [s[i]];
        }
      }
      [s]
    else
      assert forall i :: 0 <= i < |head| ==> head[i] != sep by {
        forall i | 0 <= i < |head| ensures head[i] != sep {
          assert !StartsWith(s[i..], [sep]);
          assert s[i..][..1] == [s[i]];
        }
      }
      [head] + Split(s[|head| + 1..], sep)
  }

  /** Joining the pieces with the separator gives the text back. */
  lemma {:induction false} JoinSplit(s: string, sep: char)
    ensures Join(Split(s, sep), [sep]) == s
    decreases |s|
  {
    var head := CutAt(s, [sep]);
    if |head| < |s| {
      var rest := s[|head| + 1..];
      JoinSplit(rest, sep);
      assert s[|head|..][..1] == [sep];
      assert s == head + [sep] + rest;
    }
  }

  /** Splitting pieces joined by a separator they do not contain gives the pieces back. */
  lemma {:induction false} SplitJoin(ps: seq<string>, sep: char)
    requires ps != [] && forall i :: 0 <= i < |ps| ==> sep !in ps[i]
    ensures Split(Join(ps, [sep]), sep) == ps
    decreases |ps|
  {
    var s := Join(ps, [sep]);
    var p := ps[0];
    if |ps| == 1 {
      NoCut(p, sep);
    } else {
      var rest := Join(ps[1..], [sep]);
      assert s == p + [sep] + rest;
      CutBeforeSeparator(p, sep, rest);
      assert s[|p| + 1..] == rest;
      SplitJoin(ps[1..], sep);
    }
  }

  lemma {:induction false} NoCut(s: string, sep: char)
    requires sep !in s
    ensures CutAt(s, [sep]) == s
  {
    forall i | 0 <= i < |s| ensures !StartsWith(s[i..], [sep]) {
      assert s[i..][..1] == [s[i]];
    }
    assert s[..|s|] == s;
  }

  lemma {:induction false} CutBeforeSeparator(p: string, sep: char, rest: string)
    requires sep !in p
    ensures CutAt(p + [sep] + rest, [sep]) == p
  {
    var s := p + [sep] + rest;
    forall i | 0 <= i < |p| ensures !StartsWith(s[i..], [sep]) {
      assert s[i..][..1] == [p[i]];
    }
    assert s[..|p|] == p;
    assert StartsWith(s[|p|..], [sep]) by {
      assert s[|p|..][..1] == [sep];
    }
  }

  lemma {:induction false} ContainsIffStartsSomewhere(s: string, p: string)
    ensures Contains(s, p) <==> exists i :: 0 <= i <= |s| && StartsWith(s[i..], p)
    decreases |s|
  {
    if s != [] {
      ContainsIffStartsSomewhere(s[1..], p);
      if exists i :: 0 <= i <= |s| && StartsWith(s[i..], p) {
        var i :| 0 <= i <= |s| && StartsWith(s[i..], p);
        if i > 0 {
          assert s[1..][i - 1..] == s[i..];
        } else {
          assert s[0..] == s;
        }
      }
      if Contains(s, p) {
        if StartsWith(s, p) {
          assert s[0..] == s;
          assert StartsWith(s[0..], p);
        } else {
          assert Contains(s[1..], p);
          var j :| 0 <= j <= |s[1..]| && StartsWith(s[1..][j..], p);
          assert s[1..][j..] == s[j + 1..];
          assert StartsWith(s[j + 1..], p);
        }
      }
    } else {
      assert s[0..] == s;
    }
  }

  function DigitChar(d: int): char
    requires 0 <= d < 10
  {
    ((d + 48) as char)
  }

  /** `str(n)` for a natural number. */
  function NatToString(n: nat): (r: string)
    ensures r != []
    ensures forall i :: 0 <= i < |r| ==> '0' <= r[i] <= '9'
    ensures r[0] == '0' ==> n == 0
    decreases n
  {
    if n < 10 then [DigitChar(n)] else NatToString(n / 10) + [DigitChar(n % 10)]
  }

  /** `str(i)` for a Python int. */
  function IntToString(i: int): string {
    if i < 0 then "-" + NatToString(-i) else NatToString(i)
  }

  /** Python's `c.lower()` on ASCII and Latin-1 letters; other characters are kept. */
  function LowerChar(c: char): char {
    var n := c as int;
    if ('A' as int <= n <= 'Z' as int) || (0xC0 <= n <= 0xDE && n != 0xD7) then (n + 32) as char else c
  }

  /** Python's `c.upper()` on ASCII and Latin-1 letters (sharp s becomes "SS"). */
  function UpperChar(c: char): string {
    var n := c as int;
    if ('a' as int <= n <= 'z' as int) || (0xE0 <= n <= 0xFE && n != 0xF7) then [(n - 32) as char]
    else if n == 0xDF then "SS"
    else if n == 0xFF then [0x178 as char]
    else if n == 0xB5 then [0x39C as char]
    else [c]
  }

  function Lower(s: string): (r: string)
    ensures |r| == |s| && forall i :: 0 <= i < |s| ==> r[i] == LowerChar(s[i])
  {
    seq(|s|, i requires 0 <= i < |s| => LowerChar(s[i]))
  }
}
