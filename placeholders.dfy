/**
 * The placeholder syntax `{name}`, name = [A-Za-z0-9_]+, as both the extractor
 * and the replacer find it with `FIELD_PATTERN.finditer` / `findall` over a
 * paragraph's full text: leftmost matches, scanning resumes after each match.
 */
module Placeholders {

  predicate IsNameChar(c: char) {
    ('a' <= c <= 'z') || ('A' <= c <= 'Z') || ('0' <= c <= '9') || c == '_'
  }

  predicate IsName(s: string) {
    s != [] && forall i :: 0 <= i < |s| ==> IsNameChar(s[i])
  }

  /** One match: s[start..end] == "{" + name + "}". */
  datatype Token = Token(start: nat, end: nat, name: string)

  predicate WellFormed(s: string, t: Token) {
    && IsName(t.name)
    && t.end == t.start + |t.name| + 2 <= |s|
    && s[t.start..t.end] == "{" + t.name + "}"
  }

  predicate AllWellFormed(s: string, ts: seq<Token>) {
    forall k :: 0 <= k < |ts| ==> WellFormed(s, ts[k])
  }

  /**
   * The matches ts lie in text order, do not overlap and start at or after
   * `from`; the last one ends within a text of length n.
   */
  predicate Chain(n: nat, ts: seq<Token>, from: nat)
    decreases |ts|
  {
    if ts == [] then from <= n
    else from <= ts[0].start <= ts[0].end <= n && Chain(n, ts[1..], ts[0].end)
  }

  /** Matches are well formed, in text order and do not overlap. */
  predicate TokensOk(s: string, ts: seq<Token>, from: nat) {
    AllWellFormed(s, ts) && Chain(|s|, ts, from)
  }

  lemma {:induction false} ChainSuffix(n: nat, ts: seq<Token>, from: nat, k: nat)
    requires Chain(n, ts, from) && 0 < k <= |ts|
    ensures Chain(n, ts[k..], ts[k - 1].end)
    decreases k
  {
    if k > 1 {
      ChainSuffix(n, ts[1..], ts[0].end, k - 1);
      assert ts[1..][k - 1..] == ts[k..];
    }
  }

  /** `{name}` stands at position i of s. */
  predicate OccursAt(s: string, i: nat, name: string) {
    IsName(name) && i + |name| + 2 <= |s| && s[i..i + |name| + 2] == "{" + name + "}"
  }

  /** First position at or after i that does not hold a name character. */
  function NameEnd(s: string, i: nat): (j: nat)
    requires i <= |s|
    ensures i <= j <= |s|
    ensures forall k :: i <= k < j ==> IsNameChar(s[k])
    ensures j == |s| || !IsNameChar(s[j])
    decreases |s| - i
  {
    if i == |s| || !IsNameChar(s[i]) then i else NameEnd(s, i + 1)
  }

  /** The pattern matches at position i. */
  predicate TokenAt(s: string, i: nat) {
    i < |s| && s[i] == '{' && var j := NameEnd(s, i + 1); j > i + 1 && j < |s| && s[j] == '}'
  }

  function TokenStartingAt(s: string, i: nat): (t: Token)
    requires TokenAt(s, i)
    ensures t.start == i && WellFormed(s, t)
  {
    var j := NameEnd(s, i + 1);
    var t := Token(i, j + 1, s[i + 1..j]);
    assert s[t.start..t.end] == "{" + t.name + "}";
    t
  }

  /** The matches of the scan that starts at position i. */
  function TokensFrom(s: string, i: nat): (ts: seq<Token>)
    requires i <= |s|
    ensures TokensOk(s, ts, i)
    decreases |s| - i
  {
    if i == |s| then []
    else if TokenAt(s, i) then
      var t := TokenStartingAt(s, i);
      var rest := TokensFrom(s, t.end);
      assert ([t] + rest)[1..] == rest;
      [t] + rest
    else TokensFrom(s, i + 1)
  }

  /** `FIELD_PATTERN.finditer(s)` */
  function Tokens(s: string): seq<Token> {
    TokensFrom(s, 0)
  }

  /** `set(FIELD_PATTERN.findall(s))` */
  function Names(s: string): set<string> {
    set t | t in Tokens(s) :: t.name
  }

  /**
   * A name is found exactly when `{name}` occurs somewhere in the text: the
   * scan never skips an occurrence, because a match contains no `{` after its
   * first character.
   */
  lemma NamesIffOccurs(s: string, name: string)
    ensures name in Names(s) <==> exists i: nat :: OccursAt(s, i, name)
  {
    if name in Names(s) {
      var t :| t in Tokens(s) && t.name == name;
      assert OccursAt(s, t.start, name);
    }
    if exists i: nat :: OccursAt(s, i, name) {
      var i: nat :| OccursAt(s, i, name);
      var k := ScanReaches(s, 0, i, name);
    }
  }

  lemma {:induction false} ScanReaches(s: string, from: nat, i: nat, name: string) returns (k: nat)
    requires from <= i && OccursAt(s, i, name)
    ensures k < |TokensFrom(s, from)| && TokensFrom(s, from)[k] == Token(i, i + |name| + 2, name)
    decreases i - from
  {
    assert s[i] == ("{" + name + "}")[0];
    if from == i {
      var j := i + 1 + |name|;
      forall q | 0 <= q < |name| ensures s[i + 1 + q] == name[q] {
        assert s[i + 1 + q] == s[i..i + |name| + 2][q + 1];
      }
      assert s[j] == s[i..i + |name| + 2][|name| + 1];
      NameEndIs(s, i + 1, j);
      assert s[i + 1..j] == name;
      k := 0;
    } else if TokenAt(s, from) {
      var t := TokenStartingAt(s, from);
      // the match at `from` cannot cover position i, which holds '{'
      assert t.end <= i;
      var k' := ScanReaches(s, t.end, i, name);
      k := k' + 1;
    } else {
      k := ScanReaches(s, from + 1, i, name);
    }
  }

  lemma {:induction false} NameEndIs(s: string, i: nat, j: nat)
    requires i <= j < |s|
    requires forall q :: i <= q < j ==> IsNameChar(s[q])
    requires !IsNameChar(s[j])
    ensures NameEnd(s, i) == j
    decreases j - i
  {
    if i < j {
      NameEndIs(s, i + 1, j);
    }
  }

  /** What a placeholder is replaced with: its mapped value, or "" when unknown. */
  function ValueOf(mapping: map<string, string>, name: string): string {
    if name in mapping then mapping[name] else ""
  }

  /**
   * Reference definition of the replaced text, read left to right: every
   * match becomes its value, every other character is copied.
   */
  function Substituted(s: string, i: nat, mapping: map<string, string>): string
    requires i <= |s|
    decreases |s| - i
  {
    if i == |s| then []
    else if TokenAt(s, i) then
      var t := TokenStartingAt(s, i);
      ValueOf(mapping, t.name) + Substituted(s, t.end, mapping)
    else [s[i]] + Substituted(s, i + 1, mapping)
  }

  /**
   * The text between the matches ts, from position `from` on, with each match
   * replaced by its value: s[from..t0.start] + v0 + s[t0.end..t1.start] + v1 + ...
   */
  function Interleave(s: string, ts: seq<Token>, from: nat, mapping: map<string, string>): string
    requires Chain(|s|, ts, from)
    decreases |ts|
  {
    if ts == [] then s[from..]
    else s[from..ts[0].start] + ValueOf(mapping, ts[0].name) + Interleave(s, ts[1..], ts[0].end, mapping)
  }

  lemma {:induction false} InterleaveSplit(s: string, ts: seq<Token>, from: nat, mapping: map<string, string>)
    requires Chain(|s|, ts, from)
    ensures Interleave(s, ts, 0, mapping) == s[..from] + Interleave(s, ts, from, mapping)
  {
    if ts == [] {
      assert Interleave(s, ts, 0, mapping) == s[0..];
      assert Interleave(s, ts, from, mapping) == s[from..];
      assert s[0..] == s[..from] + s[from..];
    } else {
      var t := ts[0];
      var rest := Interleave(s, ts[1..], t.end, mapping);
      assert Interleave(s, ts, 0, mapping) == s[0..t.start] + ValueOf(mapping, t.name) + rest;
      assert Interleave(s, ts, from, mapping) == s[from..t.start] + ValueOf(mapping, t.name) + rest;
      assert s[0..t.start] == s[..from] + s[from..t.start];
    }
  }

  /** Splicing every match of the scan yields the reference text. */
  lemma {:induction false} InterleaveTokens(s: string, i: nat, mapping: map<string, string>)
    requires i <= |s|
    ensures Interleave(s, TokensFrom(s, i), i, mapping) == Substituted(s, i, mapping)
    decreases |s| - i
  {
    if i == |s| {
    } else if TokenAt(s, i) {
      var t := TokenStartingAt(s, i);
      InterleaveTokens(s, t.end, mapping);
      InterleaveAtToken(s, i, mapping);
    } else {
      InterleaveTokens(s, i + 1, mapping);
      var ts := TokensFrom(s, i + 1);
      assert TokensFrom(s, i) == ts;
      InterleaveStep(s, ts, i, mapping);
    }
  }

  /** The step of InterleaveTokens at a match. */
  lemma {:induction false} InterleaveAtToken(s: string, i: nat, mapping: map<string, string>)
    requires TokenAt(s, i)
    requires var t := TokenStartingAt(s, i);
      Interleave(s, TokensFrom(s, t.end), t.end, mapping) == Substituted(s, t.end, mapping)
    ensures Interleave(s, TokensFrom(s, i), i, mapping) == Substituted(s, i, mapping)
  {
    var t := TokenStartingAt(s, i);
    var rest := TokensFrom(s, t.end);
    TokensAtMatch(s, i);
    InterleaveCons(s, t, rest, mapping);
  }

  /** At a match, the scan reports it and goes on after it. */
  lemma {:induction false} TokensAtMatch(s: string, i: nat)
    requires TokenAt(s, i)
    ensures TokensFrom(s, i) == [TokenStartingAt(s, i)] + TokensFrom(s, TokenStartingAt(s, i).end)
  {
  }

  lemma {:induction false} InterleaveCons(s: string, t: Token, rest: seq<Token>, mapping: map<string, string>)
    requires Chain(|s|, [t] + rest, t.start)
    ensures Interleave(s, [t] + rest, t.start, mapping) == ValueOf(mapping, t.name) + Interleave(s, rest, t.end, mapping)
  {
    var ts := [t] + rest;
    assert ts[0] == t && ts[1..] == rest;
    assert s[t.start..t.start] == [];
  }

  lemma {:induction false} InterleaveStep(s: string, ts: seq<Token>, i: nat, mapping: map<string, string>)
    requires i < |s| && Chain(|s|, ts, i + 1)
    ensures Interleave(s, ts, i, mapping) == [s[i]] + Interleave(s, ts, i + 1, mapping)
  {
    if ts == [] {
      assert Interleave(s, ts, i, mapping) == s[i..];
      assert Interleave(s, ts, i + 1, mapping) == s[i + 1..];
      assert s[i..] == [s[i]] + s[i + 1..];
    } else {
      var t := ts[0];
      var rest := Interleave(s, ts[1..], t.end, mapping);
      assert Interleave(s, ts, i, mapping) == s[i..t.start] + ValueOf(mapping, t.name) + rest;
      assert Interleave(s, ts, i + 1, mapping) == s[i + 1..t.start] + ValueOf(mapping, t.name) + rest;
      assert s[i..t.start] == [s[i]] + s[i + 1..t.start];
    }
  }

  predicate NoOpenBrace(s: string) {
    forall k :: 0 <= k < |s| ==> s[k] != '{'
  }

  /** Every `{` of s opens a placeholder: blanking all of them leaves no `{`. */
  predicate BracesOnlyInPlaceholders(s: string) {
    NoOpenBrace(Substituted(s, 0, map[]))
  }

  lemma {:induction false} NoTokensWithoutBrace(s: string, i: nat)
    requires i <= |s| && NoOpenBrace(s)
    ensures TokensFrom(s, i) == []
    decreases |s| - i
  {
    if i < |s| {
      NoTokensWithoutBrace(s, i + 1);
    }
  }

  lemma {:induction false} SubstitutedNoBrace(s: string, i: nat, mapping: map<string, string>)
    requires i <= |s|
    requires forall n :: n in mapping ==> NoOpenBrace(mapping[n])
    requires NoOpenBrace(Substituted(s, i, map[]))
    ensures NoOpenBrace(Substituted(s, i, mapping))
    decreases |s| - i
  {
    if i < |s| {
      if TokenAt(s, i) {
        var t := TokenStartingAt(s, i);
        assert ValueOf(map[], t.name) == [];
        assert Substituted(s, i, map[]) == Substituted(s, t.end, map[]);
        SubstitutedNoBrace(s, t.end, mapping);
      } else {
        assert Substituted(s, i, map[])[0] == s[i];
        assert Substituted(s, i + 1, map[]) == Substituted(s, i, map[])[1..];
        SubstitutedNoBrace(s, i + 1, mapping);
      }
    }
  }

  /**
   * Extract, replace with values free of `{`, extract again: nothing is left,
   * provided every `{` of the text opens a placeholder.
   */
  lemma NoPlaceholderSurvives(s: string, mapping: map<string, string>)
    requires forall n :: n in mapping ==> NoOpenBrace(mapping[n])
    requires BracesOnlyInPlaceholders(s)
    ensures Tokens(Substituted(s, 0, mapping)) == []
    ensures Names(Substituted(s, 0, mapping)) == {}
  {
    SubstitutedNoBrace(s, 0, mapping);
    NoTokensWithoutBrace(Substituted(s, 0, mapping), 0);
  }
}
