/**
 * TemplateReplacer: replaces every `{name}` placeholder of a document by its
 * value, in place, even when the placeholder is split across several runs.
 */
module Replacer {
  import opened Values
  import opened Placeholders
  import opened Docx

  function Clamp(x: int, n: nat): (r: nat)
    ensures r <= n
  {
    if x < 0 then 0 else if x > n then n else x
  }

  /**
   * The text `t`, which sits at offset `at` of a paragraph, once the paragraph's
   * span [start, end) is replaced by `repl`: the part of t before the span,
   * `repl` if the span starts inside t, and the part of t after the span.
   */
  function SpliceText(t: string, at: nat, start: nat, end: nat, repl: string): string {
    t[..Clamp(start - at, |t|)] + (if at <= start < at + |t| then repl else []) + t[Clamp(end - at, |t|)..]
  }

  /** A span that lies inside the text is simply cut out and replaced. */
  lemma {:induction false} SpliceWithin(t: string, start: nat, end: nat, repl: string)
    requires start < end <= |t|
    ensures SpliceText(t, 0, start, end, repl) == t[..start] + repl + t[end..]
  {
  }

  /** Splicing two adjacent pieces separately is splicing their concatenation. */
  lemma {:induction false} SpliceJoin(a: string, b: string, at: nat, start: nat, end: nat, repl: string)
    requires start < end
    ensures SpliceText(a, at, start, end, repl) + SpliceText(b, at + |a|, start, end, repl)
         == SpliceText(a + b, at, start, end, repl)
  {
    if start < at {
      SpliceJoinBefore(a, b, at, start, end, repl);
    } else if start < at + |a| {
      SpliceJoinInFirst(a, b, at, start, end, repl);
    } else {
      SpliceJoinInSecond(a, b, at, start, end, repl);
    }
  }

  lemma {:induction false} SpliceJoinBefore(a: string, b: string, at: nat, start: nat, end: nat, repl: string)
    requires start < end && start < at
    ensures SpliceText(a, at, start, end, repl) + SpliceText(b, at + |a|, start, end, repl)
         == SpliceText(a + b, at, start, end, repl)
  {
    var ab := a + b;
    var ca := Clamp(end - at, |a|);
    var cb := Clamp(end - at - |a|, |b|);
    var cab := Clamp(end - at, |ab|);
    SpliceStartsBefore(a, at, start, end, repl);
    SpliceStartsBefore(b, at + |a|, start, end, repl);
    SpliceStartsBefore(ab, at, start, end, repl);
    TailJoin(a, b, ca, cb, cab);
  }

  lemma {:induction false} SpliceJoinInFirst(a: string, b: string, at: nat, start: nat, end: nat, repl: string)
    requires start < end && at <= start < at + |a|
    ensures SpliceText(a, at, start, end, repl) + SpliceText(b, at + |a|, start, end, repl)
         == SpliceText(a + b, at, start, end, repl)
  {
    var ab := a + b;
    var x := start - at;
    var ca := Clamp(end - at, |a|);
    var cb := Clamp(end - at - |a|, |b|);
    var cab := Clamp(end - at, |ab|);
    SpliceStartsIn(a, at, start, end, repl);
    SpliceStartsIn(ab, at, start, end, repl);
    SpliceStartsBefore(b, at + |a|, start, end, repl);
    TailJoin(a, b, ca, cb, cab);
    HeadJoin(a, b, x, repl, a[ca..] + b[cb..]);
    Regroup(a[..x], repl, a[ca..], b[cb..]);
  }

  lemma {:induction false} Regroup(p: string, r: string, t1: string, t2: string)
    ensures (p + r + t1) + t2 == p + r + (t1 + t2)
  {
  }

  lemma {:induction false} SpliceStartsIn(t: string, at: nat, start: nat, end: nat, repl: string)
    requires at <= start < at + |t|
    ensures SpliceText(t, at, start, end, repl) == t[..start - at] + repl + t[Clamp(end - at, |t|)..]
  {
  }

  lemma {:induction false} SpliceStartsBefore(t: string, at: nat, start: nat, end: nat, repl: string)
    requires start < at
    ensures SpliceText(t, at, start, end, repl) == t[Clamp(end - at, |t|)..]
  {
    assert t[..0] == [];
  }

  /** A prefix of a is the same prefix of a + b. */
  lemma {:induction false} HeadJoin(a: string, b: string, x: nat, repl: string, tail: string)
    requires x <= |a|
    ensures (a + b)[..x] + repl + tail == a[..x] + repl + tail
  {
    assert (a + b)[..x] == a[..x];
  }

  /** The tail of a + b after a cut, as the tails of a and b after their cuts. */
  lemma {:induction false} TailJoin(a: string, b: string, ca: nat, cb: nat, cab: nat)
    requires ca <= |a| && cb <= |b|
    requires (ca < |a| && cb == 0 && cab == ca) || (ca == |a| && cab == |a| + cb)
    ensures cab <= |a + b| && (a + b)[cab..] == a[ca..] + b[cb..]
  {
  }

  lemma {:induction false} SpliceJoinInSecond(a: string, b: string, at: nat, start: nat, end: nat, repl: string)
    requires start < end && at + |a| <= start
    ensures SpliceText(a, at, start, end, repl) + SpliceText(b, at + |a|, start, end, repl)
         == SpliceText(a + b, at, start, end, repl)
  {
    SpliceAfterText(a, at, start, end, repl);
    var xb := Clamp(start - at - |a|, |b|);
    var cb := Clamp(end - at - |a|, |b|);
    var middle := if at + |a| <= start < at + |a| + |b| then repl else [];
    assert SpliceText(b, at + |a|, start, end, repl) == b[..xb] + middle + b[cb..];
    SpliceShifted(a, b, at, start, end, repl, xb, cb, middle);
  }

  /** A span that starts after the text leaves it as it is. */
  lemma {:induction false} SpliceAfterText(t: string, at: nat, start: nat, end: nat, repl: string)
    requires start < end && at + |t| <= start
    ensures SpliceText(t, at, start, end, repl) == t
  {
    assert t[..|t|] + [] + t[|t|..] == t;
  }

  /** Splicing a + b past a is splicing b after a. */
  lemma {:induction false} SpliceShifted(a: string, b: string, at: nat, start: nat, end: nat, repl: string,
                                         xb: nat, cb: nat, middle: string)
    requires start < end && at + |a| <= start
    requires xb == Clamp(start - at - |a|, |b|) && cb == Clamp(end - at - |a|, |b|)
    requires middle == if at + |a| <= start < at + |a| + |b| then repl else []
    ensures a + (b[..xb] + middle + b[cb..]) == SpliceText(a + b, at, start, end, repl)
  {
    var ab := a + b;
    assert Clamp(start - at, |ab|) == |a| + xb && Clamp(end - at, |ab|) == |a| + cb;
    assert SpliceText(ab, at, start, end, repl) == ab[..|a| + xb] + middle + ab[|a| + cb..];
    assert ab[..|a| + xb] == a + b[..xb];
    assert ab[|a| + cb..] == b[cb..];
  }

  /** Offset of run k in the paragraph text. */
  function RunStart(runs: seq<string>, k: nat): nat
    requires k <= |runs|
  {
    |Concat(runs[..k])|
  }

  lemma {:induction false} RunStartStep(runs: seq<string>, k: nat)
    requires k < |runs|
    ensures RunStart(runs, k + 1) == RunStart(runs, k) + |runs[k]|
  {
    assert runs[..k + 1] == runs[..k] + [runs[k]];
    ConcatAppend(runs[..k], [runs[k]]);
  }

  lemma {:induction false} RunOrder(runs: seq<string>, j: nat, k: nat)
    requires j < k < |runs|
    ensures RunStart(runs, j) + |runs[j]| <= RunStart(runs, k)
    decreases k - j
  {
    RunStartStep(runs, j);
    if j + 1 < k {
      RunOrder(runs, j + 1, k);
    }
  }

  lemma {:induction false} RunStartTail(runs: seq<string>, k: nat)
    requires 0 < |runs| && k < |runs|
    ensures RunStart(runs, k + 1) == |runs[0]| + RunStart(runs[1..], k)
  {
    assert runs[..k + 1] == [runs[0]] + runs[1..][..k];
    ConcatAppend([runs[0]], runs[1..][..k]);
  }

  /** Run k's text overlaps the span [start, end). */
  predicate Overlaps(runs: seq<string>, k: nat, start: nat, end: nat)
    requires k < |runs|
  {
    !(RunStart(runs, k) + |runs[k]| <= start || RunStart(runs, k) >= end)
  }

  /** Every run of a paragraph, at offset `at`, after the span [start, end) is replaced. */
  function Spliced(runs: seq<string>, at: nat, start: nat, end: nat, repl: string): (r: seq<string>)
    ensures |r| == |runs|
  {
    seq(|runs|, k requires 0 <= k < |runs| => SpliceText(runs[k], at + RunStart(runs, k), start, end, repl))
  }

  /** Replacing run by run gives the same paragraph text as replacing in the whole text. */
  lemma {:induction false} SplicedCons(runs: seq<string>, at: nat, start: nat, end: nat, repl: string)
    requires runs != []
    ensures Spliced(runs, at, start, end, repl)
         == [SpliceText(runs[0], at, start, end, repl)] + Spliced(runs[1..], at + |runs[0]|, start, end, repl)
  {
    var tail := Spliced(runs[1..], at + |runs[0]|, start, end, repl);
    forall k | 0 <= k < |tail|
      ensures tail[k] == Spliced(runs, at, start, end, repl)[k + 1]
    {
      RunStartTail(runs, k);
    }
    assert RunStart(runs, 0) == 0;
  }

  lemma {:induction false} ConcatSpliced(runs: seq<string>, at: nat, start: nat, end: nat, repl: string)
    requires start < end
    ensures Concat(Spliced(runs, at, start, end, repl)) == SpliceText(Concat(runs), at, start, end, repl)
    decreases |runs|
  {
    if runs == [] {
      assert Spliced(runs, at, start, end, repl) == [];
    } else {
      var head := SpliceText(runs[0], at, start, end, repl);
      var tail := Spliced(runs[1..], at + |runs[0]|, start, end, repl);
      var rest := Concat(runs[1..]);
      SplicedCons(runs, at, start, end, repl);
      ConcatCons(head, tail);
      ConcatSpliced(runs[1..], at + |runs[0]|, start, end, repl);
      SpliceJoin(runs[0], rest, at, start, end, repl);
      assert runs == [runs[0]] + runs[1..];
      ConcatCons(runs[0], runs[1..]);
    }
  }

  lemma {:induction false} ConcatCons(head: string, tail: seq<string>)
    ensures Concat([head] + tail) == head + Concat(tail)
  {
    assert ([head] + tail)[1..] == tail;
  }

  /** A run the span does not reach keeps its text. */
  lemma {:induction false} SpliceOutside(runs: seq<string>, k: nat, start: nat, end: nat, repl: string)
    requires k < |runs| && start < end && !Overlaps(runs, k, start, end)
    ensures SpliceText(runs[k], RunStart(runs, k), start, end, repl) == runs[k]
  {
  }

  /** The first run the span reaches holds its start. */
  lemma {:induction false} FirstOverlapHoldsStart(runs: seq<string>, k: nat, start: nat, end: nat)
    requires k < |runs| && Overlaps(runs, k, start, end)
    requires forall j :: 0 <= j < k ==> !Overlaps(runs, j, start, end)
    ensures RunStart(runs, k) <= start
  {
    if k > 0 {
      RunStartStep(runs, k - 1);
      assert !Overlaps(runs, k - 1, start, end);
    }
  }

  /** One entry of `runs_data`: a run, its offsets in the paragraph and its text. */
  datatype RunData = RunData(index: nat, start: nat, end: nat, text: string)

  /** The `runs_data` entry of run j. */
  function RunDataOf(runs: seq<string>, j: nat): RunData
    requires j < |runs|
  {
    RunData(j, RunStart(runs, j), RunStart(runs, j) + |runs[j]|, runs[j])
  }

  predicate Listed(targets: seq<RunData>, j: nat) {
    exists a :: 0 <= a < |targets| && targets[a].index == j
  }

  /** `target_runs`: the entries of exactly the runs the span overlaps, in run order. */
  predicate IsTargetList(targets: seq<RunData>, runs: seq<string>, start: nat, end: nat) {
    && (forall a :: 0 <= a < |targets| ==>
          targets[a].index < |runs| && targets[a] == RunDataOf(runs, targets[a].index)
          && Overlaps(runs, targets[a].index, start, end))
    && (forall j :: 0 <= j < |runs| && Overlaps(runs, j, start, end) ==> Listed(targets, j))
    && (forall a, b :: 0 <= a < b < |targets| ==> targets[a].index < targets[b].index)
  }

  /** `runs_data`: every run with its offsets in the paragraph text. */
  method CollectRunsData(p: Paragraph) returns (runsData: seq<RunData>)
    ensures |runsData| == p.Length
    ensures forall j :: 0 <= j < p.Length ==> runsData[j] == RunDataOf(p[..], j)
  {
    runsData := [];
    var currentPos: nat := 0;
    for k := 0 to p.Length
      invariant |runsData| == k && currentPos == RunStart(p[..], k)
      invariant forall j :: 0 <= j < k ==> runsData[j] == RunDataOf(p[..], j)
    {
      var runText := p[k];
      RunStartStep(p[..], k);
      runsData := runsData + [RunData(k, currentPos, currentPos + |runText|, runText)];
      currentPos := currentPos + |runText|;
    }
  }

  /** `target_runs`: the entries of `runs_data` whose run overlaps [start, end). */
  method CollectTargetRuns(runsData: seq<RunData>, ghost runs: seq<string>, start: nat, end: nat)
    returns (targetRuns: seq<RunData>)
    requires |runsData| == |runs| && forall j :: 0 <= j < |runs| ==> runsData[j] == RunDataOf(runs, j)
    ensures IsTargetList(targetRuns, runs, start, end)
  {
    targetRuns := [];
    for k := 0 to |runsData|
      invariant forall a :: 0 <= a < |targetRuns| ==>
        targetRuns[a].index < k && targetRuns[a] == RunDataOf(runs, targetRuns[a].index)
        && Overlaps(runs, targetRuns[a].index, start, end)
      invariant forall j :: 0 <= j < k && Overlaps(runs, j, start, end) ==> Listed(targetRuns, j)
      invariant forall a, b :: 0 <= a < b < |targetRuns| ==> targetRuns[a].index < targetRuns[b].index
    {
      var d := runsData[k];
      ghost var previous := targetRuns;
      if !(d.end <= start || d.start >= end) {
        targetRuns := targetRuns + [d];
      }
      forall j | 0 <= j < k + 1 && Overlaps(runs, j, start, end)
        ensures Listed(targetRuns, j)
      {
        if j < k {
          var a :| 0 <= a < |previous| && previous[a].index == j;
          assert targetRuns[a] == previous[a];
        } else {
          assert targetRuns[|targetRuns| - 1].index == j;
        }
      }
    }
  }

  /**
   * `_replace_field_in_runs`: replaces the span [start, end) of the paragraph
   * text by `replacement`. The first run the span reaches keeps its text before
   * the span and receives the replacement, runs wholly inside the span are
   * emptied, the last run keeps its text after the span.
   */
  method ReplaceFieldInRuns(p: Paragraph, start: nat, end: nat, replacement: string)
    requires start < end
    modifies p
    ensures p[..] == Spliced(old(p[..]), 0, start, end, replacement)
    ensures Text(p) == SpliceText(old(Text(p)), 0, start, end, replacement)
  {
    ghost var runs := p[..];
    var runsData := CollectRunsData(p);
    var targetRuns := CollectTargetRuns(runsData, runs, start, end);

    if |targetRuns| == 0 {
      forall k | 0 <= k < p.Length
        ensures p[k] == Spliced(runs, 0, start, end, replacement)[k]
      {
        SpliceOutside(runs, k, start, end, replacement);
      }
    } else if |targetRuns| == 1 {
      var first := targetRuns[0];
      FirstOverlapHoldsStart(runs, first.index, start, end);
      var relStart := start - first.start;
      var relEnd := if |first.text| < end - first.start then |first.text| else end - first.start;
      p[first.index] := first.text[..relStart] + replacement + first.text[relEnd..];
      forall k | 0 <= k < p.Length
        ensures p[k] == Spliced(runs, 0, start, end, replacement)[k]
      {
        if k != first.index {
          SpliceOutside(runs, k, start, end, replacement);
        }
      }
    } else {
      ReplaceAcrossRuns(p, targetRuns, start, end, replacement);
    }
    assert p[..] == Spliced(runs, 0, start, end, replacement);
    ConcatSpliced(runs, 0, start, end, replacement);
  }

  /** With two target runs or more, the first keeps its text before the span, then the replacement. */
  lemma {:induction false} FirstTargetSplice(runs: seq<string>, targets: seq<RunData>, start: nat, end: nat, repl: string)
    requires start < end && |targets| >= 2 && IsTargetList(targets, runs, start, end)
    ensures var f := targets[0];
      0 <= start - f.start <= |f.text|
      && SpliceText(runs[f.index], RunStart(runs, f.index), start, end, repl) == f.text[..start - f.start] + repl
  {
    var f := targets[0];
    var l := targets[|targets| - 1];
    assert forall j :: 0 <= j < f.index ==> !Overlaps(runs, j, start, end);
    FirstOverlapHoldsStart(runs, f.index, start, end);
    RunOrder(runs, f.index, l.index);
  }

  /** Runs between the first and the last target lie inside the span and are emptied. */
  lemma {:induction false} InnerTargetSplice(runs: seq<string>, targets: seq<RunData>, a: nat, start: nat, end: nat, repl: string)
    requires start < end && IsTargetList(targets, runs, start, end) && 0 < a < |targets| - 1
    ensures SpliceText(runs[targets[a].index], RunStart(runs, targets[a].index), start, end, repl) == []
  {
    var k := targets[a].index;
    RunOrder(runs, targets[0].index, k);
    RunOrder(runs, k, targets[|targets| - 1].index);
  }

  /** With two target runs or more, the last keeps only its text after the span. */
  lemma {:induction false} LastTargetSplice(runs: seq<string>, targets: seq<RunData>, start: nat, end: nat, repl: string)
    requires start < end && |targets| >= 2 && IsTargetList(targets, runs, start, end)
    ensures var l := targets[|targets| - 1];
      0 <= end - l.start
      && SpliceText(runs[l.index], RunStart(runs, l.index), start, end, repl)
         == l.text[(if |l.text| < end - l.start then |l.text| else end - l.start)..]
  {
    RunOrder(runs, targets[0].index, targets[|targets| - 1].index);
  }

  /** The branch of `_replace_field_in_runs` for a span over two runs or more. */
  method ReplaceAcrossRuns(p: Paragraph, targetRuns: seq<RunData>, start: nat, end: nat, replacement: string)
    requires start < end && |targetRuns| >= 2
    requires IsTargetList(targetRuns, p[..], start, end)
    modifies p
    ensures p[..] == Spliced(old(p[..]), 0, start, end, replacement)
  {
    ghost var runs := p[..];
    var first := targetRuns[0];
    var last := targetRuns[|targetRuns| - 1];
    FirstTargetSplice(runs, targetRuns, start, end, replacement);
    LastTargetSplice(runs, targetRuns, start, end, replacement);

    var relStart := start - first.start;
    p[first.index] := first.text[..relStart] + replacement;

    ghost var afterFirst := p[..];
    ClearRuns(p, targetRuns, 1, |targetRuns| - 1);
    assert p[first.index] == afterFirst[first.index];
    assert p[last.index] == runs[last.index];
    assert forall k :: 0 <= k < p.Length && !Listed(targetRuns, k) ==> p[k] == runs[k];

    if |targetRuns| > 1 {
      var relEnd := if |last.text| < end - last.start then |last.text| else end - last.start;
      p[last.index] := last.text[relEnd..];
    }

    AcrossRunsResult(runs, targetRuns, start, end, replacement, p[..]);
  }

  /** The loop that empties the runs strictly between the first and the last target. */
  method ClearRuns(p: Paragraph, targets: seq<RunData>, from: nat, to: nat)
    requires from <= to <= |targets|
    requires forall a :: from <= a < to ==> targets[a].index < p.Length
    modifies p
    ensures forall a :: from <= a < to ==> p[targets[a].index] == []
    ensures forall k :: 0 <= k < p.Length && (forall a :: from <= a < to ==> targets[a].index != k) ==> p[k] == old(p[k])
  {
    for j := from to to
      invariant forall a :: from <= a < j ==> p[targets[a].index] == []
      invariant forall k :: 0 <= k < p.Length && (forall a :: from <= a < j ==> targets[a].index != k) ==> p[k] == old(p[k])
    {
      p[targets[j].index] := [];
    }
  }

  /** The run texts ReplaceAcrossRuns leaves are the spliced runs. */
  lemma {:induction false} AcrossRunsResult(runs: seq<string>, targets: seq<RunData>, start: nat, end: nat, repl: string,
                                            after: seq<string>)
    requires start < end && |targets| >= 2 && IsTargetList(targets, runs, start, end) && |after| == |runs|
    requires var f := targets[0];
      0 <= start - f.start <= |f.text| && after[f.index] == f.text[..start - f.start] + repl
    requires forall a :: 0 < a < |targets| - 1 ==> after[targets[a].index] == []
    requires var l := targets[|targets| - 1];
      0 <= end - l.start && after[l.index] == l.text[(if |l.text| < end - l.start then |l.text| else end - l.start)..]
    requires forall k :: 0 <= k < |runs| && !Listed(targets, k) ==> after[k] == runs[k]
    ensures after == Spliced(runs, 0, start, end, repl)
  {
    FirstTargetSplice(runs, targets, start, end, repl);
    LastTargetSplice(runs, targets, start, end, repl);
    forall k | 0 <= k < |runs|
      ensures after[k] == Spliced(runs, 0, start, end, repl)[k]
    {
      if Listed(targets, k) {
        var a :| 0 <= a < |targets| && targets[a].index == k;
        if 0 < a < |targets| - 1 {
          InnerTargetSplice(runs, targets, a, start, end, repl);
        }
      } else {
        SpliceOutside(runs, k, start, end, repl);
      }
    }
  }

  /**
   * `_replace_in_paragraph`: replaces every placeholder of the paragraph text,
   * the last first so that earlier offsets stay valid, and counts them; a
   * placeholder without a value becomes "".
   */
  method ReplaceInParagraph(p: Paragraph, fieldMapping: map<string, string>) returns (count: nat)
    modifies p
    ensures count == |Tokens(old(Text(p)))|
    ensures Text(p) == Substituted(old(Text(p)), 0, fieldMapping)
    ensures count == 0 ==> p[..] == old(p[..])
  {
    var fullText := Text(p);
    var matches := Tokens(fullText);
    if |matches| == 0 {
      InterleaveTokens(fullText, 0, fieldMapping);
      return 0;
    }
    count := 0;
    var i := |matches|;
    while i > 0
      invariant 0 <= i <= |matches| && count == |matches| - i
      invariant Chain(|fullText|, matches[i..], 0)
      invariant Text(p) == Interleave(fullText, matches[i..], 0, fieldMapping)
    {
      var m := matches[i - 1];
      ghost var before := Text(p);
      if m.name in fieldMapping {
        // `str(v) if v else ""` is the value itself for the strings the mapping holds.
        ReplaceFieldInRuns(p, m.start, m.end, fieldMapping[m.name]);
        count := count + 1;
      } else {
        ReplaceFieldInRuns(p, m.start, m.end, []);
        count := count + 1;
      }
      ReplaceStep(fullText, matches, i, fieldMapping, before, Text(p));
      i := i - 1;
    }
    InterleaveTokens(fullText, 0, fieldMapping);
  }

  /** Replacing match i-1 extends the replaced suffix by one match. */
  lemma {:induction false} ReplaceStep(s: string, ts: seq<Token>, i: nat, mapping: map<string, string>, before: string, after: string)
    requires TokensOk(s, ts, 0) && 0 < i <= |ts|
    requires Chain(|s|, ts[i..], 0)
    requires before == Interleave(s, ts[i..], 0, mapping)
    requires after == SpliceText(before, 0, ts[i - 1].start, ts[i - 1].end, ValueOf(mapping, ts[i - 1].name))
    ensures Chain(|s|, ts[i - 1..], 0)
    ensures after == Interleave(s, ts[i - 1..], 0, mapping)
  {
    var m := ts[i - 1];
    ChainSuffix(|s|, ts, 0, i);
    InterleaveSplit(s, ts[i..], m.end, mapping);
    if i > 1 {
      ChainSuffix(|s|, ts, 0, i - 1);
    }
    assert ts[i - 1..][1..] == ts[i..];
    SpliceWithin(before, m.start, m.end, ValueOf(mapping, m.name));
    assert before[..m.start] == s[..m.start];
    assert before[m.end..] == Interleave(s, ts[i..], m.end, mapping);
  }

  /** Number of placeholders in a list of paragraph texts. */
  function TokenCount(texts: seq<string>): nat
    decreases |texts|
  {
    if texts == [] then 0 else TokenCount(texts[..|texts| - 1]) + |Tokens(texts[|texts| - 1])|
  }

  function ParagraphsOf(document: Option<Document>): seq<Paragraph> {
    if document.None? then [] else Paragraphs(document.value)
  }

  /**
   * The loops `for paragraph in ...: replacement_count += self._replace_in_paragraph(...)`
   * over a list of paragraphs, each listed once.
   */
  method ReplaceInParagraphs(ps: seq<Paragraph>, fieldMapping: map<string, string>) returns (replacementCount: nat)
    modifies ps
    ensures Distinct(ps) ==> replacementCount == TokenCount(old(Texts(ps)))
    ensures Distinct(ps) ==> forall k :: 0 <= k < |ps| ==> Text(ps[k]) == Substituted(old(Text(ps[k])), 0, fieldMapping)
  {
    ghost var before := Texts(ps);
    ghost var distinct := Distinct(ps);
    replacementCount := 0;
    for k := 0 to |ps|
      invariant distinct ==> replacementCount == TokenCount(before[..k])
      invariant distinct ==> forall j :: 0 <= j < k ==> Text(ps[j]) == Substituted(before[j], 0, fieldMapping)
      invariant distinct ==> forall j :: k <= j < |ps| ==> Text(ps[j]) == before[j]
    {
      if distinct {
        assert forall j :: 0 <= j < |ps| && j != k ==> ps[j] != ps[k];
      }
      var count := ReplaceInParagraph(ps[k], fieldMapping);
      replacementCount := replacementCount + count;
      assert before[..k + 1][..k] == before[..k];
    }
    assert before[..|ps|] == before;
  }

  /**
   * `replace_fields`: replaces the placeholders of every paragraph of the
   * document and returns how many were replaced; a missing document is an
   * error. Stated for documents that list every paragraph once.
   */
  method ReplaceFields(document: Option<Document>, fieldMapping: map<string, string>) returns (r: Result<nat>)
    modifies ParagraphsOf(document)
    ensures document.None? <==> r == Err("No document provided for field replacement")
    ensures document.Some? ==> r.Ok?
    ensures document.Some? && Distinct(Paragraphs(document.value)) ==>
      var ps := Paragraphs(document.value);
      && r.value == TokenCount(old(Texts(ps)))
      && forall k :: 0 <= k < |ps| ==> Text(ps[k]) == Substituted(old(Text(ps[k])), 0, fieldMapping)
  {
    if document.None? {
      return Err("No document provided for field replacement");
    }
    var count := ReplaceInParagraphs(Paragraphs(document.value), fieldMapping);
    return Ok(count);
  }

  /**
   * Replacing twice does nothing the second time: when every value is free of
   * `{` and every `{` of the template opens a placeholder, the replaced texts
   * hold no placeholder, so a second pass counts 0 replacements.
   */
  lemma {:induction false} SecondPassCountsNothing(before: seq<string>, after: seq<string>, fieldMapping: map<string, string>)
    requires |after| == |before|
    requires forall n :: n in fieldMapping ==> NoOpenBrace(fieldMapping[n])
    requires forall k :: 0 <= k < |before| ==> BracesOnlyInPlaceholders(before[k])
    requires forall k :: 0 <= k < |before| ==> after[k] == Substituted(before[k], 0, fieldMapping)
    ensures TokenCount(after) == 0
    ensures forall k :: 0 <= k < |after| ==> Names(after[k]) == {}
    decreases |before|
  {
    forall k | 0 <= k < |after| ensures Tokens(after[k]) == [] && Names(after[k]) == {} {
      NoPlaceholderSurvives(before[k], fieldMapping);
    }
    if before != [] {
      var n := |before| - 1;
      SecondPassCountsNothing(before[..n], after[..n], fieldMapping);
    }
  }
}
