/**
 * ReportSummaryService: the plain-text summary of the test results, laid
 * out by category. Each layout item names a test, a label, the key of its
 * percentile (none for Quati) and the key of its classification.
 */
module ReportSummary {
  import opened Strings
  import opened Values

  datatype LayoutItem = LayoutItem(test: string, caption: string, percentileKey: Option<string>, classificationKey: string)

  /** `TEST_SUMMARY_LAYOUT`, in its declaration order. */
  const Layout: seq<(string, seq<LayoutItem>)> := [
    ("Atenção", [
      LayoutItem("BPA", "Atenção Concentrada", Some("AC_percentil"), "AC_classificacao"),
      LayoutItem("BPA", "Atenção Dividida", Some("AD_percentil"), "AD_classificacao"),
      LayoutItem("BPA", "Atenção Alternada", Some("AA_percentil"), "AA_classificacao"),
      LayoutItem("BPA", "Atenção Geral", Some("AG_percentil"), "AG_classificacao")]),
    ("Memória", [
      LayoutItem("MVR", "Memória Visual (Rosto)", Some("MVR_percentil"), "MVR_classificacao"),
      LayoutItem("TEPIC-M", "Memória Visual (Figuras)", Some("TEPIC_M_percentil"), "TEPIC_M_classificacao")]),
    ("Inteligência", [
      LayoutItem("R-1", "Inteligência Não Verbal", Some("R1_percentil"), "R1_classificacao"),
      LayoutItem("G-36", "Inteligência Geral", Some("G36_percentil"), "G36_classificacao"),
      LayoutItem("Raven", "Matrizes Progressivas", Some("Raven_percentil"), "Raven_classificacao")]),
    ("Personalidade", [
      LayoutItem("Quati", "Personalidade", None, "Quati_classificacao"),
      LayoutItem("Palográfico", "Produtividade", Some("Palo_produtividade_percentil"), "Palo_produtividade_classificacao")])]

  /** The percentile of an item: `test_results.get(perc_key) if perc_key else None`. */
  function Percentile(item: LayoutItem, results: map<string, Value>): Value {
    if item.percentileKey.Some? then Get(results, item.percentileKey.value) else VNone
  }

  function Head(item: LayoutItem): string {
    "- " + item.test + " (" + item.caption + "):"
  }

  /**
   * The line of one item, if it gets one: Quati only with a truthy
   * classification; any other item with a truthy percentile or
   * classification, showing only the truthy parts.
   */
  function ItemLine(item: LayoutItem, results: map<string, Value>): (r: Option<string>)
    ensures item.test == "Quati" ==> (r.Some? <==> Truthy(Get(results, item.classificationKey)))
    ensures item.test != "Quati" ==> (r.Some? <==> Truthy(Percentile(item, results)) || Truthy(Get(results, item.classificationKey)))
    ensures r.Some? ==> StartsWith(r.value, Head(item))
  {
    var percentile := Percentile(item, results);
    var classification := Get(results, item.classificationKey);
    if item.test == "Quati" then
      if Truthy(classification) then Some(Head(item) + " " + Str(classification)) else None
    else if Truthy(percentile) || Truthy(classification) then
      var withPercentile := if Truthy(percentile) then Head(item) + " Percentil " + Str(percentile) else Head(item);
      var text := if Truthy(classification) then withPercentile + " - " + Str(classification) else withPercentile;
      assert text[..|Head(item)|] == Head(item);
      Some(text)
    else None
  }

  /** The item lines of one category, in layout order. */
  function CategoryLines(items: seq<LayoutItem>, results: map<string, Value>): seq<string>
    decreases |items|
  {
    if items == [] then []
    else
      var init := CategoryLines(items[..|items| - 1], results);
      match ItemLine(items[|items| - 1], results)
      case None => init
      case Some(line) => init + [line]
  }

  function Header(category: string): string {
    "=== " + category + " ==="
  }

  /** A category's block: its header, its lines and a blank line; nothing when it has no lines. */
  function Block(category: string, items: seq<LayoutItem>, results: map<string, Value>): seq<string> {
    var lines := CategoryLines(items, results);
    if lines == [] then [] else [Header(category)] + lines + [""]
  }

  function SummaryLines(layout: seq<(string, seq<LayoutItem>)>, results: map<string, Value>): seq<string>
    decreases |layout|
  {
    if layout == [] then []
    else
      var last := layout[|layout| - 1];
      SummaryLines(layout[..|layout| - 1], results) + Block(last.0, last.1, results)
  }

  /** `"\n".join(lines).strip()` over a layout: no whitespace at either end. */
  function LayoutText(layout: seq<(string, seq<LayoutItem>)>, results: map<string, Value>): (r: string)
    ensures r == [] || (!IsSpace(r[0]) && !IsSpace(r[|r| - 1]))
  {
    Strip(Join(SummaryLines(layout, results), "\n"))
  }

  /** The summary of the results under the service's layout. */
  function SummaryText(results: map<string, Value>): string {
    LayoutText(Layout, results)
  }

  /** `build_summary_text` */
  method BuildSummaryText(results: map<string, Value>) returns (text: string)
    ensures text == SummaryText(results)
  {
    var lines := LayoutLines(Layout, results);
    text := Strip(Join(lines, "\n"));
  }

  /** The blocks of the categories that have lines, in layout order. */
  method LayoutLines(layout: seq<(string, seq<LayoutItem>)>, results: map<string, Value>) returns (lines: seq<string>)
    ensures lines == SummaryLines(layout, results)
  {
    lines := [];
    var c := 0;
    while c < |layout|
      invariant 0 <= c <= |layout|
      invariant lines == SummaryLines(layout[..c], results)
    {
      var category := layout[c].0;
      var categoryLines := LinesOf(layout[c].1, results);
      SummaryLinesStep(layout, c, results);
      if categoryLines != [] {
        lines := lines + ([Header(category)] + categoryLines + [""]);
      }
      c := c + 1;
    }
    assert layout[..c] == layout;
  }

  /** The lines of one category's items, in order. */
  method LinesOf(items: seq<LayoutItem>, results: map<string, Value>) returns (categoryLines: seq<string>)
    ensures categoryLines == CategoryLines(items, results)
  {
    categoryLines := [];
    var i := 0;
    while i < |items|
      invariant 0 <= i <= |items|
      invariant categoryLines == CategoryLines(items[..i], results)
    {
      var line := LineOf(items[i], results);
      if line.Some? {
        categoryLines := categoryLines + [line.value];
      }
      CategoryLinesStep(items, i, results);
      i := i + 1;
    }
    assert items[..i] == items;
  }

  lemma {:induction false} CategoryLinesStep(items: seq<LayoutItem>, i: nat, results: map<string, Value>)
    requires i < |items|
    ensures CategoryLines(items[..i + 1], results) ==
      match ItemLine(items[i], results)
      case None => CategoryLines(items[..i], results)
      case Some(line) => CategoryLines(items[..i], results) + [line]
  {
    assert items[..i + 1][..i] == items[..i];
  }

  lemma {:induction false} SummaryLinesStep(layout: seq<(string, seq<LayoutItem>)>, c: nat, results: map<string, Value>)
    requires c < |layout|
    ensures SummaryLines(layout[..c + 1], results) == SummaryLines(layout[..c], results) + Block(layout[c].0, layout[c].1, results)
  {
    assert layout[..c + 1][..c] == layout[..c];
  }

  /** The line of one item, as the loop body builds it. */
  method LineOf(item: LayoutItem, results: map<string, Value>) returns (line: Option<string>)
    ensures line == ItemLine(item, results)
  {
    var percentile := if item.percentileKey.Some? then Get(results, item.percentileKey.value) else VNone;
    var classification := Get(results, item.classificationKey);
    if item.test == "Quati" {
      if Truthy(classification) {
        return Some(Head(item) + " " + Str(classification));
      }
      return None;
    }
    if !(Truthy(percentile) || Truthy(classification)) {
      return None;
    }
    var text := Head(item);
    if Truthy(percentile) {
      text := text + " Percentil " + Str(percentile);
    }
    if Truthy(classification) {
      text := text + " - " + Str(classification);
    }
    return Some(text);
  }

  /** The keys the layout reads. */
  function LayoutKeys(layout: seq<(string, seq<LayoutItem>)>): set<string> {
    set k, j, i | 0 <= k < |layout| && 0 <= j < |layout[k].1| && i in ItemKeys(layout[k].1[j]) :: i
  }

  function ItemKeys(item: LayoutItem): set<string> {
    {item.classificationKey} + (if item.percentileKey.Some? then {item.percentileKey.value} else {})
  }

  /** Two result dictionaries that agree on the keys an item reads give it the same line. */
  lemma {:induction false} ItemLineReadsItsKeys(items: seq<LayoutItem>, r1: map<string, Value>, r2: map<string, Value>)
    requires forall j, k :: 0 <= j < |items| && k in ItemKeys(items[j]) ==> Get(r1, k) == Get(r2, k)
    ensures CategoryLines(items, r1) == CategoryLines(items, r2)
    decreases |items|
  {
    if items != [] {
      var last := items[|items| - 1];
      assert Get(r1, last.classificationKey) == Get(r2, last.classificationKey);
      assert Percentile(last, r1) == Percentile(last, r2);
      ItemLineReadsItsKeys(items[..|items| - 1], r1, r2);
    }
  }

  /** Keys the layout does not name never change the summary. */
  lemma {:induction false} IgnoresOtherKeys(layout: seq<(string, seq<LayoutItem>)>, r1: map<string, Value>, r2: map<string, Value>)
    requires forall k :: k in LayoutKeys(layout) ==> Get(r1, k) == Get(r2, k)
    ensures SummaryLines(layout, r1) == SummaryLines(layout, r2)
    decreases |layout|
  {
    if layout != [] {
      var init := layout[..|layout| - 1];
      var last := layout[|layout| - 1];
      forall k | k in LayoutKeys(init) ensures Get(r1, k) == Get(r2, k) {
        var a, j, i :| 0 <= a < |init| && 0 <= j < |init[a].1| && i in ItemKeys(init[a].1[j]) && i == k;
        assert layout[a] == init[a];
      }
      forall j, k | 0 <= j < |last.1| && k in ItemKeys(last.1[j]) ensures Get(r1, k) == Get(r2, k) {
        assert k in LayoutKeys(layout) by {
          assert layout[|layout| - 1] == last;
        }
      }
      IgnoresOtherKeys(init, r1, r2);
      ItemLineReadsItsKeys(last.1, r1, r2);
    }
  }

  /** With no truthy value under any key the layout reads, the summary is "". */
  lemma {:induction false} EmptyWithoutData(layout: seq<(string, seq<LayoutItem>)>, results: map<string, Value>)
    requires forall k :: k in LayoutKeys(layout) ==> !Truthy(Get(results, k))
    ensures SummaryLines(layout, results) == []
    decreases |layout|
  {
    if layout != [] {
      var init := layout[..|layout| - 1];
      var last := layout[|layout| - 1];
      forall k | k in LayoutKeys(init) ensures !Truthy(Get(results, k)) {
        var a, j, i :| 0 <= a < |init| && 0 <= j < |init[a].1| && i in ItemKeys(init[a].1[j]) && i == k;
        assert layout[a] == init[a];
      }
      EmptyWithoutData(init, results);
      NoLinesWithoutData(last.1, results, layout, |layout| - 1);
    }
  }

  lemma {:induction false} NoLinesWithoutData(items: seq<LayoutItem>, results: map<string, Value>, layout: seq<(string, seq<LayoutItem>)>, k: nat)
    requires k < |layout| && layout[k].1 == items
    requires forall key :: key in LayoutKeys(layout) ==> !Truthy(Get(results, key))
    ensures CategoryLines(items, results) == []
    decreases |items|
  {
    if items != [] {
      var last := items[|items| - 1];
      assert last.classificationKey in LayoutKeys(layout) by {
        assert last == layout[k].1[|items| - 1];
        assert last.classificationKey in ItemKeys(layout[k].1[|items| - 1]);
      }
      if last.percentileKey.Some? {
        assert last.percentileKey.value in LayoutKeys(layout) by {
          assert last == layout[k].1[|items| - 1];
          assert last.percentileKey.value in ItemKeys(layout[k].1[|items| - 1]);
        }
      }
      var shorter := layout[k := (layout[k].0, items[..|items| - 1])];
      assert LayoutKeys(shorter) <= LayoutKeys(layout) by {
        forall key | key in LayoutKeys(shorter) ensures key in LayoutKeys(layout) {
          var a, j, i :| 0 <= a < |shorter| && 0 <= j < |shorter[a].1| && i in ItemKeys(shorter[a].1[j]) && i == key;
          if a == k {
            assert shorter[a].1[j] == layout[k].1[j];
          } else {
            assert shorter[a] == layout[a];
          }
        }
      }
      NoLinesWithoutData(items[..|items| - 1], results, shorter, k);
    }
  }

  /** The summary of results without any layout data is empty. */
  lemma {:induction false} NoDataNoSummary(results: map<string, Value>)
    requires forall k :: k in LayoutKeys(Layout) ==> !Truthy(Get(results, k))
    ensures SummaryText(results) == []
  {
    EmptyWithoutData(Layout, results);
  }

  /**
   * A category's header is among the summary lines exactly when some
   * category of that name has at least one item line.
   */
  lemma {:induction false} HeaderOnlyWithLines(layout: seq<(string, seq<LayoutItem>)>, results: map<string, Value>, category: string)
    ensures Header(category) in SummaryLines(layout, results)
      <==> exists k :: 0 <= k < |layout| && layout[k].0 == category && CategoryLines(layout[k].1, results) != []
    decreases |layout|
  {
    if Header(category) in SummaryLines(layout, results) {
      var k := HeaderSource(layout, results, category);
    }
    if exists k :: 0 <= k < |layout| && layout[k].0 == category && CategoryLines(layout[k].1, results) != [] {
      var k :| 0 <= k < |layout| && layout[k].0 == category && CategoryLines(layout[k].1, results) != [];
      HeaderHas(layout, results, k);
    }
  }

  /** A header among the summary lines comes from a category of that name with item lines. */
  lemma {:induction false} HeaderSource(layout: seq<(string, seq<LayoutItem>)>, results: map<string, Value>, category: string)
    returns (k: nat)
    requires Header(category) in SummaryLines(layout, results)
    ensures k < |layout| && layout[k].0 == category && CategoryLines(layout[k].1, results) != []
    decreases |layout|
  {
    var init := layout[..|layout| - 1];
    var last := layout[|layout| - 1];
    assert SummaryLines(layout, results) == SummaryLines(init, results) + Block(last.0, last.1, results);
    HeaderInBlock(last.0, last.1, results, category);
    if Header(category) in SummaryLines(init, results) {
      k := HeaderSource(init, results, category);
      assert layout[k] == init[k];
    } else {
      k := |layout| - 1;
    }
  }

  /** A category with item lines has its header among the summary lines. */
  lemma {:induction false} HeaderHas(layout: seq<(string, seq<LayoutItem>)>, results: map<string, Value>, k: nat)
    requires k < |layout| && CategoryLines(layout[k].1, results) != []
    ensures Header(layout[k].0) in SummaryLines(layout, results)
    decreases |layout|
  {
    var init := layout[..|layout| - 1];
    if k < |init| {
      assert init[k] == layout[k];
      HeaderHas(init, results, k);
      var last := layout[|layout| - 1];
      assert SummaryLines(layout, results) == SummaryLines(init, results) + Block(last.0, last.1, results);
    } else {
      HeaderOfLast(layout, results);
    }
  }

  lemma {:induction false} HeaderOfLast(layout: seq<(string, seq<LayoutItem>)>, results: map<string, Value>)
    requires layout != [] && CategoryLines(layout[|layout| - 1].1, results) != []
    ensures Header(layout[|layout| - 1].0) in SummaryLines(layout, results)
  {
    var last := layout[|layout| - 1];
    var block := Block(last.0, last.1, results);
    assert block[0] == Header(last.0);
    assert SummaryLines(layout, results) == SummaryLines(layout[..|layout| - 1], results) + block;
  }

  lemma {:induction false} HeaderInBlock(name: string, items: seq<LayoutItem>, results: map<string, Value>, category: string)
    ensures Header(category) in Block(name, items, results) <==> name == category && CategoryLines(items, results) != []
  {
    var lines := CategoryLines(items, results);
    LinesAreItemLines(items, results);
    if lines != [] {
      var block := [Header(name)] + lines + [""];
      if Header(category) in block {
        var i :| 0 <= i < |block| && block[i] == Header(category);
        if i == 0 {
          HeaderInjective(name, category);
        }
      }
      assert block[0] == Header(name);
    }
  }

  lemma {:induction false} LinesAreItemLines(items: seq<LayoutItem>, results: map<string, Value>)
    ensures forall i :: 0 <= i < |CategoryLines(items, results)| ==> CategoryLines(items, results)[i] != [] && CategoryLines(items, results)[i][0] == '-'
    decreases |items|
  {
    if items != [] {
      LinesAreItemLines(items[..|items| - 1], results);
      var r := ItemLine(items[|items| - 1], results);
      if r.Some? {
        assert r.value[..|Head(items[|items| - 1])|][0] == '-';
      }
    }
  }

  lemma {:induction false} HeaderInjective(a: string, b: string)
    requires Header(a) == Header(b)
    ensures a == b
  {
    assert |a| == |b|;
    assert a == Header(a)[4..4 + |a|];
    assert b == Header(b)[4..4 + |b|];
  }

  /** Every category of the layout has its header in the summary exactly when it has an item line. */
  lemma {:induction false} LayoutHeaders(results: map<string, Value>, k: nat)
    requires k < |Layout|
    ensures Header(Layout[k].0) in SummaryLines(Layout, results) <==> CategoryLines(Layout[k].1, results) != []
  {
    LayoutCategoriesDistinct();
    DistinctHeaders(Layout, results, k);
  }

  predicate CategoriesDistinct(layout: seq<(string, seq<LayoutItem>)>) {
    forall a, b :: 0 <= a < b < |layout| ==> layout[a].0 != layout[b].0
  }

  lemma {:induction false} LayoutCategoriesDistinct()
    ensures CategoriesDistinct(Layout)
  {
  }

  /** With distinct categories, a category's header appears exactly when it has an item line. */
  lemma {:induction false} DistinctHeaders(layout: seq<(string, seq<LayoutItem>)>, results: map<string, Value>, k: nat)
    requires k < |layout| && CategoriesDistinct(layout)
    ensures Header(layout[k].0) in SummaryLines(layout, results) <==> CategoryLines(layout[k].1, results) != []
  {
    HeaderOnlyWithLines(layout, results, layout[k].0);
    if exists j :: 0 <= j < |layout| && layout[j].0 == layout[k].0 && CategoryLines(layout[j].1, results) != [] {
      var j :| 0 <= j < |layout| && layout[j].0 == layout[k].0 && CategoryLines(layout[j].1, results) != [];
      assert j == k;
    }
  }

  /** Quati's line depends on its classification only; no percentile is ever read for it. */
  lemma {:induction false} QuatiHasNoPercentile(results: map<string, Value>)
    ensures Percentile(Layout[3].1[0], results) == VNone
    ensures var c := Get(results, "Quati_classificacao");
      ItemLine(Layout[3].1[0], results) == if Truthy(c) then Some("- Quati (Personalidade): " + Str(c)) else None
  {
    assert Head(Layout[3].1[0]) + " " == "- Quati (Personalidade): ";
  }
}
