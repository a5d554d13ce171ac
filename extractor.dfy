/**
 * TemplateExtractor: the set of placeholder names used anywhere in a
 * document (body, tables, headers, footers).
 */
module Extractor {
  import opened Placeholders
  import opened Docx
  import opened Values

  /** The names of the placeholders of a list of paragraphs. */
  function NamesOf(ps: seq<Paragraph>): (r: set<string>)
    reads ps
    ensures forall k :: 0 <= k < |ps| ==> Names(Text(ps[k])) <= r
    decreases |ps|
  {
    if ps == [] then {}
    else
      var front := ps[..|ps| - 1];
      assert forall k :: 0 <= k < |front| ==> front[k] == ps[k];
      NamesOf(front) + Names(Text(ps[|ps| - 1]))
  }

  lemma {:induction false} NamesOfAppend(a: seq<Paragraph>, b: seq<Paragraph>)
    ensures NamesOf(a + b) == NamesOf(a) + NamesOf(b)
    decreases |b|
  {
    if b == [] {
      assert a + b == a;
    } else {
      var n := |b| - 1;
      assert (a + b)[..|a + b| - 1] == a + b[..n];
      NamesOfAppend(a, b[..n]);
    }
  }

  /** A name is in NamesOf(ps) exactly when one of the paragraphs uses it. */
  lemma {:induction false} NamesOfMember(ps: seq<Paragraph>, n: string)
    ensures n in NamesOf(ps) <==> exists k :: 0 <= k < |ps| && n in Names(Text(ps[k]))
  {
    if n in NamesOf(ps) {
      var k := NamesOfSource(ps, n);
    }
    if exists k :: 0 <= k < |ps| && n in Names(Text(ps[k])) {
      var k :| 0 <= k < |ps| && n in Names(Text(ps[k]));
      NamesOfHas(ps, k, n);
    }
  }

  /** A paragraph that uses a name. */
  lemma {:induction false} NamesOfSource(ps: seq<Paragraph>, n: string) returns (k: nat)
    requires n in NamesOf(ps)
    ensures k < |ps| && n in Names(Text(ps[k]))
    decreases |ps|
  {
    var m := |ps| - 1;
    if n in Names(Text(ps[m])) {
      k := m;
    } else {
      var init := ps[..m];
      k := NamesOfSource(init, n);
      assert init[k] == ps[k];
    }
  }

  /** A name used by paragraph k is in NamesOf(ps). */
  lemma {:induction false} NamesOfHas(ps: seq<Paragraph>, k: nat, n: string)
    requires k < |ps| && n in Names(Text(ps[k]))
    ensures n in NamesOf(ps)
    decreases |ps|
  {
    var m := |ps| - 1;
    if k < m {
      var init := ps[..m];
      assert init[k] == ps[k];
      NamesOfHas(init, k, n);
    }
  }

  /** `_extract_from_paragraph` */
  function ExtractFromParagraph(p: Paragraph): (r: set<string>)
    reads p
    ensures forall n :: n in r <==> exists i: nat :: OccursAt(Text(p), i, n)
  {
    var r := Names(Text(p));
    forall n ensures n in r <==> exists i: nat :: OccursAt(Text(p), i, n) {
      NamesIffOccurs(Text(p), n);
    }
    r
  }

  /** The loop `for paragraph in ...: fields.update(...)`. */
  method ExtractFromParagraphs(ps: seq<Paragraph>) returns (fields: set<string>)
    ensures fields == NamesOf(ps)
  {
    fields := {};
    for i := 0 to |ps|
      invariant fields == NamesOf(ps[..i])
    {
      assert ps[..i + 1][..i] == ps[..i];
      fields := fields + ExtractFromParagraph(ps[i]);
    }
    assert ps[..|ps|] == ps;
  }

  /** The cells of one row. */
  method ExtractFromCells(cells: seq<Cell>) returns (fields: set<string>)
    ensures fields == NamesOf(CellsParagraphs(cells))
  {
    fields := {};
    for c := 0 to |cells|
      invariant fields == NamesOf(CellsParagraphs(cells[..c]))
    {
      assert fields == NamesOf(CellsParagraphs(cells[..c]));
      var found := ExtractFromParagraphs(cells[c].paragraphs);
      fields := fields + found;
      CellsStep(cells, c);
      NamesOfAppend(CellsParagraphs(cells[..c]), cells[c].paragraphs);
    }
    assert cells[..|cells|] == cells;
  }

  /** `_extract_from_table`: row by row, cell by cell. */
  method ExtractFromTable(table: Table) returns (fields: set<string>)
    ensures fields == NamesOf(TableParagraphs(table))
  {
    fields := {};
    var rows := table.rows;
    for r := 0 to |rows|
      invariant fields == NamesOf(RowsParagraphs(rows[..r]))
    {
      assert fields == NamesOf(RowsParagraphs(rows[..r]));
      var found := ExtractFromCells(rows[r].cells);
      fields := fields + found;
      RowsStep(rows, r);
      NamesOfAppend(RowsParagraphs(rows[..r]), CellsParagraphs(rows[r].cells));
    }
    assert rows[..|rows|] == rows;
  }

  /** The loop `for table in ...: fields.update(self._extract_from_table(table))`. */
  method ExtractFromTables(tables: seq<Table>) returns (fields: set<string>)
    ensures fields == NamesOf(TablesParagraphs(tables))
  {
    fields := {};
    for t := 0 to |tables|
      invariant fields == NamesOf(TablesParagraphs(tables[..t]))
    {
      assert fields == NamesOf(TablesParagraphs(tables[..t]));
      var found := ExtractFromTable(tables[t]);
      fields := fields + found;
      TablesStep(tables, t);
      NamesOfAppend(TablesParagraphs(tables[..t]), TableParagraphs(tables[t]));
    }
    assert tables[..|tables|] == tables;
  }

  /** The paragraphs, then the tables, of a header or footer. */
  method ExtractFromPart(part: Part) returns (fields: set<string>)
    ensures fields == NamesOf(PartParagraphs(part))
  {
    fields := ExtractFromParagraphs(part.paragraphs);
    assert fields == NamesOf(part.paragraphs);
    var found := ExtractFromTables(part.tables);
    fields := fields + found;
    NamesOfAppend(part.paragraphs, TablesParagraphs(part.tables));
  }

  /** The headers of all sections, then (for `footers`) their footers. */
  method ExtractFromSections(sections: seq<Section>, footers: bool) returns (fields: set<string>)
    ensures fields == NamesOf(if footers then FootersParagraphs(sections) else HeadersParagraphs(sections))
  {
    fields := {};
    for s := 0 to |sections|
      invariant fields == NamesOf(if footers then FootersParagraphs(sections[..s]) else HeadersParagraphs(sections[..s]))
    {
      assert fields == NamesOf(if footers then FootersParagraphs(sections[..s]) else HeadersParagraphs(sections[..s]));
      if footers {
        var found := ExtractFromPart(sections[s].footer);
        fields := fields + found;
        FootersStep(sections, s);
        NamesOfAppend(FootersParagraphs(sections[..s]), PartParagraphs(sections[s].footer));
      } else {
        var found := ExtractFromPart(sections[s].header);
        fields := fields + found;
        HeadersStep(sections, s);
        NamesOfAppend(HeadersParagraphs(sections[..s]), PartParagraphs(sections[s].header));
      }
    }
    assert sections[..|sections|] == sections;
  }

  /**
   * `extract_fields`: every placeholder name of the document; none for a
   * missing document. A name is reported exactly when `{name}` occurs in the
   * text of some paragraph, whichever runs its characters are spread over.
   */
  method ExtractFields(document: Option<Document>) returns (fields: set<string>)
    ensures document.None? ==> fields == {}
    ensures document.Some? ==> fields == NamesOf(Paragraphs(document.value))
    ensures document.Some? ==> forall n :: n in fields <==>
      exists k, i: nat :: 0 <= k < |Paragraphs(document.value)| && OccursAt(Text(Paragraphs(document.value)[k]), i, n)
  {
    if document.None? {
      return {};
    }
    var d := document.value;
    var body := ExtractFromParagraphs(d.paragraphs);
    assert body == NamesOf(d.paragraphs);
    var tables := ExtractFromTables(d.tables);
    assert body == NamesOf(d.paragraphs);
    assert tables == NamesOf(TablesParagraphs(d.tables));
    var headers := ExtractFromSections(d.sections, false);
    assert body == NamesOf(d.paragraphs);
    assert tables == NamesOf(TablesParagraphs(d.tables));
    assert headers == NamesOf(HeadersParagraphs(d.sections));
    var footers := ExtractFromSections(d.sections, true);
    assert body == NamesOf(d.paragraphs);
    assert tables == NamesOf(TablesParagraphs(d.tables));
    assert headers == NamesOf(HeadersParagraphs(d.sections));
    fields := body + tables + headers + footers;

    NamesOfAppend(d.paragraphs, TablesParagraphs(d.tables));
    NamesOfAppend(d.paragraphs + TablesParagraphs(d.tables), HeadersParagraphs(d.sections));
    NamesOfAppend(d.paragraphs + TablesParagraphs(d.tables) + HeadersParagraphs(d.sections), FootersParagraphs(d.sections));

    NamesOfOccurs(Paragraphs(d));
  }

  /** A name is among the names of the paragraphs exactly when `{name}` occurs in one of their texts. */
  lemma {:induction false} NamesOfOccurs(ps: seq<Paragraph>)
    ensures forall n :: n in NamesOf(ps) <==> exists k, i: nat :: 0 <= k < |ps| && OccursAt(Text(ps[k]), i, n)
  {
    forall n ensures n in NamesOf(ps) <==> exists k, i: nat :: 0 <= k < |ps| && OccursAt(Text(ps[k]), i, n) {
      NamesOfMember(ps, n);
      if n in NamesOf(ps) {
        var k :| 0 <= k < |ps| && n in Names(Text(ps[k]));
        NamesIffOccurs(Text(ps[k]), n);
      }
      if exists k, i: nat :: 0 <= k < |ps| && OccursAt(Text(ps[k]), i, n) {
        var k, i: nat :| 0 <= k < |ps| && OccursAt(Text(ps[k]), i, n);
        NamesIffOccurs(Text(ps[k]), n);
      }
    }
  }
}
