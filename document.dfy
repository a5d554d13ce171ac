/**
 * The part of a DOCX document the template services touch: paragraphs made
 * of text runs, found in the body, in table cells and in the header and
 * footer of every section.
 *
 * A paragraph is an array of run texts: the number of runs is fixed and the
 * replacer overwrites run texts in place, as python-docx's `run.text = ...`.
 */
module Docx {

  type Paragraph = array<string>

  datatype Cell = Cell(paragraphs: seq<Paragraph>)
  datatype Row = Row(cells: seq<Cell>)
  datatype Table = Table(rows: seq<Row>)

  /** A header or a footer. */
  datatype Part = Part(paragraphs: seq<Paragraph>, tables: seq<Table>)
  datatype Section = Section(header: Part, footer: Part)
  datatype Document = Document(paragraphs: seq<Paragraph>, tables: seq<Table>, sections: seq<Section>)

  /** The paragraph text python-docx reports: its runs joined. */
  function Concat(runs: seq<string>): (s: string)
    ensures runs == [] ==> s == []
    decreases |runs|
  {
    if runs == [] then [] else runs[0] + Concat(runs[1..])
  }

  lemma {:induction false} ConcatAppend(a: seq<string>, b: seq<string>)
    ensures Concat(a + b) == Concat(a) + Concat(b)
    decreases |a|
  {
    if a != [] {
      assert (a + b)[1..] == a[1..] + b;
      ConcatAppend(a[1..], b);
    } else {
      assert a + b == b;
    }
  }

  function Text(p: Paragraph): string
    reads p
  {
    Concat(p[..])
  }

  function Texts(ps: seq<Paragraph>): (ts: seq<string>)
    reads ps
    ensures |ts| == |ps| && forall k :: 0 <= k < |ps| ==> ts[k] == Text(ps[k])
  {
    seq(|ps|, k requires 0 <= k < |ps| reads ps => Text(ps[k]))
  }

  /** No paragraph is listed twice (python-docx lists a merged cell once per grid cell). */
  predicate Distinct(ps: seq<Paragraph>) {
    forall a, b :: 0 <= a < b < |ps| ==> ps[a] != ps[b]
  }

  // The traversal order of the template services: body paragraphs, then
  // every table row by row and cell by cell, then for each section its
  // header paragraphs and header tables, then for each section its footer.

  function CellsParagraphs(cells: seq<Cell>): seq<Paragraph>
    decreases |cells|
  {
    if cells == [] then []
    else CellsParagraphs(cells[..|cells| - 1]) + cells[|cells| - 1].paragraphs
  }

  function RowsParagraphs(rows: seq<Row>): seq<Paragraph>
    decreases |rows|
  {
    if rows == [] then []
    else RowsParagraphs(rows[..|rows| - 1]) + CellsParagraphs(rows[|rows| - 1].cells)
  }

  function TableParagraphs(t: Table): seq<Paragraph> {
    RowsParagraphs(t.rows)
  }

  function TablesParagraphs(ts: seq<Table>): seq<Paragraph>
    decreases |ts|
  {
    if ts == [] then []
    else TablesParagraphs(ts[..|ts| - 1]) + TableParagraphs(ts[|ts| - 1])
  }

  function PartParagraphs(p: Part): seq<Paragraph> {
    p.paragraphs + TablesParagraphs(p.tables)
  }

  function HeadersParagraphs(ss: seq<Section>): seq<Paragraph>
    decreases |ss|
  {
    if ss == [] then []
    else HeadersParagraphs(ss[..|ss| - 1]) + PartParagraphs(ss[|ss| - 1].header)
  }

  function FootersParagraphs(ss: seq<Section>): seq<Paragraph>
    decreases |ss|
  {
    if ss == [] then []
    else FootersParagraphs(ss[..|ss| - 1]) + PartParagraphs(ss[|ss| - 1].footer)
  }

  /** Every paragraph the template services visit, in visiting order. */
  function Paragraphs(d: Document): seq<Paragraph> {
    d.paragraphs + TablesParagraphs(d.tables) + HeadersParagraphs(d.sections) + FootersParagraphs(d.sections)
  }

  // One more element of a prefix adds that element's paragraphs.

  lemma CellsStep(cells: seq<Cell>, c: nat)
    requires c < |cells|
    ensures CellsParagraphs(cells[..c + 1]) == CellsParagraphs(cells[..c]) + cells[c].paragraphs
  {
    assert cells[..c + 1][..c] == cells[..c];
  }

  lemma RowsStep(rows: seq<Row>, r: nat)
    requires r < |rows|
    ensures RowsParagraphs(rows[..r + 1]) == RowsParagraphs(rows[..r]) + CellsParagraphs(rows[r].cells)
  {
    assert rows[..r + 1][..r] == rows[..r];
  }

  lemma TablesStep(ts: seq<Table>, t: nat)
    requires t < |ts|
    ensures TablesParagraphs(ts[..t + 1]) == TablesParagraphs(ts[..t]) + TableParagraphs(ts[t])
  {
    assert ts[..t + 1][..t] == ts[..t];
  }

  lemma HeadersStep(ss: seq<Section>, s: nat)
    requires s < |ss|
    ensures HeadersParagraphs(ss[..s + 1]) == HeadersParagraphs(ss[..s]) + PartParagraphs(ss[s].header)
  {
    assert ss[..s + 1][..s] == ss[..s];
  }

  lemma FootersStep(ss: seq<Section>, s: nat)
    requires s < |ss|
    ensures FootersParagraphs(ss[..s + 1]) == FootersParagraphs(ss[..s]) + PartParagraphs(ss[s].footer)
  {
    assert ss[..s + 1][..s] == ss[..s];
  }

  // Every paragraph reached from an allocated document is allocated; callers
  // use this to carry facts about paragraph texts across calls that change
  // nothing.

  lemma {:induction false} CellsAllocated(cells: seq<Cell>)
    ensures forall k :: 0 <= k < |CellsParagraphs(cells)| ==> allocated(CellsParagraphs(cells)[k])
    decreases |cells|
  {
    if cells != [] { CellsAllocated(cells[..|cells| - 1]); }
  }
  lemma {:induction false} RowsAllocated(rows: seq<Row>)
    ensures forall k :: 0 <= k < |RowsParagraphs(rows)| ==> allocated(RowsParagraphs(rows)[k])
    decreases |rows|
  {
    if rows != [] { RowsAllocated(rows[..|rows| - 1]); CellsAllocated(rows[|rows| - 1].cells); }
  }
  lemma {:induction false} TablesAllocated(ts: seq<Table>)
    ensures forall k :: 0 <= k < |TablesParagraphs(ts)| ==> allocated(TablesParagraphs(ts)[k])
    decreases |ts|
  {
    if ts != [] { TablesAllocated(ts[..|ts| - 1]); RowsAllocated(ts[|ts| - 1].rows); }
  }
  lemma {:induction false} HeadersAllocated(ss: seq<Section>)
    ensures forall k :: 0 <= k < |HeadersParagraphs(ss)| ==> allocated(HeadersParagraphs(ss)[k])
    ensures forall k :: 0 <= k < |FootersParagraphs(ss)| ==> allocated(FootersParagraphs(ss)[k])
    decreases |ss|
  {
    if ss != [] {
      HeadersAllocated(ss[..|ss| - 1]);
      TablesAllocated(ss[|ss| - 1].header.tables);
      TablesAllocated(ss[|ss| - 1].footer.tables);
    }
  }
  lemma {:induction false} ParagraphsAllocated(d: Document)
    ensures forall k :: 0 <= k < |Paragraphs(d)| ==> allocated(Paragraphs(d)[k])
  {
    TablesAllocated(d.tables);
    HeadersAllocated(d.sections);
  }
}
