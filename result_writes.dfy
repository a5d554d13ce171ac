/**
 * What `classify_results` writes into the enriched copy of a result
 * dictionary, as a list of guarded writes per instrument. The classifier's
 * methods are proved to perform exactly these writes; the laws about the
 * result (no input value lost, only derived keys touched, composites) are
 * proved here.
 */
module ResultWrites {
  import opened Values
  import opened Numbers
  import opened Classification
  import opened ScoreText

  /** A result dictionary. */
  type Payload = map<string, Value>

  /**
   * `_store_if_empty`: the key gets the value when it is absent, None or a
   * blank string; otherwise nothing changes.
   */
  function StoreIfEmpty(payload: Payload, key: string, value: Value): (r: Payload)
    ensures Blank(Get(payload, key)) ==> key in r && r[key] == value
    ensures !Blank(Get(payload, key)) ==> r == payload
    ensures forall k :: k != key ==> (k in r <==> k in payload) && Get(r, k) == Get(payload, k)
  {
    if Blank(Get(payload, key)) then payload[key := value] else payload
  }

  /** Storing twice is storing once. */
  lemma {:induction false} StoreIfEmptyIdempotent(payload: Payload, key: string, value: Value)
    ensures StoreIfEmpty(StoreIfEmpty(payload, key, value), key, value) == StoreIfEmpty(payload, key, value)
  {
  }

  /** The two kinds of derived write: store-if-empty, and `if key not in target: target[key] = value`. */
  datatype Write = Store(key: string, value: Value) | SetIfAbsent(key: string, value: Value)

  function Apply(t: Payload, w: Write): Payload {
    match w
    case Store(k, v) => StoreIfEmpty(t, k, v)
    case SetIfAbsent(k, v) => if k in t then t else t[k := v]
  }

  /** The writes performed in order. */
  function Perform(t: Payload, ws: seq<Write>): Payload
    decreases |ws|
  {
    if ws == [] then t else Apply(Perform(t, ws[..|ws| - 1]), ws[|ws| - 1])
  }

  lemma {:induction false} PerformOne(t: Payload, w: Write)
    ensures Perform(t, [w]) == Apply(t, w)
  {
    assert [w][..0] == [];
  }

  function WriteKeys(ws: seq<Write>): set<string> {
    set i | 0 <= i < |ws| :: ws[i].key
  }

  lemma {:induction false} PerformAppend(t: Payload, a: seq<Write>, b: seq<Write>)
    ensures Perform(t, a + b) == Perform(Perform(t, a), b)
    decreases |b|
  {
    if b == [] {
      assert a + b == a;
    } else {
      assert (a + b)[..|a + b| - 1] == a + b[..|b| - 1];
      PerformAppend(t, a, b[..|b| - 1]);
    }
  }

  lemma {:induction false} WriteKeysAppend(a: seq<Write>, b: seq<Write>)
    ensures WriteKeys(a + b) == WriteKeys(a) + WriteKeys(b)
  {
    forall k | k in WriteKeys(a + b) ensures k in WriteKeys(a) + WriteKeys(b) {
      var i :| 0 <= i < |a + b| && (a + b)[i].key == k;
      if i >= |a| {
        assert b[i - |a|].key == k;
      }
    }
    forall k | k in WriteKeys(a) + WriteKeys(b) ensures k in WriteKeys(a + b) {
      if k in WriteKeys(a) {
        var i :| 0 <= i < |a| && a[i].key == k;
        assert (a + b)[i].key == k;
      } else {
        var i :| 0 <= i < |b| && b[i].key == k;
        assert (a + b)[|a| + i].key == k;
      }
    }
  }

  /** Every key of a survives in b, and every value that is neither None nor blank is unchanged. */
  predicate Keeps(a: Payload, b: Payload) {
    forall k :: k in a ==> k in b && (!Blank(a[k]) ==> b[k] == a[k])
  }

  /** Guarded writes never lose a key nor overwrite a filled value. */
  lemma {:induction false} PerformKeeps(t: Payload, ws: seq<Write>)
    ensures Keeps(t, Perform(t, ws))
    decreases |ws|
  {
    if ws != [] {
      PerformKeeps(t, ws[..|ws| - 1]);
    }
  }

  /** A key no write names is left exactly as it was. */
  lemma {:induction false} PerformElsewhere(t: Payload, ws: seq<Write>, k: string)
    requires k !in WriteKeys(ws)
    ensures (k in Perform(t, ws) <==> k in t) && Get(Perform(t, ws), k) == Get(t, k)
    decreases |ws|
  {
    if ws != [] {
      assert WriteKeys(ws[..|ws| - 1]) <= WriteKeys(ws) by {
        forall x | x in WriteKeys(ws[..|ws| - 1]) ensures x in WriteKeys(ws) {
          var i :| 0 <= i < |ws| - 1 && ws[..|ws| - 1][i].key == x;
          assert ws[i].key == x;
        }
      }
      assert ws[|ws| - 1].key in WriteKeys(ws);
      PerformElsewhere(t, ws[..|ws| - 1], k);
    }
  }

  // The classify-and-store loop shared by most instruments.

  /** A raw result value and the field its classification is stored under. */
  datatype Item = Item(raw: Value, out: string)

  /** `score = _to_number(raw); classification = _classify_value(...); _store_if_empty(target, out, classification)` */
  function Classified(tables: Tables, key: string, ck: string, tk: string, pp: bool, item: Item): seq<Write>
    requires Consultable(tables, key, ck)
  {
    match ToNumber(item.raw)
    case None => []
    case Some(score) =>
      match Classify(tables, key, score, ck, tk, pp)
      case None => []
      case Some(c) => [Store(item.out, VStr(c))]
  }

  function ClassifiedAll(tables: Tables, key: string, ck: string, tk: string, pp: bool, items: seq<Item>): seq<Write>
    requires Consultable(tables, key, ck)
    decreases |items|
  {
    if items == [] then []
    else ClassifiedAll(tables, key, ck, tk, pp, items[..|items| - 1]) + Classified(tables, key, ck, tk, pp, items[|items| - 1])
  }

  lemma {:induction false} ClassifiedAllStep(tables: Tables, key: string, ck: string, tk: string, pp: bool, items: seq<Item>, i: nat)
    requires Consultable(tables, key, ck) && i < |items|
    ensures ClassifiedAll(tables, key, ck, tk, pp, items[..i + 1])
      == ClassifiedAll(tables, key, ck, tk, pp, items[..i]) + Classified(tables, key, ck, tk, pp, items[i])
  {
    assert items[..i + 1][..i] == items[..i];
  }

  lemma {:induction false} ClassifiedSingle(tables: Tables, key: string, ck: string, tk: string, pp: bool, item: Item)
    requires Consultable(tables, key, ck)
    ensures ClassifiedAll(tables, key, ck, tk, pp, [item]) == Classified(tables, key, ck, tk, pp, item)
  {
    assert [item][..0] == [];
  }

  function Outs(items: seq<Item>): set<string> {
    set i | 0 <= i < |items| :: items[i].out
  }

  lemma {:induction false} ClassifiedAllKeys(tables: Tables, key: string, ck: string, tk: string, pp: bool, items: seq<Item>)
    requires Consultable(tables, key, ck)
    ensures WriteKeys(ClassifiedAll(tables, key, ck, tk, pp, items)) <= Outs(items)
    decreases |items|
  {
    if items != [] {
      var init := items[..|items| - 1];
      ClassifiedAllKeys(tables, key, ck, tk, pp, init);
      WriteKeysAppend(ClassifiedAll(tables, key, ck, tk, pp, init), Classified(tables, key, ck, tk, pp, items[|items| - 1]));
      assert Outs(init) <= Outs(items) by {
        forall x | x in Outs(init) ensures x in Outs(items) {
          var i :| 0 <= i < |init| && init[i].out == x;
          assert items[i].out == x;
        }
      }
      assert items[|items| - 1].out in Outs(items);
    }
  }

  /** The tables every instrument can be looked up in without the source raising. */
  predicate WellFormed(tables: Tables) {
    Consultable(tables, "wisc", "classificacoes_pp") && Consultable(tables, "ravlt", "")
    && Consultable(tables, "bpa", "") && Consultable(tables, "fdt", "")
    && Consultable(tables, "srs", "") && Consultable(tables, "etdah", "")
    && Consultable(tables, "cars", "") && Consultable(tables, "neupsilin", "")
  }

  /** The numbers among the raw values, in order: `[x for x in map(_to_number, raws) if x is not None]`. */
  function PresentScores(raws: seq<Value>): (r: seq<real>)
    ensures r == [] <==> forall i :: 0 <= i < |raws| ==> ToNumber(raws[i]).None?
    decreases |raws|
  {
    if raws == [] then []
    else
      var init := PresentScores(raws[..|raws| - 1]);
      assert forall i :: 0 <= i < |raws| - 1 ==> raws[..|raws| - 1][i] == raws[i];
      match ToNumber(raws[|raws| - 1])
      case None => init
      case Some(x) => init + [x]
  }

  // WISC

  function WiscScore(source: Payload, prefix: string): Option<real> {
    ToNumber(Get(source, prefix + "_WISC"))
  }

  function WiscComponents(source: Payload): seq<real> {
    PresentScores([Get(source, "ICV_WISC"), Get(source, "IOP_WISC"), Get(source, "IMO_WISC"), Get(source, "IVP_WISC")])
  }

  /** The QIT score, or the mean of the present index scores when it is missing. */
  function QitScore(source: Payload): Option<real> {
    if WiscScore(source, "QIT").Some? then WiscScore(source, "QIT")
    else if WiscComponents(source) == [] then None
    else Some(Mean(WiscComponents(source)))
  }

  function CompositeWrites(source: Payload): seq<Write> {
    if WiscScore(source, "QIT").None? && WiscComponents(source) != []
    then [SetIfAbsent("QIT_WISC", VInt(RoundHalfEven(Mean(WiscComponents(source)))))]
    else []
  }

  /** Each WISC index: its prefix, its classification field and its sentence field. */
  const WiscIndexes: seq<(string, string, string)> := [
    ("QIT", "QIT_out", "QIT_conclusao"), ("ICV", "ICV_out", "ICV_text_out"),
    ("IOP", "IOP_out", "IOP_text_out"), ("IMO", "IMO_out", "IMO_text_out"),
    ("IVP", "IVP_out", "IVP_text_out")]

  function IndexScore(source: Payload, prefix: string): Option<real> {
    if prefix == "QIT" then QitScore(source) else WiscScore(source, prefix)
  }

  function IndexWrite(tables: Tables, source: Payload, index: (string, string, string)): seq<Write>
    requires Consultable(tables, "wisc", "classificacoes_pp")
  {
    match IndexScore(source, index.0)
    case None => []
    case Some(score) => ScoredIndex(tables, index, score)
  }

  /** The writes of an index whose score is known. */
  function ScoredIndex(tables: Tables, index: (string, string, string), score: real): seq<Write>
    requires Consultable(tables, "wisc", "classificacoes_pp")
  {
    match Classify(tables, "wisc", score, "classificacoes_pp", "", true)
    case None => []
    case Some(c) => IndexList(index.1, index.2, c, BuildWiscText(tables, index.0, c))
  }

  function IndexList(outField: string, textField: string, c: string, descriptive: Option<string>): seq<Write> {
    [Store(outField, VStr(c))] + if descriptive.Some? then [Store(textField, VStr(descriptive.value))] else []
  }

  /** Performing one index's writes: the classification, then the sentence when there is one. */
  lemma {:induction false} IndexListSteps(t: Payload, outField: string, textField: string, c: string, descriptive: Option<string>)
    ensures Perform(t, IndexList(outField, textField, c, descriptive)) ==
      var t1 := StoreIfEmpty(t, outField, VStr(c));
      if descriptive.Some? then StoreIfEmpty(t1, textField, VStr(descriptive.value)) else t1
  {
    var first := Store(outField, VStr(c));
    PerformOne(t, first);
    if descriptive.Some? {
      var ws := IndexList(outField, textField, c, descriptive);
      assert ws[..1] == [first];
    }
  }

  function IndexWrites(tables: Tables, source: Payload, indexes: seq<(string, string, string)>): seq<Write>
    requires Consultable(tables, "wisc", "classificacoes_pp")
    decreases |indexes|
  {
    if indexes == [] then []
    else IndexWrites(tables, source, indexes[..|indexes| - 1]) + IndexWrite(tables, source, indexes[|indexes| - 1])
  }

  function IndexFields(indexes: seq<(string, string, string)>): set<string> {
    (set i | 0 <= i < |indexes| :: indexes[i].1) + (set i | 0 <= i < |indexes| :: indexes[i].2)
  }

  lemma {:induction false} IndexWritesKeys(tables: Tables, source: Payload, indexes: seq<(string, string, string)>)
    requires Consultable(tables, "wisc", "classificacoes_pp")
    ensures WriteKeys(IndexWrites(tables, source, indexes)) <= IndexFields(indexes)
    decreases |indexes|
  {
    if indexes != [] {
      var init := indexes[..|indexes| - 1];
      var last := indexes[|indexes| - 1];
      IndexWritesKeys(tables, source, init);
      IndexWriteKeys(tables, source, last);
      WriteKeysAppend(IndexWrites(tables, source, init), IndexWrite(tables, source, last));
      assert IndexFields(init) <= IndexFields(indexes) by {
        forall x | x in IndexFields(init) ensures x in IndexFields(indexes) {
          if x in (set i | 0 <= i < |init| :: init[i].1) {
            var i :| 0 <= i < |init| && init[i].1 == x;
            assert indexes[i].1 == x;
          } else {
            var i :| 0 <= i < |init| && init[i].2 == x;
            assert indexes[i].2 == x;
          }
        }
      }
      assert last.1 in IndexFields(indexes) && last.2 in IndexFields(indexes);
    }
  }

  lemma {:induction false} IndexWriteKeys(tables: Tables, source: Payload, index: (string, string, string))
    requires Consultable(tables, "wisc", "classificacoes_pp")
    ensures WriteKeys(IndexWrite(tables, source, index)) <= {index.1, index.2}
  {
    match IndexScore(source, index.0)
    case None =>
    case Some(score) =>
      match Classify(tables, "wisc", score, "classificacoes_pp", "", true)
      case None =>
      case Some(c) => IndexListKeys(index.1, index.2, c, BuildWiscText(tables, index.0, c));
  }

  lemma {:induction false} IndexListKeys(outField: string, textField: string, c: string, descriptive: Option<string>)
    ensures WriteKeys(IndexList(outField, textField, c, descriptive)) <= {outField, textField}
  {
    var ws := IndexList(outField, textField, c, descriptive);
    assert |ws| <= 2 && ws[0].key == outField && (|ws| == 2 ==> ws[1].key == textField);
  }

  function WiscSubtests(source: Payload): seq<Item> {
    [Item(Get(source, "DIGS_WISC"), "DIGS_out"), Item(Get(source, "SNL_WISC"), "SNL_out"),
     Item(Get(source, "ARIT_WISC"), "ARIT_out"), Item(Get(source, "SEME_WISC"), "SEME_out"),
     Item(Get(source, "RV_WISC"), "RV_out"), Item(Get(source, "RNV_WISC"), "RNV_out"),
     Item(Get(source, "CUBE_WISC"), "CUBE_out"), Item(Get(source, "VP_WISC"), "VP_out")]
  }

  /** `_apply_wisc` */
  function WiscWrites(tables: Tables, source: Payload): seq<Write>
    requires WellFormed(tables)
  {
    if "wisc" !in tables then []
    else
      CompositeWrites(source) + IndexWrites(tables, source, WiscIndexes)
      + ClassifiedAll(tables, "wisc", "classificacoes_pp", "", true, WiscSubtests(source))
  }

  // RAVLT, FDT, ETDAH, CARS, NEUPSILIN: classify and store, item by item.

  function RavltItems(source: Payload): seq<Item> {
    [Item(Get(source, "IP_RAVLT"), "IP_out"), Item(Get(source, "IR_RAVLT"), "IR_out"),
     Item(Get(source, "VE_RAVLT"), "VE_out"), Item(Get(source, "ETM_RAVLT"), "ETM_out"),
     Item(Get(source, "ALT_RAVLT"), "ALT_out")]
  }

  function FdtItems(source: Payload): seq<Item> {
    [Item(Get(source, "CI_FDT"), "CI_out"), Item(Get(source, "FC_FDT"), "FC_out")]
  }

  /** TOTAL_ETDAH, or the misspelt TOTAL_ETADH some templates use when that is missing or None. */
  function EtdahTotal(source: Payload): Value {
    if Get(source, "TOTAL_ETDAH").VNone? then Get(source, "TOTAL_ETADH") else Get(source, "TOTAL_ETDAH")
  }

  function EtdahItems(source: Payload): seq<Item> {
    [Item(Get(source, "F1_ETDAH"), "F1_out"), Item(Get(source, "F2_ETDAH"), "F2_out"),
     Item(Get(source, "F3_ETDAH"), "F3_out"), Item(Get(source, "F4_ETDAH"), "F4_out"),
     Item(EtdahTotal(source), "TOTAL_out")]
  }

  function CarsItems(source: Payload): seq<Item> {
    [Item(Get(source, "CARS_PONTUACAO"), "CARS_INTERPRETACAO")]
  }

  function NeupsilinItems(source: Payload): seq<Item> {
    [Item(Get(source, "TASK_NEUP"), "TASK_out")]
  }

  /** `_apply_ravlt`, `_apply_fdt`, `_apply_etdah`, `_apply_cars` and `_apply_neupsilin` */
  function SimpleWrites(tables: Tables, key: string, tk: string, items: seq<Item>): seq<Write>
    requires Consultable(tables, key, "")
  {
    if key !in tables then [] else ClassifiedAll(tables, key, "", tk, false, items)
  }

  // BPA

  function BpaComponents(source: Payload): seq<real> {
    PresentScores([Get(source, "AC_BPA"), Get(source, "AD_BPA"), Get(source, "AA_BPA")])
  }

  /** The general attention score: AG_BPA, or the mean of the present components when it is missing. */
  function BpaGeneral(source: Payload): Option<real> {
    var raw := ToNumber(Get(source, "AG_BPA"));
    if raw.Some? then raw
    else if BpaComponents(source) == [] then None
    else Some(Mean(BpaComponents(source)))
  }

  /** The writes once the general score is classified as c: n is the rounded score, generated whether it is a mean. */
  function GeneralList(c: string, n: int, generated: bool): seq<Write> {
    [Store("AG_conclusao", VStr(c)), Store("AG_out", VStr(c))]
    + (if generated then [SetIfAbsent("AG_BPA", VInt(n))] else [])
    + [SetIfAbsent("AG_pontuacao", VInt(n))]
  }

  function GeneralWrites(tables: Tables, source: Payload): seq<Write>
    requires Consultable(tables, "bpa", "")
  {
    match BpaGeneral(source)
    case None => []
    case Some(p) =>
      match Classify(tables, "bpa", p, "", "", false)
      case None => []
      case Some(c) => GeneralList(c, RoundHalfEven(p), ToNumber(Get(source, "AG_BPA")).None?)
  }

  /** Performing the general-attention writes, step by step. */
  lemma {:induction false} GeneralSteps(t: Payload, c: string, n: int, generated: bool)
    ensures Perform(t, GeneralList(c, n, generated)) ==
      var t1 := StoreIfEmpty(StoreIfEmpty(t, "AG_conclusao", VStr(c)), "AG_out", VStr(c));
      var t2 := if generated && "AG_BPA" !in t1 then t1["AG_BPA" := VInt(n)] else t1;
      if "AG_pontuacao" !in t2 then t2["AG_pontuacao" := VInt(n)] else t2
  {
    var stores := [Store("AG_conclusao", VStr(c)), Store("AG_out", VStr(c))];
    var extra := if generated then [SetIfAbsent("AG_BPA", VInt(n))] else [];
    var last := [SetIfAbsent("AG_pontuacao", VInt(n))];
    assert stores[..1] == [stores[0]];
    PerformOne(t, stores[0]);
    var t1 := Perform(t, stores);
    assert t1 == StoreIfEmpty(StoreIfEmpty(t, "AG_conclusao", VStr(c)), "AG_out", VStr(c));
    PerformOne(t1, SetIfAbsent("AG_BPA", VInt(n)));
    var t2 := Perform(t1, extra);
    PerformOne(t2, last[0]);
    PerformAppend(t, stores, extra);
    PerformAppend(t, stores + extra, last);
  }

  function BpaItems(source: Payload): seq<Item> {
    [Item(Get(source, "AA_BPA"), "AA_out"), Item(Get(source, "AC_BPA"), "AC_out"), Item(Get(source, "AD_BPA"), "AD_out")]
  }

  /** `_apply_bpa` */
  function BpaWrites(tables: Tables, source: Payload): seq<Write>
    requires Consultable(tables, "bpa", "")
  {
    if "bpa" !in tables then []
    else GeneralWrites(tables, source) + ClassifiedAll(tables, "bpa", "", "", false, BpaItems(source))
  }

  // SRS

  /** `_apply_srs`: the band, then the level with its interpretation when there is one. */
  function SrsWrites(tables: Tables, source: Payload): seq<Write>
    requires Consultable(tables, "srs", "")
  {
    if "srs" !in tables then []
    else
      match ToNumber(Get(source, "SRS_ESCORE_TOTAL"))
      case None => []
      case Some(score) =>
        match Classify(tables, "srs", score, "", "", false)
        case None => []
        case Some(c) => SrsList(c, Classify(tables, "srs", score, "", "interpretacao", false))
  }

  /** The SRS writes for band c and the interpretation the table gives, if any. */
  function SrsList(c: string, interpretation: Option<string>): seq<Write> {
    [Store("SRS_ESCORE_T_FAIXA", VStr(c))]
    + if interpretation.Some? && interpretation.value != []
      then [Store("SRS_NIVEL", VStr(c + ": " + interpretation.value)), Store("SRS_INTERPRETACAO", VStr(interpretation.value))]
      else [Store("SRS_NIVEL", VStr(c))]
  }

  /** Performing the SRS writes, step by step. */
  lemma {:induction false} SrsSteps(t: Payload, c: string, interpretation: Option<string>)
    ensures Perform(t, SrsList(c, interpretation)) ==
      var band := StoreIfEmpty(t, "SRS_ESCORE_T_FAIXA", VStr(c));
      if interpretation.Some? && interpretation.value != []
      then StoreIfEmpty(StoreIfEmpty(band, "SRS_NIVEL", VStr(c + ": " + interpretation.value)), "SRS_INTERPRETACAO", VStr(interpretation.value))
      else StoreIfEmpty(band, "SRS_NIVEL", VStr(c))
  {
    var first := Store("SRS_ESCORE_T_FAIXA", VStr(c));
    var band := StoreIfEmpty(t, "SRS_ESCORE_T_FAIXA", VStr(c));
    PerformOne(t, first);
    var rest := SrsList(c, interpretation)[1..];
    assert SrsList(c, interpretation) == [first] + rest;
    if interpretation.Some? && interpretation.value != [] {
      assert rest[..1] == [rest[0]];
      PerformOne(band, rest[0]);
    } else {
      PerformOne(band, rest[0]);
    }
    PerformAppend(t, [first], rest);
  }

  lemma {:induction false} SrsListKeys(c: string, interpretation: Option<string>)
    ensures WriteKeys(SrsList(c, interpretation)) <= {"SRS_ESCORE_T_FAIXA", "SRS_NIVEL", "SRS_INTERPRETACAO"}
  {
    var srs := SrsList(c, interpretation);
    forall k | k in WriteKeys(srs) ensures k in {"SRS_ESCORE_T_FAIXA", "SRS_NIVEL", "SRS_INTERPRETACAO"} {
      var i :| 0 <= i < |srs| && srs[i].key == k;
    }
  }

  /** The writes of the instruments applied after BPA: FDT, SRS, ETDAH, CARS, NEUPSILIN. */
  function AfterBpa(tables: Tables, source: Payload): seq<Write>
    requires WellFormed(tables)
  {
    SimpleWrites(tables, "fdt", "", FdtItems(source))
    + (SrsWrites(tables, source)
    + (SimpleWrites(tables, "etdah", "", EtdahItems(source))
    + (SimpleWrites(tables, "cars", "interpretacao", CarsItems(source))
    + SimpleWrites(tables, "neupsilin", "", NeupsilinItems(source)))))
  }

  /** The writes of RAVLT and everything after it. */
  function AfterWisc(tables: Tables, source: Payload): seq<Write>
    requires WellFormed(tables)
  {
    SimpleWrites(tables, "ravlt", "", RavltItems(source)) + (BpaWrites(tables, source) + AfterBpa(tables, source))
  }

  /** Every write of `classify_results`, in the order the instruments are applied. */
  function AllWrites(tables: Tables, source: Payload): seq<Write>
    requires WellFormed(tables)
  {
    WiscWrites(tables, source) + AfterWisc(tables, source)
  }

  /** `classify_results`: an empty dictionary comes back as it is; any other is enriched. */
  function ClassifiedResults(tables: Tables, results: Payload): Payload
    requires WellFormed(tables)
  {
    if results == map[] then results else Perform(results, AllWrites(tables, results))
  }

  // The keys each instrument may write.

  const WiscOutputs: set<string> := {
    "QIT_WISC", "QIT_out", "QIT_conclusao", "ICV_out", "ICV_text_out", "IOP_out", "IOP_text_out",
    "IMO_out", "IMO_text_out", "IVP_out", "IVP_text_out", "DIGS_out", "SNL_out", "ARIT_out",
    "SEME_out", "RV_out", "RNV_out", "CUBE_out", "VP_out"}

  const RavltOutputs: set<string> := {"IP_out", "IR_out", "VE_out", "ETM_out", "ALT_out"}

  const BpaOutputs: set<string> := {"AG_conclusao", "AG_out", "AG_BPA", "AG_pontuacao", "AA_out", "AC_out", "AD_out"}

  /** The keys written by FDT, SRS, ETDAH, CARS and NEUPSILIN. */
  const LaterOutputs: set<string> := {
    "CI_out", "FC_out", "SRS_ESCORE_T_FAIXA", "SRS_NIVEL", "SRS_INTERPRETACAO",
    "F1_out", "F2_out", "F3_out", "F4_out", "TOTAL_out", "CARS_INTERPRETACAO", "TASK_out"}

  /** Every key `classify_results` may add or change. */
  const OutputKeys: set<string> := WiscOutputs + RavltOutputs + BpaOutputs + LaterOutputs

  lemma {:induction false} SimpleWritesKeys(tables: Tables, key: string, tk: string, items: seq<Item>, outputs: set<string>)
    requires Consultable(tables, key, "")
    requires forall i :: 0 <= i < |items| ==> items[i].out in outputs
    ensures WriteKeys(SimpleWrites(tables, key, tk, items)) <= outputs
  {
    if key in tables {
      ClassifiedAllKeys(tables, key, "", tk, false, items);
    }
  }

  /** The index and subtest fields of WISC. */
  lemma {:induction false} WiscDerivedKeys(tables: Tables, source: Payload)
    requires WellFormed(tables)
    ensures WriteKeys(IndexWrites(tables, source, WiscIndexes)
      + ClassifiedAll(tables, "wisc", "classificacoes_pp", "", true, WiscSubtests(source))) <= WiscOutputs - {"QIT_WISC"}
  {
    var b := IndexWrites(tables, source, WiscIndexes);
    var c := ClassifiedAll(tables, "wisc", "classificacoes_pp", "", true, WiscSubtests(source));
    IndexWritesKeys(tables, source, WiscIndexes);
    IndexFieldsInWisc();
    ClassifiedAllKeys(tables, "wisc", "classificacoes_pp", "", true, WiscSubtests(source));
    SubtestsInWisc(source);
    WriteKeysAppend(b, c);
  }

  lemma {:induction false} IndexFieldsInWisc()
    ensures IndexFields(WiscIndexes) <= WiscOutputs - {"QIT_WISC"}
  {
    forall x | x in IndexFields(WiscIndexes) ensures x in WiscOutputs - {"QIT_WISC"} {
      var i :| 0 <= i < |WiscIndexes| && (WiscIndexes[i].1 == x || WiscIndexes[i].2 == x);
    }
  }

  lemma {:induction false} SubtestsInWisc(source: Payload)
    ensures Outs(WiscSubtests(source)) <= WiscOutputs - {"QIT_WISC"}
  {
  }

  lemma {:induction false} WiscWritesKeys(tables: Tables, source: Payload)
    requires WellFormed(tables)
    ensures WriteKeys(WiscWrites(tables, source)) <= WiscOutputs
  {
    if "wisc" in tables {
      WiscDerivedKeys(tables, source);
      CompositeKeys(source);
      QitInWisc();
      ThreeKeys(CompositeWrites(source), IndexWrites(tables, source, WiscIndexes),
        ClassifiedAll(tables, "wisc", "classificacoes_pp", "", true, WiscSubtests(source)), WiscOutputs, "QIT_WISC");
    }
  }

  /** Writes naming only q, then writes naming other keys of w, name only keys of w. */
  lemma {:induction false} ThreeKeys(a: seq<Write>, b: seq<Write>, c: seq<Write>, w: set<string>, q: string)
    requires WriteKeys(a) <= {q} && WriteKeys(b + c) <= w - {q} && q in w
    ensures WriteKeys(a + b + c) <= w
  {
    assert a + b + c == a + (b + c);
    WriteKeysAppend(a, b + c);
  }

  lemma {:induction false} CompositeKeys(source: Payload)
    ensures WriteKeys(CompositeWrites(source)) <= {"QIT_WISC"}
  {
    var a := CompositeWrites(source);
    forall k | k in WriteKeys(a) ensures k == "QIT_WISC" {
      var i :| 0 <= i < |a| && a[i].key == k;
    }
  }

  lemma {:induction false} QitInWisc()
    ensures "QIT_WISC" in WiscOutputs
  {
  }

  lemma {:induction false} BpaWritesKeys(tables: Tables, source: Payload)
    requires WellFormed(tables)
    ensures WriteKeys(GeneralWrites(tables, source)) <= {"AG_conclusao", "AG_out", "AG_BPA", "AG_pontuacao"}
    ensures WriteKeys(ClassifiedAll(tables, "bpa", "", "", false, BpaItems(source))) <= {"AA_out", "AC_out", "AD_out"}
    ensures WriteKeys(BpaWrites(tables, source)) <= BpaOutputs
  {
    var g := GeneralWrites(tables, source);
    GeneralWritesKeys(tables, source);
    ClassifiedAllKeys(tables, "bpa", "", "", false, BpaItems(source));
    assert Outs(BpaItems(source)) <= {"AA_out", "AC_out", "AD_out"};
    WriteKeysAppend(g, ClassifiedAll(tables, "bpa", "", "", false, BpaItems(source)));
  }

  lemma {:induction false} GeneralWritesKeys(tables: Tables, source: Payload)
    requires Consultable(tables, "bpa", "")
    ensures WriteKeys(GeneralWrites(tables, source)) <= {"AG_conclusao", "AG_out", "AG_BPA", "AG_pontuacao"}
  {
    match BpaGeneral(source)
    case None =>
    case Some(p) =>
      match Classify(tables, "bpa", p, "", "", false)
      case None =>
      case Some(c) =>
        GeneralListKeys(c, RoundHalfEven(p), ToNumber(Get(source, "AG_BPA")).None?);
  }

  lemma {:induction false} GeneralListKeys(c: string, n: int, generated: bool)
    ensures WriteKeys(GeneralList(c, n, generated)) <= {"AG_conclusao", "AG_out", "AG_BPA", "AG_pontuacao"}
  {
    var g := GeneralList(c, n, generated);
    forall k | k in WriteKeys(g) ensures k in {"AG_conclusao", "AG_out", "AG_BPA", "AG_pontuacao"} {
      var i :| 0 <= i < |g| && g[i].key == k;
    }
  }

  lemma {:induction false} SrsWritesKeys(tables: Tables, source: Payload)
    requires Consultable(tables, "srs", "")
    ensures WriteKeys(SrsWrites(tables, source)) <= {"SRS_ESCORE_T_FAIXA", "SRS_NIVEL", "SRS_INTERPRETACAO"}
  {
    if "srs" in tables {
      match ToNumber(Get(source, "SRS_ESCORE_TOTAL"))
      case None =>
      case Some(score) =>
        match Classify(tables, "srs", score, "", "", false)
        case None =>
        case Some(c) => SrsListKeys(c, Classify(tables, "srs", score, "", "interpretacao", false));
    }
  }

  lemma {:induction false} AfterBpaKeys(tables: Tables, source: Payload)
    requires WellFormed(tables)
    ensures WriteKeys(AfterBpa(tables, source)) <= LaterOutputs
  {
    var fdt := SimpleWrites(tables, "fdt", "", FdtItems(source));
    var srs := SrsWrites(tables, source);
    var etdah := SimpleWrites(tables, "etdah", "", EtdahItems(source));
    var cars := SimpleWrites(tables, "cars", "interpretacao", CarsItems(source));
    var neupsilin := SimpleWrites(tables, "neupsilin", "", NeupsilinItems(source));
    SimpleWritesKeys(tables, "fdt", "", FdtItems(source), LaterOutputs);
    SrsWritesKeys(tables, source);
    assert {"SRS_ESCORE_T_FAIXA", "SRS_NIVEL", "SRS_INTERPRETACAO"} <= LaterOutputs;
    SimpleWritesKeys(tables, "etdah", "", EtdahItems(source), LaterOutputs);
    SimpleWritesKeys(tables, "cars", "interpretacao", CarsItems(source), LaterOutputs);
    SimpleWritesKeys(tables, "neupsilin", "", NeupsilinItems(source), LaterOutputs);
    WriteKeysAppend(cars, neupsilin);
    WriteKeysAppend(etdah, cars + neupsilin);
    WriteKeysAppend(srs, etdah + (cars + neupsilin));
    WriteKeysAppend(fdt, srs + (etdah + (cars + neupsilin)));
  }

  lemma {:induction false} AfterWiscKeys(tables: Tables, source: Payload)
    requires WellFormed(tables)
    ensures WriteKeys(AfterWisc(tables, source)) <= RavltOutputs + BpaOutputs + LaterOutputs
  {
    SimpleWritesKeys(tables, "ravlt", "", RavltItems(source), RavltOutputs);
    BpaWritesKeys(tables, source);
    AfterBpaKeys(tables, source);
    WriteKeysAppend(BpaWrites(tables, source), AfterBpa(tables, source));
    WriteKeysAppend(SimpleWrites(tables, "ravlt", "", RavltItems(source)), BpaWrites(tables, source) + AfterBpa(tables, source));
  }

  // Laws of classify_results.

  /** Every input key survives, and every value that is neither None nor a blank string is kept. */
  lemma {:induction false} InputValuesKept(tables: Tables, results: Payload)
    requires WellFormed(tables)
    ensures Keeps(results, ClassifiedResults(tables, results))
  {
    if results != map[] {
      PerformKeeps(results, AllWrites(tables, results));
    }
  }

  /** Only the derived keys are ever added or changed. */
  lemma {:induction false} OnlyDerivedKeysWritten(tables: Tables, results: Payload, k: string)
    requires WellFormed(tables) && k !in OutputKeys
    ensures var r := ClassifiedResults(tables, results);
      (k in r <==> k in results) && Get(r, k) == Get(results, k)
  {
    if results != map[] {
      WiscWritesKeys(tables, results);
      AfterWiscKeys(tables, results);
      WriteKeysAppend(WiscWrites(tables, results), AfterWisc(tables, results));
      PerformElsewhere(results, AllWrites(tables, results), k);
    }
  }

  /** A value other than None is the value of a key of the dictionary. */
  lemma {:induction false} PresentKey(d: Payload, k: string)
    requires !Get(d, k).VNone?
    ensures d != map[]
  {
    assert k in d;
  }

  /** Some index score is present, so the dictionary is not empty. */
  lemma {:induction false} ComponentsNotEmpty(results: Payload)
    requires WiscComponents(results) != []
    ensures results != map[]
  {
    var raws := [Get(results, "ICV_WISC"), Get(results, "IOP_WISC"), Get(results, "IMO_WISC"), Get(results, "IVP_WISC")];
    var i :| 0 <= i < |raws| && ToNumber(raws[i]).Some?;
    PresentKey(results, ["ICV_WISC", "IOP_WISC", "IMO_WISC", "IVP_WISC"][i]);
  }

  /** A key set first and named by no later write keeps the value it was set to. */
  lemma {:induction false} FirstSetSurvives(t: Payload, k: string, v: Value, rest: seq<Write>)
    requires k !in t && k !in WriteKeys(rest)
    ensures var r := Perform(t, [SetIfAbsent(k, v)] + rest); k in r && r[k] == v
  {
    PerformAppend(t, [SetIfAbsent(k, v)], rest);
    assert Perform(t, [SetIfAbsent(k, v)]) == t[k := v];
    PerformElsewhere(Perform(t, [SetIfAbsent(k, v)]), rest, k);
  }

  /** After the composite, no write of classify_results names QIT_WISC. */
  lemma {:induction false} QitWiscWrittenOnce(tables: Tables, results: Payload)
    requires WellFormed(tables)
    ensures "QIT_WISC" !in WriteKeys(IndexWrites(tables, results, WiscIndexes)
      + ClassifiedAll(tables, "wisc", "classificacoes_pp", "", true, WiscSubtests(results)) + AfterWisc(tables, results))
  {
    var rest := IndexWrites(tables, results, WiscIndexes)
      + ClassifiedAll(tables, "wisc", "classificacoes_pp", "", true, WiscSubtests(results));
    WiscDerivedKeys(tables, results);
    AfterWiscKeys(tables, results);
    WriteKeysAppend(rest, AfterWisc(tables, results));
    QitNotLater();
  }

  lemma {:induction false} QitNotLater()
    ensures "QIT_WISC" !in RavltOutputs + BpaOutputs + LaterOutputs
  {
  }

  /**
   * With no QIT score but some index scores, QIT_WISC, when absent, becomes
   * the rounded mean of the index scores.
   */
  lemma {:induction false} WiscCompositeIsMean(tables: Tables, results: Payload)
    requires WellFormed(tables) && "wisc" in tables
    requires WiscScore(results, "QIT").None? && WiscComponents(results) != [] && "QIT_WISC" !in results
    ensures var r := ClassifiedResults(tables, results);
      "QIT_WISC" in r && r["QIT_WISC"] == VInt(RoundHalfEven(Mean(WiscComponents(results))))
  {
    ComponentsNotEmpty(results);
    var v := VInt(RoundHalfEven(Mean(WiscComponents(results))));
    var rest := IndexWrites(tables, results, WiscIndexes)
      + ClassifiedAll(tables, "wisc", "classificacoes_pp", "", true, WiscSubtests(results));
    CompositeFirst(tables, results);
    QitWiscWrittenOnce(tables, results);
    FirstSetSurvives(results, "QIT_WISC", v, rest + AfterWisc(tables, results));
  }

  lemma {:induction false} CompositeFirst(tables: Tables, results: Payload)
    requires WellFormed(tables) && "wisc" in tables
    requires WiscScore(results, "QIT").None? && WiscComponents(results) != []
    ensures AllWrites(tables, results) ==
      [SetIfAbsent("QIT_WISC", VInt(RoundHalfEven(Mean(WiscComponents(results)))))]
      + (IndexWrites(tables, results, WiscIndexes)
        + ClassifiedAll(tables, "wisc", "classificacoes_pp", "", true, WiscSubtests(results))
        + AfterWisc(tables, results))
  {
  }

  /** What the general-attention writes leave under the four AG keys. */
  lemma {:induction false} GeneralEffect(t: Payload, c: string, n: int, generated: bool)
    ensures var r := Perform(t, GeneralList(c, n, generated));
      (Blank(Get(t, "AG_conclusao")) ==> "AG_conclusao" in r && r["AG_conclusao"] == VStr(c))
      && (Blank(Get(t, "AG_out")) ==> "AG_out" in r && r["AG_out"] == VStr(c))
      && ("AG_pontuacao" !in t ==> "AG_pontuacao" in r && r["AG_pontuacao"] == VInt(n))
      && (generated && "AG_BPA" !in t ==> "AG_BPA" in r && r["AG_BPA"] == VInt(n))
  {
    GeneralSteps(t, c, n, generated);
  }

  /** The general-attention score is present, so the dictionary is not empty. */
  lemma {:induction false} GeneralNotEmpty(results: Payload)
    requires BpaGeneral(results).Some?
    ensures results != map[]
  {
    if !Get(results, "AG_BPA").VNone? {
      PresentKey(results, "AG_BPA");
    } else if !Get(results, "AC_BPA").VNone? {
      PresentKey(results, "AC_BPA");
    } else if !Get(results, "AD_BPA").VNone? {
      PresentKey(results, "AD_BPA");
    } else if !Get(results, "AA_BPA").VNone? {
      PresentKey(results, "AA_BPA");
    } else {
      assert false;
    }
  }

  const AgKeys: set<string> := {"AG_conclusao", "AG_out", "AG_BPA", "AG_pontuacao"}

  /** The writes before BPA's name no AG key. */
  lemma {:induction false} BeforeBpaKeys(tables: Tables, results: Payload)
    requires WellFormed(tables)
    ensures WriteKeys(WiscWrites(tables, results) + SimpleWrites(tables, "ravlt", "", RavltItems(results))) !! AgKeys
  {
    WiscWritesKeys(tables, results);
    SimpleWritesKeys(tables, "ravlt", "", RavltItems(results), RavltOutputs);
    WriteKeysAppend(WiscWrites(tables, results), SimpleWrites(tables, "ravlt", "", RavltItems(results)));
    assert WiscOutputs !! AgKeys;
    assert RavltOutputs !! AgKeys;
  }

  /** The writes after BPA's general-attention writes name no AG key. */
  lemma {:induction false} AfterGeneralKeys(tables: Tables, results: Payload)
    requires WellFormed(tables)
    ensures WriteKeys(ClassifiedAll(tables, "bpa", "", "", false, BpaItems(results)) + AfterBpa(tables, results)) !! AgKeys
  {
    BpaWritesKeys(tables, results);
    AfterBpaKeys(tables, results);
    WriteKeysAppend(ClassifiedAll(tables, "bpa", "", "", false, BpaItems(results)), AfterBpa(tables, results));
    assert LaterOutputs !! AgKeys;
  }

  lemma {:induction false} Regroup(w: seq<Write>, r: seq<Write>, g: seq<Write>, i: seq<Write>, a: seq<Write>)
    ensures w + (r + ((g + i) + a)) == (w + r) + g + (i + a)
  {
  }

  /** All writes, cut around BPA's general-attention writes. */
  lemma {:induction false} AroundGeneral(tables: Tables, results: Payload)
    requires WellFormed(tables) && "bpa" in tables
    ensures AllWrites(tables, results) ==
      (WiscWrites(tables, results) + SimpleWrites(tables, "ravlt", "", RavltItems(results)))
      + GeneralWrites(tables, results)
      + (ClassifiedAll(tables, "bpa", "", "", false, BpaItems(results)) + AfterBpa(tables, results))
  {
    Regroup(WiscWrites(tables, results), SimpleWrites(tables, "ravlt", "", RavltItems(results)),
      GeneralWrites(tables, results), ClassifiedAll(tables, "bpa", "", "", false, BpaItems(results)), AfterBpa(tables, results));
  }

  /**
   * When the general attention score (AG_BPA, or the mean of the present
   * components) is classified as c: AG_conclusao and AG_out, if blank, both
   * become c; AG_pontuacao, if absent, becomes the rounded score; and a
   * generated mean is written back to AG_BPA when that key is absent.
   */
  lemma {:induction false} BpaGeneralOutputs(tables: Tables, results: Payload, c: string)
    requires WellFormed(tables) && "bpa" in tables && BpaGeneral(results).Some?
    requires Classify(tables, "bpa", BpaGeneral(results).value, "", "", false) == Some(c)
    ensures var r := ClassifiedResults(tables, results);
      var p := BpaGeneral(results).value;
      (Blank(Get(results, "AG_conclusao")) && Blank(Get(results, "AG_out")) ==>
        "AG_out" in r && "AG_conclusao" in r && r["AG_out"] == r["AG_conclusao"] == VStr(c))
      && ("AG_pontuacao" !in results ==> "AG_pontuacao" in r && r["AG_pontuacao"] == VInt(RoundHalfEven(p)))
      && ("AG_BPA" !in results ==> "AG_BPA" in r && r["AG_BPA"] == VInt(RoundHalfEven(Mean(BpaComponents(results)))))
  {
    GeneralNotEmpty(results);
    var p := BpaGeneral(results).value;
    var before := WiscWrites(tables, results) + SimpleWrites(tables, "ravlt", "", RavltItems(results));
    var after := ClassifiedAll(tables, "bpa", "", "", false, BpaItems(results)) + AfterBpa(tables, results);
    AroundGeneral(tables, results);
    BeforeBpaKeys(tables, results);
    AfterGeneralKeys(tables, results);
    GeneralAmid(results, before, after, c, RoundHalfEven(p), ToNumber(Get(results, "AG_BPA")).None?);
  }

  /** The four AG keys after the general-attention writes, amid writes that do not name them. */
  lemma {:induction false} GeneralAmid(t: Payload, before: seq<Write>, after: seq<Write>, c: string, n: int, generated: bool)
    requires WriteKeys(before) !! AgKeys && WriteKeys(after) !! AgKeys
    ensures var r := Perform(t, before + GeneralList(c, n, generated) + after);
      (Blank(Get(t, "AG_conclusao")) && Blank(Get(t, "AG_out")) ==>
        "AG_out" in r && "AG_conclusao" in r && r["AG_out"] == r["AG_conclusao"] == VStr(c))
      && ("AG_pontuacao" !in t ==> "AG_pontuacao" in r && r["AG_pontuacao"] == VInt(n))
      && (generated && "AG_BPA" !in t ==> "AG_BPA" in r && r["AG_BPA"] == VInt(n))
  {
    var general := GeneralList(c, n, generated);
    Sandwich(t, before, general, after, "AG_conclusao");
    Sandwich(t, before, general, after, "AG_out");
    Sandwich(t, before, general, after, "AG_BPA");
    Sandwich(t, before, general, after, "AG_pontuacao");
    GeneralEffect(Perform(t, before), c, n, generated);
  }

  /** A key that the writes before and after a middle part do not name gets what the middle part gives it. */
  lemma {:induction false} Sandwich(t: Payload, before: seq<Write>, middle: seq<Write>, after: seq<Write>, k: string)
    requires k !in WriteKeys(before) && k !in WriteKeys(after)
    ensures var t1 := Perform(t, before);
      var r := Perform(t, before + middle + after);
      (k in t1 <==> k in t) && Get(t1, k) == Get(t, k)
      && (k in r <==> k in Perform(t1, middle)) && Get(r, k) == Get(Perform(t1, middle), k)
  {
    var t1 := Perform(t, before);
    PerformAppend(t, before, middle);
    PerformAppend(t, before + middle, after);
    PerformElsewhere(t, before, k);
    PerformElsewhere(Perform(t1, middle), after, k);
  }
}
