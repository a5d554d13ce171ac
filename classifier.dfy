/**
 * TestResultClassifier: enriches a flat dictionary of raw test scores with
 * the classification texts the report templates expect, instrument by
 * instrument, each read from its interval table. The tables are fixed when
 * the classifier is built; the enriched dictionary is a private copy that
 * every step extends.
 */
module Classifier {
  import opened Values
  import opened Numbers
  import opened Classification
  import opened ScoreText
  import opened ResultWrites

  class TestResultClassifier {
    /** The tables the loader returned, by instrument key. */
    const tables: Tables

    constructor (tables: Tables)
      ensures this.tables == tables
    {
      this.tables := tables;
    }

    /**
     * `classify_results`: an empty dictionary is returned as it is; any other
     * is copied and every instrument adds its derived fields to the copy.
     * Every input key survives, and every input value that is neither None
     * nor a blank string is unchanged.
     */
    method ClassifyResults(results: Payload) returns (augmented: Payload)
      requires WellFormed(tables)
      ensures augmented == ClassifiedResults(tables, results)
      ensures results == map[] ==> augmented == results
      ensures Keeps(results, augmented)
    {
      InputValuesKept(tables, results);
      if results == map[] {
        return results;
      }
      augmented := results;
      augmented := ApplyWisc(augmented, results);
      ghost var afterWisc := augmented;
      augmented := ApplyRavlt(augmented, results);
      ghost var afterRavlt := augmented;
      augmented := ApplyBpa(augmented, results);
      ghost var afterBpa := augmented;
      augmented := ApplyFdt(augmented, results);
      ghost var afterFdt := augmented;
      augmented := ApplySrs(augmented, results);
      ghost var afterSrs := augmented;
      augmented := ApplyEtdah(augmented, results);
      ghost var afterEtdah := augmented;
      augmented := ApplyCars(augmented, results);
      ghost var afterCars := augmented;
      augmented := ApplyNeupsilin(augmented, results);
      var cars := SimpleWrites(tables, "cars", "interpretacao", CarsItems(results));
      var neupsilin := SimpleWrites(tables, "neupsilin", "", NeupsilinItems(results));
      var etdah := SimpleWrites(tables, "etdah", "", EtdahItems(results));
      var srs := SrsWrites(tables, results);
      var fdt := SimpleWrites(tables, "fdt", "", FdtItems(results));
      PerformAppend(afterEtdah, cars, neupsilin);
      PerformAppend(afterSrs, etdah, cars + neupsilin);
      PerformAppend(afterFdt, srs, etdah + (cars + neupsilin));
      PerformAppend(afterBpa, fdt, srs + (etdah + (cars + neupsilin)));
      PerformAppend(afterRavlt, BpaWrites(tables, results), AfterBpa(tables, results));
      PerformAppend(afterWisc, SimpleWrites(tables, "ravlt", "", RavltItems(results)), BpaWrites(tables, results) + AfterBpa(tables, results));
      PerformAppend(results, WiscWrites(tables, results), AfterWisc(tables, results));
    }

    /**
     * `_classify_value`: clamps the value into the range of the rule list,
     * then returns the text of the first rule whose closed interval contains
     * it, post-processed when asked to.
     */
    method ClassifyValue(key: string, value: real, classificationKey: string, textKey: string, postprocess: bool)
      returns (chosen: Option<string>)
      requires Consultable(tables, key, classificationKey)
      ensures chosen == Classify(tables, key, value, classificationKey, textKey, postprocess)
    {
      if key !in tables || !JTruthy(tables[key]) {
        return None;
      }
      var table := tables[key].fields;
      var selected := Selected(table, classificationKey);
      if selected.None? {
        return None;
      }
      var rules := RulesOf(table[selected.value]);
      assert rules == TableRules(tables, key, classificationKey);

      var found := false;
      var lo, hi := 0.0, 0.0;
      var i := 0;
      while i < |rules|
        invariant 0 <= i <= |rules|
        invariant Range(rules[..i]) == if found then Some((lo, hi)) else None
      {
        var bounds := Bounds(rules[i]);
        if bounds.Some? {
          if found {
            lo := Min(lo, bounds.value.0);
            hi := Max(hi, bounds.value.1);
          } else {
            lo, hi := bounds.value.0, bounds.value.1;
            found := true;
          }
        }
        assert rules[..i + 1][..i] == rules[..i];
        i := i + 1;
      }
      assert rules[..i] == rules;
      var v := if found then Max(lo, Min(hi, value)) else value;

      chosen := None;
      i := 0;
      while i < |rules|
        invariant 0 <= i <= |rules|
        invariant FirstFrom(rules, v, i) == FirstFrom(rules, v, 0)
        invariant chosen == None
      {
        if Holds(rules[i], v) {
          chosen := RuleText(rules[i], textKey);
          break;
        }
        i := i + 1;
      }
      if postprocess && chosen.Some? && chosen.value != [] {
        chosen := Some(StripPontuacaoPrefix(chosen.value));
      }
    }

    /** Classify each item's raw value and store the classification under its field. */
    method StoreClassifications(target: Payload, key: string, classificationKey: string, textKey: string, postprocess: bool, items: seq<Item>)
      returns (t: Payload)
      requires Consultable(tables, key, classificationKey)
      ensures t == Perform(target, ClassifiedAll(tables, key, classificationKey, textKey, postprocess, items))
    {
      t := target;
      var i := 0;
      while i < |items|
        invariant 0 <= i <= |items|
        invariant t == Perform(target, ClassifiedAll(tables, key, classificationKey, textKey, postprocess, items[..i]))
      {
        t := StoreClassification(t, key, classificationKey, textKey, postprocess, items[i]);
        ClassifiedAllStep(tables, key, classificationKey, textKey, postprocess, items, i);
        PerformAppend(target, ClassifiedAll(tables, key, classificationKey, textKey, postprocess, items[..i]),
          Classified(tables, key, classificationKey, textKey, postprocess, items[i]));
        i := i + 1;
      }
      assert items[..i] == items;
    }

    /** One item: its classification, stored when the field is still empty. */
    method StoreClassification(target: Payload, key: string, classificationKey: string, textKey: string, postprocess: bool, item: Item)
      returns (t: Payload)
      requires Consultable(tables, key, classificationKey)
      ensures t == Perform(target, Classified(tables, key, classificationKey, textKey, postprocess, item))
    {
      t := target;
      var score := ToNumber(item.raw);
      if score.Some? {
        var classification := ClassifyValue(key, score.value, classificationKey, textKey, postprocess);
        if classification.Some? {
          t := StoreIfEmpty(t, item.out, VStr(classification.value));
          PerformOne(target, Store(item.out, VStr(classification.value)));
        }
      }
    }

    /**
     * `_apply_wisc`: the QIT composite from the index means when QIT is
     * missing, then each index's classification and analysis sentence, then
     * the subtests.
     */
    method ApplyWisc(target: Payload, source: Payload) returns (t: Payload)
      requires WellFormed(tables)
      ensures t == Perform(target, WiscWrites(tables, source))
    {
      if "wisc" !in tables {
        return target;
      }
      var qit;
      t, qit := StoreComposite(target, source);
      ghost var composite := t;

      var i := 0;
      while i < |WiscIndexes|
        invariant 0 <= i <= |WiscIndexes|
        invariant t == Perform(composite, IndexWrites(tables, source, WiscIndexes[..i]))
      {
        ghost var before := t;
        t := StoreIndex(t, source, qit, WiscIndexes[i]);
        assert WiscIndexes[..i + 1][..i] == WiscIndexes[..i];
        PerformAppend(composite, IndexWrites(tables, source, WiscIndexes[..i]), IndexWrite(tables, source, WiscIndexes[i]));
        i := i + 1;
      }
      assert WiscIndexes[..i] == WiscIndexes;
      t := StoreClassifications(t, "wisc", "classificacoes_pp", "", true, WiscSubtests(source));
      PerformAppend(target, CompositeWrites(source), IndexWrites(tables, source, WiscIndexes));
      PerformAppend(target, CompositeWrites(source) + IndexWrites(tables, source, WiscIndexes),
        ClassifiedAll(tables, "wisc", "classificacoes_pp", "", true, WiscSubtests(source)));
    }

    /** The QIT composite: the mean of the present index scores, stored when QIT is missing. */
    method StoreComposite(target: Payload, source: Payload) returns (t: Payload, qit: Option<real>)
      ensures qit == QitScore(source)
      ensures t == Perform(target, CompositeWrites(source))
    {
      t := target;
      assert "QIT" + "_WISC" == "QIT_WISC";
      qit := ToNumber(Get(source, "QIT_WISC"));
      if qit.None? {
        var components := PresentScores([Get(source, "ICV_WISC"), Get(source, "IOP_WISC"), Get(source, "IMO_WISC"), Get(source, "IVP_WISC")]);
        if components != [] {
          qit := Some(Mean(components));
          if "QIT_WISC" !in t {
            t := t["QIT_WISC" := VInt(RoundHalfEven(qit.value))];
          }
          PerformOne(target, SetIfAbsent("QIT_WISC", VInt(RoundHalfEven(qit.value))));
        }
      }
    }

    /** One WISC index: its classification, then its analysis sentence when there is one. */
    method StoreIndex(target: Payload, source: Payload, qit: Option<real>, index: (string, string, string)) returns (t: Payload)
      requires WellFormed(tables) && qit == QitScore(source)
      ensures t == Perform(target, IndexWrite(tables, source, index))
    {
      var prefix := index.0;
      var score := if prefix == "QIT" then qit else ToNumber(Get(source, prefix + "_WISC"));
      assert score == IndexScore(source, prefix);
      if score.None? {
        return target;
      }
      t := StoreScoredIndex(target, index, score.value);
    }

    /** Classify an index score; store the classification and the analysis sentence. */
    method StoreScoredIndex(target: Payload, index: (string, string, string), score: real) returns (t: Payload)
      requires WellFormed(tables)
      ensures t == Perform(target, ScoredIndex(tables, index, score))
    {
      var classification := ClassifyValue("wisc", score, "classificacoes_pp", "", true);
      if classification.None? {
        return target;
      }
      t := StoreIfEmpty(target, index.1, VStr(classification.value));
      var descriptive := BuildWiscText(tables, index.0, classification.value);
      if descriptive.Some? {
        t := StoreIfEmpty(t, index.2, VStr(descriptive.value));
      }
      IndexListSteps(target, index.1, index.2, classification.value, descriptive);
    }

    /** `_apply_ravlt`: the five RAVLT percentiles. */
    method ApplyRavlt(target: Payload, source: Payload) returns (t: Payload)
      requires WellFormed(tables)
      ensures t == Perform(target, SimpleWrites(tables, "ravlt", "", RavltItems(source)))
    {
      if "ravlt" !in tables {
        return target;
      }
      t := StoreClassifications(target, "ravlt", "", "", false, RavltItems(source));
    }

    /**
     * `_apply_bpa`: the general attention score, generated as the mean of
     * the present components when missing, classified into AG_conclusao and
     * AG_out with its rounded score kept in AG_pontuacao; then the three
     * components. (The score is always a float and its raw value never None
     * at that point, so AG_pontuacao is always the rounded score.)
     */
    method ApplyBpa(target: Payload, source: Payload) returns (t: Payload)
      requires WellFormed(tables)
      ensures t == Perform(target, BpaWrites(tables, source))
    {
      if "bpa" !in tables {
        return target;
      }
      t := StoreGeneral(target, source);
      ghost var afterGeneral := t;
      t := StoreClassifications(t, "bpa", "", "", false, BpaItems(source));
      PerformAppend(target, GeneralWrites(tables, source), ClassifiedAll(tables, "bpa", "", "", false, BpaItems(source)));
    }

    /** The general attention score and its classification. */
    method StoreGeneral(target: Payload, source: Payload) returns (t: Payload)
      requires WellFormed(tables)
      ensures t == Perform(target, GeneralWrites(tables, source))
    {
      t := target;
      var general := ToNumber(Get(source, "AG_BPA"));
      var generated := false;
      if general.None? {
        var components := PresentScores([Get(source, "AC_BPA"), Get(source, "AD_BPA"), Get(source, "AA_BPA")]);
        if components != [] {
          general := Some(Mean(components));
          generated := true;
        }
      }
      assert general == BpaGeneral(source);
      if general.Some? {
        var classification := ClassifyValue("bpa", general.value, "", "", false);
        if classification.Some? {
          var c := classification.value;
          var n := RoundHalfEven(general.value);
          t := StoreIfEmpty(t, "AG_conclusao", VStr(c));
          t := StoreIfEmpty(t, "AG_out", VStr(c));
          if generated && "AG_BPA" !in t {
            t := t["AG_BPA" := VInt(n)];
          }
          if "AG_pontuacao" !in t {
            t := t["AG_pontuacao" := VInt(n)];
          }
          assert generated == ToNumber(Get(source, "AG_BPA")).None?;
          GeneralSteps(target, c, n, generated);
        }
      }
    }

    /** `_apply_fdt`: inhibition and flexibility. */
    method ApplyFdt(target: Payload, source: Payload) returns (t: Payload)
      requires WellFormed(tables)
      ensures t == Perform(target, SimpleWrites(tables, "fdt", "", FdtItems(source)))
    {
      if "fdt" !in tables {
        return target;
      }
      t := StoreClassifications(target, "fdt", "", "", false, FdtItems(source));
    }

    /**
     * `_apply_srs`: the band of the total score, then the level, joined with
     * the interpretation when the table has a non-empty one.
     */
    method ApplySrs(target: Payload, source: Payload) returns (t: Payload)
      requires WellFormed(tables)
      ensures t == Perform(target, SrsWrites(tables, source))
    {
      if "srs" !in tables {
        return target;
      }
      var score := ToNumber(Get(source, "SRS_ESCORE_TOTAL"));
      if score.None? {
        return target;
      }
      var classification := ClassifyValue("srs", score.value, "", "", false);
      if classification.None? {
        return target;
      }
      var c := classification.value;
      t := StoreIfEmpty(target, "SRS_ESCORE_T_FAIXA", VStr(c));
      var interpretation := ClassifyValue("srs", score.value, "", "interpretacao", false);
      if interpretation.Some? && interpretation.value != [] {
        t := StoreIfEmpty(t, "SRS_NIVEL", VStr(c + ": " + interpretation.value));
        t := StoreIfEmpty(t, "SRS_INTERPRETACAO", VStr(interpretation.value));
      } else {
        t := StoreIfEmpty(t, "SRS_NIVEL", VStr(c));
      }
      SrsSteps(target, c, interpretation);
    }

    /** `_apply_etdah`: the four factors and the total, read from TOTAL_ETADH when TOTAL_ETDAH is missing. */
    method ApplyEtdah(target: Payload, source: Payload) returns (t: Payload)
      requires WellFormed(tables)
      ensures t == Perform(target, SimpleWrites(tables, "etdah", "", EtdahItems(source)))
    {
      if "etdah" !in tables {
        return target;
      }
      t := StoreClassifications(target, "etdah", "", "", false, EtdahItems(source));
    }

    /** `_apply_cars`: the total score's interpretation text. */
    method ApplyCars(target: Payload, source: Payload) returns (t: Payload)
      requires WellFormed(tables)
      ensures t == Perform(target, SimpleWrites(tables, "cars", "interpretacao", CarsItems(source)))
    {
      if "cars" !in tables {
        return target;
      }
      ClassifiedSingle(tables, "cars", "", "interpretacao", false, CarsItems(source)[0]);
      var score := ToNumber(Get(source, "CARS_PONTUACAO"));
      if score.None? {
        return target;
      }
      var classification := ClassifyValue("cars", score.value, "", "interpretacao", false);
      if classification.None? {
        return target;
      }
      t := StoreIfEmpty(target, "CARS_INTERPRETACAO", VStr(classification.value));
      PerformOne(target, Store("CARS_INTERPRETACAO", VStr(classification.value)));
    }

    /** `_apply_neupsilin`: the task percentile. */
    method ApplyNeupsilin(target: Payload, source: Payload) returns (t: Payload)
      requires WellFormed(tables)
      ensures t == Perform(target, SimpleWrites(tables, "neupsilin", "", NeupsilinItems(source)))
    {
      if "neupsilin" !in tables {
        return target;
      }
      ClassifiedSingle(tables, "neupsilin", "", "", false, NeupsilinItems(source)[0]);
      var score := ToNumber(Get(source, "TASK_NEUP"));
      if score.None? {
        return target;
      }
      var classification := ClassifyValue("neupsilin", score.value, "", "", false);
      if classification.None? {
        return target;
      }
      t := StoreIfEmpty(target, "TASK_out", VStr(classification.value));
      PerformOne(target, Store("TASK_out", VStr(classification.value)));
    }
  }
}
