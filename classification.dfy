/**
 * Interval lookup in a JSON rule table: the specification of
 * `_classify_value`. A table is a JSON object holding rule lists; a rule is a
 * JSON object with optional bounds `faixa_min`/`faixa_max` and optional texts.
 */
module Classification {
  import opened Values
  import opened Numbers
  import ScoreText

  /** The loaded tables, by instrument key. */
  type Tables = map<string, Json>

  type Rule = map<string, Json>

  /** `rule.get(k)` */
  function Field(rule: Rule, k: string): Option<Json> {
    if k in rule then Some(rule[k]) else None
  }

  /** `bool(x)` of an optional JSON value; a missing value is None, which is falsy. */
  predicate Present(j: Option<Json>) {
    j.Some? && JTruthy(j.value)
  }

  /** `float(x)`, None where Python raises TypeError or ValueError. */
  function FloatOf(j: Option<Json>): (r: Option<real>)
    ensures j.None? || j.value.JNull? || j.value.JList? || j.value.JObject? ==> r.None?
    ensures j == Some(JBool(true)) ==> r == Some(1.0)
    ensures j == Some(JBool(false)) ==> r == Some(0.0)
  {
    match j
    case None => None
    case Some(JBool(b)) => Some(if b then 1.0 else 0.0)
    case Some(JNum(n)) => Some(n)
    case Some(JStr(s)) => ParseDecimal(s)
    case Some(_) => None
  }

  /** The bounds of a rule, when both parse as numbers. */
  function Bounds(rule: Rule): Option<(real, real)> {
    match FloatOf(Field(rule, "faixa_min"))
    case None => None
    case Some(lo) =>
      match FloatOf(Field(rule, "faixa_max"))
      case None => None
      case Some(hi) => Some((lo, hi))
  }

  /** The closed interval of the rule contains v. */
  predicate Holds(rule: Rule, v: real) {
    Bounds(rule).Some? && Bounds(rule).value.0 <= v <= Bounds(rule).value.1
  }

  function Min(a: real, b: real): real { if a <= b then a else b }

  function Max(a: real, b: real): real { if a >= b then a else b }

  /**
   * The least lower bound and the greatest upper bound over the rules whose
   * bounds parse; None when no rule's bounds parse.
   */
  function Range(rules: seq<Rule>): (r: Option<(real, real)>)
    ensures r.None? <==> forall j :: 0 <= j < |rules| ==> Bounds(rules[j]).None?
    ensures r.Some? ==> forall j :: 0 <= j < |rules| && Bounds(rules[j]).Some? ==>
      r.value.0 <= Bounds(rules[j]).value.0 && Bounds(rules[j]).value.1 <= r.value.1
    ensures r.Some? ==> exists j :: 0 <= j < |rules| && Bounds(rules[j]).Some? && Bounds(rules[j]).value.0 == r.value.0
    ensures r.Some? ==> exists j :: 0 <= j < |rules| && Bounds(rules[j]).Some? && Bounds(rules[j]).value.1 == r.value.1
    decreases |rules|
  {
    if rules == [] then None
    else
      var prev := Range(rules[..|rules| - 1]);
      var b := Bounds(rules[|rules| - 1]);
      assert forall j :: 0 <= j < |rules| - 1 ==> rules[..|rules| - 1][j] == rules[j];
      if b.None? then prev
      else if prev.None? then b
      else Some((Min(prev.value.0, b.value.0), Max(prev.value.1, b.value.1)))
  }

  /** `max(global_min, min(global_max, value))`, or the value itself when no bounds parse. */
  function Clamp(rules: seq<Rule>, value: real): real {
    match Range(rules)
    case None => value
    case Some((lo, hi)) => Max(lo, Min(hi, value))
  }

  /** The index of the first rule, from i on, whose interval contains v. */
  function FirstFrom(rules: seq<Rule>, v: real, i: nat): (r: Option<nat>)
    requires i <= |rules|
    ensures r.Some? ==> i <= r.value < |rules| && Holds(rules[r.value], v)
    ensures r.Some? ==> forall j :: i <= j < r.value ==> !Holds(rules[j], v)
    ensures r.None? ==> forall j :: i <= j < |rules| ==> !Holds(rules[j], v)
    decreases |rules| - i
  {
    if i == |rules| then None
    else if Holds(rules[i], v) then Some(i)
    else FirstFrom(rules, v, i + 1)
  }

  /**
   * The text of a matched rule: `text_key` (by default "texto"), falling back
   * to "interpretacao" when that is falsy; only a string counts.
   */
  function RuleText(rule: Rule, textKey: string): Option<string> {
    var key := if textKey == [] then "texto" else textKey;
    var text := if !Present(Field(rule, key)) && key != "interpretacao" then Field(rule, "interpretacao") else Field(rule, key);
    if text.Some? && text.value.JStr? then Some(text.value.s) else None
  }

  /** `if chosen and postprocess: chosen = postprocess(chosen)` */
  function Finish(chosen: Option<string>, postprocess: bool): Option<string> {
    if postprocess && chosen.Some? && chosen.value != [] then Some(ScoreText.StripPontuacaoPrefix(chosen.value)) else chosen
  }

  /** The lookup proper: clamp, first containing interval, its text. */
  function Lookup(rules: seq<Rule>, value: real, textKey: string, postprocess: bool): (r: Option<string>)
    ensures r.Some? ==> exists i :: 0 <= i < |rules| && Holds(rules[i], Clamp(rules, value))
  {
    match FirstFrom(rules, Clamp(rules, value), 0)
    case None => None
    case Some(i) => Finish(RuleText(rules[i], textKey), postprocess)
  }

  /** The rule list chosen: `classification_key` when its list is truthy, else "classificacoes" when truthy. */
  function Selected(table: map<string, Json>, classificationKey: string): Option<string> {
    if classificationKey != [] && classificationKey in table && JTruthy(table[classificationKey]) then Some(classificationKey)
    else if "classificacoes" in table && JTruthy(table["classificacoes"]) then Some("classificacoes")
    else None
  }

  predicate IsRuleList(j: Json) {
    j.JList? && forall i :: 0 <= i < |j.items| ==> j.items[i].JObject?
  }

  /**
   * The shape the source needs to look a value up in `tables[key]` without
   * raising: a truthy table is an object whose selected rule list holds objects.
   */
  predicate Consultable(tables: Tables, key: string, classificationKey: string) {
    key in tables && JTruthy(tables[key]) ==>
      tables[key].JObject? &&
      var sel := Selected(tables[key].fields, classificationKey);
      sel.Some? ==> IsRuleList(tables[key].fields[sel.value])
  }

  function RulesOf(j: Json): (rules: seq<Rule>)
    requires IsRuleList(j)
    ensures |rules| == |j.items| && forall i :: 0 <= i < |rules| ==> rules[i] == j.items[i].fields
  {
    seq(|j.items|, i requires 0 <= i < |j.items| => j.items[i].fields)
  }

  /** The rules `_classify_value` scans in `tables[key]`; none when there is no truthy table or list. */
  function TableRules(tables: Tables, key: string, classificationKey: string): seq<Rule>
    requires Consultable(tables, key, classificationKey)
  {
    if key !in tables || !JTruthy(tables[key]) then []
    else
      var sel := Selected(tables[key].fields, classificationKey);
      if sel.None? then [] else RulesOf(tables[key].fields[sel.value])
  }

  /** `_classify_value(key, value, classification_key=..., text_key=..., postprocess=...)` */
  function Classify(tables: Tables, key: string, value: real, classificationKey: string, textKey: string, postprocess: bool): (r: Option<string>)
    requires Consultable(tables, key, classificationKey)
    ensures key !in tables ==> r == None
  {
    Lookup(TableRules(tables, key, classificationKey), value, textKey, postprocess)
  }

  // Properties of the lookup.

  /** With consistent bounds the clamped value lies in the table's range, and a value inside it is kept. */
  lemma {:induction false} ClampWithinRange(rules: seq<Rule>, value: real)
    requires Range(rules).Some? && Range(rules).value.0 <= Range(rules).value.1
    ensures Range(rules).value.0 <= Clamp(rules, value) <= Range(rules).value.1
    ensures Range(rules).value.0 <= value <= Range(rules).value.1 ==> Clamp(rules, value) == value
  {
  }

  /** A value below the range is classified as the least bound, one above it as the greatest. */
  lemma {:induction false} OutOfRangeIsBoundary(rules: seq<Rule>, value: real, textKey: string, postprocess: bool)
    requires Range(rules).Some? && Range(rules).value.0 <= Range(rules).value.1
    ensures value <= Range(rules).value.0 ==>
      Lookup(rules, value, textKey, postprocess) == Lookup(rules, Range(rules).value.0, textKey, postprocess)
    ensures value >= Range(rules).value.1 ==>
      Lookup(rules, value, textKey, postprocess) == Lookup(rules, Range(rules).value.1, textKey, postprocess)
  {
    ClampWithinRange(rules, Range(rules).value.0);
    ClampWithinRange(rules, Range(rules).value.1);
  }

  /**
   * The first rule in declaration order whose interval contains the clamped
   * value decides: a later rule sharing a boundary with it never does.
   */
  lemma {:induction false} FirstContainingRuleDecides(rules: seq<Rule>, value: real, textKey: string, postprocess: bool, i: nat)
    requires i < |rules| && Holds(rules[i], Clamp(rules, value))
    requires forall j :: 0 <= j < i ==> !Holds(rules[j], Clamp(rules, value))
    ensures Lookup(rules, value, textKey, postprocess) == Finish(RuleText(rules[i], textKey), postprocess)
  {
    var r := FirstFrom(rules, Clamp(rules, value), 0);
    assert r.Some? && r.value == i;
  }

  /** A text is only found in a rule whose interval contains the clamped value and that no earlier rule's does. */
  lemma {:induction false} FoundTextComesFromFirstContainingRule(rules: seq<Rule>, value: real, textKey: string, postprocess: bool)
    requires Lookup(rules, value, textKey, postprocess).Some?
    ensures exists i :: (0 <= i < |rules| && Holds(rules[i], Clamp(rules, value))
      && (forall j :: 0 <= j < i ==> !Holds(rules[j], Clamp(rules, value)))
      && RuleText(rules[i], textKey).Some?)
  {
    var i := FirstFrom(rules, Clamp(rules, value), 0).value;
    assert RuleText(rules[i], textKey).Some?;
  }

  /** A value in a gap between the intervals has no classification. */
  lemma {:induction false} GapHasNoClassification(rules: seq<Rule>, value: real, textKey: string, postprocess: bool)
    requires forall j :: 0 <= j < |rules| ==> !Holds(rules[j], Clamp(rules, value))
    ensures Lookup(rules, value, textKey, postprocess) == None
  {
    var r := FirstFrom(rules, Clamp(rules, value), 0);
    assert r == None;
  }

  /** A string under the text key wins; a falsy one gives way to "interpretacao", and a non-string to nothing. */
  lemma {:induction false} TextSelection(rule: Rule, textKey: string)
    ensures var key := if textKey == [] then "texto" else textKey;
      (key in rule && rule[key].JStr? && rule[key].s != [] ==> RuleText(rule, textKey) == Some(rule[key].s))
      && (!Present(Field(rule, key)) && key != "interpretacao" ==>
        RuleText(rule, textKey) == (if "interpretacao" in rule && rule["interpretacao"].JStr? then Some(rule["interpretacao"].s) else None))
      && (Present(Field(rule, key)) && !rule[key].JStr? ==> RuleText(rule, textKey) == None)
  {
  }

  /** Without a truthy table, or without a truthy rule list, there is nothing to classify. */
  lemma {:induction false} NoRulesNoClassification(tables: Tables, key: string, value: real, classificationKey: string, textKey: string, postprocess: bool)
    requires Consultable(tables, key, classificationKey)
    requires key !in tables || !JTruthy(tables[key]) || Selected(tables[key].fields, classificationKey).None?
    ensures Classify(tables, key, value, classificationKey, textKey, postprocess) == None
  {
    assert TableRules(tables, key, classificationKey) == [];
  }

  /** The classification key's list is preferred whenever it is truthy; otherwise "classificacoes" is used. */
  lemma {:induction false} ClassificationKeyPreferred(table: map<string, Json>, classificationKey: string)
    ensures classificationKey != [] && classificationKey in table && JTruthy(table[classificationKey]) ==>
      Selected(table, classificationKey) == Some(classificationKey)
    ensures !(classificationKey != [] && classificationKey in table && JTruthy(table[classificationKey])) ==>
      Selected(table, classificationKey) == Selected(table, "")
  {
  }
}
