/**
 * FieldMapperService: flattens the collected data into one dictionary from
 * placeholder name to text. Group entries are written under their own key
 * and under every alias the translation table lists for it; test results
 * add their aliases only where nothing was written yet; the conclusion is
 * written under two names; custom template fields are written last.
 *
 * A source dictionary is kept as its items in insertion order, because
 * the order decides which of two writes to the same name survives.
 */
module FieldMapper {
  import opened Strings
  import opened Values
  import PatientService

  /** A source dictionary, as its (key, value) items in insertion order. */
  type Group = seq<(string, Value)>

  /** The placeholder names written alongside a key. */
  type Translations = map<string, seq<string>>

  /** The `all_data` dictionary; None for an entry it does not have. */
  datatype AllData = AllData(
    patient: Option<Group>,
    resp1: Option<Group>,
    resp2: Option<Group>,
    tests: Option<Group>,
    conclusion: Option<string>,
    psychologist: Option<Group>,
    templateFields: Option<Group>)

  /** `all_data.get(name, {})` */
  function OrEmpty(g: Option<Group>): Group {
    if g.Some? then g.value else []
  }

  /** `all_data.get("conclusion", "")` */
  function ConclusionOf(d: AllData): string {
    if d.conclusion.Some? then d.conclusion.value else ""
  }

  /** `field_translations`, as the service declares it. */
  const FieldTranslations: Translations := map[
    "patient_name" := ["nome_paciente", "primeiro_nome_paciente"],
    "patient_birth" := ["data_nasc_paciente"],
    "patient_crono_age" := ["idd_paciente"],
    "patient_school" := ["escola_paciente"],
    "patient_class" := ["turma_paciente"],
    "resp1_name" := ["resp1_nome"],
    "resp1_career" := ["resp1_profissao"],
    "resp1_education" := ["resp1_escolaridade"],
    "resp1_age" := ["resp1_idade"],
    "resp2_name" := ["resp2_nome"],
    "resp2_career" := ["resp2_profissao"],
    "resp2_education" := ["resp2_escolaridade"],
    "resp2_age" := ["resp2_idade"],
    "psychologist_name" := ["psico_nome", "nome_psicologo"],
    "psychologist_crp" := ["psico_crp", "crp_psicologo"]]

  /**
   * The table without the first-name alias of the full name, so that the
   * first-name placeholder is left to the first-token rule.
   */
  const CorrectedFieldTranslations: Translations := FieldTranslations["patient_name" := ["nome_paciente"]]

  /** `test_field_translations` */
  const TestFieldTranslations: Translations := map["AG_BPA" := ["AG_pontuacao"]]

  const PatientName := "patient_name"
  const FirstNameField := "primeiro_nome_paciente"
  const ScoreAlias := "AG_pontuacao"

  /** The aliases of a key; none for a key the table does not list. */
  function AliasesOf(table: Translations, key: string): seq<string> {
    if key in table then table[key] else []
  }

  /** Writing v under every name of a list. */
  function Assign(m: map<string, string>, names: seq<string>, v: string): (r: map<string, string>)
    ensures forall k :: k in r <==> k in m || k in names
    ensures forall k :: k in r ==> r[k] == if k in names then v else m[k]
    decreases |names|
  {
    if names == [] then m
    else
      var init := names[..|names| - 1];
      assert forall k :: k in names <==> k in init || k == names[|names| - 1];
      Assign(m, init, v)[names[|names| - 1] := v]
  }

  /** `mapping.setdefault(name, v)` for every name of a list. */
  function SetDefaults(m: map<string, string>, names: seq<string>, v: string): (r: map<string, string>)
    ensures forall k :: k in r <==> k in m || k in names
    ensures forall k :: k in m ==> r[k] == m[k]
    ensures forall k :: k in r && k !in m ==> r[k] == v
    decreases |names|
  {
    if names == [] then m
    else
      var init := names[..|names| - 1];
      assert forall k :: k in names <==> k in init || k == names[|names| - 1];
      var r := SetDefaults(m, init, v);
      if names[|names| - 1] in r then r else r[names[|names| - 1] := v]
  }

  /** One item of `add_fields`: the key, then each of its aliases. */
  function AddField(table: Translations, m: map<string, string>, key: string, value: Value): map<string, string> {
    var s := StrOrEmpty(value);
    Assign(m[key := s], AliasesOf(table, key), s)
  }

  /** `add_fields(source)` */
  function AddFields(table: Translations, m: map<string, string>, g: Group): map<string, string>
    decreases |g|
  {
    if g == [] then m
    else AddField(table, AddFields(table, m, g[..|g| - 1]), g[|g| - 1].0, g[|g| - 1].1)
  }

  /** Whether an item under `key` writes the name k. */
  predicate Writes(table: Translations, key: string, k: string) {
    key == k || k in AliasesOf(table, key)
  }

  /** The text the last item of g that writes k writes there; None when no item does. */
  function LastWrite(table: Translations, g: Group, k: string): Option<string>
    decreases |g|
  {
    if g == [] then None
    else if Writes(table, g[|g| - 1].0, k) then Some(StrOrEmpty(g[|g| - 1].1))
    else LastWrite(table, g[..|g| - 1], k)
  }

  /** The first whitespace-separated token of the stripped text, "" when there is none. */
  function FirstToken(s: string): string {
    PatientService.FirstWord(Strip(s))
  }

  /** `mapping.setdefault("primeiro_nome_paciente", first)` when the full name is mapped. */
  function FirstNameStep(m: map<string, string>): map<string, string> {
    if PatientName in m && FirstNameField !in m then m[FirstNameField := FirstToken(m[PatientName])] else m
  }

  /** One test result: its key, then a default for each of its aliases. */
  function AddTest(table: Translations, m: map<string, string>, key: string, value: Value): map<string, string> {
    var s := StrOrEmpty(value);
    SetDefaults(m[key := s], AliasesOf(table, key), s)
  }

  function AddTests(table: Translations, m: map<string, string>, g: Group): map<string, string>
    decreases |g|
  {
    if g == [] then m
    else AddTest(table, AddTests(table, m, g[..|g| - 1]), g[|g| - 1].0, g[|g| - 1].1)
  }

  /** The four person groups, in the service's order. */
  function Grouped(table: Translations, d: AllData): map<string, string> {
    var p := AddFields(table, map[], OrEmpty(d.patient));
    var r1 := AddFields(table, p, OrEmpty(d.resp1));
    var r2 := AddFields(table, r1, OrEmpty(d.resp2));
    AddFields(table, r2, OrEmpty(d.psychologist))
  }

  /** Everything before the custom template fields. */
  function Concluded(table: Translations, testTable: Translations, d: AllData): map<string, string> {
    var tested := AddTests(testTable, FirstNameStep(Grouped(table, d)), OrEmpty(d.tests));
    tested["conclusion_text" := ConclusionOf(d)]["conclusao_text" := ConclusionOf(d)]
  }

  /** `get_field_mapping(all_data)` */
  function Mapping(table: Translations, testTable: Translations, d: AllData): map<string, string> {
    AddFields(map[], Concluded(table, testTable, d), OrEmpty(d.templateFields))
  }

  class FieldMapperService {
    const fieldTranslations: Translations
    const testFieldTranslations: Translations

    constructor ()
      ensures fieldTranslations == FieldTranslations
      ensures testFieldTranslations == TestFieldTranslations
    {
      fieldTranslations := FieldTranslations;
      testFieldTranslations := TestFieldTranslations;
    }

    /** The service with the first-name alias taken out of its table. */
    constructor Corrected()
      ensures fieldTranslations == CorrectedFieldTranslations
      ensures testFieldTranslations == TestFieldTranslations
    {
      fieldTranslations := CorrectedFieldTranslations;
      testFieldTranslations := TestFieldTranslations;
    }

    /** `get_field_mapping` */
    method GetFieldMapping(allData: AllData) returns (mapping: map<string, string>)
      ensures mapping == Mapping(fieldTranslations, testFieldTranslations, allData)
    {
      mapping := map[];
      mapping := AddFieldsTo(mapping, OrEmpty(allData.patient));
      mapping := AddFieldsTo(mapping, OrEmpty(allData.resp1));
      mapping := AddFieldsTo(mapping, OrEmpty(allData.resp2));
      mapping := AddFieldsTo(mapping, OrEmpty(allData.psychologist));
      mapping := SetFirstName(mapping);
      mapping := AddTestsTo(mapping, OrEmpty(allData.tests));
      var conclusion := ConclusionOf(allData);
      mapping := mapping["conclusion_text" := conclusion];
      mapping := mapping["conclusao_text" := conclusion];
      mapping := WriteFields(mapping, OrEmpty(allData.templateFields));
    }

    /** The nested `add_fields` helper: every item, then every alias of its key. */
    method AddFieldsTo(m: map<string, string>, source: Group) returns (r: map<string, string>)
      ensures r == AddFields(fieldTranslations, m, source)
    {
      r := m;
      var i := 0;
      while i < |source|
        invariant 0 <= i <= |source|
        invariant r == AddFields(fieldTranslations, m, source[..i])
      {
        var (key, value) := source[i];
        var s := StrOrEmpty(value);
        r := r[key := s];
        if key in fieldTranslations {
          r := AssignAll(r, fieldTranslations[key], s);
        }
        AddFieldsStep(fieldTranslations, m, source, i);
        i := i + 1;
      }
      assert source[..i] == source;
    }

    /** The test-result loop: every key, then a default for each alias. */
    method AddTestsTo(m: map<string, string>, tests: Group) returns (r: map<string, string>)
      ensures r == AddTests(testFieldTranslations, m, tests)
    {
      r := m;
      var i := 0;
      while i < |tests|
        invariant 0 <= i <= |tests|
        invariant r == AddTests(testFieldTranslations, m, tests[..i])
      {
        var (key, value) := tests[i];
        var s := StrOrEmpty(value);
        r := r[key := s];
        if key in testFieldTranslations {
          r := SetDefaultsAll(r, testFieldTranslations[key], s);
        }
        AddTestsStep(testFieldTranslations, m, tests, i);
        i := i + 1;
      }
      assert tests[..i] == tests;
    }
  }

  /** The first-name default: the first token of the full name, unless the name is already mapped. */
  method SetFirstName(m: map<string, string>) returns (r: map<string, string>)
    ensures r == FirstNameStep(m)
  {
    r := m;
    if PatientName in r {
      var first := FirstToken(r[PatientName]);
      if FirstNameField !in r {
        r := r[FirstNameField := first];
      }
    }
  }

  /** The custom template fields: each item under its own key only. */
  method WriteFields(m: map<string, string>, fields: Group) returns (r: map<string, string>)
    ensures r == AddFields(map[], m, fields)
  {
    r := m;
    var i := 0;
    while i < |fields|
      invariant 0 <= i <= |fields|
      invariant r == AddFields(map[], m, fields[..i])
    {
      r := r[fields[i].0 := StrOrEmpty(fields[i].1)];
      AddFieldsStep(map[], m, fields, i);
      i := i + 1;
    }
    assert fields[..i] == fields;
  }

  /** The alias loop of `add_fields`. */
  method AssignAll(m: map<string, string>, names: seq<string>, s: string) returns (r: map<string, string>)
    ensures r == Assign(m, names, s)
  {
    r := m;
    var j := 0;
    while j < |names|
      invariant 0 <= j <= |names|
      invariant r == Assign(m, names[..j], s)
    {
      r := r[names[j] := s];
      assert names[..j + 1][..j] == names[..j];
      j := j + 1;
    }
    assert names[..j] == names;
  }

  /** The alias loop of the test results. */
  method SetDefaultsAll(m: map<string, string>, names: seq<string>, s: string) returns (r: map<string, string>)
    ensures r == SetDefaults(m, names, s)
  {
    r := m;
    var j := 0;
    while j < |names|
      invariant 0 <= j <= |names|
      invariant r == SetDefaults(m, names[..j], s)
    {
      if names[j] !in r {
        r := r[names[j] := s];
      }
      assert names[..j + 1][..j] == names[..j];
      j := j + 1;
    }
    assert names[..j] == names;
  }

  lemma {:induction false} AddFieldsStep(table: Translations, m: map<string, string>, g: Group, i: nat)
    requires i < |g|
    ensures AddFields(table, m, g[..i + 1]) == AddField(table, AddFields(table, m, g[..i]), g[i].0, g[i].1)
  {
    assert g[..i + 1][..i] == g[..i];
  }

  lemma {:induction false} AddTestsStep(table: Translations, m: map<string, string>, g: Group, i: nat)
    requires i < |g|
    ensures AddTests(table, m, g[..i + 1]) == AddTest(table, AddTests(table, m, g[..i]), g[i].0, g[i].1)
  {
    assert g[..i + 1][..i] == g[..i];
  }

  /**
   * What `add_fields` leaves under a name: the text of the last item that
   * writes it, under its key or as an alias; otherwise what was there.
   */
  lemma {:induction false} AddFieldsLookup(table: Translations, m: map<string, string>, g: Group, k: string)
    ensures var r := AddFields(table, m, g);
      match LastWrite(table, g, k)
      case Some(s) => k in r && r[k] == s
      case None => (k in r <==> k in m) && (k in m ==> r[k] == m[k])
    decreases |g|
  {
    if g != [] {
      AddFieldsLookup(table, m, g[..|g| - 1], k);
    }
  }

  /** The last item of g that writes k is the one at i. */
  lemma {:induction false} LastWriteAt(table: Translations, g: Group, k: string, i: nat)
    requires i < |g| && Writes(table, g[i].0, k)
    requires forall j :: i < j < |g| ==> !Writes(table, g[j].0, k)
    ensures LastWrite(table, g, k) == Some(StrOrEmpty(g[i].1))
    decreases |g|
  {
    if i < |g| - 1 {
      LastWriteAt(table, g[..|g| - 1], k, i);
    }
  }

  /** A name no item writes. */
  lemma {:induction false} NoLastWrite(table: Translations, g: Group, k: string)
    requires forall j :: 0 <= j < |g| ==> !Writes(table, g[j].0, k)
    ensures LastWrite(table, g, k) == None
    decreases |g|
  {
    if g != [] {
      NoLastWrite(table, g[..|g| - 1], k);
    }
  }

  /** Test items leave alone every name that is neither their key nor one of their aliases. */
  lemma {:induction false} AddTestsUntouched(table: Translations, m: map<string, string>, g: Group, k: string)
    requires forall j :: 0 <= j < |g| ==> !Writes(table, g[j].0, k)
    ensures var r := AddTests(table, m, g);
      (k in r <==> k in m) && (k in m ==> r[k] == m[k])
    decreases |g|
  {
    if g != [] {
      AddTestsUntouched(table, m, g[..|g| - 1], k);
    }
  }

  /** A name already mapped keeps its text through test items whose key is another name. */
  lemma {:induction false} AddTestsKeeps(table: Translations, m: map<string, string>, g: Group, k: string)
    requires k in m
    requires forall j :: 0 <= j < |g| ==> g[j].0 != k
    ensures var r := AddTests(table, m, g); k in r && r[k] == m[k]
    decreases |g|
  {
    if g != [] {
      AddTestsKeeps(table, m, g[..|g| - 1], k);
    }
  }

  /**
   * A test result's own key gets its own text, whatever items come before
   * or after it: the alias writes after it are defaults and never replace it.
   */
  lemma {:induction false} ExplicitTestKeyWins(table: Translations, m: map<string, string>, g: Group, i: nat)
    requires i < |g|
    requires forall j :: i < j < |g| ==> g[j].0 != g[i].0
    ensures var r := AddTests(table, m, g); g[i].0 in r && r[g[i].0] == StrOrEmpty(g[i].1)
  {
    var k := g[i].0;
    AddTestsStep(table, m, g, i);
    var after := g[i + 1..];
    assert g == g[..i + 1] + after;
    AddTestsSplit(table, m, g[..i + 1], after);
    AddTestsKeeps(table, AddTests(table, m, g[..i + 1]), after, k);
  }

  /** Test items one after another. */
  lemma {:induction false} AddTestsSplit(table: Translations, m: map<string, string>, g1: Group, g2: Group)
    ensures AddTests(table, m, g1 + g2) == AddTests(table, AddTests(table, m, g1), g2)
    decreases |g2|
  {
    if g2 != [] {
      var g := g1 + g2;
      assert g[..|g| - 1] == g1 + g2[..|g2| - 1];
      assert g[|g| - 1] == g2[|g2| - 1];
      AddTestsSplit(table, m, g1, g2[..|g2| - 1]);
    } else {
      assert g1 + g2 == g1;
    }
  }

  /** Only AG_BPA has AG_pontuacao as an alias. */
  lemma {:induction false} ScoreAliasSource(key: string)
    ensures Writes(TestFieldTranslations, key, ScoreAlias) <==> key == ScoreAlias || key == "AG_BPA"
  {
  }

  /**
   * With no explicit AG_pontuacao, it takes the text of the first AG_BPA
   * item, if nothing had been written there before.
   */
  lemma {:induction false} GeneratedScore(m: map<string, string>, g: Group, i: nat)
    requires ScoreAlias !in m
    requires i < |g| && g[i].0 == "AG_BPA"
    requires forall j :: 0 <= j < i ==> g[j].0 != "AG_BPA"
    requires forall j :: 0 <= j < |g| ==> g[j].0 != ScoreAlias
    ensures var r := AddTests(TestFieldTranslations, m, g); ScoreAlias in r && r[ScoreAlias] == StrOrEmpty(g[i].1)
  {
    forall j | 0 <= j < i ensures !Writes(TestFieldTranslations, g[..i][j].0, ScoreAlias) {
      ScoreAliasSource(g[j].0);
    }
    AddTestsUntouched(TestFieldTranslations, m, g[..i], ScoreAlias);
    AddTestsStep(TestFieldTranslations, m, g, i);
    var after := g[i + 1..];
    assert g == g[..i + 1] + after;
    AddTestsSplit(TestFieldTranslations, m, g[..i + 1], after);
    AddTestsKeeps(TestFieldTranslations, AddTests(TestFieldTranslations, m, g[..i + 1]), after, ScoreAlias);
  }

  /** The custom template field's text replaces whatever was mapped under its name. */
  lemma {:induction false} TemplateFieldsWin(table: Translations, testTable: Translations, d: AllData, i: nat)
    requires d.templateFields.Some? && i < |d.templateFields.value|
    requires var g := d.templateFields.value; forall j :: i < j < |g| ==> g[j].0 != g[i].0
    ensures var g := d.templateFields.value; var r := Mapping(table, testTable, d);
      g[i].0 in r && r[g[i].0] == StrOrEmpty(g[i].1)
  {
    var g := d.templateFields.value;
    LastWriteAt(map[], g, g[i].0, i);
    AddFieldsLookup(map[], Concluded(table, testTable, d), g, g[i].0);
  }

  /** Both conclusion names carry the conclusion unless a custom template field takes the name. */
  lemma {:induction false} ConclusionNames(table: Translations, testTable: Translations, d: AllData)
    requires forall j :: 0 <= j < |OrEmpty(d.templateFields)| ==> OrEmpty(d.templateFields)[j].0 !in {"conclusion_text", "conclusao_text"}
    ensures var r := Mapping(table, testTable, d);
      "conclusion_text" in r && "conclusao_text" in r
      && r["conclusion_text"] == ConclusionOf(d) && r["conclusao_text"] == ConclusionOf(d)
  {
    var g := OrEmpty(d.templateFields);
    NoLastWrite(map[], g, "conclusion_text");
    NoLastWrite(map[], g, "conclusao_text");
    AddFieldsLookup(map[], Concluded(table, testTable, d), g, "conclusion_text");
    AddFieldsLookup(map[], Concluded(table, testTable, d), g, "conclusao_text");
  }

  /**
   * An explicit AG_pontuacao test result is what the mapping shows, whatever
   * the order of AG_BPA and AG_pontuacao in the results.
   */
  lemma {:induction false} ExplicitScoreWins(table: Translations, d: AllData, i: nat)
    requires d.tests.Some? && i < |d.tests.value| && d.tests.value[i].0 == ScoreAlias
    requires forall j :: i < j < |d.tests.value| ==> d.tests.value[j].0 != ScoreAlias
    requires forall j :: 0 <= j < |OrEmpty(d.templateFields)| ==> OrEmpty(d.templateFields)[j].0 != ScoreAlias
    ensures var r := Mapping(table, TestFieldTranslations, d);
      ScoreAlias in r && r[ScoreAlias] == StrOrEmpty(d.tests.value[i].1)
  {
    var start := FirstNameStep(Grouped(table, d));
    ExplicitTestKeyWins(TestFieldTranslations, start, d.tests.value, i);
    var g := OrEmpty(d.templateFields);
    NoLastWrite(map[], g, ScoreAlias);
    AddFieldsLookup(map[], Concluded(table, TestFieldTranslations, d), g, ScoreAlias);
  }

  /** Two names that hold the same thing in a mapping: both absent, or both with the same text. */
  predicate Agree(m: map<string, string>, a: string, b: string) {
    (a in m <==> b in m) && (a in m ==> m[a] == m[b])
  }

  /** Items that write two names in the same places keep them in agreement. */
  lemma {:induction false} AddFieldsAgree(table: Translations, m: map<string, string>, g: Group, a: string, b: string)
    requires Agree(m, a, b)
    requires LastWrite(table, g, a) == LastWrite(table, g, b)
    ensures Agree(AddFields(table, m, g), a, b)
  {
    AddFieldsLookup(table, m, g, a);
    AddFieldsLookup(table, m, g, b);
  }

  /** Under the table as written, only the full name's own items write the first-name placeholder. */
  lemma {:induction false} FirstNameFollowsFullName(g: Group)
    requires forall j :: 0 <= j < |g| ==> g[j].0 != FirstNameField
    ensures LastWrite(FieldTranslations, g, FirstNameField) == LastWrite(FieldTranslations, g, PatientName)
    decreases |g|
  {
    if g != [] {
      var key := g[|g| - 1].0;
      assert Writes(FieldTranslations, key, FirstNameField) <==> key == PatientName by {
        if key in FieldTranslations && key != PatientName {
          assert FirstNameField !in FieldTranslations[key];
        }
      }
      assert Writes(FieldTranslations, key, PatientName) <==> key == PatientName by {
        if key in FieldTranslations {
          assert PatientName !in FieldTranslations[key];
        }
      }
      FirstNameFollowsFullName(g[..|g| - 1]);
    }
  }

  /** The groups name neither the first-name placeholder nor, outside the patient group, the full name. */
  predicate PlainNames(d: AllData) {
    (forall j :: 0 <= j < |OrEmpty(d.patient)| ==> OrEmpty(d.patient)[j].0 != FirstNameField)
    && (forall j :: 0 <= j < |OrEmpty(d.resp1)| ==> OrEmpty(d.resp1)[j].0 !in {PatientName, FirstNameField})
    && (forall j :: 0 <= j < |OrEmpty(d.resp2)| ==> OrEmpty(d.resp2)[j].0 !in {PatientName, FirstNameField})
    && (forall j :: 0 <= j < |OrEmpty(d.psychologist)| ==> OrEmpty(d.psychologist)[j].0 !in {PatientName, FirstNameField})
    && (forall j :: 0 <= j < |OrEmpty(d.tests)| ==> OrEmpty(d.tests)[j].0 !in {PatientName, FirstNameField})
    && (forall j :: 0 <= j < |OrEmpty(d.templateFields)| ==> OrEmpty(d.templateFields)[j].0 !in {PatientName, FirstNameField})
  }

  /** After the groups and the first-name step, the two names reach the mapping untouched. */
  lemma {:induction false} NamesUntouchedAfterGroups(table: Translations, d: AllData, a: string)
    requires PlainNames(d) && a in {PatientName, FirstNameField}
    ensures var start := FirstNameStep(Grouped(table, d)); var r := Mapping(table, TestFieldTranslations, d);
      (a in r <==> a in start) && (a in start ==> r[a] == start[a])
  {
    var start := FirstNameStep(Grouped(table, d));
    var tests := OrEmpty(d.tests);
    forall j | 0 <= j < |tests| ensures !Writes(TestFieldTranslations, tests[j].0, a) {
      ScoreAliasSource(tests[j].0);
    }
    AddTestsUntouched(TestFieldTranslations, start, tests, a);
    var g := OrEmpty(d.templateFields);
    NoLastWrite(map[], g, a);
    AddFieldsLookup(map[], Concluded(table, TestFieldTranslations, d), g, a);
  }

  /**
   * As written, the first-name placeholder always shows the whole full name:
   * its alias is written together with the full name, so the first-token
   * default that follows never applies.
   */
  lemma {:induction false} FirstNameIsFullName(d: AllData)
    requires PlainNames(d)
    ensures var r := Mapping(FieldTranslations, TestFieldTranslations, d);
      PatientName in r ==> FirstNameField in r && r[FirstNameField] == r[PatientName]
  {
    var grouped := Grouped(FieldTranslations, d);
    GroupedNamesAgree(d);
    assert FirstNameStep(grouped) == grouped;
    NamesUntouchedAfterGroups(FieldTranslations, d, PatientName);
    NamesUntouchedAfterGroups(FieldTranslations, d, FirstNameField);
  }

  lemma {:induction false} GroupedNamesAgree(d: AllData)
    requires PlainNames(d)
    ensures Agree(Grouped(FieldTranslations, d), FirstNameField, PatientName)
  {
    var table := FieldTranslations;
    var p := AddFields(table, map[], OrEmpty(d.patient));
    var r1 := AddFields(table, p, OrEmpty(d.resp1));
    var r2 := AddFields(table, r1, OrEmpty(d.resp2));
    FirstNameFollowsFullName(OrEmpty(d.patient));
    AddFieldsAgree(table, map[], OrEmpty(d.patient), FirstNameField, PatientName);
    FirstNameFollowsFullName(OrEmpty(d.resp1));
    AddFieldsAgree(table, p, OrEmpty(d.resp1), FirstNameField, PatientName);
    FirstNameFollowsFullName(OrEmpty(d.resp2));
    AddFieldsAgree(table, r1, OrEmpty(d.resp2), FirstNameField, PatientName);
    FirstNameFollowsFullName(OrEmpty(d.psychologist));
    AddFieldsAgree(table, r2, OrEmpty(d.psychologist), FirstNameField, PatientName);
  }

  /** No item writes the first-name placeholder under the corrected table. */
  lemma {:induction false} NoFirstNameWrites(g: Group)
    requires forall j :: 0 <= j < |g| ==> g[j].0 != FirstNameField
    ensures LastWrite(CorrectedFieldTranslations, g, FirstNameField) == None
  {
    forall j | 0 <= j < |g| ensures !Writes(CorrectedFieldTranslations, g[j].0, FirstNameField) {
      var key := g[j].0;
      if key in CorrectedFieldTranslations {
        assert FirstNameField !in CorrectedFieldTranslations[key];
      }
    }
    NoLastWrite(CorrectedFieldTranslations, g, FirstNameField);
  }

  /**
   * With the corrected table, the first-name placeholder shows the first
   * token of the full name.
   */
  lemma {:induction false} FirstNameIsFirstToken(d: AllData)
    requires PlainNames(d)
    ensures var r := Mapping(CorrectedFieldTranslations, TestFieldTranslations, d);
      PatientName in r ==> FirstNameField in r && r[FirstNameField] == FirstToken(r[PatientName])
  {
    var table := CorrectedFieldTranslations;
    var p := AddFields(table, map[], OrEmpty(d.patient));
    var r1 := AddFields(table, p, OrEmpty(d.resp1));
    var r2 := AddFields(table, r1, OrEmpty(d.resp2));
    NoFirstNameWrites(OrEmpty(d.patient));
    AddFieldsLookup(table, map[], OrEmpty(d.patient), FirstNameField);
    NoFirstNameWrites(OrEmpty(d.resp1));
    AddFieldsLookup(table, p, OrEmpty(d.resp1), FirstNameField);
    NoFirstNameWrites(OrEmpty(d.resp2));
    AddFieldsLookup(table, r1, OrEmpty(d.resp2), FirstNameField);
    NoFirstNameWrites(OrEmpty(d.psychologist));
    AddFieldsLookup(table, r2, OrEmpty(d.psychologist), FirstNameField);
    NamesUntouchedAfterGroups(table, d, PatientName);
    NamesUntouchedAfterGroups(table, d, FirstNameField);
  }

  /** A patient called "Ana Souza", and nothing else. */
  const AnaSouza := AllData(Some([(PatientName, VStr("Ana Souza"))]), None, None, None, None, None, None)

  /** Under any table, the full name of "Ana Souza" is mapped as it is. */
  lemma {:induction false} AnaSouzaFullName(table: Translations)
    ensures var r := Mapping(table, TestFieldTranslations, AnaSouza); PatientName in r && r[PatientName] == "Ana Souza"
  {
    var g := [(PatientName, VStr("Ana Souza"))];
    LastWriteAt(table, g, PatientName, 0);
    AddFieldsLookup(table, map[], g, PatientName);
    assert Grouped(table, AnaSouza) == AddFields(table, map[], g);
    NamesUntouchedAfterGroups(table, AnaSouza, PatientName);
  }

  /** As written: the first-name placeholder of "Ana Souza" is "Ana Souza". */
  lemma {:induction false} FirstNameExampleAsWritten()
    ensures Mapping(FieldTranslations, TestFieldTranslations, AnaSouza)[FirstNameField] == "Ana Souza"
  {
    AnaSouzaFullName(FieldTranslations);
    AnaSouzaPlain();
    FirstNameIsFullName(AnaSouza);
  }

  lemma {:induction false} AnaSouzaPlain()
    ensures PlainNames(AnaSouza)
  {
    assert OrEmpty(AnaSouza.patient) == [(PatientName, VStr("Ana Souza"))];
  }

  /** Corrected: the first-name placeholder of "Ana Souza" is "Ana". */
  lemma {:induction false} FirstNameExampleCorrected()
    ensures Mapping(CorrectedFieldTranslations, TestFieldTranslations, AnaSouza)[FirstNameField] == "Ana"
  {
    AnaSouzaFullName(CorrectedFieldTranslations);
    AnaSouzaPlain();
    FirstNameIsFirstToken(AnaSouza);
    FirstTokenOfAnaSouza();
  }

  lemma {:induction false} FirstTokenOfAnaSouza()
    ensures FirstToken("Ana Souza") == "Ana"
  {
    var s := "Ana Souza";
    StripOfNoSpaceEnds(s);
    LeadingWordOfAnaSouza();
    assert Words(s)[0] == WordPrefix(s);
  }

  lemma {:induction false} LeadingWordOfAnaSouza()
    ensures WordPrefix("Ana Souza") == "Ana"
  {
    var s := "Ana Souza";
    assert WordPrefix(s[3..]) == [];
    assert WordPrefix(s[2..]) == "a";
    assert WordPrefix(s[1..]) == "na";
  }
}
