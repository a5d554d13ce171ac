/**
 * LaudoDataModel: the central store of what the forms collect for one
 * report. Each group is a dictionary that its setter merges into; the
 * mapping for template replacement flattens the groups into text, later
 * groups overwriting earlier ones on a shared key.
 */
module DataModel {
  import opened Strings
  import opened Values
  import Docx

  /** A group dictionary. */
  type Dict = map<string, Value>

  /** `get_all_data()`: its seven entries. */
  datatype AllData = AllData(
    templatePath: Option<string>,
    patient: Dict,
    resp1: Dict,
    resp2: Dict,
    tests: Dict,
    conclusion: string,
    psychologist: Dict)

  const DefaultPatient: Dict := map[
    "patient_name" := VStr(""),
    "patient_birth" := VStr(""),
    "patient_crono_age" := VStr(""),
    "patient_school" := VStr(""),
    "patient_class" := VStr("")]

  const DefaultResp1: Dict := map[
    "resp1_name" := VStr(""),
    "resp1_career" := VStr(""),
    "resp1_education" := VStr(""),
    "resp1_age" := VInt(0)]

  const DefaultResp2: Dict := map[
    "resp2_name" := VStr(""),
    "resp2_career" := VStr(""),
    "resp2_education" := VStr(""),
    "resp2_age" := VInt(0)]

  const DefaultPsychologist: Dict := map[
    "nome_psicologo" := VStr(""),
    "crp_psicologo" := VStr("")]

  const ConclusionKey := "conclusao_text"

  /** Every value of a group as text, None as "". */
  function Stringify(d: Dict): (r: map<string, string>)
    ensures r.Keys == d.Keys
    ensures forall k :: k in r ==> r[k] == StrOrEmpty(d[k])
  {
    map k | k in d :: StrOrEmpty(d[k])
  }

  /** `get_field_mapping()`: the groups in order, the conclusion between the tests and the psychologist. */
  function FieldMapping(data: AllData): (r: map<string, string>)
    ensures ConclusionKey in r
    ensures data.psychologist.Keys <= r.Keys
  {
    var persons := Stringify(data.patient) + Stringify(data.resp1) + Stringify(data.resp2);
    (persons + Stringify(data.tests))[ConclusionKey := data.conclusion] + Stringify(data.psychologist)
  }

  /**
   * The text a name gets, read off the groups from the last writer back:
   * the psychologist, then the conclusion, the tests, the second and the
   * first respondent, and the patient.
   */
  function Lookup(data: AllData, k: string): Option<string> {
    if k in data.psychologist then Some(StrOrEmpty(data.psychologist[k]))
    else if k == ConclusionKey then Some(data.conclusion)
    else if k in data.tests then Some(StrOrEmpty(data.tests[k]))
    else if k in data.resp2 then Some(StrOrEmpty(data.resp2[k]))
    else if k in data.resp1 then Some(StrOrEmpty(data.resp1[k]))
    else if k in data.patient then Some(StrOrEmpty(data.patient[k]))
    else None
  }

  class LaudoDataModel {
    var templatePath: Option<string>
    var templateDocument: Option<Docx.Document>
    var patientData: Dict
    var resp1Data: Dict
    var resp2Data: Dict
    var testResults: Dict
    var conclusionText: string
    var psychologistData: Dict

    /** `is_template_loaded()` */
    predicate IsTemplateLoaded()
      reads this
    {
      templatePath.Some? && templateDocument.Some?
    }

    function GetAllData(): (r: AllData)
      reads this
      ensures r.templatePath == templatePath && r.conclusion == conclusionText
      ensures r.patient == patientData && r.resp1 == resp1Data && r.resp2 == resp2Data
      ensures r.tests == testResults && r.psychologist == psychologistData
    {
      AllData(templatePath, patientData, resp1Data, resp2Data, testResults, conclusionText, psychologistData)
    }

    /** `to_dict()` is `get_all_data()`. */
    function ToDict(): (r: AllData)
      reads this
      ensures r == GetAllData()
    {
      GetAllData()
    }

    /** A fresh model: no template, blank person fields, respondent ages 0, no tests, no conclusion. */
    constructor ()
      ensures templatePath == None && templateDocument == None && !IsTemplateLoaded()
      ensures patientData == DefaultPatient
      ensures resp1Data == DefaultResp1 && resp2Data == DefaultResp2
      ensures testResults == map[] && conclusionText == ""
      ensures psychologistData == DefaultPsychologist
    {
      templatePath := None;
      templateDocument := None;
      patientData := DefaultPatient;
      resp1Data := DefaultResp1;
      resp2Data := DefaultResp2;
      testResults := map[];
      conclusionText := "";
      psychologistData := DefaultPsychologist;
    }

    method SetTemplate(path: string, document: Docx.Document)
      modifies this
      ensures templatePath == Some(path) && templateDocument == Some(document)
      ensures IsTemplateLoaded()
      ensures patientData == old(patientData) && resp1Data == old(resp1Data) && resp2Data == old(resp2Data)
      ensures testResults == old(testResults) && conclusionText == old(conclusionText)
      ensures psychologistData == old(psychologistData)
    {
      templatePath := Some(path);
      templateDocument := Some(document);
    }

    /** `set_patient_data`: the given keys take the new values, every other key keeps its own. */
    method SetPatientData(data: Dict)
      modifies this
      ensures patientData == old(patientData) + data
      ensures templatePath == old(templatePath) && templateDocument == old(templateDocument)
      ensures resp1Data == old(resp1Data) && resp2Data == old(resp2Data)
      ensures testResults == old(testResults) && conclusionText == old(conclusionText)
      ensures psychologistData == old(psychologistData)
    {
      patientData := patientData + data;
    }

    method SetResp1Data(data: Dict)
      modifies this
      ensures resp1Data == old(resp1Data) + data
      ensures templatePath == old(templatePath) && templateDocument == old(templateDocument)
      ensures patientData == old(patientData) && resp2Data == old(resp2Data)
      ensures testResults == old(testResults) && conclusionText == old(conclusionText)
      ensures psychologistData == old(psychologistData)
    {
      resp1Data := resp1Data + data;
    }

    method SetResp2Data(data: Dict)
      modifies this
      ensures resp2Data == old(resp2Data) + data
      ensures templatePath == old(templatePath) && templateDocument == old(templateDocument)
      ensures patientData == old(patientData) && resp1Data == old(resp1Data)
      ensures testResults == old(testResults) && conclusionText == old(conclusionText)
      ensures psychologistData == old(psychologistData)
    {
      resp2Data := resp2Data + data;
    }

    method SetTestResults(results: Dict)
      modifies this
      ensures testResults == old(testResults) + results
      ensures templatePath == old(templatePath) && templateDocument == old(templateDocument)
      ensures patientData == old(patientData) && resp1Data == old(resp1Data) && resp2Data == old(resp2Data)
      ensures conclusionText == old(conclusionText) && psychologistData == old(psychologistData)
    {
      testResults := testResults + results;
    }

    /** `set_conclusion_text` replaces the text. */
    method SetConclusionText(text: string)
      modifies this
      ensures conclusionText == text
      ensures templatePath == old(templatePath) && templateDocument == old(templateDocument)
      ensures patientData == old(patientData) && resp1Data == old(resp1Data) && resp2Data == old(resp2Data)
      ensures testResults == old(testResults) && psychologistData == old(psychologistData)
    {
      conclusionText := text;
    }

    method SetPsychologistData(data: Dict)
      modifies this
      ensures psychologistData == old(psychologistData) + data
      ensures templatePath == old(templatePath) && templateDocument == old(templateDocument)
      ensures patientData == old(patientData) && resp1Data == old(resp1Data) && resp2Data == old(resp2Data)
      ensures testResults == old(testResults) && conclusionText == old(conclusionText)
    {
      psychologistData := psychologistData + data;
    }

    /** `get_field_mapping()` */
    method GetFieldMapping() returns (mapping: map<string, string>)
      ensures mapping == FieldMapping(GetAllData())
    {
      mapping := map[];
      mapping := WriteAll(mapping, patientData);
      assert mapping == Stringify(patientData);
      mapping := WriteAll(mapping, resp1Data);
      mapping := WriteAll(mapping, resp2Data);
      mapping := WriteAll(mapping, testResults);
      mapping := mapping[ConclusionKey := conclusionText];
      mapping := WriteAll(mapping, psychologistData);
      MappingOfModel(this.GetAllData());
    }
  }

  lemma {:induction false} MappingOfModel(data: AllData)
    ensures FieldMapping(data)
      == ((((Stringify(data.patient) + Stringify(data.resp1)) + Stringify(data.resp2)) + Stringify(data.tests))[ConclusionKey := data.conclusion])
         + Stringify(data.psychologist)
  {
  }

  /** One group's loop: `mapping[key] = str(value) if value is not None else ""` for each item. */
  method WriteAll(m: map<string, string>, d: Dict) returns (r: map<string, string>)
    ensures r == m + Stringify(d)
  {
    r := m;
    var pending := d.Keys;
    while pending != {}
      invariant pending <= d.Keys
      invariant r == m + map k | k in d && k !in pending :: StrOrEmpty(d[k])
      decreases |pending|
    {
      var k :| k in pending;
      r := r[k := StrOrEmpty(d[k])];
      pending := pending - {k};
    }
    assert r == m + Stringify(d);
  }

  /**
   * Every name in the mapping has the text of the last group that has it,
   * the conclusion counting as a group between the tests and the
   * psychologist; a name no group has is not in the mapping.
   */
  lemma {:induction false} FieldMappingLookup(data: AllData, k: string)
    ensures var r := FieldMapping(data);
      (k in r <==> Lookup(data, k).Some?) && (k in r ==> r[k] == Lookup(data, k).value)
  {
  }

  /** The names of the mapping: every group's keys, and the conclusion. */
  lemma {:induction false} FieldMappingKeys(data: AllData)
    ensures FieldMapping(data).Keys
      == data.patient.Keys + data.resp1.Keys + data.resp2.Keys + data.tests.Keys + {ConclusionKey} + data.psychologist.Keys
  {
  }

  /** The conclusion reaches the mapping unless the psychologist group uses its name. */
  lemma {:induction false} ConclusionMapped(data: AllData)
    requires ConclusionKey !in data.psychologist
    ensures ConclusionKey in FieldMapping(data) && FieldMapping(data)[ConclusionKey] == data.conclusion
  {
    FieldMappingLookup(data, ConclusionKey);
  }

  /** The text a fresh model shows under a name: "0" for a respondent's age, "" otherwise. */
  function FreshText(k: string): string {
    if k in {"resp1_age", "resp2_age"} then "0" else ""
  }

  predicate ShowsFreshText(d: Dict) {
    forall k :: k in d ==> StrOrEmpty(d[k]) == FreshText(k)
  }

  lemma {:induction false} DefaultsShowFreshText()
    ensures ShowsFreshText(DefaultPatient) && ShowsFreshText(DefaultResp1)
    ensures ShowsFreshText(DefaultResp2) && ShowsFreshText(DefaultPsychologist)
  {
    ZeroText();
    DefaultPatientFresh();
    DefaultResp1Fresh();
    DefaultResp2Fresh();
  }

  lemma {:induction false} ZeroText()
    ensures StrOrEmpty(VInt(0)) == "0"
  {
    assert IntToString(0) == "0";
  }

  lemma {:induction false} DefaultPatientFresh()
    ensures ShowsFreshText(DefaultPatient)
  {
  }

  lemma {:induction false} DefaultResp1Fresh()
    requires StrOrEmpty(VInt(0)) == "0"
    ensures ShowsFreshText(DefaultResp1)
  {
  }

  lemma {:induction false} DefaultResp2Fresh()
    requires StrOrEmpty(VInt(0)) == "0"
    ensures ShowsFreshText(DefaultResp2)
  {
  }

  /** A fresh model maps every name to "", except the respondent ages, which are "0". */
  lemma {:induction false} FreshMapping()
    ensures var data := AllData(None, DefaultPatient, DefaultResp1, DefaultResp2, map[], "", DefaultPsychologist);
      var r := FieldMapping(data);
      ConclusionKey in r && forall k :: k in r ==> r[k] == FreshText(k)
  {
    var data := AllData(None, DefaultPatient, DefaultResp1, DefaultResp2, map[], "", DefaultPsychologist);
    DefaultsShowFreshText();
    FieldMappingLookup(data, ConclusionKey);
    forall k | k in FieldMapping(data) ensures FieldMapping(data)[k] == FreshText(k) {
      FieldMappingLookup(data, k);
    }
  }
}
