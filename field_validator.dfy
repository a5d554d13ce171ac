/**
 * FieldValidator: the naming convention of template placeholders. A name is
 * valid when one of nine anchored patterns matches it; the first matching
 * pattern, in declaration order, names the category reported.
 */
module FieldValidator {
  import Placeholders

  datatype Category =
    | Patient | Resp1 | Resp2 | Psychologist | Conclusion
    | TestWisc | TestEtdah | TestEtdahConclusion | TestGeneric

  /** `PATTERNS`, in declaration order. */
  const Patterns: seq<Category> :=
    [Patient, Resp1, Resp2, Psychologist, Conclusion, TestWisc, TestEtdah, TestEtdahConclusion, TestGeneric]

  /** Position of each category in `Patterns`. */
  function PatternIndex(c: Category): (k: nat)
    ensures k < |Patterns| && Patterns[k] == c
  {
    match c
    case Patient => 0
    case Resp1 => 1
    case Resp2 => 2
    case Psychologist => 3
    case Conclusion => 4
    case TestWisc => 5
    case TestEtdah => 6
    case TestEtdahConclusion => 7
    case TestGeneric => 8
  }

  /** The key of the category in `PATTERNS`. */
  function CategoryName(c: Category): string {
    match c
    case Patient => "patient"
    case Resp1 => "resp1"
    case Resp2 => "resp2"
    case Psychologist => "psychologist"
    case Conclusion => "conclusion"
    case TestWisc => "test_wisc"
    case TestEtdah => "test_etdah"
    case TestEtdahConclusion => "test_etdah_conclusion"
    case TestGeneric => "test_generic"
  }

  predicate IsUpperNameChar(c: char) {
    ('A' <= c <= 'Z') || ('0' <= c <= '9') || c == '_'
  }

  /** `[A-Z0-9_]+` followed by `suffix`, which ends the string. */
  predicate UpperWithSuffix(s: string, suffix: string) {
    |s| > |suffix| && s[|s| - |suffix|..] == suffix
    && forall i :: 0 <= i < |s| - |suffix| ==> IsUpperNameChar(s[i])
  }

  /** `(_out|_conclusao|_text_out)` */
  predicate IsTestSuffix(s: string) {
    s == "_out" || s == "_conclusao" || s == "_text_out"
  }

  /** What each pattern matches between `^` and `$`. */
  predicate Body(c: Category, s: string) {
    match c
    case Patient =>
      s in {"patient_name", "patient_birth", "patient_crono_age", "patient_school", "patient_class"}
    case Resp1 => s in {"resp1_name", "resp1_career", "resp1_education", "resp1_age"}
    case Resp2 => s in {"resp2_name", "resp2_career", "resp2_education", "resp2_age"}
    case Psychologist => s in {"nome_psicologo", "crp_psicologo"}
    case Conclusion => s == "conclusao_text"
    case TestWisc => |s| > 3 && s[..3] in {"QIT", "ICV", "IOP", "IMO", "IVP"} && IsTestSuffix(s[3..])
    case TestEtdah => s in {"F1_out", "F2_out", "F3_out", "F4_out", "TOTAL_out"}
    case TestEtdahConclusion => s == "ETDAH_CONCLUSAO_BLOCO"
    case TestGeneric =>
      UpperWithSuffix(s, "_out") || UpperWithSuffix(s, "_conclusao") || UpperWithSuffix(s, "_text_out")
  }

  /** `pattern.match(s)`: `$` matches at the end or just before a final newline. */
  predicate Matches(c: Category, s: string) {
    Body(c, s) || (|s| > 0 && s[|s| - 1] == '\n' && Body(c, s[..|s| - 1]))
  }

  predicate IsValid(s: string) {
    exists c: Category :: Matches(c, s)
  }

  /** Pattern k is the first one, in declaration order, that matches s. */
  predicate FirstMatch(k: nat, s: string) {
    k < |Patterns| && Matches(Patterns[k], s) && forall j :: 0 <= j < k ==> !Matches(Patterns[j], s)
  }

  /** The reason reported for a name no pattern matches. */
  function RejectReason(fieldName: string): string {
    "Field '" + fieldName + "' does not follow naming convention"
  }

  /**
   * `validate_field_name`: valid exactly when some pattern matches; the reason
   * names the first matching pattern, or quotes the rejected name.
   */
  method ValidateFieldName(fieldName: string) returns (isValid: bool, reason: string)
    ensures isValid <==> IsValid(fieldName)
    ensures isValid ==> exists k: nat :: FirstMatch(k, fieldName) && reason == "Valid " + CategoryName(Patterns[k]) + " field"
    ensures !isValid ==> reason == RejectReason(fieldName)
  {
    for k := 0 to |Patterns|
      invariant forall j :: 0 <= j < k ==> !Matches(Patterns[j], fieldName)
    {
      if Matches(Patterns[k], fieldName) {
        return true, "Valid " + CategoryName(Patterns[k]) + " field";
      }
    }
    forall c: Category ensures !Matches(c, fieldName) {
      var k := PatternIndex(c);
    }
    return false, RejectReason(fieldName);
  }

  /** The names `validate_fields` accepts, in input order. */
  function Accepted(names: seq<string>): (r: seq<string>)
    ensures forall n :: n in r <==> n in names && IsValid(n)
    decreases |names|
  {
    if names == [] then []
    else
      var last := names[|names| - 1];
      var rest := Accepted(names[..|names| - 1]);
      assert names == names[..|names| - 1] + [last];
      if IsValid(last) then rest + [last] else rest
  }

  /** The names `validate_fields` rejects, in input order. */
  function Invalid(names: seq<string>): (r: seq<string>)
    ensures forall n :: n in r <==> n in names && !IsValid(n)
    decreases |names|
  {
    if names == [] then []
    else
      var last := names[|names| - 1];
      var rest := Invalid(names[..|names| - 1]);
      assert names == names[..|names| - 1] + [last];
      if IsValid(last) then rest else rest + [last]
  }

  /** The rejected names, each paired with its reason. */
  function Rejected(names: seq<string>): seq<(string, string)> {
    var bad := Invalid(names);
    seq(|bad|, k requires 0 <= k < |bad| => (bad[k], RejectReason(bad[k])))
  }

  /** Every name lands in exactly one of the two lists, as often as it occurs. */
  lemma {:induction false} PartitionSizes(names: seq<string>)
    ensures multiset(Accepted(names)) + multiset(Invalid(names)) == multiset(names)
    ensures |Accepted(names)| + |Rejected(names)| == |names|
    decreases |names|
  {
    if names != [] {
      var m := |names| - 1;
      PartitionSizes(names[..m]);
      assert names == names[..m] + [names[m]];
      assert multiset(names) == multiset(names[..m]) + multiset{names[m]};
    }
  }

  /** `validate_fields`: splits the names into the valid ones and the invalid ones with reasons. */
  method ValidateFields(fieldNames: seq<string>) returns (validFields: seq<string>, invalidFields: seq<(string, string)>)
    ensures validFields == Accepted(fieldNames)
    ensures invalidFields == Rejected(fieldNames)
  {
    validFields := [];
    invalidFields := [];
    for i := 0 to |fieldNames|
      invariant validFields == Accepted(fieldNames[..i])
      invariant invalidFields == Rejected(fieldNames[..i])
    {
      ghost var bad := Invalid(fieldNames[..i]);
      var isValid, reason := ValidateFieldName(fieldNames[i]);
      assert fieldNames[..i + 1][..i] == fieldNames[..i];
      if isValid {
        validFields := validFields + [fieldNames[i]];
      } else {
        invalidFields := invalidFields + [(fieldNames[i], reason)];
      }
    }
    assert fieldNames[..|fieldNames|] == fieldNames;
  }

  /** The fixed patient, respondent, psychologist and conclusion names are accepted. */
  lemma {:induction false} FixedNamesAccepted(s: string)
    requires Body(Patient, s) || Body(Resp1, s) || Body(Resp2, s) || Body(Psychologist, s) || Body(Conclusion, s)
    ensures IsValid(s)
  {
    if Body(Patient, s) { assert Matches(Patient, s); }
    else if Body(Resp1, s) { assert Matches(Resp1, s); }
    else if Body(Resp2, s) { assert Matches(Resp2, s); }
    else if Body(Psychologist, s) { assert Matches(Psychologist, s); }
    else { assert Matches(Conclusion, s); }
  }

  /**
   * Any name of upper-case letters, digits and underscores ending in one of
   * the test suffixes is accepted, whatever category reports it.
   */
  lemma {:induction false} UpperOutputsAccepted(prefix: string, suffix: string)
    requires prefix != [] && forall i :: 0 <= i < |prefix| ==> IsUpperNameChar(prefix[i])
    requires IsTestSuffix(suffix)
    ensures IsValid(prefix + suffix)
  {
    var s := prefix + suffix;
    assert s[|s| - |suffix|..] == suffix;
    forall i | 0 <= i < |s| - |suffix| ensures IsUpperNameChar(s[i]) {
      assert s[i] == prefix[i];
    }
    assert UpperWithSuffix(s, suffix);
    assert Matches(TestGeneric, s);
  }

  /** Names with other characters, digits first or nothing are rejected. */
  lemma {:induction false} RejectsMalformedNames()
    ensures !IsValid("123field") && !IsValid("field-with-dash") && !IsValid("field.with.dot")
    ensures !IsValid("field with space") && !IsValid("")
  {
    RejectsPunctuatedNames();
    assert forall c: Category :: !Matches(c, "");
    RejectsDigitsThenLower("123field");
  }

  lemma {:induction false} RejectsPunctuatedNames()
    ensures !IsValid("field-with-dash") && !IsValid("field.with.dot") && !IsValid("field with space")
  {
    RejectsLowerCase("field-with-dash");
    RejectsLowerCase("field.with.dot");
    RejectsLowerCase("field with space");
  }

  /** A lower-case name outside every listed family is rejected. */
  lemma {:induction false} RejectsLowerCase(s: string)
    requires s != [] && 'a' <= s[0] <= 'z'
    requires forall c: Category :: c != TestGeneric ==> !Body(c, s)
    requires |s| > 0 && s[|s| - 1] != '\n'
    ensures !IsValid(s)
  {
    forall c: Category ensures !Matches(c, s) {
      if c == TestGeneric {
        assert !IsUpperNameChar(s[0]);
      }
    }
  }

  lemma {:induction false} RejectsDigitsThenLower(s: string)
    requires s == "123field"
    ensures !IsValid(s)
  {
    forall c: Category ensures !Matches(c, s) {
      if c == TestGeneric {
        assert !IsUpperNameChar(s[3]);
      }
    }
  }

  /**
   * The convention is strict: lower-case names outside the listed families
   * are rejected.
   */
  lemma {:induction false} RejectsUnlistedLowerCaseNames()
    ensures !IsValid("invalid_field") && !IsValid("patient") && !IsValid("test_field")
    ensures !IsValid("random_name") && !IsValid("bad_field")
  {
    RejectsUnlistedFirst();
    RejectsUnlistedSecond();
  }

  lemma {:induction false} RejectsUnlistedFirst()
    ensures !IsValid("invalid_field") && !IsValid("patient") && !IsValid("test_field")
  {
    RejectsLowerCase("invalid_field");
    RejectsLowerCase("patient");
    RejectsLowerCase("test_field");
  }

  lemma {:induction false} RejectsUnlistedSecond()
    ensures !IsValid("random_name") && !IsValid("bad_field")
  {
    RejectsLowerCase("random_name");
    RejectsLowerCase("bad_field");
  }

  /** Upper-case test outputs outside the WISC and ETDAH families fall to the generic pattern. */
  lemma GenericTestOutputs()
    ensures Matches(TestGeneric, "AG_out") && !Matches(TestWisc, "AG_out") && !Matches(TestEtdah, "AG_out")
    ensures Matches(TestGeneric, "SRS_NIVEL_out")
  {
    AgOutIsGeneric();
    assert "SRS_NIVEL_out"[9..] == "_out";
  }

  lemma {:induction false} AgOutIsGeneric()
    ensures Matches(TestGeneric, "AG_out") && !Matches(TestWisc, "AG_out") && !Matches(TestEtdah, "AG_out")
  {
    assert "AG_out"[2..] == "_out";
  }
}
