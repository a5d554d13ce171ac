/**
 * TemplateValidator: checks the placeholder names found in a template, first
 * against the naming convention, then against the data available to fill
 * them.
 */
module TemplateValidator {
  import opened Strings
  import opened Values
  import FieldValidator

  predicate NoDuplicates<T(==)>(s: seq<T>) {
    forall i, j :: 0 <= i < j < |s| ==> s[i] != s[j]
  }

  lemma {:induction false} NoDuplicatesAppend<T>(s: seq<T>, x: T)
    requires NoDuplicates(s) && x !in s
    ensures NoDuplicates(s + [x])
  {
    var t := s + [x];
    forall i, j | 0 <= i < j < |t| ensures t[i] != t[j] {
      if j < |s| {
        assert t[i] == s[i] && t[j] == s[j];
      } else {
        assert t[i] == s[i] && t[j] == x;
      }
    }
  }

  /** `list(fields)`: the set's elements, each once, in some order. */
  ghost predicate Enumerates(order: seq<string>, s: set<string>) {
    NoDuplicates(order) && (forall x :: x in order <==> x in s) && |order| == |s|
  }

  /** `list(s)`; Python fixes no particular order, nor does this model. */
  method ListOf(s: set<string>) returns (order: seq<string>)
    ensures Enumerates(order, s)
  {
    order := [];
    var rest := s;
    while rest != {}
      invariant rest <= s
      invariant NoDuplicates(order)
      invariant forall x :: x in order <==> x in s - rest
      invariant |order| == |s - rest|
      decreases rest
    {
      var x :| x in rest;
      assert s - (rest - {x}) == (s - rest) + {x};
      rest := rest - {x};
      order := order + [x];
    }
  }

  /**
   * `validate_fields`: the convention check of `FieldValidator` applied to the
   * set's elements in the order `list()` gives them. Every name is either
   * valid or listed with its reason, and never both.
   */
  method ValidateFields(fields: set<string>) returns (validFields: seq<string>, invalidFields: seq<(string, string)>)
    ensures exists order :: (Enumerates(order, fields)
      && validFields == FieldValidator.Accepted(order) && invalidFields == FieldValidator.Rejected(order))
    ensures forall n :: n in validFields <==> n in fields && FieldValidator.IsValid(n)
    ensures forall k :: 0 <= k < |invalidFields| ==>
      invalidFields[k].0 in fields && !FieldValidator.IsValid(invalidFields[k].0)
      && invalidFields[k].1 == FieldValidator.RejectReason(invalidFields[k].0)
    ensures forall n :: n in fields && !FieldValidator.IsValid(n) ==>
      exists k :: 0 <= k < |invalidFields| && invalidFields[k].0 == n
    ensures |validFields| + |invalidFields| == |fields|
  {
    var order := ListOf(fields);
    validFields, invalidFields := FieldValidator.ValidateFields(order);
    FieldValidator.PartitionSizes(order);
    ghost var bad := FieldValidator.Invalid(order);
    assert forall k :: 0 <= k < |invalidFields| ==> invalidFields[k].0 == bad[k] && bad[k] in bad;
    forall n | n in fields && !FieldValidator.IsValid(n)
      ensures exists k :: 0 <= k < |invalidFields| && invalidFields[k].0 == n
    {
      assert n in bad;
      var k :| 0 <= k < |bad| && bad[k] == n;
      assert invalidFields[k].0 == n;
    }
  }

  /** `not v or str(v).strip() == ""`: the value leaves the field without content. */
  predicate Unfilled(v: Value) {
    !Truthy(v) || Strip(Str(v)) == []
  }

  /** A text value is unfilled exactly when it is all whitespace (the empty text included). */
  lemma {:induction false} UnfilledText(s: string)
    ensures Unfilled(VStr(s)) <==> AllSpace(s)
  {
    StripEmptyIffAllSpace(s);
  }

  /** None, False and 0 are unfilled; True is not. */
  lemma UnfilledConstants()
    ensures Unfilled(VNone) && Unfilled(VBool(false)) && Unfilled(VInt(0))
    ensures !Unfilled(VBool(true))
  {
    StripOfNoSpaceEnds("True");
  }

  /**
   * `check_required_fields`: the names with no entry in the data, and the
   * names whose entry is unfilled; each name at most once, and in at most one
   * of the two lists. A name with a filled entry is in neither.
   */
  method CheckRequiredFields(fieldNames: set<string>, availableData: map<string, Value>)
    returns (missingFields: seq<string>, emptyFields: seq<string>)
    ensures forall n :: n in missingFields <==> n in fieldNames && n !in availableData
    ensures forall n :: n in emptyFields <==> n in fieldNames && n in availableData && Unfilled(availableData[n])
    ensures NoDuplicates(missingFields) && NoDuplicates(emptyFields)
    ensures |missingFields| + |emptyFields| <= |fieldNames|
  {
    missingFields := [];
    emptyFields := [];
    var rest := fieldNames;
    while rest != {}
      invariant rest <= fieldNames
      invariant forall n :: n in missingFields <==> n in fieldNames - rest && n !in availableData
      invariant forall n :: n in emptyFields <==> n in fieldNames - rest && n in availableData && Unfilled(availableData[n])
      invariant NoDuplicates(missingFields) && NoDuplicates(emptyFields)
      invariant |missingFields| + |emptyFields| <= |fieldNames - rest|
      decreases rest
    {
      var fieldName :| fieldName in rest;
      assert fieldNames - (rest - {fieldName}) == (fieldNames - rest) + {fieldName};
      assert fieldName !in missingFields && fieldName !in emptyFields;
      rest := rest - {fieldName};
      if fieldName !in availableData {
        NoDuplicatesAppend(missingFields, fieldName);
        missingFields := missingFields + [fieldName];
      } else if !Truthy(availableData[fieldName]) || Strip(Str(availableData[fieldName])) == "" {
        NoDuplicatesAppend(emptyFields, fieldName);
        emptyFields := emptyFields + [fieldName];
      }
    }
  }
}
