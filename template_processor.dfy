/**
 * TemplateProcessor: the facade over extraction, validation and replacement.
 * It holds an optional current document; every operation that takes an
 * optional document works on that one when given, and on the current one
 * otherwise (`document or self.document`).
 */
module TemplateProcessor {
  import opened Values
  import opened Docx
  import opened Placeholders
  import Extractor
  import FieldValidator
  import TemplateValidator
  import Replacer

  /** The placeholder names of an optional document; none without one. */
  function DocumentFields(document: Option<Document>): set<string>
    reads Replacer.ParagraphsOf(document)
  {
    if document.None? then {} else Extractor.NamesOf(Paragraphs(document.value))
  }

  class TemplateProcessor {
    var document: Option<Document>

    constructor (document: Option<Document>)
      ensures this.document == document
    {
      this.document := document;
    }

    /** `set_document` */
    method SetDocument(document: Document)
      modifies this
      ensures this.document == Some(document)
    {
      this.document := Some(document);
    }

    /** `document or self.document`: a python-docx document object is always truthy. */
    function Chosen(document: Option<Document>): (d: Option<Document>)
      reads this
      ensures document.Some? ==> d == document
      ensures document.None? ==> d == this.document
    {
      if document.Some? then document else this.document
    }

    /**
     * `extract_fields`: the names used by the chosen document; a name is
     * reported exactly when `{name}` occurs in the text of one of its paragraphs.
     */
    method ExtractFields(document: Option<Document>) returns (fields: set<string>)
      ensures fields == DocumentFields(Chosen(document))
      ensures Chosen(document).None? ==> fields == {}
      ensures Chosen(document).Some? ==> forall n :: n in fields <==>
        exists k, i: nat :: 0 <= k < |Paragraphs(Chosen(document).value)|
          && OccursAt(Text(Paragraphs(Chosen(document).value)[k]), i, n)
    {
      fields := Extractor.ExtractFields(Chosen(document));
    }

    /**
     * `validate_fields`: the naming-convention partition of the names the
     * chosen document uses.
     */
    method ValidateFields(document: Option<Document>) returns (validFields: seq<string>, invalidFields: seq<(string, string)>)
      ensures exists order :: (TemplateValidator.Enumerates(order, DocumentFields(Chosen(document)))
        && validFields == FieldValidator.Accepted(order) && invalidFields == FieldValidator.Rejected(order))
      ensures forall n :: n in validFields <==> n in DocumentFields(Chosen(document)) && FieldValidator.IsValid(n)
      ensures |validFields| + |invalidFields| == |DocumentFields(Chosen(document))|
    {
      if Chosen(document).Some? {
        ParagraphsAllocated(Chosen(document).value);
      }
      var fields := ExtractFields(document);
      validFields, invalidFields := TemplateValidator.ValidateFields(fields);
    }

    /** `check_required_fields`: the validator's missing and unfilled names, unchanged. */
    method CheckRequiredFields(fieldNames: set<string>, availableData: map<string, Value>)
      returns (missingFields: seq<string>, emptyFields: seq<string>)
      ensures forall n :: n in missingFields <==> n in fieldNames && n !in availableData
      ensures forall n :: n in emptyFields <==>
        n in fieldNames && n in availableData && TemplateValidator.Unfilled(availableData[n])
      ensures TemplateValidator.NoDuplicates(missingFields) && TemplateValidator.NoDuplicates(emptyFields)
    {
      missingFields, emptyFields := TemplateValidator.CheckRequiredFields(fieldNames, availableData);
    }

    /**
     * `replace_fields`: fills every placeholder of the chosen document in
     * place and returns that document; with no document at all it fails with
     * the source's error message.
     */
    method ReplaceFields(fieldMapping: map<string, string>, document: Option<Document>) returns (r: Result<Document>)
      modifies Replacer.ParagraphsOf(Chosen(document))
      ensures Chosen(document).None? <==> r == Err("No document provided for field replacement")
      ensures Chosen(document).Some? ==> r == Ok(Chosen(document).value)
      ensures Distinct(Replacer.ParagraphsOf(Chosen(document))) ==>
        var before := old(Texts(Replacer.ParagraphsOf(Chosen(document))));
        var after := Texts(Replacer.ParagraphsOf(Chosen(document)));
        |after| == |before| && forall k :: 0 <= k < |after| ==> after[k] == Substituted(before[k], 0, fieldMapping)
    {
      var doc := Chosen(document);
      if doc.None? {
        return Err("No document provided for field replacement");
      }
      ghost var before := Texts(Paragraphs(doc.value));
      var count := Replacer.ReplaceFields(doc, fieldMapping);
      assert Replacer.ParagraphsOf(Chosen(document)) == Paragraphs(doc.value);
      return Ok(doc.value);
    }
  }
}
