/**
 * The two text transformations of the score classifier: dropping the
 * "pontuação " lead-in of a WISC classification, and filling the analysis
 * sentence template of a WISC index.
 */
module ScoreText {
  import opened Strings
  import opened Values

  /** The lead-in dropped from WISC classifications, compared case-insensitively. */
  const PontuacaoPrefix: string := "pontuação "

  /** `text[:1].upper() + text[1:] if text else text` */
  function Capitalized(text: string): (r: string)
    ensures text == [] ==> r == []
    ensures text != [] ==> r == UpperChar(text[0]) + text[1..]
  {
    if text == [] then text else UpperChar(text[0]) + text[1..]
  }

  /**
   * `_strip_pontuacao_prefix`: drops a leading "pontuação " in any letter
   * case, then upper-cases the first character that is left.
   */
  function StripPontuacaoPrefix(text: string): string {
    var rest := if StartsWith(Lower(text), PontuacaoPrefix) then text[|PontuacaoPrefix|..] else text;
    Capitalized(rest)
  }

  /** "Pontuação média" and "PONTUAÇÃO média" both become "Média". */
  lemma {:induction false} PrefixDroppedInAnyCase(rest: string)
    requires rest != [] && 'a' <= rest[0] <= 'z'
    ensures StripPontuacaoPrefix("Pontuação " + rest) == [(rest[0] as int - 32) as char] + rest[1..]
    ensures StripPontuacaoPrefix("PONTUAÇÃO " + rest) == [(rest[0] as int - 32) as char] + rest[1..]
  {
    LeadInDropped("Pontuação ", rest);
    LeadInDropped("PONTUAÇÃO ", rest);
  }

  lemma {:induction false} LeadInDropped(lead: string, rest: string)
    requires |lead| == |PontuacaoPrefix| && Lower(lead) == PontuacaoPrefix
    ensures StripPontuacaoPrefix(lead + rest) == Capitalized(rest)
  {
    var text := lead + rest;
    assert Lower(text)[..|lead|] == Lower(lead);
    assert text[|lead|..] == rest;
  }

  /** A text whose lower-cased form does not start with the lead-in only has its first character changed. */
  lemma {:induction false} OtherTextsOnlyCapitalized(text: string)
    requires !StartsWith(Lower(text), PontuacaoPrefix)
    ensures StripPontuacaoPrefix(text) == Capitalized(text)
    ensures text != [] ==> StripPontuacaoPrefix(text)[|UpperChar(text[0])|..] == text[1..]
  {
  }

  /** A non-empty result never starts with a lower-case ASCII letter. */
  lemma {:induction false} NoLowerCaseStart(text: string)
    ensures var r := StripPontuacaoPrefix(text);
      r != [] ==> !('a' <= r[0] <= 'z')
  {
  }

  /** The analysis template key of each WISC index. */
  function OptionKey(prefix: string): Option<string> {
    if prefix == "QIT" then Some("QIT_conclusao")
    else if prefix == "ICV" then Some("ICV_text_out")
    else if prefix == "IOP" then Some("IOP_text_out")
    else if prefix == "IMO" then Some("IMO_text_out")
    else if prefix == "IVP" then Some("IVP_text_out")
    else None
  }

  /** The complement of the four index sentences, and the general one for any other prefix. */
  function Complement(prefix: string): string {
    if prefix == "ICV" then "resultados coerentes com as habilidades verbais observadas"
    else if prefix == "IOP" then "resultados alinhados ao desempenho em tarefas visuoespaciais"
    else if prefix == "IMO" then "desempenho compatível com a capacidade de atenção e memória operacional"
    else if prefix == "IVP" then "resultado condizente com a velocidade de processamento apresentada"
    else "resultados compatíveis com a pontuação obtida"
  }

  /**
   * The first analysis template for `prefix` in the WISC table
   * (`opcoes_texto_analise[key][0]`), if every step of the lookup finds
   * what it expects.
   */
  function AnalysisTemplate(tables: map<string, Json>, prefix: string): Option<string> {
    if "wisc" !in tables || !tables["wisc"].JObject? then None
    else
      var table := tables["wisc"].fields;
      if "opcoes_texto_analise" !in table || !table["opcoes_texto_analise"].JObject? then None
      else
        var options := table["opcoes_texto_analise"].fields;
        var key := OptionKey(prefix);
        if key.None? || key.value !in options then None
        else
          var texts := options[key.value];
          if !texts.JList? || texts.items == [] || !texts.items[0].JStr? then None
          else Some(texts.items[0].s)
  }

  /** The template with both markers filled; the complement only where its marker is left. */
  function Completed(template: string, prefix: string, classification: string): string {
    var prepared := ReplaceAll(template, "[CLASSIFICAÇÃO AQUI]", classification);
    if Contains(prepared, "[COMPLEMENTO AQUI]")
    then ReplaceAll(prepared, "[COMPLEMENTO AQUI]", Complement(prefix))
    else prepared
  }

  /** `" ".join(s.split())`: every run of whitespace collapsed to one space, none at the ends. */
  function Collapsed(s: string): string {
    Join(Words(s), " ")
  }

  /**
   * The sentence body: markers filled, the space before "," and "." removed,
   * and whitespace collapsed.
   */
  function Filled(template: string, prefix: string, classification: string): string {
    var completed := Completed(template, prefix, classification);
    Collapsed(Strip(ReplaceAll(ReplaceAll(completed, " ,", ","), " .", ".")))
  }

  /**
   * `_build_wisc_text`: the filled analysis sentence of a WISC index; for QIT
   * it is led by the classification itself. An empty sentence is None.
   */
  function BuildWiscText(tables: map<string, Json>, prefix: string, classification: string): (r: Option<string>)
    ensures r.Some? ==> r.value != []
    ensures r.Some? && prefix == "QIT" ==> StartsWith(r.value, classification)
  {
    match AnalysisTemplate(tables, prefix)
    case None => None
    case Some(template) =>
      var body := Filled(template, prefix, classification);
      var prepared := if prefix == "QIT" then (if body != [] then classification + ". " + body else classification) else body;
      if prepared == [] then None else Some(prepared)
  }

  /** A single space between non-empty words, and no whitespace at either end. */
  predicate Normal(s: string) {
    (s == [] || (!IsSpace(s[0]) && !IsSpace(s[|s| - 1])))
    && forall i :: 0 <= i < |s| && IsSpace(s[i]) ==> s[i] == ' ' && i + 1 < |s| && !IsSpace(s[i + 1])
  }

  lemma {:induction false} CollapsedIsNormal(s: string)
    ensures Normal(Collapsed(s))
  {
    JoinWordsNormal(Words(s));
  }

  lemma {:induction false} JoinWordsNormal(ws: seq<string>)
    requires forall i :: 0 <= i < |ws| ==> ws[i] != [] && NoSpace(ws[i])
    ensures Normal(Join(ws, " "))
    decreases |ws|
  {
    if |ws| > 1 {
      JoinWordsNormal(ws[1..]);
      var tail := Join(ws[1..], " ");
      var s := ws[0] + " " + tail;
      assert Join(ws, " ") == s;
      forall i | 0 <= i < |s| && IsSpace(s[i])
        ensures s[i] == ' ' && i + 1 < |s| && !IsSpace(s[i + 1])
      {
        if i > |ws[0]| {
          assert s[i] == tail[i - |ws[0]| - 1];
        } else {
          assert i == |ws[0]|;
        }
      }
    }
  }

  /**
   * Every ICV, IOP, IMO and IVP sentence the WISC builder returns is non-empty
   * and whitespace-normal; QitTextLeadsWithClassification describes the QIT one.
   */
  lemma {:induction false} WiscTextIsNormal(tables: map<string, Json>, prefix: string, classification: string)
    requires prefix != "QIT"
    ensures var r := BuildWiscText(tables, prefix, classification);
      r.Some? ==> r.value != [] && Normal(r.value)
  {
    var t := AnalysisTemplate(tables, prefix);
    if t.Some? {
      var completed := Completed(t.value, prefix, classification);
      CollapsedIsNormal(Strip(ReplaceAll(ReplaceAll(completed, " ,", ","), " .", ".")));
    }
  }

  /** The QIT sentence leads with the classification, followed by ". " and the body when there is one. */
  lemma {:induction false} QitTextLeadsWithClassification(tables: map<string, Json>, template: string, classification: string)
    requires AnalysisTemplate(tables, "QIT") == Some(template)
    ensures var r := BuildWiscText(tables, "QIT", classification);
      var body := Filled(template, "QIT", classification);
      (r.Some? <==> classification != [] || body != [])
      && (r.Some? ==> StartsWith(r.value, classification))
      && (r.Some? && body != [] ==> r.value[|classification|..] == ". " + body)
  {
    var body := Filled(template, "QIT", classification);
    LeadsWith(classification, body);
  }

  lemma {:induction false} LeadsWith(classification: string, body: string)
    ensures StartsWith(classification, classification)
    ensures StartsWith(classification + ". " + body, classification)
    ensures (classification + ". " + body)[|classification|..] == ". " + body
  {
    assert classification[..|classification|] == classification;
    assert (classification + ". " + body)[..|classification|] == classification;
  }

  /** Without a WISC table, or without a template for the prefix, there is no sentence. */
  lemma {:induction false} NoTemplateNoText(tables: map<string, Json>, prefix: string, classification: string)
    requires "wisc" !in tables || OptionKey(prefix).None?
    ensures BuildWiscText(tables, prefix, classification) == None
  {
  }
}
