/**
 * The stages of ai_services.py that turn a language-model reply into a stage
 * result. The model call is an oracle. `_chamar_gemini` turns its outcome into a
 * `Reply`, and every stage is a total function of its input text and that reply.
 */
module Stages {
  import opened Wrappers
  import opened Text

  /** What `_chamar_gemini` returns: the stripped reply text, or None, and its cost in USD. */
  datatype Reply = Reply(text: Option<string>, cost: real)

  /** The model call itself: it raised, or it answered with a text and a token cost. */
  datatype CallOutcome = Raised | Answered(text: string, cost: real)

  /** The key value shipped in the configuration template. */
  const PlaceholderKey := "SUA_CHAVE_API_DO_GEMINI_AQUI"

  const NoReply := Reply(None, 0.0)

  const Aprovada := "APROVADA"
  const Reprovada := "REPROVADA"

  /** The marker the rewrite prompt asks the model to put between summary and hook. */
  const CaptionSeparator := "|||"

  const DefaultCategory := "Geral"

  /** The reply holds a non-empty text: Python's truthiness of the returned string. */
  predicate HasText(reply: Reply) {
    reply.text.Some? && reply.text.value != ""
  }

  /**
   * `_chamar_gemini`. With no key, or with the template placeholder as the key,
   * the call is skipped. When the call raises, the result is (None, 0.0).
   * Otherwise the answer is stripped and carries its cost.
   */
  function ChamarGemini(apiKey: string, outcome: CallOutcome): (r: Reply)
    ensures r.text.None? <==> (apiKey == "" || apiKey == PlaceholderKey || outcome.Raised?)
    ensures r.text.None? ==> r.cost == 0.0
    ensures r.text.Some? ==> r.cost == outcome.cost
  {
    if apiKey == "" || apiKey == PlaceholderKey then NoReply
    else match outcome
      case Raised => NoReply
      case Answered(text, cost) => Reply(Some(Strip(text)), cost)
  }

  /**
   * An answered call yields the answer without its surrounding whitespace, and
   * that text is already stripped.
   */
  lemma ReplyIsStripped(apiKey: string, outcome: CallOutcome)
    requires ChamarGemini(apiKey, outcome).text.Some?
    ensures var t := ChamarGemini(apiKey, outcome).text.value;
      t == Strip(outcome.text) && Strip(t) == t
  {
    StripIdempotent(outcome.text);
  }

  /**
   * `gerar_titulo_canonico`: the canonical headline is the reply itself and
   * serves as the semantic hash. The function only passes the reply through;
   * what a reply can be is stated by `ChamarGemini`, and what a missing reply
   * does to a candidate by `Pipeline.NoModelNothingQueued`.
   */
  function GerarTituloCanonico(reply: Reply): (r: (Option<string>, real))
    ensures r.0 == reply.text && r.1 == reply.cost
  {
    (reply.text, reply.cost)
  }

  /**
   * `filtrar_relevancia`: only the two expected verdicts pass through. Any other
   * reply, None included, is a rejection, and the cost is kept either way.
   */
  function FiltrarRelevancia(reply: Reply): (r: (string, real))
    ensures r.0 == Aprovada || r.0 == Reprovada
    ensures r.0 == Aprovada <==> reply.text == Some(Aprovada)
    ensures r.1 == reply.cost
  {
    if reply.text == Some(Aprovada) || reply.text == Some(Reprovada) then (reply.text.value, reply.cost)
    else (Reprovada, reply.cost)
  }

  /**
   * `traduzir_texto`. An empty text is returned as is, at no cost. Otherwise the
   * translation is used, or the original when the reply is empty.
   */
  function TraduzirTexto(texto: string, reply: Reply): (r: (string, real))
    ensures texto == "" ==> r == (texto, 0.0)
    ensures texto != "" ==> r.1 == reply.cost && r.0 != ""
    ensures texto != "" ==> r.0 == (if HasText(reply) then reply.text.value else texto)
  {
    if texto == "" then (texto, 0.0)
    else (if HasText(reply) then reply.text.value else texto, reply.cost)
  }

  /**
   * The formatting step of `reescrever_legenda`. A reply that splits into exactly
   * two pieces on `|||` becomes the stripped summary and hook, each without its
   * leading list marker, joined by a blank line. Any other reply only loses its
   * leading marker run.
   */
  function FormatCaption(text: string): string {
    var parts := Split(text, CaptionSeparator);
    if |parts| == 2 then
      StripLeadingMarker(Strip(parts[0])) + "\n\n" + StripLeadingMarker(Strip(parts[1]))
    else
      StripLeadingMarker(text)
  }

  /**
   * `reescrever_legenda`. An empty text is returned as is at no cost, and so is
   * any text whose reply is None or empty: the reply's cost is then dropped.
   */
  function ReescreverLegenda(texto: string, reply: Reply): (r: (string, real))
    ensures texto == "" || !HasText(reply) ==> r == (texto, 0.0)
    ensures texto != "" && HasText(reply) ==> r == (FormatCaption(reply.text.value), reply.cost)
  {
    if texto == "" then (texto, 0.0)
    else if HasText(reply) then (FormatCaption(reply.text.value), reply.cost)
    else (texto, 0.0)
  }

  /**
   * `melhorar_titulo`. An empty title passes through at no cost. Otherwise the
   * reply is used with every double quote removed, or the original title when
   * the reply is empty.
   */
  function MelhorarTitulo(titulo: string, reply: Reply): (r: (string, real))
    ensures titulo == "" ==> r == (titulo, 0.0)
    ensures titulo != "" ==> r.1 == reply.cost
    ensures titulo != "" && !HasText(reply) ==> r.0 == titulo
    ensures titulo != "" && HasText(reply) ==>
      '"' !in r.0 && forall c :: c in reply.text.value && c != '"' <==> c in r.0
    ensures titulo != "" && HasText(reply) ==> r.0 == RemoveAll(reply.text.value, '"')
  {
    if titulo == "" then (titulo, 0.0)
    else (if HasText(reply) then RemoveAll(reply.text.value, '"') else titulo, reply.cost)
  }

  /** `categorizar_noticia`: the reply, or "Geral" when it is None or empty. */
  function CategorizarNoticia(reply: Reply): (r: (string, real))
    ensures r.0 != ""
    ensures r.0 == (if HasText(reply) then reply.text.value else DefaultCategory)
    ensures r.1 == reply.cost
  {
    (if HasText(reply) then reply.text.value else DefaultCategory, reply.cost)
  }

  /** `gerar_hashtags`: nothing for an empty text; otherwise the reply, or "" when it is None. */
  function GerarHashtags(texto: string, reply: Reply): (r: (string, real))
    ensures texto == "" ==> r == ("", 0.0)
    ensures texto != "" ==> r.1 == reply.cost && r.0 == reply.text.GetOr("")
  {
    if texto == "" then ("", 0.0) else (reply.text.GetOr(""), reply.cost)
  }

  // ---------------------------------------------------------------------------
  // Properties of the caption rule
  // ---------------------------------------------------------------------------

  /**
   * Exactly one `|||` in the reply: the caption is built from the text before
   * it and the text after it, neither of which contains another separator.
   */
  lemma CaptionOfTwoPieces(text: string)
    requires |Split(text, CaptionSeparator)| == 2
    ensures var a, b := Split(text, CaptionSeparator)[0], Split(text, CaptionSeparator)[1];
      text == a + CaptionSeparator + b &&
      !Contains(a, CaptionSeparator) && !Contains(b, CaptionSeparator) &&
      FormatCaption(text) == StripLeadingMarker(Strip(a)) + "\n\n" + StripLeadingMarker(Strip(b))
  {
    SplitTwo(text, CaptionSeparator);
  }

  /**
   * No `|||` in the reply, or two or more: the caption is the whole reply with
   * at most its leading `\s*[\d.\-*]+\s*` run removed (what that removes is
   * stated by `StripLeadingMarker` and `StripLeadingMarkerRemovesRun`).
   */
  lemma CaptionOfWholeReply(text: string)
    requires |Split(text, CaptionSeparator)| != 2
    ensures FormatCaption(text) == StripLeadingMarker(text)
  {
  }

  /**
   * Two `|||` that do not overlap give three or more pieces, so the reply is
   * again kept whole apart from its leading marker run.
   */
  lemma CaptionWithSeveralSeparators(text: string, i: int, j: int)
    requires OccursAt(text, CaptionSeparator, i) && OccursAt(text, CaptionSeparator, j)
    requires i + |CaptionSeparator| <= j
    ensures FormatCaption(text) == StripLeadingMarker(text)
  {
    SplitAtLeastThree(text, CaptionSeparator, i, j);
  }

  /** A reply with no separator at all is the one-piece case. */
  lemma CaptionWithoutSeparator(text: string)
    requires !Contains(text, CaptionSeparator)
    ensures FormatCaption(text) == StripLeadingMarker(text)
  {
    SplitOne(text, CaptionSeparator);
  }

  /** The refined title is stable: refining with the refined title as reply changes nothing more. */
  lemma RefinedTitleHasNoQuotes(titulo: string, reply: Reply)
    requires titulo != "" && HasText(reply)
    ensures var t := MelhorarTitulo(titulo, reply).0; RemoveAll(t, '"') == t
  {
    RemoveAllIdempotent(reply.text.value, '"');
  }

  /**
   * A skipped or failed model call leaves every stage at its fallback: the
   * verdict rejects, the texts pass through, the category is "Geral", and
   * nothing is charged.
   */
  lemma NoKeyFallbacks(apiKey: string, outcome: CallOutcome, texto: string)
    requires apiKey == "" || apiKey == PlaceholderKey || outcome.Raised?
    ensures var reply := ChamarGemini(apiKey, outcome);
      FiltrarRelevancia(reply) == (Reprovada, 0.0) &&
      TraduzirTexto(texto, reply) == (texto, 0.0) &&
      ReescreverLegenda(texto, reply) == (texto, 0.0) &&
      MelhorarTitulo(texto, reply) == (texto, 0.0) &&
      CategorizarNoticia(reply) == (DefaultCategory, 0.0) &&
      GerarHashtags(texto, reply) == ("", 0.0)
  {
  }
}
