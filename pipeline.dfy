/**
 * The per-candidate pipeline of `processar_noticias` (app.py) and
 * `processar_noticias_agente` (agent_manager.py), and the posting step of
 * `postar_da_fila` and `postar_da_fila_agente`. The two programs repeat the
 * same code. The agent version adds a title-duplicate check before the
 * semantic one, and `checkTitle` selects it.
 *
 * The oracles are the model replies (`Replies`), the image check of
 * `validar_imagem` and the agent's title query for one candidate
 * (`CandidateOracle`), and the image, hashtag reply and upload result of one
 * post (`PostOracle`).
 */
module Pipeline {
  import opened Wrappers
  import opened Text
  import opened Store
  import opened Stages
  import opened NewsFeed

  /** The separator before a source name at the end of a headline. */
  const SourceSuffix := " - "
  /** How much of the title a rejection record keeps. */
  const TitleExcerpt := 150

  const MotivoTitulo := "Título já processado"
  const MotivoSemantica := "Duplicata Semântica"
  const MotivoFalha := "Erro durante postagem"
  const MotivoManual := "Rejeitado manualmente"
  const SemConteudo := "Sem conteúdo adicional."
  /** The handle in the single-tenant caption. */
  const HandlePadrao := "noticiasbr.ai"

  /** The replies of the model stages for one candidate, in pipeline order. */
  datatype Replies = Replies(
    canonical: Reply, filter: Reply, titleTranslation: Reply, bodyTranslation: Reply,
    refine: Reply, rewrite: Reply, category: Reply)

  /**
   * Everything outside the program that one candidate meets: `validar_imagem`,
   * the agent's title-duplicate query, and the model replies.
   */
  datatype CandidateOracle = CandidateOracle(imageOk: bool, titleSeen: bool, replies: Replies)

  /**
   * The terminal outcome of one candidate. It is skipped, or it aborts the
   * cycle with an exception, or one REJEITADA record is written, or it is queued.
   */
  datatype Decision =
    | Skip
    | Abort
    | Reject(n: Noticia, motivo: string)
    | Queue(hash: Option<string>, e: Entry)

  /** The raw headline without a trailing " - source". */
  function TituloOriginal(raw: string): string {
    BeforeLast(raw, SourceSuffix)
  }

  /**
   * `noticia.get("content") or noticia.get("description", "")`: None when the
   * content is empty and the description is None.
   */
  function ConteudoOriginal(a: Article): Option<string> {
    if a.content != "" then Some(a.content) else a.description
  }

  /** Translation of title and body, only for English candidates: (title, body, cost). */
  function Translate(idioma: string, titulo: string, conteudo: string, r: Replies): (string, string, real) {
    if idioma == "en" then
      var t := TraduzirTexto(titulo, r.titleTranslation);
      var b := TraduzirTexto(conteudo, r.bodyTranslation);
      (t.0, b.0, t.1 + b.1)
    else (titulo, conteudo, 0.0)
  }

  /** The entry queued after an approval: translate, refine, rewrite, categorise, with the summed cost. */
  function ApprovedEntry(c: Candidate, titulo: string, conteudo: string, custo: real, r: Replies): Entry {
    var tr := Translate(c.idiomaOriginal, titulo, conteudo, r);
    var refino := MelhorarTitulo(tr.0, r.refine);
    var reescrita := ReescreverLegenda(tr.1, r.rewrite);
    var categoria := CategorizarNoticia(r.category);
    Entry(titulo, refino.0, c.article.description, conteudo, reescrita.0, c.article.image,
          c.article.source, categoria.0, c.idiomaOriginal, c.apiFonte,
          custo + tr.2 + refino.1 + (reescrita.1 + categoria.1))
  }

  /** What one candidate does to the store `s`. */
  function Triage(s: StoreState, c: Candidate, o: CandidateOracle, checkTitle: bool): Decision {
    if c.article.title == "" || !o.imageOk then Skip
    else
      var titulo := TituloOriginal(c.article.title);
      match ConteudoOriginal(c.article)
      case None => Abort
      case Some(conteudo) =>
        var canon := GerarTituloCanonico(o.replies.canonical);
        var dados := Noticia(titulo, "", canon.0, conteudo, "", c.idiomaOriginal, c.apiFonte, Some(canon.1));
        if checkTitle && o.titleSeen then
          Reject(dados.(tituloRefinado := "[DUPLICATA TÍTULO] " + Prefix(titulo, TitleExcerpt)), MotivoTitulo)
        else if IsSemanticDuplicate(s, canon.0) then
          Reject(dados.(tituloRefinado := "[DUPLICATA] " + Prefix(titulo, TitleExcerpt)), MotivoSemantica)
        else
          var filtro := FiltrarRelevancia(o.replies.filter);
          var custo := canon.1 + filtro.1;
          if filtro.0 != Aprovada then
            Reject(dados.(tituloRefinado := "[REJEITADO] " + Prefix(titulo, TitleExcerpt),
                          conteudoReescrito := "", custo := Some(custo)), filtro.0)
          else Queue(canon.0, ApprovedEntry(c, titulo, conteudo, custo, o.replies))
  }

  /** The store after a decision. */
  function Apply(s: StoreState, d: Decision, now: nat): StoreState {
    match d
    case Skip => s
    case Abort => s
    case Reject(n, motivo) => Record(s, n, Rejeitada, motivo, now)
    case Queue(h, e) => Enqueue(s, h, e, now)
  }

  /**
   * The loop over the fetched candidates, as a function: the final store and
   * whether an exception ended the cycle. Candidate `i` meets oracle `os(i)`.
   */
  function RunBatch(s: StoreState, cands: seq<Candidate>, os: nat -> CandidateOracle, checkTitle: bool, now: nat)
    : (StoreState, bool)
  {
    if cands == [] then (s, false)
    else
      var prev := RunBatch(s, cands[..|cands| - 1], os, checkTitle, now);
      if prev.1 then prev
      else
        var d := Triage(prev.0, cands[|cands| - 1], os(|cands| - 1), checkTitle);
        (Apply(prev.0, d, now), d.Abort?)
  }

  /**
   * The loop body of `processar_noticias` up to its one write: the checks in
   * order, the history row being filled in, and the cost accumulator. It only
   * reads the store.
   */
  method Decidir(db: Database, c: Candidate, o: CandidateOracle, checkTitle: bool) returns (d: Decision)
    ensures d == Triage(db.State(), c, o, checkTitle)
  {
    var custoTotal := 0.0;
    var tituloBruto := c.article.title;
    if tituloBruto == "" || !o.imageOk {
      return Skip;
    }
    var titulo := TituloOriginal(tituloBruto);
    var conteudoOuNada := ConteudoOriginal(c.article);
    if conteudoOuNada.None? {
      return Abort;  // TypeError: the canonical-title prompt slices None
    }
    var conteudo := conteudoOuNada.value;
    var canon := GerarTituloCanonico(o.replies.canonical);
    custoTotal := custoTotal + canon.1;
    var dados := Noticia(titulo, "", canon.0, conteudo, "", c.idiomaOriginal, c.apiFonte, Some(custoTotal));
    if checkTitle && o.titleSeen {
      dados := dados.(tituloRefinado := "[DUPLICATA TÍTULO] " + Prefix(titulo, TitleExcerpt));
      return Reject(dados, MotivoTitulo);
    }
    var duplicata := db.VerificarDuplicataSemantica(canon.0);
    if duplicata {
      dados := dados.(tituloRefinado := "[DUPLICATA] " + Prefix(titulo, TitleExcerpt));
      return Reject(dados, MotivoSemantica);
    }
    var filtro := FiltrarRelevancia(o.replies.filter);
    custoTotal := custoTotal + filtro.1;
    dados := dados.(custo := Some(custoTotal));
    if filtro.0 != Aprovada {
      dados := dados.(tituloRefinado := "[REJEITADO] " + Prefix(titulo, TitleExcerpt), conteudoReescrito := "");
      return Reject(dados, filtro.0);
    }
    var entrada := PrepararEntrada(c, titulo, conteudo, custoTotal, o.replies);
    return Queue(canon.0, entrada);
  }

  /** One candidate: decide, then write the one row the decision calls for. */
  method ProcessarCandidato(db: Database, c: Candidate, o: CandidateOracle, checkTitle: bool, now: nat)
    returns (aborted: bool)
    requires db.Valid() && StampOk(db.State(), now)
    modifies db
    ensures db.Valid() && StampOk(db.State(), now)
    ensures aborted == Triage(old(db.State()), c, o, checkTitle).Abort?
    ensures db.State() == Apply(old(db.State()), Triage(old(db.State()), c, o, checkTitle), now)
  {
    var d := Decidir(db, c, o, checkTitle);
    aborted := d.Abort?;
    match d
    case Skip =>
    case Abort =>
    case Reject(n, motivo) => db.RegistrarNoHistorico(n, Rejeitada, motivo, now);
    case Queue(hash, entrada) => db.AdicionarNaFila(hash, entrada, now);
  }

  /** The stages after the filter approved, accumulating the cost step by step. */
  method PrepararEntrada(c: Candidate, titulo: string, conteudo: string, custo: real, r: Replies)
    returns (entrada: Entry)
    ensures entrada == ApprovedEntry(c, titulo, conteudo, custo, r)
  {
    var custoTotal := custo;
    var tituloProcessado, conteudoProcessado := titulo, conteudo;
    if c.idiomaOriginal == "en" {
      var t := TraduzirTexto(titulo, r.titleTranslation);
      var b := TraduzirTexto(conteudo, r.bodyTranslation);
      tituloProcessado, conteudoProcessado := t.0, b.0;
      custoTotal := custoTotal + (t.1 + b.1);
    }
    var refino := MelhorarTitulo(tituloProcessado, r.refine);
    custoTotal := custoTotal + refino.1;
    var reescrita := ReescreverLegenda(conteudoProcessado, r.rewrite);
    var categoria := CategorizarNoticia(r.category);
    custoTotal := custoTotal + (reescrita.1 + categoria.1);
    entrada := Entry(titulo, refino.0, c.article.description, conteudo, reescrita.0, c.article.image,
                     c.article.source, categoria.0, c.idiomaOriginal, c.apiFonte, custoTotal);
  }

  /** The `for noticia in noticias` loop; an exception ends it. */
  method ProcessarLote(db: Database, cands: seq<Candidate>, os: nat -> CandidateOracle, checkTitle: bool, now: nat)
    returns (aborted: bool)
    requires db.Valid() && StampOk(db.State(), now)
    modifies db
    ensures db.Valid() && StampOk(db.State(), now)
    ensures (db.State(), aborted) == RunBatch(old(db.State()), cands, os, checkTitle, now)
  {
    aborted := false;
    var i := 0;
    while i < |cands|
      invariant 0 <= i <= |cands|
      invariant db.Valid() && StampOk(db.State(), now)
      invariant (db.State(), false) == RunBatch(old(db.State()), cands[..i], os, checkTitle, now)
    {
      assert cands[..i + 1][..i] == cands[..i];
      aborted := ProcessarCandidato(db, cands[i], os(i), checkTitle, now);
      if aborted {
        AbortEndsBatch(old(db.State()), cands, os, checkTitle, now, i + 1);
        return;
      }
      i := i + 1;
    }
    assert cands[..i] == cands;
  }

  /** Once a candidate has raised, the rest of the batch changes nothing. */
  lemma {:induction false} AbortEndsBatch(
    s: StoreState, cands: seq<Candidate>, os: nat -> CandidateOracle, checkTitle: bool, now: nat, k: nat)
    requires k <= |cands| && RunBatch(s, cands[..k], os, checkTitle, now).1
    ensures RunBatch(s, cands, os, checkTitle, now) == RunBatch(s, cands[..k], os, checkTitle, now)
    decreases |cands| - k
  {
    if k < |cands| {
      assert cands[..k + 1][..k] == cands[..k];
      AbortEndsBatch(s, cands, os, checkTitle, now, k + 1);
    } else {
      assert cands[..k] == cands;
    }
  }

  // ---------------------------------------------------------------------------
  // Properties of one candidate
  // ---------------------------------------------------------------------------

  /**
   * The original title is the raw headline up to its last " - ", or the whole
   * headline when it has none: a prefix of the raw title, followed there by the
   * separator, and with no separator after that point.
   */
  lemma TituloOriginalDropsSource(raw: string)
    ensures var t := TituloOriginal(raw);
      t == raw[..|t|] &&
      (!Contains(raw, SourceSuffix) ==> t == raw) &&
      (Contains(raw, SourceSuffix) ==>
        |t| + |SourceSuffix| <= |raw| && raw[|t|..|t| + |SourceSuffix|] == SourceSuffix &&
        !Contains(raw[|t| + 1..], SourceSuffix))
  {
    var t := TituloOriginal(raw);
    if Contains(raw, SourceSuffix) {
      var rest := raw[|t| + 1..];
      if Contains(rest, SourceSuffix) {
        var j :| 0 <= j && OccursAt(rest, SourceSuffix, j);
        assert OccursAt(raw, SourceSuffix, |t| + 1 + j);
      }
    }
  }

  /** No title or a failed image check: skipped before any model call, record or cost. */
  lemma SkipIff(s: StoreState, c: Candidate, o: CandidateOracle, checkTitle: bool, now: nat)
    ensures Triage(s, c, o, checkTitle) == Skip <==> (c.article.title == "" || !o.imageOk)
    ensures Triage(s, c, o, checkTitle) == Skip ==> Apply(s, Skip, now) == s
  {
  }

  /**
   * A title-less body (no content and a None description) raises when the
   * canonical-title prompt slices it: the cycle ends and the store is untouched.
   */
  lemma AbortIff(s: StoreState, c: Candidate, o: CandidateOracle, checkTitle: bool)
    ensures Triage(s, c, o, checkTitle) == Abort <==>
      (c.article.title != "" && o.imageOk && c.article.content == "" && c.article.description.None?)
  {
  }

  /**
   * The agent's title check runs first. A hit writes one REJEITADA record under
   * the canonical hash, "Título já processado", charging only the hash call.
   */
  lemma TitleCheckFirst(s: StoreState, c: Candidate, o: CandidateOracle)
    requires c.article.title != "" && o.imageOk && ConteudoOriginal(c.article).Some?
    requires o.titleSeen
    ensures var d := Triage(s, c, o, true);
      d.Reject? && d.motivo == MotivoTitulo &&
      d.n.semanticHash == o.replies.canonical.text && d.n.custo == Some(o.replies.canonical.cost) &&
      d.n.tituloRefinado == "[DUPLICATA TÍTULO] " + Prefix(TituloOriginal(c.article.title), TitleExcerpt)
  {
  }

  /** A semantic duplicate writes one REJEITADA record, "Duplicata Semântica". */
  lemma SemanticDuplicateRejects(s: StoreState, c: Candidate, o: CandidateOracle, checkTitle: bool)
    requires c.article.title != "" && o.imageOk && ConteudoOriginal(c.article).Some?
    requires !(checkTitle && o.titleSeen) && IsSemanticDuplicate(s, o.replies.canonical.text)
    ensures var d := Triage(s, c, o, checkTitle);
      d.Reject? && d.motivo == MotivoSemantica &&
      d.n.semanticHash == o.replies.canonical.text && d.n.custo == Some(o.replies.canonical.cost)
  {
  }

  /**
   * Past both duplicate checks, anything but an "APROVADA" reply is a rejection
   * whose reason is the verdict "REPROVADA". The record is charged the hash and
   * filter calls, and its rewritten content is empty.
   */
  lemma FilterRejects(s: StoreState, c: Candidate, o: CandidateOracle, checkTitle: bool)
    requires c.article.title != "" && o.imageOk && ConteudoOriginal(c.article).Some?
    requires !(checkTitle && o.titleSeen) && !IsSemanticDuplicate(s, o.replies.canonical.text)
    requires o.replies.filter.text != Some(Aprovada)
    ensures var d := Triage(s, c, o, checkTitle);
      d.Reject? && d.motivo == Reprovada && d.n.conteudoReescrito == "" &&
      d.n.custo == Some(o.replies.canonical.cost + o.replies.filter.cost)
  {
  }

  /** A rejection writes at most one history row, charges its cost, and never touches the queue. */
  lemma RejectionNeverQueues(s: StoreState, n: Noticia, motivo: string, now: nat)
    ensures var r := Apply(s, Reject(n, motivo), now);
      r.queue == s.queue && s.history <= r.history && |r.history| <= |s.history| + 1 &&
      r.lifetimeCost == s.lifetimeCost + CostOf(n)
  {
  }

  /**
   * A queued candidate passed every check. Its hash is non-empty and new, so the
   * enqueue appends exactly that entry. The category is never empty, and the
   * cost is the sum of all stage costs, the translations only for English.
   */
  lemma QueuedCandidate(s: StoreState, c: Candidate, o: CandidateOracle, checkTitle: bool, now: nat)
    requires Triage(s, c, o, checkTitle).Queue?
    ensures var d := Triage(s, c, o, checkTitle);
      var r := o.replies;
      var titulo := TituloOriginal(c.article.title);
      var conteudo := ConteudoOriginal(c.article).value;
      var tr := Translate(c.idiomaOriginal, titulo, conteudo, r);
      c.article.title != "" && o.imageOk && !(checkTitle && o.titleSeen) &&
      d.hash == r.canonical.text && d.hash.Some? && d.hash.value != "" &&
      !QueueHasHash(s.queue, d.hash.value) && !HistoryHasHash(s.history, d.hash.value) &&
      r.filter.text == Some(Aprovada) &&
      d.e.categoria != "" &&
      d.e.tituloOriginal == titulo &&
      d.e.tituloRefinado == MelhorarTitulo(tr.0, r.refine).0 &&
      d.e.conteudoReescrito == ReescreverLegenda(tr.1, r.rewrite).0 &&
      d.e.custo == r.canonical.cost + r.filter.cost + tr.2 +
        MelhorarTitulo(tr.0, r.refine).1 + ReescreverLegenda(tr.1, r.rewrite).1 + r.category.cost &&
      Apply(s, d, now).queue == s.queue + [QueueItem(s.nextId, d.hash.value, d.e, now)] &&
      Apply(s, d, now).history == s.history
  {
  }

  /** Title and body are translated only for English candidates, and the translation costs are charged only then. */
  lemma TranslationOnlyForEnglish(idioma: string, titulo: string, conteudo: string, r: Replies)
    ensures idioma != "en" ==> Translate(idioma, titulo, conteudo, r) == (titulo, conteudo, 0.0)
    ensures idioma == "en" ==> (
      Translate(idioma, titulo, conteudo, r) ==
      (TraduzirTexto(titulo, r.titleTranslation).0, TraduzirTexto(conteudo, r.bodyTranslation).0,
       TraduzirTexto(titulo, r.titleTranslation).1 + TraduzirTexto(conteudo, r.bodyTranslation).1))
  {
  }

  /** For a non-English candidate the translation replies play no part at all. */
  lemma TranslationRepliesIrrelevant(s: StoreState, c: Candidate, o: CandidateOracle, checkTitle: bool, t: Reply, b: Reply)
    requires c.idiomaOriginal != "en"
    ensures Triage(s, c, o, checkTitle) ==
      Triage(s, c, o.(replies := o.replies.(titleTranslation := t, bodyTranslation := b)), checkTitle)
  {
  }

  /** The single-tenant program has no title check. */
  lemma NoTitleCheckInApp(s: StoreState, c: Candidate, o: CandidateOracle)
    ensures Triage(s, c, o, false) == Triage(s, c, o.(titleSeen := false), true)
    ensures Triage(s, c, o, false).Reject? ==> Triage(s, c, o, false).motivo != MotivoTitulo
  {
  }

  /**
   * Without a model key every model call yields (None, 0.0). The None hash then
   * fails the duplicate check closed, so no candidate is ever queued: each one
   * is skipped, aborts, or is rejected as a duplicate at no cost.
   */
  lemma NoModelNothingQueued(s: StoreState, c: Candidate, o: CandidateOracle, checkTitle: bool)
    requires o.replies.canonical == NoReply
    ensures var d := Triage(s, c, o, checkTitle);
      d.Skip? || d.Abort? ||
      (d.Reject? && (d.motivo == MotivoTitulo || d.motivo == MotivoSemantica) && d.n.semanticHash.None? &&
       CostOf(d.n) == 0.0)
  {
  }

  /** Every decision keeps the store invariant. */
  lemma ApplyPreservesConsistent(s: StoreState, d: Decision, now: nat)
    requires Consistent(s) && StampOk(s, now)
    ensures Consistent(Apply(s, d, now)) && StampOk(Apply(s, d, now), now)
  {
    match d
    case Skip =>
    case Abort =>
    case Reject(n, m) => RecordPreservesConsistent(s, n, Rejeitada, m, now);
    case Queue(h, e) => EnqueuePreservesConsistent(s, h, e, now);
  }

  /** A batch never shrinks the history, and it touches the queue only by appending. */
  lemma {:induction false} BatchOnlyAppends(
    s: StoreState, cands: seq<Candidate>, os: nat -> CandidateOracle, checkTitle: bool, now: nat)
    ensures var r := RunBatch(s, cands, os, checkTitle, now).0;
      s.queue <= r.queue && s.history <= r.history
  {
    if cands != [] {
      var prev := RunBatch(s, cands[..|cands| - 1], os, checkTitle, now);
      BatchOnlyAppends(s, cands[..|cands| - 1], os, checkTitle, now);
      if !prev.1 {
        var d := Triage(prev.0, cands[|cands| - 1], os(|cands| - 1), checkTitle);
        assert prev.0.queue <= Apply(prev.0, d, now).queue;
        assert prev.0.history <= Apply(prev.0, d, now).history;
      }
    }
  }

  // ---------------------------------------------------------------------------
  // Posting
  // ---------------------------------------------------------------------------

  /** `criar_imagem_post`, `gerar_hashtags`' reply and `postar_foto` for one post. */
  datatype PostOracle = PostOracle(image: Option<string>, hashtags: Reply, posted: bool)

  /** What a posting call did. */
  datatype PostOutcome =
    | NothingToPost
    | NoImage
    | Published(legenda: string, ok: bool)

  /** The queued item to post: the one with that id, or the oldest. */
  function SelectItem(s: StoreState, itemId: Option<nat>): Option<QueueItem> {
    match itemId
    case Some(id) => ItemById(s.queue, id)
    case None => Oldest(s.queue)
  }

  /** `item.get("conteudo_reescrito") or "Sem conteúdo adicional."`. */
  function Curado(e: Entry): string {
    if e.conteudoReescrito != "" then e.conteudoReescrito else SemConteudo
  }

  /** Python's f-string rendering of the stored source name: NULL prints as "None". */
  function FonteTexto(fonte: Option<string>): string {
    match fonte
    case Some(f) => f
    case None => "None"
  }

  function CaptionHeader(handle: string): string {
    "siga: @" + handle + " | "
  }

  /** The closing hashtag line: the category without spaces, then the generated hashtags. */
  function CaptionTail(e: Entry, hashtags: string): string {
    "\n\n#" + RemoveAll(e.categoria, ' ') + " " + hashtags
  }

  /** The caption posted with the image. */
  function Legenda(handle: string, e: Entry, hashtags: string): string {
    CaptionHeader(handle) + Curado(e) + "\n\nFonte: " + FonteTexto(e.fonte) + CaptionTail(e, hashtags)
  }

  /** The text the hashtags are generated from: never empty, so the model is always asked. */
  function HashtagSource(e: Entry): string {
    e.tituloRefinado + " " + Curado(e)
  }

  /** The queue row as the dictionary handed to `registrar_no_historico`, with its cost. */
  function AsNoticia(item: QueueItem, custo: real): Noticia {
    Noticia(item.entry.tituloOriginal, item.entry.tituloRefinado, Some(item.hash), item.entry.conteudoOriginal,
            item.entry.conteudoReescrito, item.entry.idioma, item.entry.apiFonte, Some(custo))
  }

  /**
   * Posting one item. Without an image nothing happens. Otherwise the item is
   * recorded as POSTADO or as FALHA "Erro durante postagem", with the hashtag
   * cost added, and is then removed from the queue whatever the upload did.
   */
  function PostItem(s: StoreState, item: QueueItem, o: PostOracle, now: nat): StoreState {
    if o.image.None? then s
    else
      var tags := GerarHashtags(HashtagSource(item.entry), o.hashtags);
      var n := AsNoticia(item, item.entry.custo + tags.1);
      var recorded := if o.posted then Record(s, n, Postado, "", now) else Record(s, n, Falha, MotivoFalha, now);
      Remove(recorded, item.id)
  }

  /** `reprovar_item_especifico`: a queued item moves to the history as REJEITADA; an unknown id does nothing. */
  function RejectItem(s: StoreState, id: nat, now: nat): StoreState {
    match ItemById(s.queue, id)
    case None => s
    case Some(item) => Remove(Record(s, AsNoticia(item, item.entry.custo), Rejeitada, MotivoManual, now), id)
  }

  /** Posting with the image created: caption, hashtags, upload, record, removal. */
  method Publicar(db: Database, item: QueueItem, handle: string, o: PostOracle, now: nat)
    returns (outcome: PostOutcome)
    requires db.Valid() && StampOk(db.State(), now)
    modifies db
    ensures db.Valid() && StampOk(db.State(), now)
    ensures db.State() == PostItem(old(db.State()), item, o, now)
    ensures o.image.None? <==> outcome == NoImage
    ensures o.image.Some? <==> outcome.Published?
    ensures outcome.Published? ==>
      outcome.ok == o.posted &&
      outcome.legenda == Legenda(handle, item.entry, GerarHashtags(HashtagSource(item.entry), o.hashtags).0)
  {
    if o.image.None? {
      return NoImage;
    }
    var tags := GerarHashtags(HashtagSource(item.entry), o.hashtags);
    var custo := item.entry.custo + tags.1;
    var legenda := Legenda(handle, item.entry, tags.0);
    ghost var before := db.State();
    if o.posted {
      db.RegistrarNoHistorico(AsNoticia(item, custo), Postado, "", now);
    } else {
      db.RegistrarNoHistorico(AsNoticia(item, custo), Falha, MotivoFalha, now);
    }
    assert db.State() == if o.posted then Record(before, AsNoticia(item, custo), Postado, "", now)
                         else Record(before, AsNoticia(item, custo), Falha, MotivoFalha, now);
    db.RemoverDaFila(item.id, now);
    outcome := Published(legenda, o.posted);
  }

  /** The whole posting call: pick the item, then post it; nothing happens when there is none. */
  function Post(s: StoreState, itemId: Option<nat>, o: PostOracle, now: nat): StoreState {
    match SelectItem(s, itemId)
    case None => s
    case Some(item) => PostItem(s, item, o, now)
  }

  /** `postar_da_fila`: the item by id or the oldest, then `Publicar`. */
  method PostarDaFila(db: Database, itemId: Option<nat>, handle: string, o: PostOracle, now: nat)
    returns (outcome: PostOutcome)
    requires db.Valid() && StampOk(db.State(), now)
    modifies db
    ensures db.Valid() && StampOk(db.State(), now)
    ensures db.State() == Post(old(db.State()), itemId, o, now)
    ensures outcome == NothingToPost <==> SelectItem(old(db.State()), itemId).None?
    ensures outcome == NoImage <==> SelectItem(old(db.State()), itemId).Some? && o.image.None?
    ensures outcome.Published? ==>
      var entry := SelectItem(old(db.State()), itemId).value.entry;
      outcome.ok == o.posted && outcome.legenda == Legenda(handle, entry, GerarHashtags(HashtagSource(entry), o.hashtags).0)
  {
    var item: Option<QueueItem>;
    if itemId.Some? {
      item := ItemById(db.queue, itemId.value);
    } else {
      item := db.PegarProximoDaFila();
    }
    assert item == SelectItem(db.State(), itemId);
    if item.None? {
      return NothingToPost;
    }
    ghost var before := db.State();
    outcome := Publicar(db, item.value, handle, o, now);
    assert db.State() == PostItem(before, item.value, o, now);
  }

  // ---------------------------------------------------------------------------
  // Properties of posting
  // ---------------------------------------------------------------------------

  /** The caption opens with the handle and the curated text and closes with a space-free category tag. */
  lemma CaptionShape(handle: string, e: Entry, hashtags: string)
    ensures var l := Legenda(handle, e, hashtags);
      var head := CaptionHeader(handle) + Curado(e);
      var tail := CaptionTail(e, hashtags);
      |head| + |tail| <= |l| && l[..|head|] == head && l[|l| - |tail|..] == tail
    ensures ' ' !in RemoveAll(e.categoria, ' ')
    ensures Curado(e) != ""
    ensures e.conteudoReescrito == "" ==> Curado(e) == SemConteudo
  {
    var l := Legenda(handle, e, hashtags);
    var head := CaptionHeader(handle) + Curado(e);
    var mid := "\n\nFonte: " + FonteTexto(e.fonte);
    var tail := CaptionTail(e, hashtags);
    assert l == head + mid + tail;
    assert (head + mid + tail)[..|head|] == head;
    assert (head + mid + tail)[|l| - |tail|..] == tail;
  }

  /**
   * A post with an image consumes exactly its item, keeps the other rows in
   * order, charges the item's cost plus the hashtag cost, and writes one record
   * unless the hash is already in the history.
   */
  lemma PostConsumesItem(s: StoreState, k: nat, o: PostOracle, now: nat)
    requires Consistent(s) && k < |s.queue| && o.image.Some?
    ensures var item := s.queue[k];
      var r := PostItem(s, item, o, now);
      var tags := GerarHashtags(HashtagSource(item.entry), o.hashtags);
      r.queue == s.queue[..k] + s.queue[k + 1..] &&
      r.lifetimeCost == s.lifetimeCost + item.entry.custo + tags.1 &&
      (HistoryHasHash(s.history, item.hash) ==> r.history == s.history) &&
      (!HistoryHasHash(s.history, item.hash) ==>
        |r.history| == |s.history| + 1 && r.history[..|s.history|] == s.history &&
        r.history[|s.history|].status == (if o.posted then Postado else Falha) &&
        r.history[|s.history|].motivo == (if o.posted then "" else MotivoFalha))
  {
    RemoveOrderedAt(s.queue, k);
  }

  /**
   * A posting call with nothing to post (an empty queue, or an id not in the
   * queue) or without an image changes nothing. Otherwise the selected item
   * leaves the queue: the oldest one, or the one with that id.
   */
  lemma PostOutcomes(s: StoreState, itemId: Option<nat>, o: PostOracle, now: nat)
    requires Consistent(s)
    ensures SelectItem(s, itemId).None? ==> Post(s, itemId, o, now) == s
    ensures o.image.None? ==> Post(s, itemId, o, now) == s
    ensures itemId.None? && s.queue != [] && o.image.Some? ==> Post(s, itemId, o, now).queue == s.queue[1..]
    ensures itemId.Some? && o.image.Some? ==> !QueueHasId(Post(s, itemId, o, now).queue, itemId.value)
  {
    if itemId.None? && s.queue != [] && o.image.Some? {
      OldestIsHead(s.queue);
      RemoveByIdHead(s.queue);
    }
    if itemId.Some? {
      RemoveByIdMembers(s.queue, itemId.value);
    }
  }

  /** Without an image the queue and the history stay as they are. */
  lemma PostWithoutImage(s: StoreState, item: QueueItem, o: PostOracle, now: nat)
    requires o.image.None?
    ensures PostItem(s, item, o, now) == s
  {
  }

  /**
   * A duplicate that arrives while the original is still queued is recorded as
   * REJEITADA under the shared hash. When the original is later published, its
   * POSTADO record hits UNIQUE(semantic_hash) and is dropped: the history keeps
   * only the rejection, and the item still leaves the queue.
   */
  lemma DuplicateShadowsPost(
    s: StoreState, k: nat, c: Candidate, o: CandidateOracle, checkTitle: bool, po: PostOracle, now: nat)
    requires Consistent(s) && StampOk(s, now) && k < |s.queue|
    requires !HistoryHasHash(s.history, s.queue[k].hash)
    requires c.article.title != "" && o.imageOk && ConteudoOriginal(c.article).Some?
    requires !(checkTitle && o.titleSeen)
    requires o.replies.canonical.text == Some(s.queue[k].hash)
    requires po.image.Some? && po.posted
    ensures var s1 := Apply(s, Triage(s, c, o, checkTitle), now);
      var s2 := PostItem(s1, s.queue[k], po, now);
      |s1.history| == |s.history| + 1 && s1.history[|s.history|].status == Rejeitada &&
      s1.history[|s.history|].motivo == MotivoSemantica &&
      s2.history == s1.history &&
      s.queue[k] !in s2.queue
  {
    var item := s.queue[k];
    assert QueueHasHash(s.queue, item.hash);
    var d := Triage(s, c, o, checkTitle);
    var s1 := Apply(s, d, now);
    assert HistoryHasHash(s1.history, item.hash) by {
      assert s1.history[|s.history|].noticia.semanticHash == Some(item.hash);
    }
    assert s1.queue == s.queue;
    RemoveByIdMembers(s.queue, item.id);
  }

  /** Rejecting an item by hand twice is the same as once: the second call finds no row. */
  lemma RejectTwiceIsOnce(s: StoreState, id: nat, now: nat)
    ensures var r := RejectItem(s, id, now);
      !QueueHasId(r.queue, id) && RejectItem(r, id, now) == r
  {
    RemoveByIdMembers(s.queue, id);
  }

  /** A manual rejection of a queued item writes at most one REJEITADA row and removes the item. */
  lemma RejectItemMoves(s: StoreState, k: nat, now: nat)
    requires Consistent(s) && k < |s.queue|
    ensures var r := RejectItem(s, s.queue[k].id, now);
      r.queue == s.queue[..k] + s.queue[k + 1..] &&
      r.lifetimeCost == s.lifetimeCost + s.queue[k].entry.custo &&
      (!HistoryHasHash(s.history, s.queue[k].hash) ==>
        |r.history| == |s.history| + 1 && r.history[|s.history|].status == Rejeitada &&
        r.history[|s.history|].motivo == MotivoManual)
  {
    RemoveOrderedAt(s.queue, k);
  }
}
