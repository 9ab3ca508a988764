# Dedup-and-publish pipeline: a Dafny model

This project models the core of an automated news-to-Instagram publisher. Each
cycle does the following:

- It fetches articles from GNews and NewsData.io for every configured API,
  language and category.
- It asks a language model for a canonical headline. That headline serves as
  the article's *semantic hash*.
- It drops semantic duplicates and irrelevant articles.
- It translates English items, refines the title, rewrites the body into a
  caption, categorises the item, and queues it with its summed model cost.

A second job then takes one queued item, renders an image, builds a caption and
posts it. Every rejection and every post is recorded in a history ledger whose
`semantic_hash` is unique, unless its `semantic_hash` is already there; skips
and aborts write nothing. A lifetime cost counter only ever grows.

The program exists in two forms:

- a single-tenant program, `app.py`;
- a multi-account registry, `agent_manager.py`. Each agent has its own store,
  and the agent form adds a title-duplicate check.

The project is organised as follows:

| file | module | models |
|---|---|---|
| `wrappers.dfy` | `Wrappers` | `Option` and `Result` |
| `text.dfy` | `Text` | Python's `strip`, the leading-marker `re.sub`, `str.split`, `rsplit`, `replace`, slicing |
| `store.dfy` | `Store` | `database.py`: the queue, the history, the cost statistic; pure transitions plus the class `Database` that applies them in place |
| `stages.dfy` | `Stages` | `ai_services.py`: the null/zero-cost contract of the model call and every stage's fallback and parse rule |
| `news.dfy` | `NewsFeed` | `news_apis.py`: both providers, the category remap, the KeyError, and the api × language × category loop |
| `pipeline.dfy` | `Pipeline` | the per-candidate loop and the posting step that `app.py` and `agent_manager.py` share |
| `app.dfy` | `App` | `app.py`: the fetch job, the post job, manual rejection and the interval-change rule |
| `agents.dfy` | `Agents` | `agent_manager.py`: agent start-up and its failure paths, per-agent jobs, rescheduling, stopping |

## How the model is built

The outside world enters as parameters:

- **A model reply** is a `Reply(text: Option<string>, cost: real)`.
- **The replies of one candidate** form a `Replies` bundle, together with the
  image check and the agent's title query (`CandidateOracle`).
- **A post** draws on a `PostOracle`: the created image path, the hashtag reply
  and the upload result.
- **A provider fetch** is a function `(category, language, country) -> Option<seq<Article>>`.
  None stands for a request that raised.
- **`random.uniform`** is a `draw` argument within the configured bounds.

Store identity and time are modelled as follows:

- A `uuid4` key is modelled as a fresh number taken from a counter.
- `CURRENT_TIMESTAMP` is a `now: nat` that never runs backwards. The queue's
  insertion order is therefore consistent with its `data_adicionado` order:
  a row inserted later never has an earlier timestamp. Rows with equal
  timestamps are taken in insertion order (see "## Left out").

The store is described by pure transitions on `StoreState` (`Enqueue`, `Record`,
`Remove`, `Clear`). Each method of `Store.Database` ensures
`State() == Transition(old(State()))` and keeps the table invariant
`Consistent`. That invariant covers three things: keys are fresh, the queue is
ordered by insertion, and non-NULL history hashes are distinct.

For one candidate, the pipeline is the function `Pipeline.Triage`. It returns
one of four decisions: `Skip`, `Abort`, `Reject` or `Queue`. The imperative loop
body is split in two. `Pipeline.Decidir` runs the checks and the cost
accumulator step by step and is proved to reach that decision.
`Pipeline.ProcessarCandidato` then writes the decision to the store, and is
proved equal to applying it. The loop
`Pipeline.ProcessarLote` is proved equal to `RunBatch`.

### Behaviour of the code worth knowing

- **Queue uniqueness.** The queue's `UNIQUE(semantic_hash)` is checked against
  the queue alone (database.py:36). A hash that is only in the history can be
  queued again by a direct enqueue. The pipeline's semantic-duplicate check
  (database.py:129-150) looks at both tables, so the pipeline itself never does
  this.
- **Manual post in the agent.** The agent reschedules its post job after every
  created image, a manual post by id included (agent_manager.py:258).
- **A `None` description aborts the cycle.** An article with no content and a
  `None` description leaves `conteudo_original` as `None`. The prompt of
  `gerar_titulo_canonico` slices it (ai_services.py:55), and that raises before
  the model call. The exception ends the whole fetch job, and the remaining
  candidates are not processed. The model has this as the `Abort` decision.
- **A missing source prints as `None`.** `fonte` is read from the row, where
  the key always exists, so the default "Fonte não informada" is never used.
  A NULL source prints as `None` in the caption (`Pipeline.FonteTexto`).
- **A queued duplicate shadows the later post.** A duplicate that arrives while
  its original is still queued is recorded as REJEITADA under the shared hash.
  When the original is posted later, its POSTADO insert hits
  `UNIQUE(semantic_hash)` and is dropped (`Pipeline.DuplicateShadowsPost`).

## Model

| member | source | states |
|---|---|---|
| Store.StatusText | database.py:41-57 | the history status is one of POSTADO, REJEITADA, FALHA |
| Store.RemoveById | database.py:171-176 | removing a key never lengthens the queue, and is the identity for an absent key |
| Store.RemoveByIdMembers | database.py:171-176 | removing a key keeps exactly the rows with another key |
| Store.IsSemanticDuplicate | database.py:129-150 | a None or empty hash is a duplicate (fails closed); otherwise duplicate iff the hash is in the history or the queue |
| Store.Oldest | database.py:179-184 | None iff the queue is empty; otherwise a queued row with the smallest `data_adicionado` |
| Store.ItemById | app.py:111-116 | None iff no queued row has the id; otherwise the queued row with that id |
| Store.QueueListing | database.py:187-195 | one projected row per queued row, in queue order |
| Store.NewestFirst | database.py:198-206 | at most the limit of rows, the i-th being the i-th newest history row |
| Store.EmptyConsistent | database.py:61-67 | a fresh store satisfies the table invariant and its lifetime cost is 0.0 |
| Store.EnqueueConflictIsNoOp | database.py:95-96 | enqueueing a NULL hash, or one already queued, changes nothing |
| Store.EnqueueAddsOneFresh | database.py:77-98 | an accepted enqueue appends exactly one row with the entry and hash, under a key new to both tables; history and cost are unchanged |
| Store.RecordCharges | database.py:120-125 | recording always adds `custo_usd` (0.0 when absent) to the lifetime cost, conflict or not, and never touches the queue |
| Store.RecordHistory | database.py:101-121 | on a history hash conflict the history is unchanged; otherwise exactly one row with the given status and reason is appended |
| Store.EnqueuePreservesConsistent | database.py:20-38 | enqueueing keeps fresh keys, insertion order and distinct hashes |
| Store.RecordPreservesConsistent | database.py:41-57 | recording keeps the history's keys fresh, its order, and its non-NULL hashes distinct |
| Store.RemoveByIdPreservesOrder | database.py:171-176 | removing a key keeps the queue ordered |
| Store.RemovePreservesConsistent | database.py:171-176 | removing a key keeps the table invariant |
| Store.ClearKeepsLedger | database.py:163-168 | clearing empties the queue and keeps the history and the lifetime cost |
| Store.RemoveByIdHead | database.py:171-176 | removing the head's key of an ordered queue removes just the head |
| Store.RemoveByIdUniqueHead | database.py:171-176 | a head whose key no other row holds is removed alone |
| Store.RemoveByIdAt | database.py:171-176 | removing a key held by one row deletes exactly that row and keeps the rest in order |
| Store.RemoveOrderedAt | database.py:171-176 | in a consistent queue, removing any row's key deletes exactly that row |
| Store.OldestIsHead | database.py:179-184 | in an insertion-ordered queue the oldest row is the head |
| Store.DrainOrder | database.py:179-184 | peeking then removing the oldest leaves the second oldest as the next peek |
| Store.EnqueueMakesDuplicate | database.py:129-150 | after an enqueue the hash reads as a duplicate |
| Store.RecordMakesDuplicate | database.py:129-150 | after recording, the record's hash reads as a duplicate |
| Store.NotDuplicateEnqueues | database.py:129-150 | a hash that passes the duplicate check is accepted by the queue |
| Store.HistoryListingNewestFirst | database.py:198-206 | the listing holds min(100, size) rows in non-increasing processing time |
| Store.LifetimeCostIsCharged | database.py:153-160 | after any run of store calls from a fresh store, the stored total is the sum of every recorded cost, dropped inserts included |
| Store.Database.constructor | database.py:14-67 | a new store is empty, consistent, with cost 0.0 |
| Store.Database.AdicionarNaFila | database.py:77-98 | the new state is the enqueue transition, and the invariant is kept |
| Store.Database.RegistrarNoHistorico | database.py:101-126 | the new state is the record transition, and the invariant is kept |
| Store.Database.LimparFila | database.py:163-168 | the new state is the clear transition |
| Store.Database.RemoverDaFila | database.py:171-176 | the new state is the remove transition, and the invariant is kept |
| Store.Database.VerificarDuplicataSemantica | database.py:129-150 | true for a None or empty hash, else iff the hash is in the history or the queue; changes nothing |
| Store.Database.ObterCustoTotal | database.py:153-160 | returns the stored lifetime cost |
| Store.Database.PegarProximoDaFila | database.py:179-184 | None iff the queue is empty, else a row with the earliest stamp; nothing is removed |
| Store.Database.PegarFilaCompleta | database.py:187-195 | the projection of every queued row, in insertion order |
| Store.Database.PegarHistoricoCompleto | database.py:198-206 | the newest min(100, size) history rows, newest first |
| Text.Strip | ai_services.py:35 | the result is the slice of the input between its leading and its trailing whitespace, and neither of its ends is whitespace |
| Text.StripIdempotent | ai_services.py:35 | stripping twice is stripping once |
| Text.StripLeadingMarker | ai_services.py:129-133 | the text changes iff, after leading whitespace, it starts with a digit, dot, dash or star; a changed result is empty or starts with a non-space |
| Text.StripLeadingMarkerRemovesRun | ai_services.py:129-133 | what is kept is a suffix of the input, and the removed prefix is whitespace, then a non-empty run of digits, dots, dashes or stars, then whitespace |
| Text.StripLeadingMarkerIsLongest | ai_services.py:129-133 | no prefix longer than the removed one matches `\s*[\d.\-*]+\s*`, and an unchanged text has no matching prefix at all: the greedy match of `re.sub` with `^` |
| Text.BeforeLast | agent_manager.py:126 | a prefix of the input: the input itself without the separator, else the text before the last occurrence |
| Text.Split | ai_services.py:127 | `str.split` yields at least one piece; one piece iff the separator does not occur; otherwise the first piece is the text before the leftmost occurrence |
| Text.SplitRest | ai_services.py:127 | after the first cut, the remaining pieces are the split of the text after the leftmost separator |
| Text.SplitAtLeastThree | ai_services.py:127-133 | two non-overlapping occurrences of the separator give three or more pieces |
| Text.JoinSplit | ai_services.py:127 | joining the pieces with the separator gives back the text |
| Text.SplitPiecesFree | ai_services.py:127 | no piece contains the separator |
| Text.SplitTwo | ai_services.py:128-131 | two pieces mean the text is piece, separator, piece |
| Text.SplitOne | ai_services.py:132-133 | one piece iff the separator does not occur |
| Text.RemoveAll | ai_services.py:153 | `replace(c, '')`: the result has no `c` and keeps every other character, and is no longer than the input |
| Text.RemoveAllCounts | ai_services.py:153 | every other character keeps its number of occurrences, and `c` has none |
| Text.RemoveAllConcat | ai_services.py:153 | removing from a concatenation is removing from each part, so the kept characters stay in their order |
| Text.RemoveAllChar | ai_services.py:153 | one character is dropped iff it is `c` |
| Text.RemoveAllIdempotent | ai_services.py:153 | removing a character twice is removing it once |
| Stages.ChamarGemini | ai_services.py:14-39 | (None, 0.0) iff the key is missing or the placeholder or the call raised; otherwise the answer with its cost |
| Stages.ReplyIsStripped | ai_services.py:35 | an answered call yields the stripped answer, which is already stripped |
| Stages.GerarTituloCanonico | ai_services.py:42-60 | the semantic hash is the reply text (None when the call failed), with its cost |
| Stages.FiltrarRelevancia | ai_services.py:63-86 | the verdict is APROVADA or REPROVADA, APROVADA iff the reply is exactly APROVADA; the cost passes through |
| Stages.TraduzirTexto | ai_services.py:89-101 | an empty text passes at cost 0; else the translation, or the original on a None or empty reply |
| Stages.ReescreverLegenda | ai_services.py:104-136 | an empty text, or a None or empty reply, gives the original at cost 0.0; else the formatted reply with its cost |
| Stages.MelhorarTitulo | ai_services.py:139-153 | an empty title passes at cost 0; else the reply with every double quote removed (`RemoveAll`, whose counts and order are stated above), or the original on an empty reply, at the reply's cost |
| Stages.CategorizarNoticia | ai_services.py:156-171 | never empty: the reply, or "Geral" on a None or empty reply |
| Stages.GerarHashtags | ai_services.py:174-195 | ("", 0.0) on empty input; else the reply or "" with its cost |
| Stages.CaptionOfTwoPieces | ai_services.py:127-131 | exactly one separator: summary and hook, each stripped and without its marker, joined by a blank line |
| Stages.CaptionOfWholeReply | ai_services.py:132-133 | zero or several separators: the whole reply without its leading marker run |
| Stages.CaptionWithSeveralSeparators | ai_services.py:127-133 | two non-overlapping separators: the whole reply without its leading marker run |
| Stages.CaptionWithoutSeparator | ai_services.py:132-133 | a reply with no separator is the one-piece case |
| Stages.RefinedTitleHasNoQuotes | ai_services.py:153 | the refined title has no double quote left to remove |
| Stages.NoKeyFallbacks | ai_services.py:18-20 | without a key, or after an exception, every stage falls back at cost 0.0 |
| NewsFeed.Pais | news_apis.py:88 | the country is "us" iff the language is "en", else "br" |
| NewsFeed.GetGnews | news_apis.py:10-35 | [] without a key or when the request raises, else the fetched articles |
| NewsFeed.NewsdataCategory | news_apis.py:50-53 | breaking-news becomes top, nation becomes politics, other categories are unchanged |
| NewsFeed.GetNewsdata | news_apis.py:38-73 | [] without a key; a KeyError iff the key is set and the language or country is unknown; else the fetch under the remapped category |
| NewsFeed.Tag | news_apis.py:99-102 | every article is tagged with the api, language and category of its fetch, in order |
| NewsFeed.Then | news_apis.py:104 | `extend`: the concatenation in order, and the first exception wins |
| NewsFeed.TagArticles | news_apis.py:99-102 | the tagging loop computes `Tag` |
| NewsFeed.BuscarCategorias | news_apis.py:90-104 | the category loop computes the category-ordered concatenation |
| NewsFeed.BuscarIdiomas | news_apis.py:87-104 | the language loop computes the language-major concatenation |
| NewsFeed.BuscarTodasNoticias | news_apis.py:76-107 | the triple loop computes the api-major, then language, then category concatenation, or the first KeyError |
| NewsFeed.CatsStep | news_apis.py:90-104 | one more category appends that category's tagged fetch after the earlier ones |
| NewsFeed.LangsStep | news_apis.py:87-104 | one more language appends that language's category loop after the earlier ones |
| NewsFeed.ApisStep | news_apis.py:86-104 | one more api appends that api's results after the earlier ones |
| NewsFeed.CatsFailure | news_apis.py:55 | once a fetch has raised, later categories change nothing |
| NewsFeed.LangsFailure | news_apis.py:55 | once a fetch has raised, later languages change nothing |
| NewsFeed.ApisFailure | news_apis.py:55 | once a fetch has raised, later apis change nothing |
| NewsFeed.EmptyListFetchesNothing | news_apis.py:80-81 | an empty api, language or category list gives [] |
| NewsFeed.TaggedProvenance | news_apis.py:91-102 | every candidate of one fetch carries that fetch's tags and one of its articles |
| NewsFeed.CatsProvenance | news_apis.py:90-102 | every candidate's category is one of the searched categories |
| NewsFeed.LangsProvenance | news_apis.py:87-102 | every candidate's language is one of the searched languages |
| NewsFeed.ApisProvenance | news_apis.py:86-102 | every candidate's api is one of the active apis |
| NewsFeed.AggregateProvenance | news_apis.py:76-107 | every returned candidate comes from a fetch for its own api, language and category |
| NewsFeed.UnknownApiCats | news_apis.py:91-96 | an unknown api name fetches nothing for a language |
| NewsFeed.UnknownApiContributesNothing | news_apis.py:91-96 | an unknown api name contributes no articles |
| NewsFeed.CatsFailIfOneFails | news_apis.py:55 | one raising fetch makes the category loop raise |
| NewsFeed.LangsFailIfOneFails | news_apis.py:55 | one raising language makes the language loop raise |
| NewsFeed.ApisFailIfOneFails | news_apis.py:55 | one raising api makes the whole aggregation raise |
| NewsFeed.NewsdataUnknownLanguageRaises | news_apis.py:46-55 | NewsData with a key and a language outside {pt, en} makes the cycle raise |
| Pipeline.Decidir | agent_manager.py:115-203 | the step-by-step checks and cost accumulation, without touching the store, reach the candidate's decision |
| Pipeline.PrepararEntrada | agent_manager.py:173-200 | the translated, refined, rewritten and categorised row built field by field is the approved queue entry |
| Pipeline.ProcessarCandidato | agent_manager.py:115-203 | the loop body has exactly the effect of the candidate's decision on the store, and raises iff the decision is Abort |
| Pipeline.ProcessarLote | app.py:26-107 | the loop over candidates computes `RunBatch`, stopping at the first exception |
| Pipeline.AbortEndsBatch | app.py:29-30 | after an exception the rest of the batch changes nothing |
| Pipeline.TituloOriginalDropsSource | agent_manager.py:126 | the original title is the raw one up to its last " - ", or all of it when there is none |
| Pipeline.SkipIff | agent_manager.py:122-123 | skipped iff the title is empty or the image fails; a skip changes nothing |
| Pipeline.AbortIff | agent_manager.py:127-130 | the cycle raises iff a kept candidate has no content and a None description |
| Pipeline.TitleCheckFirst | agent_manager.py:145-149 | a title hit is rejected first as "Título já processado", charged only the hash call |
| Pipeline.SemanticDuplicateRejects | agent_manager.py:152-155 | a semantic duplicate is rejected as "Duplicata Semântica", charged only the hash call |
| Pipeline.FilterRejects | agent_manager.py:161-171 | any verdict but APROVADA is rejected with REPROVADA as reason, empty rewrite, hash plus filter cost |
| Pipeline.RejectionNeverQueues | agent_manager.py:145-171 | a rejection keeps the queue, adds at most one history row and charges its cost |
| Pipeline.QueuedCandidate | agent_manager.py:116-203 | a queued candidate passed every check; its fresh non-empty hash is appended once with the summed stage cost |
| Pipeline.TranslationOnlyForEnglish | agent_manager.py:174-180 | title and body are translated, and charged, iff the language is "en" |
| Pipeline.TranslationRepliesIrrelevant | agent_manager.py:174-180 | for a non-English candidate the translation replies do not matter |
| Pipeline.NoTitleCheckInApp | app.py:58-62 | the single-tenant pipeline is the agent's without a title hit, and never rejects for the title |
| Pipeline.NoModelNothingQueued | ai_services.py:18-20 | without a model reply for the hash nothing is queued: skip, abort, or a zero-cost duplicate rejection |
| Pipeline.ApplyPreservesConsistent | agent_manager.py:145-203 | every decision keeps the store invariant |
| Pipeline.BatchOnlyAppends | app.py:26-107 | a fetch cycle only appends to the queue and the history |
| Pipeline.Publicar | app.py:138-159 | no image: nothing changes; else one POSTADO or FALHA record, then the removal, with the caption built as the source does |
| Pipeline.PostarDaFila | app.py:109-159 | the item by id or the oldest; no item means nothing posted; the new store is the posting transition |
| Pipeline.PostOutcomes | app.py:123-159 | nothing to post or no image leaves the store as it is; otherwise the selected item leaves the queue |
| Pipeline.CaptionShape | app.py:140-148 | the caption begins with the handle and the curated text, ends with the space-free category and the hashtags; the fallback text is used for an empty rewrite |
| Pipeline.PostConsumesItem | app.py:150-159 | a post with an image removes exactly its item, charges item plus hashtag cost, and writes POSTADO or FALHA("Erro durante postagem") unless the hash is in the history |
| Pipeline.PostWithoutImage | app.py:138 | without an image the queue and the history are unchanged |
| Pipeline.DuplicateShadowsPost | database.py:120-121 | a duplicate rejected while its original is queued makes the original's later POSTADO insert be dropped |
| Pipeline.RejectTwiceIsOnce | app.py:212-220 | after a manual rejection the id is gone, and a second rejection changes nothing |
| Pipeline.RejectItemMoves | app.py:212-220 | a manual rejection removes exactly that row, charges its cost, and records REJEITADA "Rejeitado manualmente" |
| App.StartScheduleDefaults | app.py:283-294 | each job runs at the stored interval, and at 15 (fetch) or 30 (post) minutes when the key is missing |
| App.UpdateKeepsAgreement | app.py:238-246 | after a configuration update the jobs run at the submitted intervals |
| App.UpdateRearmsOnlyOnChange | app.py:238-245 | a job is rescheduled iff its interval differs from the stored one; the same form twice reschedules nothing |
| App.App.constructor | app.py:283-294 | the jobs are armed from the configuration |
| App.App.ProcessarNoticias | app.py:26-107 | a KeyError from the fetch ends the job unchanged; otherwise the batch runs without a title check |
| App.App.PostarDaFila | app.py:109-159 | the posting transition with the fixed handle "noticiasbr.ai" |
| App.App.ReprovarItemEspecifico | app.py:209-222 | the manual-rejection transition |
| App.App.AtualizarConfiguracao | app.py:224-249 | the configuration update, rescheduling only changed intervals |
| Agents.DefaultPacing | agent_manager.py:70-77 | with no pacing keys the post job draws from [8, 10] and the fetch job runs every 15 minutes |
| Agents.PostIntervalInRange | agent_manager.py:269-285 | random pacing keeps the post interval within the bounds; fixed pacing keeps `intervalo_post` and is never rescheduled |
| Agents.AgentManager.constructor | agent_manager.py:23-25 | the registry starts empty |
| Agents.AgentManager.InicializarAgente | agent_manager.py:38-101 | started iff credentials, setup and login succeed; on success the agent is registered with its initial intervals, else nothing changes |
| Agents.AgentManager.ProcessarNoticiasAgente | agent_manager.py:103-203 | nothing for an unknown agent; else the batch runs with the title check in that agent's store only |
| Agents.AgentManager.ReagendarProximoPostAgente | agent_manager.py:260-287 | under random pacing the post interval becomes the draw; otherwise nothing changes |
| Agents.AgentManager.PostarNaLoja | agent_manager.py:205-256 | the posting transition in the agent's own store, with the agent's handle, leaving the registry and the other stores valid |
| Agents.AgentManager.PostarDaFilaAgente | agent_manager.py:205-258 | nothing for an unknown agent; else the posting transition with the agent's handle, then a reschedule after a created image |
| Agents.AgentManager.PararAgente | agent_manager.py:289-294 | the agent leaves the registry; an unknown id changes nothing |
| Agents.AgentManager.PararTodos | agent_manager.py:296-300 | the registry ends empty |

## Left out

- The language-model call itself is an oracle. This covers the network request,
  the token-price arithmetic in floating point, and the session cost counter.
  Costs are mathematical reals.
- The HTTP requests of both news providers are oracles. A request that raises is
  caught and yields [].
- Image download, validation and rendering (media.py) are oracles:
  `validar_imagem` is a boolean and `criar_imagem_post` is an optional path.
- The Instagram session, login and upload (instagram.py) are oracles. So is the
  random pre-upload sleep.
- The scheduler and threads are reduced to the jobs' intervals in minutes.
  Jobs running concurrently on the shared SQLite file are not modelled.
- The Flask routes and templates are left out, except the handlers they call.
  Also left out: `pegar_log_recente`, `pegar_titulos_recentes`,
  `carregar_agentes` and `get_status_agentes`, which only read files or report
  status.
- Configuration file I/O is left out; only `DEFAULT_CONFIG` and the keys the
  core reads are modelled. An interval read from the form is already an
  integer: a failing `int()` is not modelled.
- A `uuid4` key is a counter value, and `CURRENT_TIMESTAMP` is a caller-supplied,
  non-decreasing clock. One fetch cycle uses one clock value.
- Store.Oldest: rows with equal `data_adicionado` come out in insertion order,
  as they do in Store.QueueListing, and Store.NewestFirst lists rows with equal `data_processamento` newest
  inserted first. `ORDER BY ... LIMIT 1` in SQLite leaves the order of ties
  unspecified, and every row of one fetch cycle ties. Store.OldestIsHead,
  Store.DrainOrder, Pipeline.PostOutcomes and
  Store.Database.PegarProximoDaFila rely on this choice.
- Python's Unicode `\s` and `\d` are approximated by ASCII whitespace and
  digits.
- Python `None` title and content are the empty string. Both are falsy, and the
  code only tests them for truth. `description` and the source name stay
  optional, because their `None` shows through.
- Rejections written before the relevance filter store NULL in
  `conteudo_reescrito`. The model stores the empty string.
- The `*_agente` store calls are modelled as the database.py operations on
  the agent's own store. Their bodies are not part of this model.
- The title-duplicate query of the agent is not part of this model. Its
  answer is the oracle's `titleSeen`.
- The agent calls `buscar_todas_noticias` with its configuration as an argument,
  which the shown definition does not accept. The model passes the agent's
  configuration, as intended.
- Re-initialising an already registered agent overwrites the registry entry.
  The old scheduler is not shut down; the model only replaces the entry.
- Agents.AgentManager.InicializarAgente: an exception during setup and a failed
  login both return `False`; the model folds them into one false result.
