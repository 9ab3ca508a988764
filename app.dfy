/**
 * The single-tenant program of app.py: one store, one configuration file and
 * two interval jobs. The fetch, the candidate oracles and the posting oracle
 * are parameters of the job methods.
 */
module App {
  import opened Wrappers
  import opened Store
  import opened Stages
  import opened NewsFeed
  import opened Pipeline

  /**
   * The configuration keys the program reads and writes. A missing
   * `intervalo_busca`/`intervalo_post` is None.
   */
  datatype Config = Config(news: NewsConfig, opacidade: real, intervaloBusca: Option<int>, intervaloPost: Option<int>)

  /** `DEFAULT_CONFIG` of config.py. */
  const DefaultConfig := Config(NewsConfig(["gnews"], ["pt"], ["technology"], "", ""), 0.3, Some(15), Some(30))

  /** The minutes of the 'buscador_noticias' and 'postador_fila' jobs. */
  datatype Schedule = Schedule(busca: int, post: int)

  /** The form posted to the configuration route; the opacity is a percentage. */
  datatype Form = Form(
    apis: seq<string>, categorias: seq<string>, idiomas: seq<string>,
    opacidadePct: int, intervaloBusca: int, intervaloPost: int)

  /** The effect of one configuration update, and which jobs were rescheduled. */
  datatype Updated = Updated(config: Config, schedule: Schedule, rearmBusca: bool, rearmPost: bool)

  /** The jobs as startup arms them: `config.get("intervalo_busca", 15)` and `config.get("intervalo_post", 30)`. */
  function StartSchedule(cfg: Config): Schedule {
    Schedule(cfg.intervaloBusca.GetOr(15), cfg.intervaloPost.GetOr(30))
  }

  /** The jobs run at the intervals the configuration names. */
  predicate Agrees(cfg: Config, sched: Schedule) {
    sched == StartSchedule(cfg)
  }

  /**
   * `atualizar_config`: the lists and the opacity are replaced, and a job is
   * rescheduled only when its new interval differs from the stored value.
   */
  function AtualizarConfig(cfg: Config, sched: Schedule, f: Form): Updated {
    var rearmBusca := cfg.intervaloBusca != Some(f.intervaloBusca);
    var rearmPost := cfg.intervaloPost != Some(f.intervaloPost);
    var news := cfg.news.(apis := f.apis, categorias := f.categorias, idiomas := f.idiomas);
    Updated(
      Config(news, (f.opacidadePct as real) / 100.0, Some(f.intervaloBusca), Some(f.intervaloPost)),
      Schedule(if rearmBusca then f.intervaloBusca else sched.busca,
               if rearmPost then f.intervaloPost else sched.post),
      rearmBusca, rearmPost)
  }

  /**
   * Startup arms each job at the interval the configuration stores, and at 15
   * and 30 minutes when the key is missing.
   */
  lemma StartScheduleDefaults(cfg: Config)
    ensures cfg.intervaloBusca.None? ==> StartSchedule(cfg).busca == 15
    ensures cfg.intervaloPost.None? ==> StartSchedule(cfg).post == 30
    ensures forall n :: cfg.intervaloBusca == Some(n) ==> StartSchedule(cfg).busca == n
    ensures forall n :: cfg.intervaloPost == Some(n) ==> StartSchedule(cfg).post == n
  {
  }

  /**
   * While the jobs agree with the configuration, skipping the reschedule for an
   * unchanged interval is harmless. After an update the jobs run at the
   * submitted intervals and agree with the stored configuration again.
   */
  lemma UpdateKeepsAgreement(cfg: Config, sched: Schedule, f: Form)
    requires Agrees(cfg, sched)
    ensures var u := AtualizarConfig(cfg, sched, f);
      u.schedule == Schedule(f.intervaloBusca, f.intervaloPost) && Agrees(u.config, u.schedule)
  {
  }

  /**
   * A job is rescheduled exactly when its interval changed or was never stored.
   * Submitting the same form again reschedules nothing and changes nothing.
   */
  lemma UpdateRearmsOnlyOnChange(cfg: Config, sched: Schedule, f: Form)
    ensures var u := AtualizarConfig(cfg, sched, f);
      (u.rearmBusca <==> cfg.intervaloBusca != Some(f.intervaloBusca)) &&
      (u.rearmPost <==> cfg.intervaloPost != Some(f.intervaloPost)) &&
      (!u.rearmBusca ==> u.schedule.busca == sched.busca) &&
      (!u.rearmPost ==> u.schedule.post == sched.post)
    ensures var u := AtualizarConfig(cfg, sched, f);
      var v := AtualizarConfig(u.config, u.schedule, f);
      !v.rearmBusca && !v.rearmPost && v.config == u.config && v.schedule == u.schedule
  {
  }

  /** The program: its store, the configuration file and the scheduler. */
  class App {
    const db: Database
    var config: Config
    var schedule: Schedule

    ghost predicate Valid()
      reads this, db
    {
      db.Valid() && Agrees(config, schedule)
    }

    /** Startup after a successful login: the jobs are armed from the configuration. */
    constructor (store: Database, cfg: Config)
      requires store.Valid()
      ensures Valid() && db == store && config == cfg && schedule == StartSchedule(cfg)
    {
      db := store;
      config := cfg;
      schedule := StartSchedule(cfg);
    }

    /**
     * `processar_noticias`: a KeyError from the aggregation ends the job before
     * any candidate; otherwise the candidates run through the pipeline without
     * a title check until one raises.
     */
    method ProcessarNoticias(p: Providers, os: nat -> CandidateOracle, now: nat) returns (aborted: bool)
      requires Valid() && StampOk(db.State(), now)
      modifies db
      ensures Valid() && StampOk(db.State(), now)
      ensures Aggregate(config.news, p).Failure? ==> aborted && db.State() == old(db.State())
      ensures Aggregate(config.news, p).Success? ==>
        (db.State(), aborted) == RunBatch(old(db.State()), Aggregate(config.news, p).value, os, false, now)
    {
      var noticias := BuscarTodasNoticias(config.news, p);
      if noticias.Failure? {
        return true;
      }
      aborted := ProcessarLote(db, noticias.value, os, false, now);
    }

    /** `postar_da_fila`, with the fixed handle in the caption. */
    method PostarDaFila(itemId: Option<nat>, o: PostOracle, now: nat) returns (outcome: PostOutcome)
      requires Valid() && StampOk(db.State(), now)
      modifies db
      ensures Valid() && StampOk(db.State(), now)
      ensures db.State() == Post(old(db.State()), itemId, o, now)
      ensures outcome == NothingToPost <==> SelectItem(old(db.State()), itemId).None?
      ensures outcome.Published? ==>
        var entry := SelectItem(old(db.State()), itemId).value.entry;
        outcome.legenda == Legenda(HandlePadrao, entry, GerarHashtags(HashtagSource(entry), o.hashtags).0)
    {
      outcome := Pipeline.PostarDaFila(db, itemId, HandlePadrao, o, now);
    }

    /** `reprovar_item_especifico`. */
    method ReprovarItemEspecifico(id: nat, now: nat)
      requires Valid() && StampOk(db.State(), now)
      modifies db
      ensures Valid() && StampOk(db.State(), now)
      ensures db.State() == RejectItem(old(db.State()), id, now)
    {
      var item := ItemById(db.queue, id);
      if item.Some? {
        db.RegistrarNoHistorico(AsNoticia(item.value, item.value.entry.custo), Rejeitada, MotivoManual, now);
        db.RemoverDaFila(id, now);
      }
    }

    /** `atualizar_config`: store the form and reschedule the jobs whose interval changed. */
    method AtualizarConfiguracao(f: Form) returns (rearmBusca: bool, rearmPost: bool)
      requires Valid()
      modifies this
      ensures Valid()
      ensures Updated(config, schedule, rearmBusca, rearmPost) == AtualizarConfig(old(config), old(schedule), f)
    {
      UpdateKeepsAgreement(config, schedule, f);
      rearmBusca := config.intervaloBusca != Some(f.intervaloBusca);
      if rearmBusca {
        schedule := schedule.(busca := f.intervaloBusca);
      }
      rearmPost := config.intervaloPost != Some(f.intervaloPost);
      if rearmPost {
        schedule := schedule.(post := f.intervaloPost);
      }
      var news := config.news.(apis := f.apis, categorias := f.categorias, idiomas := f.idiomas);
      config := Config(news, (f.opacidadePct as real) / 100.0, Some(f.intervaloBusca), Some(f.intervaloPost));
    }
  }
}
