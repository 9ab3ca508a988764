/**
 * The multi-account registry of agent_manager.py. Each agent has its own
 * configuration, its own store and a scheduler whose post job the model keeps
 * as its interval in minutes. The agent's scheduler, Instagram session and
 * random draw are parameters.
 */
module Agents {
  import opened Wrappers
  import opened Store
  import opened Stages
  import opened NewsFeed
  import opened Pipeline

  /** The per-agent configuration keys the manager reads; a missing key is None or empty. */
  datatype AgentConfig = AgentConfig(
    instaUser: string, instaPass: string, news: NewsConfig,
    usarIntervaloAleatorio: Option<bool>,
    intervaloPostMin: Option<real>, intervaloPostMax: Option<real>,
    intervaloPost: Option<real>, intervaloBusca: Option<int>)

  /** `random.uniform(a, b)`: a value between the two bounds, in either order. */
  predicate Between(x: real, a: real, b: real) {
    (a <= b ==> a <= x <= b) && (b < a ==> b <= x <= a)
  }

  /** `usar_intervalo_aleatorio`, True when missing. */
  function UsesRandom(cfg: AgentConfig): bool {
    cfg.usarIntervaloAleatorio.GetOr(true)
  }

  /** The bounds of the random post interval, 8 and 10 minutes when missing. */
  function PostBounds(cfg: AgentConfig): (real, real) {
    (cfg.intervaloPostMin.GetOr(8.0), cfg.intervaloPostMax.GetOr(10.0))
  }

  /** A draw that `random.uniform` could return for this configuration. */
  predicate DrawOk(cfg: AgentConfig, draw: real) {
    Between(draw, PostBounds(cfg).0, PostBounds(cfg).1)
  }

  /** The post job's first interval: the random draw, or `intervalo_post` (30 when missing). */
  function InitialPostInterval(cfg: AgentConfig, draw: real): real {
    if UsesRandom(cfg) then draw else cfg.intervaloPost.GetOr(30.0)
  }

  /** Credentials are present: both `insta_user` and `insta_pass` are non-empty. */
  predicate HasCredentials(cfg: AgentConfig) {
    cfg.instaUser != "" && cfg.instaPass != ""
  }

  /** One running agent: its configuration, its store and its job intervals. */
  datatype Agent = Agent(config: AgentConfig, db: Database, postInterval: real, fetchInterval: int)

  /** A freshly started agent. */
  function Started(cfg: AgentConfig, store: Database, draw: real): Agent {
    Agent(cfg, store, InitialPostInterval(cfg, draw), cfg.intervaloBusca.GetOr(15))
  }

  /** The post job after `reagendar_proximo_post_agente`. */
  function Rearmed(a: Agent, draw: real): Agent {
    if UsesRandom(a.config) then a.(postInterval := draw) else a
  }

  /**
   * With a default configuration the post job draws from [8, 10] minutes, and
   * the fetch job runs every 15 minutes.
   */
  lemma DefaultPacing(cfg: AgentConfig, store: Database, draw: real)
    requires cfg.usarIntervaloAleatorio.None? && cfg.intervaloPostMin.None? && cfg.intervaloPostMax.None?
    requires cfg.intervaloBusca.None?
    requires DrawOk(cfg, draw)
    ensures 8.0 <= Started(cfg, store, draw).postInterval <= 10.0
    ensures Started(cfg, store, draw).fetchInterval == 15
  {
  }

  /**
   * The post interval always comes from the configured range when random
   * pacing is on, and is `intervalo_post` otherwise. Rescheduling never changes
   * a fixed interval.
   */
  lemma PostIntervalInRange(cfg: AgentConfig, store: Database, draw: real, redraw: real)
    requires DrawOk(cfg, draw) && DrawOk(cfg, redraw)
    ensures var a := Started(cfg, store, draw);
      var (lo, hi) := PostBounds(cfg);
      (UsesRandom(cfg) ==> Between(a.postInterval, lo, hi) && Between(Rearmed(a, redraw).postInterval, lo, hi)) &&
      (!UsesRandom(cfg) ==> a.postInterval == cfg.intervaloPost.GetOr(30.0) && Rearmed(a, redraw) == a)
  {
  }

  /** The registry of running agents, `self.agents`. */
  class AgentManager {
    var agents: map<string, Agent>

    /** The stores of the running agents. */
    function Dbs(): set<Database>
      reads this
    {
      set id | id in agents :: agents[id].db
    }

    /** Every agent's store keeps its invariant, and no two agents share a store. */
    ghost predicate Valid()
      reads this, Dbs()
    {
      (forall id :: id in agents ==> agents[id].db.Valid()) &&
      (forall a, b :: a in agents && b in agents && a != b ==> agents[a].db != agents[b].db)
    }

    constructor ()
      ensures Valid() && agents == map[]
    {
      agents := map[];
    }

    /**
     * `inicializar_agente`. It fails without credentials, when the store cannot
     * be set up, or when the login fails; on success the agent is registered,
     * replacing any agent under that id.
     */
    method InicializarAgente(id: string, cfg: AgentConfig, store: Database, setupOk: bool, loginOk: bool, draw: real)
      returns (ok: bool)
      requires Valid() && store.Valid()
      requires forall other :: other in agents && other != id ==> agents[other].db != store
      requires UsesRandom(cfg) ==> DrawOk(cfg, draw)
      modifies this
      ensures Valid()
      ensures ok <==> HasCredentials(cfg) && setupOk && loginOk
      ensures ok ==> agents == old(agents)[id := Started(cfg, store, draw)]
      ensures !ok ==> agents == old(agents)
    {
      if cfg.instaUser == "" || cfg.instaPass == "" {
        return false;
      }
      if !setupOk {
        return false;  // the exception handler returns False
      }
      if !loginOk {
        return false;
      }
      var intervaloInicial: real;
      if cfg.usarIntervaloAleatorio.GetOr(true) {
        intervaloInicial := draw;
      } else {
        intervaloInicial := cfg.intervaloPost.GetOr(30.0);
      }
      agents := agents[id := Agent(cfg, store, intervaloInicial, cfg.intervaloBusca.GetOr(15))];
      ok := true;
    }

    /**
     * `processar_noticias_agente`: nothing for an unknown agent. Otherwise the
     * agent's candidates run through the pipeline with the title check, in the
     * agent's own store only.
     */
    method ProcessarNoticiasAgente(id: string, p: Providers, os: nat -> CandidateOracle, now: nat)
      returns (aborted: bool)
      requires Valid() && (id in agents ==> StampOk(agents[id].db.State(), now))
      modifies if id in agents then {agents[id].db} else {}
      ensures Valid()
      ensures id !in agents ==> !aborted
      ensures id in agents ==>
        var a := agents[id];
        var fetched := Aggregate(a.config.news, p);
        StampOk(a.db.State(), now) &&
        (fetched.Failure? ==> aborted && a.db.State() == old(a.db.State())) &&
        (fetched.Success? ==> (a.db.State(), aborted) == RunBatch(old(a.db.State()), fetched.value, os, true, now))
    {
      if id !in agents {
        return false;
      }
      var agent := agents[id];
      var noticias := BuscarTodasNoticias(agent.config.news, p);
      if noticias.Failure? {
        return true;
      }
      aborted := ProcessarLote(agent.db, noticias.value, os, true, now);
    }

    /**
     * `reagendar_proximo_post_agente`: under random pacing the post job is
     * re-armed with a new draw; otherwise, or for an unknown agent, nothing changes.
     */
    method ReagendarProximoPostAgente(id: string, draw: real)
      requires Valid()
      requires id in agents && UsesRandom(agents[id].config) ==> DrawOk(agents[id].config, draw)
      modifies this
      ensures Valid()
      ensures id in old(agents) ==> agents == old(agents)[id := Rearmed(old(agents)[id], draw)]
      ensures id !in old(agents) ==> agents == old(agents)
    {
      if id !in agents {
        return;
      }
      var agent := agents[id];
      if agent.config.usarIntervaloAleatorio.GetOr(true) {
        agents := agents[id := agent.(postInterval := draw)];
      }
    }

    /**
     * `postar_da_fila_agente`: nothing for an unknown agent or an empty
     * selection. Otherwise the item is posted with the agent's handle, and the
     * post job is re-armed when an image was created.
     */
    method PostarDaFilaAgente(id: string, itemId: Option<nat>, o: PostOracle, draw: real, now: nat)
      returns (outcome: PostOutcome)
      requires Valid() && (id in agents ==> StampOk(agents[id].db.State(), now))
      requires id in agents && UsesRandom(agents[id].config) ==> DrawOk(agents[id].config, draw)
      modifies this, if id in agents then {agents[id].db} else {}
      ensures Valid()
      ensures id !in old(agents) ==> outcome == NothingToPost && agents == old(agents)
      ensures id in old(agents) ==>
        var a := old(agents)[id];
        StampOk(a.db.State(), now) &&
        a.db.State() == Post(old(a.db.State()), itemId, o, now) &&
        (outcome == NothingToPost <==> SelectItem(old(a.db.State()), itemId).None?) &&
        (outcome.Published? ==> agents == old(agents)[id := Rearmed(a, draw)]) &&
        (!outcome.Published? ==> agents == old(agents))
      ensures id in old(agents) && outcome.Published? ==>
        var a := old(agents)[id];
        var entry := SelectItem(old(a.db.State()), itemId).value.entry;
        outcome.legenda == Legenda(a.config.instaUser, entry, GerarHashtags(HashtagSource(entry), o.hashtags).0)
    {
      if id !in agents {
        return NothingToPost;
      }
      outcome := PostarNaLoja(id, itemId, o, now);
      if outcome.Published? {
        ReagendarProximoPostAgente(id, draw);
      }
    }

    /** The posting step in one agent's store, with that agent's handle; the registry is untouched. */
    method PostarNaLoja(id: string, itemId: Option<nat>, o: PostOracle, now: nat) returns (outcome: PostOutcome)
      requires Valid() && id in agents && StampOk(agents[id].db.State(), now)
      modifies agents[id].db
      ensures Valid() && StampOk(agents[id].db.State(), now)
      ensures agents[id].db.State() == Post(old(agents[id].db.State()), itemId, o, now)
      ensures outcome == NothingToPost <==> SelectItem(old(agents[id].db.State()), itemId).None?
      ensures outcome.Published? ==>
        var entry := SelectItem(old(agents[id].db.State()), itemId).value.entry;
        outcome.legenda == Legenda(agents[id].config.instaUser, entry, GerarHashtags(HashtagSource(entry), o.hashtags).0)
    {
      var agent := agents[id];
      outcome := Pipeline.PostarDaFila(agent.db, itemId, agent.config.instaUser, o, now);
    }

    /** `parar_agente`: the agent's scheduler stops and it leaves the registry; unknown ids are ignored. */
    method PararAgente(id: string)
      requires Valid()
      modifies this
      ensures Valid()
      ensures agents == old(agents) - {id}
    {
      agents := agents - {id};
    }

    /** `parar_todos`: every registered agent is stopped, and the registry ends empty. */
    method PararTodos()
      requires Valid()
      modifies this
      ensures Valid() && agents == map[]
    {
      var ids := agents.Keys;
      while ids != {}
        invariant Valid()
        invariant agents.Keys == ids
        decreases |ids|
      {
        var id :| id in ids;
        PararAgente(id);
        ids := ids - {id};
      }
    }
  }
}
