/**
 * The aggregation of news_apis.py: one fetch per active api, search language
 * and category, in that nesting order. Each article is tagged with the triple
 * that fetched it, and all results are concatenated.
 *
 * The HTTP request and the JSON decoding are oracles: a provider maps
 * (category, language, country) to the articles it returned, or to None when the
 * request or the decoding raised.
 */
module NewsFeed {
  import opened Wrappers

  /**
   * The article dictionary a provider builds. A missing title, content or image
   * is the empty string: the pipeline only tests those for truthiness. The
   * description and the source name keep None apart, because the pipeline
   * slices the one and prints the other.
   */
  datatype Article = Article(
    title: string, description: Option<string>, content: string, image: string, source: Option<string>)

  /** An article after tagging: `api_fonte`, `idioma_original` and `categoria_busca` added. */
  datatype Candidate = Candidate(article: Article, apiFonte: string, idiomaOriginal: string, categoriaBusca: string)

  /** One provider's request for (category, language, country); None when it raised. */
  type Fetch = (string, string, string) -> Option<seq<Article>>

  datatype Providers = Providers(gnews: Fetch, newsdata: Fetch)

  /** The configuration keys the aggregation reads. A missing key is an empty value. */
  datatype NewsConfig = NewsConfig(
    apis: seq<string>, idiomas: seq<string>, categorias: seq<string>,
    gnewsKey: string, newsdataKey: string)

  /**
   * The one exception that escapes: `lang_map[idioma]` or `country_map[pais]`
   * raises KeyError before the request's try block.
   */
  datatype FetchError = KeyError(key: string)

  /** The country searched for a language. */
  function Pais(idioma: string): (pais: string)
    ensures pais == "us" || pais == "br"
    ensures pais == "us" <==> idioma == "en"
  {
    if idioma == "en" then "us" else "br"
  }

  /** `get_gnews`: nothing without a key or when the request fails. */
  function GetGnews(cfg: NewsConfig, p: Providers, categoria: string, idioma: string, pais: string): (r: seq<Article>)
    ensures cfg.gnewsKey == "" ==> r == []
    ensures cfg.gnewsKey != "" && p.gnews(categoria, idioma, pais).None? ==> r == []
    ensures cfg.gnewsKey != "" && p.gnews(categoria, idioma, pais).Some? ==> r == p.gnews(categoria, idioma, pais).value
  {
    if cfg.gnewsKey == "" then [] else p.gnews(categoria, idioma, pais).GetOr([])
  }

  /** The category names NewsData uses for two GNews topics. */
  function NewsdataCategory(categoria: string): (c: string)
    ensures categoria == "breaking-news" ==> c == "top"
    ensures categoria == "nation" ==> c == "politics"
    ensures categoria != "breaking-news" && categoria != "nation" ==> c == categoria
  {
    var c := if categoria == "breaking-news" then "top" else categoria;
    if c == "nation" then "politics" else c
  }

  /**
   * `get_newsdata`. Without a key it returns nothing. A language outside {pt, en}
   * or a country outside {br, us} raises KeyError. Otherwise the request is made
   * with the remapped category, and a failed request gives nothing.
   */
  function GetNewsdata(cfg: NewsConfig, p: Providers, categoria: string, idioma: string, pais: string)
    : (r: Result<seq<Article>, FetchError>)
    ensures cfg.newsdataKey == "" ==> r == Success([])
    ensures r.Failure? <==> cfg.newsdataKey != "" && (idioma !in {"pt", "en"} || pais !in {"br", "us"})
    ensures r.Success? && cfg.newsdataKey != "" ==>
      r.value == p.newsdata(NewsdataCategory(categoria), idioma, pais).GetOr([])
  {
    if cfg.newsdataKey == "" then Success([])
    else if idioma !in {"pt", "en"} then Failure(KeyError(idioma))
    else if pais !in {"br", "us"} then Failure(KeyError(pais))
    else Success(p.newsdata(NewsdataCategory(categoria), idioma, pais).GetOr([]))
  }

  /** The articles of one fetch with their metadata attached, in the provider's order. */
  function Tag(artigos: seq<Article>, api: string, idioma: string, categoria: string): (r: seq<Candidate>)
    ensures |r| == |artigos|
    ensures forall i :: 0 <= i < |r| ==> r[i] == Candidate(artigos[i], api, idioma, categoria)
  {
    if artigos == [] then []
    else
      Tag(artigos[..|artigos| - 1], api, idioma, categoria) +
      [Candidate(artigos[|artigos| - 1], api, idioma, categoria)]
  }

  /** The fetch of the innermost loop body; an unknown api fetches nothing. */
  function FetchFor(cfg: NewsConfig, p: Providers, api: string, idioma: string, categoria: string)
    : Result<seq<Article>, FetchError>
  {
    if api == "gnews" then Success(GetGnews(cfg, p, categoria, idioma, Pais(idioma)))
    else if api == "newsdata" then GetNewsdata(cfg, p, categoria, idioma, Pais(idioma))
    else Success([])
  }

  function Tagged(cfg: NewsConfig, p: Providers, api: string, idioma: string, categoria: string)
    : Result<seq<Candidate>, FetchError>
  {
    match FetchFor(cfg, p, api, idioma, categoria)
    case Failure(e) => Failure(e)
    case Success(a) => Success(Tag(a, api, idioma, categoria))
  }

  /** Sequencing with the first error winning, as an exception leaves the loops. */
  function Then(a: Result<seq<Candidate>, FetchError>, b: Result<seq<Candidate>, FetchError>)
    : (r: Result<seq<Candidate>, FetchError>)
    ensures r.Success? <==> a.Success? && b.Success?
    ensures r.Success? ==> r.value == a.value + b.value
    ensures a.Failure? ==> r == a
  {
    if a.Failure? then a else if b.Failure? then b else Success(a.value + b.value)
  }

  /** The innermost loop over the categories. */
  function ForCats(cfg: NewsConfig, p: Providers, api: string, idioma: string, cats: seq<string>)
    : Result<seq<Candidate>, FetchError>
  {
    if cats == [] then Success([])
    else Then(ForCats(cfg, p, api, idioma, cats[..|cats| - 1]), Tagged(cfg, p, api, idioma, cats[|cats| - 1]))
  }

  /** The middle loop over the search languages. */
  function ForLangs(cfg: NewsConfig, p: Providers, api: string, langs: seq<string>)
    : Result<seq<Candidate>, FetchError>
  {
    if langs == [] then Success([])
    else Then(ForLangs(cfg, p, api, langs[..|langs| - 1]), ForCats(cfg, p, api, langs[|langs| - 1], cfg.categorias))
  }

  /** The outer loop over the active apis. */
  function ForApis(cfg: NewsConfig, p: Providers, apis: seq<string>)
    : Result<seq<Candidate>, FetchError>
  {
    if apis == [] then Success([])
    else Then(ForApis(cfg, p, apis[..|apis| - 1]), ForLangs(cfg, p, apis[|apis| - 1], cfg.idiomas))
  }

  /** What `buscar_todas_noticias` returns, or the error it raises. */
  function Aggregate(cfg: NewsConfig, p: Providers): Result<seq<Candidate>, FetchError> {
    if cfg.apis == [] || cfg.idiomas == [] || cfg.categorias == [] then Success([])
    else ForApis(cfg, p, cfg.apis)
  }

  /** The tagging loop: each article of one fetch gets the api, language and category. */
  method TagArticles(artigos: seq<Article>, api: string, idioma: string, categoria: string)
    returns (tagged: seq<Candidate>)
    ensures tagged == Tag(artigos, api, idioma, categoria)
  {
    tagged := [];
    var i := 0;
    while i < |artigos|
      invariant 0 <= i <= |artigos|
      invariant tagged == Tag(artigos[..i], api, idioma, categoria)
    {
      assert artigos[..i + 1][..i] == artigos[..i];
      tagged := tagged + [Candidate(artigos[i], api, idioma, categoria)];
      i := i + 1;
    }
    assert artigos[..i] == artigos;
  }

  /**
   * The innermost loop of `buscar_todas_noticias` for one api and language: the
   * categories in order, each fetch tagged and appended.
   */
  method BuscarCategorias(cfg: NewsConfig, p: Providers, api: string, idioma: string)
    returns (r: Result<seq<Candidate>, FetchError>)
    ensures r == ForCats(cfg, p, api, idioma, cfg.categorias)
  {
    var pais := Pais(idioma);
    var artigosDoBloco: seq<Candidate> := [];
    var c := 0;
    while c < |cfg.categorias|
      invariant 0 <= c <= |cfg.categorias|
      invariant ForCats(cfg, p, api, idioma, cfg.categorias[..c]) == Success(artigosDoBloco)
    {
      var categoria := cfg.categorias[c];
      CatsStep(cfg, p, api, idioma, cfg.categorias, c);
      var artigos: seq<Article> := [];
      if api == "gnews" {
        artigos := GetGnews(cfg, p, categoria, idioma, pais);
      } else if api == "newsdata" {
        var got := GetNewsdata(cfg, p, categoria, idioma, pais);
        if got.Failure? {
          CatsFailure(cfg, p, api, idioma, cfg.categorias, c + 1);
          return Failure(got.error);
        }
        artigos := got.value;
      }
      var tagged := TagArticles(artigos, api, idioma, categoria);
      artigosDoBloco := artigosDoBloco + tagged;
      c := c + 1;
    }
    assert cfg.categorias[..c] == cfg.categorias;
    r := Success(artigosDoBloco);
  }

  /** The middle loop of `buscar_todas_noticias` for one api: the languages in order. */
  method BuscarIdiomas(cfg: NewsConfig, p: Providers, api: string)
    returns (r: Result<seq<Candidate>, FetchError>)
    ensures r == ForLangs(cfg, p, api, cfg.idiomas)
  {
    var doApi: seq<Candidate> := [];
    var l := 0;
    while l < |cfg.idiomas|
      invariant 0 <= l <= |cfg.idiomas|
      invariant ForLangs(cfg, p, api, cfg.idiomas[..l]) == Success(doApi)
    {
      LangsStep(cfg, p, api, cfg.idiomas, l);
      var bloco := BuscarCategorias(cfg, p, api, cfg.idiomas[l]);
      if bloco.Failure? {
        LangsFailure(cfg, p, api, cfg.idiomas, l + 1);
        return Failure(bloco.error);
      }
      doApi := doApi + bloco.value;
      l := l + 1;
    }
    assert cfg.idiomas[..l] == cfg.idiomas;
    r := Success(doApi);
  }

  /**
   * `buscar_todas_noticias`: nothing when a list is missing or empty;
   * otherwise apis, then languages, then categories, extending one list.
   */
  method BuscarTodasNoticias(cfg: NewsConfig, p: Providers) returns (r: Result<seq<Candidate>, FetchError>)
    ensures r == Aggregate(cfg, p)
  {
    if cfg.apis == [] || cfg.idiomas == [] || cfg.categorias == [] {
      return Success([]);
    }
    var todas: seq<Candidate> := [];
    var a := 0;
    while a < |cfg.apis|
      invariant 0 <= a <= |cfg.apis|
      invariant ForApis(cfg, p, cfg.apis[..a]) == Success(todas)
    {
      var doApi := BuscarIdiomas(cfg, p, cfg.apis[a]);
      ApisStep(cfg, p, cfg.apis, a);
      if doApi.Failure? {
        ApisFailure(cfg, p, cfg.apis, a + 1);
        return Failure(doApi.error);
      }
      todas := todas + doApi.value;
      a := a + 1;
    }
    ApisWhole(cfg, p, cfg.apis);
    r := Success(todas);
  }

  lemma CatsStep(cfg: NewsConfig, p: Providers, api: string, idioma: string, cats: seq<string>, c: nat)
    requires c < |cats|
    ensures ForCats(cfg, p, api, idioma, cats[..c + 1]) ==
      Then(ForCats(cfg, p, api, idioma, cats[..c]), Tagged(cfg, p, api, idioma, cats[c]))
  {
    assert cats[..c + 1][..c] == cats[..c];
  }

  lemma LangsStep(cfg: NewsConfig, p: Providers, api: string, langs: seq<string>, l: nat)
    requires l < |langs|
    ensures ForLangs(cfg, p, api, langs[..l + 1]) ==
      Then(ForLangs(cfg, p, api, langs[..l]), ForCats(cfg, p, api, langs[l], cfg.categorias))
  {
    assert langs[..l + 1][..l] == langs[..l];
  }

  lemma ApisStep(cfg: NewsConfig, p: Providers, apis: seq<string>, a: nat)
    requires a < |apis|
    ensures ForApis(cfg, p, apis[..a + 1]) == Then(ForApis(cfg, p, apis[..a]), ForLangs(cfg, p, apis[a], cfg.idiomas))
  {
    assert apis[..a + 1][..a] == apis[..a];
  }

  lemma ApisWhole(cfg: NewsConfig, p: Providers, apis: seq<string>)
    ensures ForApis(cfg, p, apis[..|apis|]) == ForApis(cfg, p, apis)
  {
    assert apis[..|apis|] == apis;
  }

  // ---------------------------------------------------------------------------
  // An error in one fetch is the error of the whole aggregation
  // ---------------------------------------------------------------------------

  lemma {:induction false} CatsFailure(cfg: NewsConfig, p: Providers, api: string, idioma: string, cats: seq<string>, k: nat)
    requires k <= |cats| && ForCats(cfg, p, api, idioma, cats[..k]).Failure?
    ensures ForCats(cfg, p, api, idioma, cats) == ForCats(cfg, p, api, idioma, cats[..k])
    decreases |cats| - k
  {
    if k < |cats| {
      var next := cats[..k + 1];
      assert next[..k] == cats[..k];
      CatsFailure(cfg, p, api, idioma, cats, k + 1);
    } else {
      assert cats[..k] == cats;
    }
  }

  lemma {:induction false} LangsFailure(cfg: NewsConfig, p: Providers, api: string, langs: seq<string>, k: nat)
    requires k <= |langs| && ForLangs(cfg, p, api, langs[..k]).Failure?
    ensures ForLangs(cfg, p, api, langs) == ForLangs(cfg, p, api, langs[..k])
    decreases |langs| - k
  {
    if k < |langs| {
      var next := langs[..k + 1];
      assert next[..k] == langs[..k];
      LangsFailure(cfg, p, api, langs, k + 1);
    } else {
      assert langs[..k] == langs;
    }
  }

  lemma {:induction false} ApisFailure(cfg: NewsConfig, p: Providers, apis: seq<string>, k: nat)
    requires k <= |apis| && ForApis(cfg, p, apis[..k]).Failure?
    ensures ForApis(cfg, p, apis) == ForApis(cfg, p, apis[..k])
    decreases |apis| - k
  {
    if k < |apis| {
      var next := apis[..k + 1];
      assert next[..k] == apis[..k];
      ApisFailure(cfg, p, apis, k + 1);
    } else {
      assert apis[..k] == apis;
    }
  }

  // ---------------------------------------------------------------------------
  // What the aggregation returns
  // ---------------------------------------------------------------------------

  /** Any missing or empty list in the configuration: no fetch at all. */
  lemma EmptyListFetchesNothing(cfg: NewsConfig, p: Providers)
    requires cfg.apis == [] || cfg.idiomas == [] || cfg.categorias == []
    ensures Aggregate(cfg, p) == Success([])
  {
  }

  /** The candidate's article is one that the fetch named by its own tags returned. */
  predicate Fetched(cfg: NewsConfig, p: Providers, c: Candidate) {
    var f := FetchFor(cfg, p, c.apiFonte, c.idiomaOriginal, c.categoriaBusca);
    f.Success? && c.article in f.value
  }

  lemma TaggedProvenance(cfg: NewsConfig, p: Providers, api: string, idioma: string, categoria: string)
    ensures var r := Tagged(cfg, p, api, idioma, categoria);
      r.Success? ==> forall c :: c in r.value ==>
        c.apiFonte == api && c.idiomaOriginal == idioma && c.categoriaBusca == categoria &&
        Fetched(cfg, p, c) && (api == "gnews" || api == "newsdata")
  {
    var f := FetchFor(cfg, p, api, idioma, categoria);
    if f.Success? {
      var t := Tag(f.value, api, idioma, categoria);
      forall c | c in t
        ensures c.apiFonte == api && c.idiomaOriginal == idioma && c.categoriaBusca == categoria
        ensures c.article in f.value
      {
        var i :| 0 <= i < |t| && t[i] == c;
      }
    }
  }

  lemma {:induction false} CatsProvenance(cfg: NewsConfig, p: Providers, api: string, idioma: string, cats: seq<string>)
    ensures var r := ForCats(cfg, p, api, idioma, cats);
      r.Success? ==> forall c :: c in r.value ==>
        c.apiFonte == api && c.idiomaOriginal == idioma && c.categoriaBusca in cats &&
        Fetched(cfg, p, c) && (api == "gnews" || api == "newsdata")
  {
    if cats != [] {
      var init := cats[..|cats| - 1];
      CatsProvenance(cfg, p, api, idioma, init);
      TaggedProvenance(cfg, p, api, idioma, cats[|cats| - 1]);
      forall x | x in init ensures x in cats {
        var i :| 0 <= i < |init| && init[i] == x;
        assert cats[i] == x;
      }
    }
  }

  lemma {:induction false} LangsProvenance(cfg: NewsConfig, p: Providers, api: string, langs: seq<string>)
    ensures var r := ForLangs(cfg, p, api, langs);
      r.Success? ==> forall c :: c in r.value ==>
        c.apiFonte == api && c.idiomaOriginal in langs && c.categoriaBusca in cfg.categorias &&
        Fetched(cfg, p, c) && (api == "gnews" || api == "newsdata")
  {
    if langs != [] {
      var init := langs[..|langs| - 1];
      LangsProvenance(cfg, p, api, init);
      CatsProvenance(cfg, p, api, langs[|langs| - 1], cfg.categorias);
      forall x | x in init ensures x in langs {
        var i :| 0 <= i < |init| && init[i] == x;
        assert langs[i] == x;
      }
    }
  }

  lemma {:induction false} ApisProvenance(cfg: NewsConfig, p: Providers, apis: seq<string>)
    ensures var r := ForApis(cfg, p, apis);
      r.Success? ==> forall c :: c in r.value ==>
        c.apiFonte in apis && c.idiomaOriginal in cfg.idiomas && c.categoriaBusca in cfg.categorias &&
        Fetched(cfg, p, c) && (c.apiFonte == "gnews" || c.apiFonte == "newsdata")
  {
    if apis != [] {
      var init := apis[..|apis| - 1];
      ApisProvenance(cfg, p, init);
      LangsProvenance(cfg, p, apis[|apis| - 1], cfg.idiomas);
      forall x | x in init ensures x in apis {
        var i :| 0 <= i < |init| && init[i] == x;
        assert apis[i] == x;
      }
    }
  }

  /**
   * Every aggregated candidate carries the api, language and category of the
   * fetch that produced it, all three taken from the configuration, and the api
   * is one of the two known providers.
   */
  lemma AggregateProvenance(cfg: NewsConfig, p: Providers)
    ensures var r := Aggregate(cfg, p);
      r.Success? ==> forall c :: c in r.value ==>
        c.apiFonte in cfg.apis && c.idiomaOriginal in cfg.idiomas && c.categoriaBusca in cfg.categorias &&
        (c.apiFonte == "gnews" || c.apiFonte == "newsdata") && Fetched(cfg, p, c)
  {
    ApisProvenance(cfg, p, cfg.apis);
  }

  /** An api other than gnews and newsdata contributes no article and raises nothing. */
  lemma {:induction false} UnknownApiCats(cfg: NewsConfig, p: Providers, api: string, idioma: string, cats: seq<string>)
    requires api != "gnews" && api != "newsdata"
    ensures ForCats(cfg, p, api, idioma, cats) == Success([])
  {
    if cats != [] {
      var init := cats[..|cats| - 1];
      UnknownApiCats(cfg, p, api, idioma, init);
      var last := Tagged(cfg, p, api, idioma, cats[|cats| - 1]);
      assert last == Success([]);
      assert ForCats(cfg, p, api, idioma, cats) == Then(Success([]), last);
    }
  }

  lemma {:induction false} UnknownApiContributesNothing(cfg: NewsConfig, p: Providers, api: string, langs: seq<string>)
    requires api != "gnews" && api != "newsdata"
    ensures ForLangs(cfg, p, api, langs) == Success([])
  {
    if langs != [] {
      var init := langs[..|langs| - 1];
      UnknownApiContributesNothing(cfg, p, api, init);
      UnknownApiCats(cfg, p, api, langs[|langs| - 1], cfg.categorias);
      assert ForLangs(cfg, p, api, langs) == Then(Success([]), Success([]));
    }
  }

  /** One failing fetch makes the whole category loop fail. */
  lemma {:induction false} CatsFailIfOneFails(cfg: NewsConfig, p: Providers, api: string, idioma: string, cats: seq<string>, k: nat)
    requires k < |cats| && Tagged(cfg, p, api, idioma, cats[k]).Failure?
    ensures ForCats(cfg, p, api, idioma, cats).Failure?
  {
    if k < |cats| - 1 {
      var init := cats[..|cats| - 1];
      assert init[k] == cats[k];
      CatsFailIfOneFails(cfg, p, api, idioma, init, k);
    }
  }

  lemma {:induction false} LangsFailIfOneFails(cfg: NewsConfig, p: Providers, api: string, langs: seq<string>, k: nat)
    requires k < |langs| && ForCats(cfg, p, api, langs[k], cfg.categorias).Failure?
    ensures ForLangs(cfg, p, api, langs).Failure?
  {
    if k < |langs| - 1 {
      var init := langs[..|langs| - 1];
      assert init[k] == langs[k];
      LangsFailIfOneFails(cfg, p, api, init, k);
    }
  }

  lemma {:induction false} ApisFailIfOneFails(cfg: NewsConfig, p: Providers, apis: seq<string>, k: nat)
    requires k < |apis| && ForLangs(cfg, p, apis[k], cfg.idiomas).Failure?
    ensures ForApis(cfg, p, apis).Failure?
  {
    if k < |apis| - 1 {
      var init := apis[..|apis| - 1];
      assert init[k] == apis[k];
      ApisFailIfOneFails(cfg, p, init, k);
    }
  }

  /**
   * With a NewsData key, newsdata active, at least one category, and a search
   * language other than pt and en, the KeyError escapes the whole aggregation.
   */
  lemma NewsdataUnknownLanguageRaises(cfg: NewsConfig, p: Providers, a: nat, l: nat)
    requires a < |cfg.apis| && cfg.apis[a] == "newsdata" && cfg.newsdataKey != ""
    requires l < |cfg.idiomas| && cfg.idiomas[l] !in {"pt", "en"}
    requires cfg.categorias != []
    ensures Aggregate(cfg, p).Failure?
  {
    CatsFailIfOneFails(cfg, p, "newsdata", cfg.idiomas[l], cfg.categorias, 0);
    LangsFailIfOneFails(cfg, p, "newsdata", cfg.idiomas, l);
    ApisFailIfOneFails(cfg, p, cfg.apis, a);
  }
}
