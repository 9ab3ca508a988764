/**
 * The SQLite store of database.py: the posting queue `fila_postagem`, the
 * history ledger `historico` and the `custo_total_vida` statistic.
 *
 * The tables are sequences in insertion order. A `uuid4` primary key is a fresh
 * number drawn from `nextId`, and `CURRENT_TIMESTAMP` is a clock value `now`
 * that the caller supplies and that never runs backwards (`StampOk`).
 * `StoreState` holds the transitions as pure functions, and the class `Database`
 * applies them in place.
 */
module Store {
  import opened Wrappers

  /** The `status` column of `historico`. */
  datatype Status = Postado | Rejeitada | Falha

  function StatusText(st: Status): (t: string)
    ensures t in {"POSTADO", "REJEITADA", "FALHA"}
  {
    match st
    case Postado => "POSTADO"
    case Rejeitada => "REJEITADA"
    case Falha => "FALHA"
  }

  /**
   * What `adicionar_na_fila` inserts besides the hash. A text column that the
   * pipeline only tests for truthiness is the empty string when NULL. The
   * description and the source name may be NULL (None).
   */
  datatype Entry = Entry(
    tituloOriginal: string,
    tituloRefinado: string,
    descricao: Option<string>,
    conteudoOriginal: string,
    conteudoReescrito: string,
    urlImagem: string,
    fonte: Option<string>,
    categoria: string,
    idioma: string,
    apiFonte: string,
    custo: real)

  /** A row of `fila_postagem`. `semantic_hash` is NOT NULL, so it is a plain string. */
  datatype QueueItem = QueueItem(id: nat, hash: string, entry: Entry, added: nat)

  /**
   * The dictionary handed to `registrar_no_historico`. The hash is nullable in
   * this table. `custo` is None when the dictionary has no `custo_usd` key.
   */
  datatype Noticia = Noticia(
    tituloOriginal: string,
    tituloRefinado: string,
    semanticHash: Option<string>,
    conteudoOriginal: string,
    conteudoReescrito: string,
    idioma: string,
    apiFonte: string,
    custo: Option<real>)

  /** A row of `historico`. */
  datatype HistoryRecord = HistoryRecord(
    id: nat, noticia: Noticia, status: Status, motivo: string, custo: real, processedAt: nat)

  /** The three tables. `nextId` is the source of fresh primary keys. */
  datatype StoreState = StoreState(
    queue: seq<QueueItem>, history: seq<HistoryRecord>, lifetimeCost: real, nextId: nat)

  /** `setup_database` on an empty file: empty tables, lifetime cost seeded to 0.0. */
  const Empty := StoreState([], [], 0.0, 0)

  /** The history listing shows at most this many rows. */
  const HistoryListingLimit := 100

  /** `noticia.get('custo_usd', 0.0)`. */
  function CostOf(n: Noticia): real {
    n.custo.GetOr(0.0)
  }

  predicate QueueHasHash(q: seq<QueueItem>, h: string) {
    exists i :: 0 <= i < |q| && q[i].hash == h
  }

  predicate HistoryHasHash(hs: seq<HistoryRecord>, h: string) {
    exists i :: 0 <= i < |hs| && hs[i].noticia.semanticHash == Some(h)
  }

  predicate QueueHasId(q: seq<QueueItem>, id: nat) {
    exists i :: 0 <= i < |q| && q[i].id == id
  }

  /**
   * Queue rows in insertion order: the ids are distinct and increasing,
   * `data_adicionado` never decreases, and UNIQUE(semantic_hash) holds.
   */
  predicate QueueOrdered(q: seq<QueueItem>) {
    forall i, j :: 0 <= i < j < |q| ==> Precedes(q[i], q[j])
  }

  /** Row `a` may stand before row `b` in the queue. */
  predicate Precedes(a: QueueItem, b: QueueItem) {
    a.id < b.id && a.added <= b.added && a.hash != b.hash
  }

  /** An ordered queue extended at the front by a row that precedes all of it. */
  lemma ConsOrdered(x: QueueItem, t: seq<QueueItem>)
    requires QueueOrdered(t)
    requires forall y :: y in t ==> Precedes(x, y)
    ensures QueueOrdered([x] + t)
  {
    var q := [x] + t;
    forall i, j | 0 <= i < j < |q| ensures Precedes(q[i], q[j]) {
      assert q[j] == t[j - 1];
      if i > 0 {
        assert q[i] == t[i - 1];
      }
    }
  }

  /**
   * History rows in insertion order, and UNIQUE(semantic_hash), under which
   * several NULL hashes may coexist.
   */
  predicate HistoryOrdered(h: seq<HistoryRecord>) {
    forall i, j :: 0 <= i < j < |h| ==>
      h[i].id < h[j].id && h[i].processedAt <= h[j].processedAt &&
      (h[i].noticia.semanticHash.Some? ==> h[i].noticia.semanticHash != h[j].noticia.semanticHash)
  }

  /** The invariant of the store: keys below `nextId`, both tables ordered and unique. */
  predicate Consistent(s: StoreState) {
    (forall i :: 0 <= i < |s.queue| ==> s.queue[i].id < s.nextId) &&
    (forall i :: 0 <= i < |s.history| ==> s.history[i].id < s.nextId) &&
    QueueOrdered(s.queue) && HistoryOrdered(s.history)
  }

  /** No stamp in the store is later than the clock value `now`. */
  predicate StampOk(s: StoreState, now: nat) {
    (forall i :: 0 <= i < |s.queue| ==> s.queue[i].added <= now) &&
    (forall i :: 0 <= i < |s.history| ==> s.history[i].processedAt <= now)
  }

  // ---------------------------------------------------------------------------
  // Transitions
  // ---------------------------------------------------------------------------

  /**
   * `adicionar_na_fila`. A NULL hash violates NOT NULL and a hash already in the
   * queue violates UNIQUE. Both raise IntegrityError, which is swallowed, so the
   * store is unchanged.
   */
  function Enqueue(s: StoreState, hash: Option<string>, e: Entry, now: nat): StoreState {
    if hash.None? || QueueHasHash(s.queue, hash.value) then s
    else s.(queue := s.queue + [QueueItem(s.nextId, hash.value, e, now)], nextId := s.nextId + 1)
  }

  /** The insert into `historico` fails when a non-NULL hash is already there. */
  predicate HistoryConflict(s: StoreState, n: Noticia) {
    n.semanticHash.Some? && HistoryHasHash(s.history, n.semanticHash.value)
  }

  /**
   * `registrar_no_historico`. An insert conflict is swallowed, but the
   * `finally` block adds the cost to the lifetime total either way.
   */
  function Record(s: StoreState, n: Noticia, st: Status, motivo: string, now: nat): StoreState {
    var cost := s.lifetimeCost + CostOf(n);
    if HistoryConflict(s, n) then s.(lifetimeCost := cost)
    else s.(history := s.history + [HistoryRecord(s.nextId, n, st, motivo, CostOf(n), now)],
            nextId := s.nextId + 1, lifetimeCost := cost)
  }

  /** `DELETE FROM fila_postagem WHERE id = ?`. */
  function RemoveById(q: seq<QueueItem>, id: nat): (r: seq<QueueItem>)
    ensures |r| <= |q|
    ensures !QueueHasId(q, id) ==> r == q
  {
    if q == [] then []
    else
      assert !QueueHasId(q, id) ==> !QueueHasId(q[1..], id) by {
        if QueueHasId(q[1..], id) {
          var i :| 0 <= i < |q[1..]| && q[1..][i].id == id;
          assert q[i + 1].id == id;
        }
      }
      (if q[0].id == id then [] else [q[0]]) + RemoveById(q[1..], id)
  }

  /** `remover_da_fila` keeps exactly the rows whose key differs. */
  lemma {:induction false} RemoveByIdMembers(q: seq<QueueItem>, id: nat)
    ensures forall x :: x in RemoveById(q, id) <==> x in q && x.id != id
  {
    if q != [] {
      RemoveByIdMembers(q[1..], id);
      assert q == [q[0]] + q[1..];
    }
  }

  function Remove(s: StoreState, id: nat): StoreState {
    s.(queue := RemoveById(s.queue, id))
  }

  /** `limpar_fila`: only the queue is emptied. */
  function Clear(s: StoreState): StoreState {
    s.(queue := [])
  }

  // ---------------------------------------------------------------------------
  // Queries
  // ---------------------------------------------------------------------------

  /**
   * `verificar_duplicata_semantica`. The check fails closed: an empty or NULL
   * hash counts as a duplicate. Otherwise the hash is looked up in the history
   * and then in the queue.
   */
  function IsSemanticDuplicate(s: StoreState, hash: Option<string>): (dup: bool)
    ensures dup <==> (hash.None? || hash.value == "" ||
      (exists i :: 0 <= i < |s.history| && s.history[i].noticia.semanticHash == hash) ||
      (exists i :: 0 <= i < |s.queue| && s.queue[i].hash == hash.value))
  {
    hash.None? || hash.value == "" || HistoryHasHash(s.history, hash.value) || QueueHasHash(s.queue, hash.value)
  }

  /**
   * `SELECT * FROM fila_postagem ORDER BY data_adicionado ASC LIMIT 1`. SQLite
   * leaves the order of equal timestamps open; the model picks the row inserted first.
   */
  function Oldest(q: seq<QueueItem>): (r: Option<QueueItem>)
    ensures r.None? <==> q == []
    ensures r.Some? ==> r.value in q && forall i :: 0 <= i < |q| ==> r.value.added <= q[i].added
  {
    if q == [] then None
    else
      match Oldest(q[1..])
      case None => Some(q[0])
      case Some(m) => if m.added < q[0].added then Some(m) else Some(q[0])
  }

  /** The queue row with the given key, if any. */
  function ItemById(q: seq<QueueItem>, id: nat): (r: Option<QueueItem>)
    ensures r.None? <==> !QueueHasId(q, id)
    ensures r.Some? ==> r.value in q && r.value.id == id
  {
    if q == [] then None
    else if q[0].id == id then Some(q[0])
    else
      assert QueueHasId(q, id) ==> QueueHasId(q[1..], id) by {
        if QueueHasId(q, id) {
          var i :| 0 <= i < |q| && q[i].id == id;
          assert q[1..][i - 1].id == id;
        }
      }
      ItemById(q[1..], id)
  }

  /** A row of `pegar_fila_completa`: `id, titulo_refinado AS titulo, categoria_ia, api_fonte`. */
  datatype QueueRow = QueueRow(id: nat, titulo: string, categoria: string, apiFonte: string)

  function RowOf(x: QueueItem): QueueRow {
    QueueRow(x.id, x.entry.tituloRefinado, x.entry.categoria, x.entry.apiFonte)
  }

  /** `pegar_fila_completa`: the queue projected to its listing columns, oldest first. */
  function QueueListing(q: seq<QueueItem>): (rows: seq<QueueRow>)
    ensures |rows| == |q|
    ensures forall i :: 0 <= i < |q| ==> rows[i] == RowOf(q[i])
  {
    if q == [] then [] else [RowOf(q[0])] + QueueListing(q[1..])
  }

  /** The `n` most recent history rows, newest first. */
  function NewestFirst(h: seq<HistoryRecord>, n: nat): (r: seq<HistoryRecord>)
    ensures |r| == if |h| < n then |h| else n
    ensures forall i :: 0 <= i < |r| ==> r[i] == h[|h| - 1 - i]
  {
    if h == [] || n == 0 then [] else [h[|h| - 1]] + NewestFirst(h[..|h| - 1], n - 1)
  }

  /**
   * `pegar_historico_completo`: `ORDER BY data_processamento DESC LIMIT 100`.
   * Among equal timestamps, which SQLite leaves unordered, the later insertion comes first.
   */
  function HistoryListing(h: seq<HistoryRecord>): seq<HistoryRecord> {
    NewestFirst(h, HistoryListingLimit)
  }

  // ---------------------------------------------------------------------------
  // Properties of the transitions
  // ---------------------------------------------------------------------------

  lemma EmptyConsistent()
    ensures Consistent(Empty) && Empty.lifetimeCost == 0.0
    ensures forall now: nat :: StampOk(Empty, now)
  {
  }

  /** A NULL hash or one already queued changes nothing, and nothing is raised. */
  lemma EnqueueConflictIsNoOp(s: StoreState, hash: Option<string>, e: Entry, now: nat)
    requires hash.None? || QueueHasHash(s.queue, hash.value)
    ensures Enqueue(s, hash, e, now) == s
  {
  }

  /**
   * An accepted enqueue appends exactly one row, carrying the entry and the
   * hash. Its key is new to both tables, and the history and the cost are untouched.
   */
  lemma EnqueueAddsOneFresh(s: StoreState, hash: Option<string>, e: Entry, now: nat)
    requires Consistent(s)
    requires hash.Some? && !QueueHasHash(s.queue, hash.value)
    ensures var r := Enqueue(s, hash, e, now);
      |r.queue| == |s.queue| + 1 && r.queue[..|s.queue|] == s.queue &&
      r.queue[|s.queue|].hash == hash.value && r.queue[|s.queue|].entry == e &&
      !QueueHasId(s.queue, r.queue[|s.queue|].id) &&
      (forall i :: 0 <= i < |s.history| ==> s.history[i].id != r.queue[|s.queue|].id) &&
      r.history == s.history && r.lifetimeCost == s.lifetimeCost
  {
  }

  /** Recording always charges the cost, defaulting to 0.0, and never touches the queue. */
  lemma RecordCharges(s: StoreState, n: Noticia, st: Status, motivo: string, now: nat)
    ensures var r := Record(s, n, st, motivo, now);
      r.lifetimeCost == s.lifetimeCost + (if n.custo.Some? then n.custo.value else 0.0) &&
      r.queue == s.queue
  {
  }

  /** On a hash conflict the history is unchanged; otherwise exactly one row is appended. */
  lemma RecordHistory(s: StoreState, n: Noticia, st: Status, motivo: string, now: nat)
    ensures var r := Record(s, n, st, motivo, now);
      if n.semanticHash.Some? && HistoryHasHash(s.history, n.semanticHash.value) then
        r.history == s.history
      else
        |r.history| == |s.history| + 1 && r.history[..|s.history|] == s.history &&
        r.history[|s.history|].noticia == n && r.history[|s.history|].status == st &&
        r.history[|s.history|].motivo == motivo
  {
  }

  lemma EnqueuePreservesConsistent(s: StoreState, hash: Option<string>, e: Entry, now: nat)
    requires Consistent(s) && StampOk(s, now)
    ensures Consistent(Enqueue(s, hash, e, now)) && StampOk(Enqueue(s, hash, e, now), now)
  {
  }

  lemma RecordPreservesConsistent(s: StoreState, n: Noticia, st: Status, motivo: string, now: nat)
    requires Consistent(s) && StampOk(s, now)
    ensures Consistent(Record(s, n, st, motivo, now)) && StampOk(Record(s, n, st, motivo, now), now)
  {
  }

  lemma {:induction false} RemoveByIdPreservesOrder(q: seq<QueueItem>, id: nat)
    requires QueueOrdered(q)
    ensures QueueOrdered(RemoveById(q, id))
  {
    if q != [] {
      var tail := RemoveById(q[1..], id);
      TailOrdered(q);
      RemoveByIdPreservesOrder(q[1..], id);
      RemoveByIdMembers(q[1..], id);
      forall y | y in tail ensures Precedes(q[0], y) {
        var j :| 0 <= j < |q[1..]| && q[1..][j] == y;
        assert q[j + 1] == y;
      }
      if q[0].id == id {
        assert RemoveById(q, id) == tail;
      } else {
        ConsOrdered(q[0], tail);
        assert RemoveById(q, id) == [q[0]] + tail;
      }
    }
  }

  lemma RemovePreservesConsistent(s: StoreState, id: nat, now: nat)
    requires Consistent(s) && StampOk(s, now)
    ensures Consistent(Remove(s, id)) && StampOk(Remove(s, id), now)
  {
    RemoveByIdPreservesOrder(s.queue, id);
    RemoveByIdMembers(s.queue, id);
    var r := Remove(s, id).queue;
    forall i | 0 <= i < |r|
      ensures r[i].id < s.nextId && r[i].added <= now
    {
      assert r[i] in s.queue;
    }
  }

  /** `limpar_fila` keeps the history and the lifetime cost. */
  lemma ClearKeepsLedger(s: StoreState, now: nat)
    requires Consistent(s) && StampOk(s, now)
    ensures var r := Clear(s);
      r.queue == [] && r.history == s.history && r.lifetimeCost == s.lifetimeCost &&
      Consistent(r) && StampOk(r, now)
  {
  }

  /** The tail of an ordered queue is ordered. */
  lemma TailOrdered(q: seq<QueueItem>)
    requires QueueOrdered(q) && q != []
    ensures QueueOrdered(q[1..])
  {
    forall i, j | 0 <= i < j < |q[1..]| ensures Precedes(q[1..][i], q[1..][j]) {
      assert q[1..][i] == q[i + 1] && q[1..][j] == q[j + 1];
    }
  }

  lemma RemoveByIdHead(q: seq<QueueItem>)
    requires QueueOrdered(q) && q != []
    ensures RemoveById(q, q[0].id) == q[1..]
  {
    assert !QueueHasId(q[1..], q[0].id) by {
      forall i | 0 <= i < |q[1..]| ensures q[1..][i].id != q[0].id {
        assert q[1..][i] == q[i + 1];
      }
    }
  }

  /** A head whose key no other row holds is removed alone. */
  lemma RemoveByIdUniqueHead(q: seq<QueueItem>)
    requires q != [] && forall i :: 0 < i < |q| ==> q[i].id != q[0].id
    ensures RemoveById(q, q[0].id) == q[1..]
  {
    var t := q[1..];
    assert !QueueHasId(t, q[0].id) by {
      forall i | 0 <= i < |t| ensures t[i].id != q[0].id {
        assert t[i] == q[i + 1];
      }
    }
  }

  /** Removing a key held by exactly one row deletes that row and keeps the others in order. */
  lemma {:induction false} RemoveByIdAt(q: seq<QueueItem>, k: nat)
    requires k < |q|
    requires forall i :: 0 <= i < |q| && i != k ==> q[i].id != q[k].id
    ensures RemoveById(q, q[k].id) == q[..k] + q[k + 1..]
  {
    if k == 0 {
      RemoveByIdUniqueHead(q);
      assert q[..0] + q[1..] == q[1..];
    } else {
      var t := q[1..];
      var id := q[k].id;
      var rest := RemoveById(t, id);
      assert rest == t[..k - 1] + t[k..] by {
        assert t[k - 1] == q[k];
        forall i | 0 <= i < |t| && i != k - 1 ensures t[i].id != t[k - 1].id {
          assert t[i] == q[i + 1];
        }
        RemoveByIdAt(t, k - 1);
      }
      assert RemoveById(q, id) == [q[0]] + rest by {
        assert q[0].id != id;
      }
      assert [q[0]] + rest == q[..k] + q[k + 1..] by {
        assert t[..k - 1] == q[1..k];
        assert t[k..] == q[k + 1..];
        assert q[..k] == [q[0]] + q[1..k];
      }
    }
  }

  /** In the queue every key is held by one row, so removing it deletes just that row. */
  lemma RemoveOrderedAt(q: seq<QueueItem>, k: nat)
    requires QueueOrdered(q) && k < |q|
    ensures RemoveById(q, q[k].id) == q[..k] + q[k + 1..]
  {
    forall i | 0 <= i < |q| && i != k ensures q[i].id != q[k].id {
      if i < k { assert Precedes(q[i], q[k]); } else { assert Precedes(q[k], q[i]); }
    }
    RemoveByIdAt(q, k);
  }

  /** In an ordered queue the oldest row is the head. */
  lemma {:induction false} OldestIsHead(q: seq<QueueItem>)
    requires QueueOrdered(q) && q != []
    ensures Oldest(q) == Some(q[0])
  {
    if |q| > 1 {
      TailOrdered(q);
      OldestIsHead(q[1..]);
      assert q[1..][0] == q[1];
    }
  }

  /**
   * Draining: peeking and then removing the oldest row leaves the second
   * oldest at the head.
   */
  lemma DrainOrder(q: seq<QueueItem>)
    requires QueueOrdered(q) && |q| >= 2
    ensures Oldest(q) == Some(q[0])
    ensures RemoveById(q, q[0].id) == q[1..]
    ensures Oldest(RemoveById(q, q[0].id)) == Some(q[1])
  {
    OldestIsHead(q);
    RemoveByIdHead(q);
    TailOrdered(q);
    OldestIsHead(q[1..]);
  }

  /** After a successful enqueue or a history insert the hash reads as a duplicate. */
  lemma EnqueueMakesDuplicate(s: StoreState, hash: Option<string>, e: Entry, now: nat)
    ensures IsSemanticDuplicate(Enqueue(s, hash, e, now), hash)
  {
    var r := Enqueue(s, hash, e, now);
    if hash.Some? && !QueueHasHash(s.queue, hash.value) {
      assert r.queue[|s.queue|].hash == hash.value;
    }
  }

  lemma RecordMakesDuplicate(s: StoreState, n: Noticia, st: Status, motivo: string, now: nat)
    ensures IsSemanticDuplicate(Record(s, n, st, motivo, now), n.semanticHash)
  {
    var r := Record(s, n, st, motivo, now);
    if n.semanticHash.Some? && !HistoryConflict(s, n) {
      assert r.history[|s.history|].noticia.semanticHash == n.semanticHash;
    }
  }

  /** A hash that passes the duplicate check is accepted by the queue. */
  lemma NotDuplicateEnqueues(s: StoreState, hash: Option<string>, e: Entry, now: nat)
    requires !IsSemanticDuplicate(s, hash)
    ensures |Enqueue(s, hash, e, now).queue| == |s.queue| + 1
  {
  }

  /** The history listing is newest first. */
  lemma HistoryListingNewestFirst(h: seq<HistoryRecord>)
    requires HistoryOrdered(h)
    ensures var r := HistoryListing(h);
      |r| == (if |h| < HistoryListingLimit then |h| else HistoryListingLimit) &&
      forall i, j :: 0 <= i < j < |r| ==> r[j].processedAt <= r[i].processedAt
  {
    var r := HistoryListing(h);
    forall i, j | 0 <= i < j < |r| ensures r[j].processedAt <= r[i].processedAt {
      assert r[i] == h[|h| - 1 - i] && r[j] == h[|h| - 1 - j];
    }
  }

  // ---------------------------------------------------------------------------
  // The lifetime cost over a run of operations
  // ---------------------------------------------------------------------------

  /** One call into the store, with the clock value at that moment. */
  datatype Op =
    | AddOp(hash: Option<string>, e: Entry, now: nat)
    | RecordOp(n: Noticia, st: Status, motivo: string, now: nat)
    | RemoveOp(id: nat)
    | ClearOp

  function Step(s: StoreState, op: Op): StoreState {
    match op
    case AddOp(h, e, now) => Enqueue(s, h, e, now)
    case RecordOp(n, st, m, now) => Record(s, n, st, m, now)
    case RemoveOp(id) => Remove(s, id)
    case ClearOp => Clear(s)
  }

  function Run(s: StoreState, ops: seq<Op>): StoreState {
    if ops == [] then s else Step(Run(s, ops[..|ops| - 1]), ops[|ops| - 1])
  }

  /** The sum of the costs handed to `registrar_no_historico`. */
  function ChargedCost(ops: seq<Op>): real {
    if ops == [] then 0.0
    else ChargedCost(ops[..|ops| - 1]) + (match ops[|ops| - 1] case RecordOp(n, _, _, _) => CostOf(n) case _ => 0.0)
  }

  /**
   * `obter_custo_total` after any run of calls from a fresh store is the sum of
   * every recorded cost, those whose insert was dropped included.
   */
  lemma {:induction false} LifetimeCostIsCharged(ops: seq<Op>)
    ensures Run(Empty, ops).lifetimeCost == ChargedCost(ops)
  {
    if ops != [] {
      LifetimeCostIsCharged(ops[..|ops| - 1]);
    }
  }

  // ---------------------------------------------------------------------------
  // The store as the program uses it
  // ---------------------------------------------------------------------------

  /** One database file. Its methods are the static methods of `Database`. */
  class Database {
    var queue: seq<QueueItem>
    var history: seq<HistoryRecord>
    var lifetimeCost: real
    var nextId: nat

    function State(): StoreState
      reads this
    {
      StoreState(queue, history, lifetimeCost, nextId)
    }

    ghost predicate Valid()
      reads this
    {
      Consistent(State())
    }

    /** `setup_database` on a new file. */
    constructor ()
      ensures Valid() && State() == Empty
    {
      queue, history, lifetimeCost, nextId := [], [], 0.0, 0;
    }

    method AdicionarNaFila(hash: Option<string>, e: Entry, now: nat)
      requires Valid() && StampOk(State(), now)
      modifies this
      ensures Valid() && StampOk(State(), now)
      ensures State() == Enqueue(old(State()), hash, e, now)
    {
      EnqueuePreservesConsistent(State(), hash, e, now);
      if hash.None? || QueueHasHash(queue, hash.value) {
        return;  // IntegrityError, ignored
      }
      queue := queue + [QueueItem(nextId, hash.value, e, now)];
      nextId := nextId + 1;
    }

    method RegistrarNoHistorico(n: Noticia, st: Status, motivo: string, now: nat)
      requires Valid() && StampOk(State(), now)
      modifies this
      ensures Valid() && StampOk(State(), now)
      ensures State() == Record(old(State()), n, st, motivo, now)
    {
      RecordPreservesConsistent(State(), n, st, motivo, now);
      var custo := CostOf(n);
      if !HistoryConflict(State(), n) {
        history := history + [HistoryRecord(nextId, n, st, motivo, custo, now)];
        nextId := nextId + 1;
      }
      lifetimeCost := lifetimeCost + custo;  // the finally block
    }

    method LimparFila()
      modifies this
      ensures State() == Clear(old(State()))
      ensures old(Valid()) ==> Valid()
    {
      queue := [];
    }

    method RemoverDaFila(id: nat, ghost now: nat)
      requires Valid() && StampOk(State(), now)
      modifies this
      ensures Valid() && StampOk(State(), now)
      ensures State() == Remove(old(State()), id)
    {
      RemovePreservesConsistent(State(), id, now);
      queue := RemoveById(queue, id);
    }

    method VerificarDuplicataSemantica(hash: Option<string>) returns (dup: bool)
      ensures dup <==> (hash.None? || hash.value == "" ||
        HistoryHasHash(history, hash.value) || QueueHasHash(queue, hash.value))
    {
      if hash.None? || hash.value == "" {
        return true;
      }
      if HistoryHasHash(history, hash.value) {
        return true;
      }
      return QueueHasHash(queue, hash.value);
    }

    method ObterCustoTotal() returns (total: real)
      ensures total == lifetimeCost
    {
      return lifetimeCost;
    }

    method PegarProximoDaFila() returns (item: Option<QueueItem>)
      ensures item == Oldest(queue)
      ensures item.None? <==> queue == []
      ensures item.Some? ==> (item.value in queue &&
        forall i :: 0 <= i < |queue| ==> item.value.added <= queue[i].added)
    {
      item := Oldest(queue);
    }

    method PegarFilaCompleta() returns (rows: seq<QueueRow>)
      ensures |rows| == |queue|
      ensures forall i :: 0 <= i < |queue| ==> rows[i] == RowOf(queue[i])
    {
      rows := QueueListing(queue);
    }

    method PegarHistoricoCompleto() returns (rows: seq<HistoryRecord>)
      requires Valid()
      ensures |rows| == if |history| < HistoryListingLimit then |history| else HistoryListingLimit
      ensures forall i :: 0 <= i < |rows| ==> rows[i] == history[|history| - 1 - i]
      ensures forall i, j :: 0 <= i < j < |rows| ==> rows[j].processedAt <= rows[i].processedAt
    {
      rows := HistoryListing(history);
      HistoryListingNewestFirst(history);
    }
  }
}
