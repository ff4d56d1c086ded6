/**
 * The Supabase table store as one in-memory object. Every route of the
 * backend reads and updates these fields; `Valid` is what the routes keep
 * true between requests:
 *  - keys handed out so far are below `nextId`;
 *  - email and username are unique among accounts;
 *  - at most one review per (user, listing);
 *  - every moderated listing has exactly one history row, which records
 *    its move out of `pendiente`, and a pending listing has none;
 *  - every approved listing's owner got exactly one 50-point award for it,
 *    and every review's author exactly one 10-point award for it.
 */
module Database {
  import opened Base
  import opened Schema

  // ---------------------------------------------------------------------
  // counting rows of the append-only logs

  /** Number of history rows about listing `ia`. */
  function HistoryCount(h: seq<HistRow>, ia: int): nat
    decreases |h|
  {
    if h == [] then 0
    else HistoryCount(h[..|h| - 1], ia) + (if h[|h| - 1].ia_id == ia then 1 else 0)
  }

  lemma HistoryCountAppend(h: seq<HistRow>, row: HistRow, ia: int)
    ensures HistoryCount(h + [row], ia) == HistoryCount(h, ia) + (if row.ia_id == ia then 1 else 0)
  {
    assert (h + [row])[..|h|] == h;
  }

  /** A listing has no history row exactly when no row names it. */
  lemma {:induction false} HistoryCountZero(h: seq<HistRow>, ia: int)
    ensures HistoryCount(h, ia) == 0 <==> forall i :: 0 <= i < |h| ==> h[i].ia_id != ia
    decreases |h|
  {
    if h != [] {
      HistoryCountZero(h[..|h| - 1], ia);
      assert forall i :: 0 <= i < |h| - 1 ==> h[..|h| - 1][i] == h[i];
    }
  }

  /** Number of `dar_puntos` calls of kind `tipo` that refer to `ref`. */
  function AwardCount(log: seq<Rpc>, tipo: string, ref: int): nat
    decreases |log|
  {
    if log == [] then 0
    else
      var e := log[|log| - 1];
      AwardCount(log[..|log| - 1], tipo, ref)
        + (if e.DarPuntos? && e.tipo == tipo && e.referencia_id == ref then 1 else 0)
  }

  lemma AwardCountAppend(log: seq<Rpc>, e: Rpc, tipo: string, ref: int)
    ensures AwardCount(log + [e], tipo, ref)
         == AwardCount(log, tipo, ref) + (if e.DarPuntos? && e.tipo == tipo && e.referencia_id == ref then 1 else 0)
  {
    assert (log + [e])[..|log|] == log;
  }

  /** No award of kind `tipo` for `ref` exactly when no call names that pair. */
  lemma {:induction false} AwardCountZero(log: seq<Rpc>, tipo: string, ref: int)
    ensures AwardCount(log, tipo, ref) == 0
        <==> forall i :: 0 <= i < |log| ==> !(log[i].DarPuntos? && log[i].tipo == tipo && log[i].referencia_id == ref)
    decreases |log|
  {
    if log != [] {
      AwardCountZero(log[..|log| - 1], tipo, ref);
      assert forall i :: 0 <= i < |log| - 1 ==> log[..|log| - 1][i] == log[i];
    }
  }

  // ---------------------------------------------------------------------
  // `.single()`

  /** `.single()` on a filter: the query yields a row only when exactly one row matches it. */
  predicate SingleMatch(keys: set<int>) {
    && (exists a :: a in keys)
    && (forall a, b :: a in keys && b in keys ==> a == b)
  }

  /** When the filter can match at most one row, `.single()` yields a row exactly when some row matches. */
  lemma SingleMatchUnique(keys: set<int>)
    requires forall a, b :: a in keys && b in keys ==> a == b
    ensures SingleMatch(keys) <==> exists a :: a in keys
  {
  }

  // ---------------------------------------------------------------------
  // the invariant, one conjunct per property

  ghost predicate KeysBelow(usuarios: map<int, Usuario>, ias: map<int, Ia>, resenas: map<int, Resena>, nextId: int) {
    && (forall k :: k in usuarios ==> k < nextId)
    && (forall k :: k in ias ==> k < nextId)
    && (forall k :: k in resenas ==> k < nextId)
  }

  /** No two accounts share an email or a username. */
  ghost predicate UniqueAccounts(usuarios: map<int, Usuario>) {
    forall a, b :: a in usuarios && b in usuarios && a != b ==>
      usuarios[a].email != usuarios[b].email && usuarios[a].username != usuarios[b].username
  }

  /** At most one review row per (listing, author), active or not. */
  ghost predicate OneReviewPerPair(resenas: map<int, Resena>) {
    forall a, b :: a in resenas && b in resenas && a != b ==>
      resenas[a].ia_id != resenas[b].ia_id || resenas[a].usuario_id != resenas[b].usuario_id
  }

  /** Every history row records the move of an existing listing out of `pendiente` into its current state. */
  ghost predicate HistoryMatches(historial: seq<HistRow>, ias: map<int, Ia>) {
    forall i :: 0 <= i < |historial| ==>
      && historial[i].ia_id in ias
      && historial[i].estado_anterior == Pendiente
      && historial[i].estado_nuevo == ias[historial[i].ia_id].estado
      && historial[i].estado_nuevo != Pendiente
  }

  /** A listing has one history row once moderated, none while pending. */
  ghost predicate ModerationLogged(ias: map<int, Ia>, historial: seq<HistRow>) {
    forall k :: k in ias ==> HistoryCount(historial, k) == (if ias[k].estado == Pendiente then 0 else 1)
  }

  /** Every recorded award names the right user and amount for what it rewards. */
  ghost predicate AwardsMatch(rpcs: seq<Rpc>, ias: map<int, Ia>, resenas: map<int, Resena>) {
    forall i :: 0 <= i < |rpcs| && rpcs[i].DarPuntos? ==>
      && (rpcs[i].tipo == TipoPublicarIa ==>
            && rpcs[i].referencia_id in ias
            && ias[rpcs[i].referencia_id].estado == Aprobada
            && rpcs[i].usuario_id == ias[rpcs[i].referencia_id].usuario_id
            && rpcs[i].puntos == PuntosPublicarIa)
      && (rpcs[i].tipo == TipoResena ==>
            && rpcs[i].referencia_id in resenas
            && rpcs[i].usuario_id == resenas[rpcs[i].referencia_id].usuario_id
            && rpcs[i].puntos == PuntosResena)
  }

  /** One publishing award per approved listing, none for the others. */
  ghost predicate ApprovalsAwarded(ias: map<int, Ia>, rpcs: seq<Rpc>) {
    forall k :: k in ias ==> AwardCount(rpcs, TipoPublicarIa, k) == (if ias[k].estado == Aprobada then 1 else 0)
  }

  /** One review award per review row. */
  ghost predicate ReviewsAwarded(resenas: map<int, Resena>, rpcs: seq<Rpc>) {
    forall k :: k in resenas ==> AwardCount(rpcs, TipoResena, k) == 1
  }

  /** The whole invariant, over the values of the store's fields. */
  ghost predicate Consistent(usuarios: map<int, Usuario>, ias: map<int, Ia>, resenas: map<int, Resena>,
                             historial: seq<HistRow>, rpcs: seq<Rpc>, nextId: int) {
    && KeysBelow(usuarios, ias, resenas, nextId)
    && UniqueAccounts(usuarios)
    && OneReviewPerPair(resenas)
    && HistoryMatches(historial, ias)
    && ModerationLogged(ias, historial)
    && AwardsMatch(rpcs, ias, resenas)
    && ApprovalsAwarded(ias, rpcs)
    && ReviewsAwarded(resenas, rpcs)
  }

  /**
   * A listing's moderation is one-shot: once it has left `pendiente` its
   * one history row says where it went, and it is awarded at most once.
   */
  lemma ModeratedOnce(ias: map<int, Ia>, historial: seq<HistRow>, rpcs: seq<Rpc>, k: int)
    requires ModerationLogged(ias, historial) && ApprovalsAwarded(ias, rpcs)
    requires k in ias
    ensures ias[k].estado == Pendiente ==> forall i :: 0 <= i < |historial| ==> historial[i].ia_id != k
    ensures AwardCount(rpcs, TipoPublicarIa, k) <= 1
    ensures ias[k].estado != Pendiente ==> HistoryCount(historial, k) == 1
  {
    HistoryCountZero(historial, k);
  }

  // ---------------------------------------------------------------------
  // the store

  class Store {
    var usuarios: map<int, Usuario>
    var categorias: map<int, Categoria>
    var ias: map<int, Ia>
    var resenas: map<int, Resena>
    var favoritos: set<Favorito>
    var historial: seq<HistRow>
    var rpcs: seq<Rpc>
    var nextId: int

    ghost predicate Valid()
      reads this
    {
      Consistent(usuarios, ias, resenas, historial, rpcs, nextId)
    }

    /** An empty database with its seeded categories. */
    constructor (categorias: map<int, Categoria>)
      ensures Valid()
      ensures this.categorias == categorias
      ensures usuarios == map[] && ias == map[] && resenas == map[] && favoritos == {}
      ensures historial == [] && rpcs == []
    {
      this.categorias := categorias;
      usuarios, ias, resenas, favoritos := map[], map[], map[], {};
      historial, rpcs := [], [];
      nextId := 1;
    }

    /** The key the database assigns to the next inserted row. */
    method NewKey() returns (k: int)
      requires Valid()
      modifies this`nextId
      ensures Valid()
      ensures k == old(nextId) && nextId == k + 1
      ensures k !in usuarios && k !in ias && k !in resenas
    {
      k := nextId;
      nextId := nextId + 1;
    }
  }
}
