/**
 * The listing routes: publish a listing for moderation, view one approved
 * listing (which counts a use), and the list and search queries, whose
 * filters, sort key and limit the code chooses and the database applies.
 */
module IasRoutes {
  import opened Base
  import opened Schema
  import opened Database
  import opened AuthMiddleware

  const CamposRequeridos: string := "Nombre, descripción, URL y categoría son requeridos"
  const EnviadaARevision: string := "IA enviada para revisión. Recibirás puntos cuando sea aprobada."
  const LimitePorDefecto: nat := 50
  const LimiteBusqueda: nat := 20

  // ---------------------------------------------------------------------
  // POST /

  /** The row POST / inserts: pending, owned by the caller, the logo or null. */
  function NuevaIa(nombre: string, descripcion: string, url: string, categoria_id: int, owner: int,
                   imagen_logo: Option<string>, now: Timestamp, d: IaDefaults): (ia: Ia)
    ensures ia.estado == Pendiente && ia.usuario_id == owner && ia.categoria_id == categoria_id
    ensures ia.imagen_logo.None? <==> !TruthyStr(imagen_logo)
    ensures ia.moderada_por.None? && ia.fecha_moderacion.None? && ia.razon_rechazo.None?
  {
    Ia(nombre, descripcion, url, categoria_id, owner, OrNull(imagen_logo), Pendiente,
       d.activa, d.total_usos, d.calificacion_promedio, now, None, None, None, None)
  }

  /** Valid survives inserting a pending listing under a fresh key. */
  lemma NewListingKeepsValid(
    usuarios: map<int, Usuario>, ias: map<int, Ia>, resenas: map<int, Resena>,
    historial: seq<HistRow>, rpcs: seq<Rpc>, nextId: int, k: int, row: Ia)
    requires Consistent(usuarios, ias, resenas, historial, rpcs, nextId - 1)
    requires k == nextId - 1 && row.estado == Pendiente
    ensures Consistent(usuarios, ias[k := row], resenas, historial, rpcs, nextId)
  {
    HistoryCountZero(historial, k);
    AwardCountZero(rpcs, TipoPublicarIa, k);
  }

  /**
   * POST /: name, description, URL and category are required and the
   * category must exist. The listing is stored `pendiente` under a new key,
   * owned by the caller; no history row and no points yet.
   */
  method Publicar(db: Store, authorization: Option<string>, verify: string -> Option<TokenPayload>,
                  nombre: Option<string>, descripcion: Option<string>, url: Option<string>,
                  categoria_id: Option<int>, imagen_logo: Option<string>, now: Timestamp, defaults: IaDefaults)
    returns (reply: Reply)
    requires db.Valid()
    modifies db
    ensures db.Valid()
    ensures VerificarToken(authorization, verify).Deny? ==>
      reply == Reply(VerificarToken(authorization, verify).status, VerificarToken(authorization, verify).error) && unchanged(db)
    ensures VerificarToken(authorization, verify).Next?
            && (!TruthyStr(nombre) || !TruthyStr(descripcion) || !TruthyStr(url) || !TruthyInt(categoria_id)) ==>
      reply == Reply(400, CamposRequeridos) && unchanged(db)
    ensures VerificarToken(authorization, verify).Next?
            && TruthyStr(nombre) && TruthyStr(descripcion) && TruthyStr(url) && TruthyInt(categoria_id)
            && categoria_id.value !in db.categorias ==>
      reply == Reply(400, CategoriaNoValida) && unchanged(db)
    ensures VerificarToken(authorization, verify).Next?
            && TruthyStr(nombre) && TruthyStr(descripcion) && TruthyStr(url) && TruthyInt(categoria_id)
            && categoria_id.value in db.categorias ==>
      var k := old(db.nextId);
      && reply == Reply(201, EnviadaARevision)
      && k !in old(db.ias)
      && db.ias == old(db.ias)[k := NuevaIa(nombre.value, descripcion.value, url.value, categoria_id.value,
                                            VerificarToken(authorization, verify).usuario.user_id, imagen_logo, now, defaults)]
      && db.nextId == k + 1
      && db.usuarios == old(db.usuarios) && db.categorias == old(db.categorias) && db.resenas == old(db.resenas)
      && db.favoritos == old(db.favoritos) && db.historial == old(db.historial) && db.rpcs == old(db.rpcs)
  {
    var gate := VerificarToken(authorization, verify);
    if gate.Deny? {
      return Reply(gate.status, gate.error);
    }
    if !TruthyStr(nombre) || !TruthyStr(descripcion) || !TruthyStr(url) || !TruthyInt(categoria_id) {
      return Reply(400, CamposRequeridos);
    }
    if categoria_id.value !in db.categorias {
      return Reply(400, CategoriaNoValida);
    }
    var k := db.NewKey();
    var row := NuevaIa(nombre.value, descripcion.value, url.value, categoria_id.value, gate.usuario.user_id,
                       imagen_logo, now, defaults);
    NewListingKeepsValid(db.usuarios, db.ias, db.resenas, db.historial, db.rpcs, db.nextId, k, row);
    db.ias := db.ias[k := row];
    reply := Reply(201, EnviadaARevision);
  }

  /** A freshly published listing is pending, so it can be approved or rejected exactly once. */
  lemma PublishedIsPending(ias: map<int, Ia>, historial: seq<HistRow>, rpcs: seq<Rpc>, k: int,
                           nombre: string, descripcion: string, url: string, categoria_id: int, owner: int,
                           imagen_logo: Option<string>, now: Timestamp, d: IaDefaults)
    requires ModerationLogged(ias, historial) && ApprovalsAwarded(ias, rpcs)
    requires k in ias && ias[k] == NuevaIa(nombre, descripcion, url, categoria_id, owner, imagen_logo, now, d)
    ensures forall i :: 0 <= i < |historial| ==> historial[i].ia_id != k
    ensures AwardCount(rpcs, TipoPublicarIa, k) == 0
  {
    HistoryCountZero(historial, k);
  }

  // ---------------------------------------------------------------------
  // GET /:id

  /**
   * GET /:id: only an approved listing is shown (whether active or not);
   * anything else is 404 and nothing changes. Showing it counts one use,
   * and the reply carries the row as read before the increment.
   */
  method Detalle(db: Store, id: int) returns (status: nat, shown: Option<Ia>)
    requires db.Valid()
    modifies db
    ensures db.Valid()
    ensures (id !in old(db.ias) || old(db.ias[id].estado) != Aprobada) ==>
      status == 404 && shown.None? && unchanged(db)
    ensures id in old(db.ias) && old(db.ias[id].estado) == Aprobada ==>
      && status == 200 && shown == Some(old(db.ias[id]))
      && db.ias == old(db.ias)[id := old(db.ias[id]).(total_usos := old(db.ias[id].total_usos) + 1)]
      && db.usuarios == old(db.usuarios) && db.categorias == old(db.categorias) && db.resenas == old(db.resenas)
      && db.favoritos == old(db.favoritos) && db.historial == old(db.historial) && db.rpcs == old(db.rpcs)
      && db.nextId == old(db.nextId)
  {
    if id !in db.ias || db.ias[id].estado != Aprobada {
      return 404, None;
    }
    var data := db.ias[id];
    db.ias := db.ias[id := data.(total_usos := data.total_usos + 1)];
    return 200, Some(data);
  }

  // ---------------------------------------------------------------------
  // GET / and GET /buscar/:termino

  /** The column a listing query sorts on, descending. */
  datatype SortColumn = FechaPublicacion | CalificacionPromedio | TotalUsos

  /** The `orden` switch: two named orders, and usage for anything else or nothing. */
  function SortColumnFor(orden: Option<string>): (c: SortColumn)
    ensures orden == Some("recientes") <==> c == FechaPublicacion
    ensures orden == Some("mejor-calificadas") <==> c == CalificacionPromedio
    ensures orden != Some("recientes") && orden != Some("mejor-calificadas") <==> c == TotalUsos
  {
    match orden
    case Some("recientes") => FechaPublicacion
    case Some("mejor-calificadas") => CalificacionPromedio
    case _ => TotalUsos
  }

  /** A query as the code builds it: the filters, the sort column (if any) and the limit. */
  datatype Query = Query(
    estado: Estado,
    soloActivas: bool,
    categoria: Option<int>,
    texto: Option<string>,
    orden: Option<SortColumn>,
    limite: nat)

  /** The keys of the categories whose slug is `slug`. */
  function CategoriasConSlug(categorias: map<int, Categoria>, slug: string): (r: set<int>)
    ensures r <= categorias.Keys
  {
    set c | c in categorias && categorias[c].slug == slug
  }

  /**
   * GET /: approved, active listings, at most `limite` (50 by default),
   * sorted by the `orden` column. A truthy `categoria` names a slug; when
   * exactly one category has it, the query is restricted to that
   * category, and otherwise no category filter is added.
   */
  method ConsultaListado(categorias: map<int, Categoria>, categoria: Option<string>, orden: Option<string>,
                         limite: Option<nat>)
    returns (q: Query)
    ensures q.estado == Aprobada && q.soloActivas && q.texto.None?
    ensures q.limite == (if limite.Some? then limite.value else LimitePorDefecto)
    ensures q.orden == Some(SortColumnFor(orden))
    ensures q.categoria.Some? ==> TruthyStr(categoria) && q.categoria.value in categorias
                                  && categorias[q.categoria.value].slug == categoria.value
    ensures q.categoria.Some? <==> TruthyStr(categoria) && SingleMatch(CategoriasConSlug(categorias, categoria.value))
  {
    var lim := if limite.Some? then limite.value else LimitePorDefecto;
    q := Query(Aprobada, true, None, None, None, lim);
    if TruthyStr(categoria) {
      var matches := CategoriasConSlug(categorias, categoria.value);
      if SingleMatch(matches) {
        var cat :| cat in matches;
        q := q.(categoria := Some(cat));
      }
    }
    q := q.(orden := Some(SortColumnFor(orden)));
  }

  /** GET /buscar/:termino: approved, active listings whose name or description matches, at most 20, unordered. */
  function ConsultaBusqueda(termino: string): (q: Query)
    ensures q.estado == Aprobada && q.soloActivas && q.categoria.None? && q.orden.None?
    ensures q.texto == Some(termino) && q.limite == LimiteBusqueda
  {
    Query(Aprobada, true, None, Some(termino), None, LimiteBusqueda)
  }

  /**
   * A row passes the query's filters. `ilike(column, term)` is the
   * database's case-insensitive `%term%` match, left uninterpreted.
   */
  predicate Admits(q: Query, ia: Ia, ilike: (string, string) -> bool) {
    && ia.estado == q.estado
    && (q.soloActivas ==> ia.activa)
    && (q.categoria.Some? ==> ia.categoria_id == q.categoria.value)
    && (q.texto.Some? ==> ilike(ia.nombre, q.texto.value) || ilike(ia.descripcion, q.texto.value))
  }

  /** What the database may answer to a query: distinct keys of admitted rows, no more than the limit. */
  ghost predicate AnswerOf(q: Query, ias: map<int, Ia>, ilike: (string, string) -> bool, answer: seq<int>) {
    && |answer| <= q.limite
    && (forall i :: 0 <= i < |answer| ==> answer[i] in ias && Admits(q, ias[answer[i]], ilike))
    && (forall i, j :: 0 <= i < j < |answer| ==> answer[i] != answer[j])
  }

  /** The listing route shows only approved, active listings, and no more than it asked for. */
  lemma ListadoOnlyApprovedActive(q: Query, ias: map<int, Ia>, ilike: (string, string) -> bool, answer: seq<int>)
    requires q.estado == Aprobada && q.soloActivas
    requires AnswerOf(q, ias, ilike, answer)
    ensures forall i :: 0 <= i < |answer| ==> ias[answer[i]].estado == Aprobada && ias[answer[i]].activa
    ensures |answer| <= q.limite
  {
  }

  /** Search shows only approved, active, matching listings, and at most 20 of them. */
  lemma BusquedaOnlyApprovedActive(termino: string, ias: map<int, Ia>, ilike: (string, string) -> bool, answer: seq<int>)
    requires AnswerOf(ConsultaBusqueda(termino), ias, ilike, answer)
    ensures forall i :: 0 <= i < |answer| ==>
      && ias[answer[i]].estado == Aprobada && ias[answer[i]].activa
      && (ilike(ias[answer[i]].nombre, termino) || ilike(ias[answer[i]].descripcion, termino))
    ensures |answer| <= 20
  {
  }

  /**
   * A pending or rejected listing is never in any answer of the public
   * list and search routes.
   */
  lemma UnmoderatedNeverListed(q: Query, ias: map<int, Ia>, ilike: (string, string) -> bool, answer: seq<int>, k: int)
    requires q.estado == Aprobada
    requires AnswerOf(q, ias, ilike, answer)
    requires k in ias && ias[k].estado != Aprobada
    ensures forall i :: 0 <= i < |answer| ==> answer[i] != k
  {
  }
}
