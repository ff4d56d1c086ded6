/**
 * The admin routes: moderation of pending listings (approve with a 50-point
 * award, reject with a reason), category change, ban and unban, and the
 * dashboard counters. Every route runs behind `verificarToken` and then
 * `verificarAdmin`.
 */
module AdminRoutes {
  import opened Base
  import opened Schema
  import opened Database
  import opened AuthMiddleware

  const YaProcesada: string := "Esta IA ya fue procesada"
  const RazonRequerida: string := "Debes proporcionar una razón del rechazo"
  const CategoriaRequerida: string := "Categoría requerida"
  const RazonBaneoPorDefecto: string := "Violación de términos de uso"
  const ErrorAprobar: string := "Error al aprobar IA"
  const ErrorCategoria: string := "Error al cambiar categoría"

  /** The row written by an approval. */
  function AprobadaPor(ia: Ia, admin: int, now: Timestamp): Ia {
    ia.(estado := Aprobada, moderada_por := Some(admin), fecha_moderacion := Some(now))
  }

  /** The row written by a rejection. */
  function RechazadaPor(ia: Ia, admin: int, now: Timestamp, razon: string): Ia {
    ia.(estado := Rechazada, moderada_por := Some(admin), fecha_moderacion := Some(now), razon_rechazo := Some(razon))
  }

  /** The one `dar_puntos` call of an approval: 50 points to the owner. */
  function PublicationAward(id: int, ia: Ia): Rpc {
    DarPuntos(ia.usuario_id, PuntosPublicarIa, TipoPublicarIa, id, "IA aprobada: " + ia.nombre)
  }

  /**
   * Valid survives moving pending listing `id` to the moderated row `ia'`
   * while appending its history row and, for an approval, its award.
   */
  lemma ModerationKeepsValid(
    usuarios: map<int, Usuario>, ias: map<int, Ia>, resenas: map<int, Resena>,
    historial: seq<HistRow>, rpcs: seq<Rpc>, nextId: int,
    id: int, ia': Ia, row: HistRow, awards: seq<Rpc>, desc: string)
    requires Consistent(usuarios, ias, resenas, historial, rpcs, nextId)
    requires id in ias && ias[id].estado == Pendiente && ia'.estado != Pendiente
    requires ia'.usuario_id == ias[id].usuario_id
    requires row == HistRow(id, row.admin_id, row.accion, Pendiente, ia'.estado, row.comentario)
    requires awards == (if ia'.estado == Aprobada then [DarPuntos(ia'.usuario_id, PuntosPublicarIa, TipoPublicarIa, id, desc)] else [])
    ensures Consistent(usuarios, ias[id := ia'], resenas, historial + [row], rpcs + awards, nextId)
  {
    HistoryCountZero(historial, id);
    AwardCountZero(rpcs, TipoPublicarIa, id);
    HistoryMatchesAfterModeration(ias, historial, id, ia', row);
    LoggedAfterModeration(ias, historial, id, ia', row);
    if awards == [] {
      assert rpcs + awards == rpcs;
      AwardsMatchAfterModeration(rpcs, ias, resenas, id, ia');
    } else {
      var e := awards[0];
      assert awards == [e];
      AwardsMatchAfterApproval(rpcs, ias, resenas, id, ia', e);
      AwardedAfterApproval(rpcs, ias, resenas, id, ia', e);
    }
  }

  lemma HistoryMatchesAfterModeration(ias: map<int, Ia>, historial: seq<HistRow>, id: int, ia': Ia, row: HistRow)
    requires HistoryMatches(historial, ias)
    requires id in ias && forall i :: 0 <= i < |historial| ==> historial[i].ia_id != id
    requires row.ia_id == id && row.estado_anterior == Pendiente && row.estado_nuevo == ia'.estado && ia'.estado != Pendiente
    ensures HistoryMatches(historial + [row], ias[id := ia'])
  {
  }

  lemma LoggedAfterModeration(ias: map<int, Ia>, historial: seq<HistRow>, id: int, ia': Ia, row: HistRow)
    requires ModerationLogged(ias, historial)
    requires id in ias && ias[id].estado == Pendiente && ia'.estado != Pendiente && row.ia_id == id
    ensures ModerationLogged(ias[id := ia'], historial + [row])
  {
    var ias' := ias[id := ia'];
    forall k | k in ias' ensures HistoryCount(historial + [row], k) == (if ias'[k].estado == Pendiente then 0 else 1) {
      HistoryCountAppend(historial, row, k);
    }
  }

  lemma AwardsMatchAfterModeration(rpcs: seq<Rpc>, ias: map<int, Ia>, resenas: map<int, Resena>, id: int, ia': Ia)
    requires AwardsMatch(rpcs, ias, resenas) && ApprovalsAwarded(ias, rpcs)
    requires id in ias && ias[id].estado == Pendiente && ia'.estado != Aprobada && ia'.usuario_id == ias[id].usuario_id
    requires forall i :: 0 <= i < |rpcs| ==> !(rpcs[i].DarPuntos? && rpcs[i].tipo == TipoPublicarIa && rpcs[i].referencia_id == id)
    ensures AwardsMatch(rpcs, ias[id := ia'], resenas) && ApprovalsAwarded(ias[id := ia'], rpcs)
  {
  }

  lemma AwardsMatchAfterApproval(rpcs: seq<Rpc>, ias: map<int, Ia>, resenas: map<int, Resena>, id: int, ia': Ia, e: Rpc)
    requires AwardsMatch(rpcs, ias, resenas)
    requires id in ias && ias[id].estado == Pendiente && ia'.estado == Aprobada && ia'.usuario_id == ias[id].usuario_id
    requires e.DarPuntos? && e == DarPuntos(ia'.usuario_id, PuntosPublicarIa, TipoPublicarIa, id, e.descripcion)
    ensures AwardsMatch(rpcs + [e], ias[id := ia'], resenas)
  {
  }

  lemma AwardedAfterApproval(rpcs: seq<Rpc>, ias: map<int, Ia>, resenas: map<int, Resena>, id: int, ia': Ia, e: Rpc)
    requires ApprovalsAwarded(ias, rpcs) && ReviewsAwarded(resenas, rpcs)
    requires id in ias && ias[id].estado == Pendiente && ia'.estado == Aprobada
    requires AwardCount(rpcs, TipoPublicarIa, id) == 0
    requires e.DarPuntos? && e == DarPuntos(ia'.usuario_id, PuntosPublicarIa, TipoPublicarIa, id, e.descripcion)
    ensures ApprovalsAwarded(ias[id := ia'], rpcs + [e]) && ReviewsAwarded(resenas, rpcs + [e])
  {
    var ias' := ias[id := ia'];
    forall k | k in ias' ensures AwardCount(rpcs + [e], TipoPublicarIa, k) == (if ias'[k].estado == Aprobada then 1 else 0) {
      AwardCountAppend(rpcs, e, TipoPublicarIa, k);
    }
    forall k | k in resenas ensures AwardCount(rpcs + [e], TipoResena, k) == 1 {
      AwardCountAppend(rpcs, e, TipoResena, k);
    }
  }

  /**
   * PUT /ias/:id/aprobar. 404 for a missing listing and 400 for one already
   * moderated, both without any change. Otherwise the listing becomes
   * `aprobada` and moderated by the caller, its owner is awarded 50 points,
   * and one history row `pendiente -> aprobada` is appended. The reply
   * names the owner; when the owner's account is gone that step fails with
   * 500, after the changes are made.
   */
  method Aprobar(db: Store, authorization: Option<string>, verify: string -> Option<TokenPayload>,
                 id: int, now: Timestamp)
    returns (reply: Reply)
    requires db.Valid()
    modifies db
    ensures db.Valid()
    ensures AdminGate(authorization, verify).Deny? ==>
      reply == Reply(AdminGate(authorization, verify).status, AdminGate(authorization, verify).error) && unchanged(db)
    ensures AdminGate(authorization, verify).Next? && id !in old(db.ias) ==>
      reply == Reply(404, IaNoEncontrada) && unchanged(db)
    ensures AdminGate(authorization, verify).Next? && id in old(db.ias) && old(db.ias[id].estado) != Pendiente ==>
      reply == Reply(400, YaProcesada) && unchanged(db)
    ensures AdminGate(authorization, verify).Next? && id in old(db.ias) && old(db.ias[id].estado) == Pendiente ==>
      var admin := AdminGate(authorization, verify).usuario.user_id;
      var ia := old(db.ias[id]);
      && db.ias == old(db.ias)[id := AprobadaPor(ia, admin, now)]
      && db.rpcs == old(db.rpcs) + [PublicationAward(id, ia)]
      && db.historial == old(db.historial) + [HistRow(id, admin, "aprobar", Pendiente, Aprobada, None)]
      && db.usuarios == old(db.usuarios) && db.categorias == old(db.categorias)
      && db.resenas == old(db.resenas) && db.favoritos == old(db.favoritos) && db.nextId == old(db.nextId)
      && (ia.usuario_id in db.usuarios ==> reply.status == 200)
      && (ia.usuario_id !in db.usuarios ==> reply == Reply(500, ErrorAprobar))
  {
    var gate := AdminGate(authorization, verify);
    if gate.Deny? {
      return Reply(gate.status, gate.error);
    }
    var admin := gate.usuario.user_id;
    if id !in db.ias {
      return Reply(404, IaNoEncontrada);
    }
    var ia := db.ias[id];
    if ia.estado != Pendiente {
      return Reply(400, YaProcesada);
    }
    var ia' := AprobadaPor(ia, admin, now);
    var row := HistRow(id, admin, "aprobar", Pendiente, Aprobada, None);
    var award := PublicationAward(id, ia);
    ModerationKeepsValid(db.usuarios, db.ias, db.resenas, db.historial, db.rpcs, db.nextId, id, ia', row, [award], award.descripcion);
    db.ias := db.ias[id := ia'];
    db.rpcs := db.rpcs + [award];
    db.historial := db.historial + [row];
    if ia.usuario_id !in db.usuarios {
      return Reply(500, ErrorAprobar);
    }
    var owner := db.usuarios[ia.usuario_id];
    reply := Reply(200, "IA \"" + ia.nombre + "\" aprobada. El usuario " + owner.username + " recibió 50 puntos.");
  }

  /**
   * PUT /ias/:id/rechazar. A missing or empty reason is 400 before the
   * listing is looked up; then 404 and 400 as for approval. Otherwise the
   * listing becomes `rechazada` with the reason recorded, one history row
   * carrying the reason is appended, and no points are awarded.
   */
  method Rechazar(db: Store, authorization: Option<string>, verify: string -> Option<TokenPayload>,
                  id: int, razon: Option<string>, now: Timestamp)
    returns (reply: Reply)
    requires db.Valid()
    modifies db
    ensures db.Valid()
    ensures AdminGate(authorization, verify).Deny? ==>
      reply == Reply(AdminGate(authorization, verify).status, AdminGate(authorization, verify).error) && unchanged(db)
    ensures AdminGate(authorization, verify).Next? && !TruthyStr(razon) ==>
      reply == Reply(400, RazonRequerida) && unchanged(db)
    ensures AdminGate(authorization, verify).Next? && TruthyStr(razon) && id !in old(db.ias) ==>
      reply == Reply(404, IaNoEncontrada) && unchanged(db)
    ensures AdminGate(authorization, verify).Next? && TruthyStr(razon) && id in old(db.ias) && old(db.ias[id].estado) != Pendiente ==>
      reply == Reply(400, YaProcesada) && unchanged(db)
    ensures AdminGate(authorization, verify).Next? && TruthyStr(razon) && id in old(db.ias) && old(db.ias[id].estado) == Pendiente ==>
      var admin := AdminGate(authorization, verify).usuario.user_id;
      var ia := old(db.ias[id]);
      && reply == Reply(200, "IA \"" + ia.nombre + "\" rechazada.")
      && db.ias == old(db.ias)[id := RechazadaPor(ia, admin, now, razon.value)]
      && db.historial == old(db.historial) + [HistRow(id, admin, "rechazar", Pendiente, Rechazada, Some(razon.value))]
      && db.rpcs == old(db.rpcs)
      && db.usuarios == old(db.usuarios) && db.categorias == old(db.categorias)
      && db.resenas == old(db.resenas) && db.favoritos == old(db.favoritos) && db.nextId == old(db.nextId)
  {
    var gate := AdminGate(authorization, verify);
    if gate.Deny? {
      return Reply(gate.status, gate.error);
    }
    var admin := gate.usuario.user_id;
    if !TruthyStr(razon) {
      return Reply(400, RazonRequerida);
    }
    if id !in db.ias {
      return Reply(404, IaNoEncontrada);
    }
    var ia := db.ias[id];
    if ia.estado != Pendiente {
      return Reply(400, YaProcesada);
    }
    var ia' := RechazadaPor(ia, admin, now, razon.value);
    var row := HistRow(id, admin, "rechazar", Pendiente, Rechazada, Some(razon.value));
    ModerationKeepsValid(db.usuarios, db.ias, db.resenas, db.historial, db.rpcs, db.nextId, id, ia', row, [], "");
    assert db.rpcs + [] == db.rpcs;
    db.ias := db.ias[id := ia'];
    db.historial := db.historial + [row];
    reply := Reply(200, "IA \"" + ia.nombre + "\" rechazada.");
  }

  /**
   * PUT /ias/:id/categoria. 400 without a category or with one that does
   * not exist. A missing listing matches no row in the update, and the
   * reply then fails on the missing row with 500. Otherwise the listing's
   * category changes, whatever its moderation state.
   */
  method CambiarCategoria(db: Store, authorization: Option<string>, verify: string -> Option<TokenPayload>,
                          id: int, categoria_id: Option<int>, now: Timestamp)
    returns (reply: Reply)
    requires db.Valid()
    modifies db
    ensures db.Valid()
    ensures AdminGate(authorization, verify).Deny? ==>
      reply == Reply(AdminGate(authorization, verify).status, AdminGate(authorization, verify).error) && unchanged(db)
    ensures AdminGate(authorization, verify).Next? && !TruthyInt(categoria_id) ==>
      reply == Reply(400, CategoriaRequerida) && unchanged(db)
    ensures AdminGate(authorization, verify).Next? && TruthyInt(categoria_id) && categoria_id.value !in db.categorias ==>
      reply == Reply(400, CategoriaNoValida) && unchanged(db)
    ensures AdminGate(authorization, verify).Next? && TruthyInt(categoria_id) && categoria_id.value in db.categorias && id !in old(db.ias) ==>
      reply == Reply(500, ErrorCategoria) && unchanged(db)
    ensures AdminGate(authorization, verify).Next? && TruthyInt(categoria_id) && categoria_id.value in db.categorias && id in old(db.ias) ==>
      && reply == Reply(200, "Categoría de \"" + old(db.ias[id].nombre) + "\" cambiada a \"" + db.categorias[categoria_id.value].nombre + "\"")
      && db.ias == old(db.ias)[id := old(db.ias[id]).(categoria_id := categoria_id.value, fecha_actualizacion := Some(now))]
      && db.usuarios == old(db.usuarios) && db.categorias == old(db.categorias) && db.resenas == old(db.resenas)
      && db.favoritos == old(db.favoritos) && db.historial == old(db.historial) && db.rpcs == old(db.rpcs)
      && db.nextId == old(db.nextId)
  {
    var gate := AdminGate(authorization, verify);
    if gate.Deny? {
      return Reply(gate.status, gate.error);
    }
    if !TruthyInt(categoria_id) {
      return Reply(400, CategoriaRequerida);
    }
    var c := categoria_id.value;
    if c !in db.categorias {
      return Reply(400, CategoriaNoValida);
    }
    if id !in db.ias {
      return Reply(500, ErrorCategoria);
    }
    var ia := db.ias[id];
    db.ias := db.ias[id := ia.(categoria_id := c, fecha_actualizacion := Some(now))];
    reply := Reply(200, "Categoría de \"" + ia.nombre + "\" cambiada a \"" + db.categorias[c].nombre + "\"");
  }

  /** The row the ban update leaves: banned, with the reason or the default text; nothing else changes. */
  function Baneado(u: Usuario, razon: Option<string>): (r: Usuario)
    ensures r.baneado && r.razon_baneo == Some(if TruthyStr(razon) then razon.value else RazonBaneoPorDefecto)
    ensures r.(baneado := u.baneado, razon_baneo := u.razon_baneo) == u
  {
    u.(baneado := true, razon_baneo := Some(OrElse(razon, RazonBaneoPorDefecto)))
  }

  /** The row the unban update leaves: not banned and without a reason; nothing else changes. */
  function Desbaneado(u: Usuario): (r: Usuario)
    ensures !r.baneado && r.razon_baneo.None?
    ensures r.(baneado := u.baneado, razon_baneo := u.razon_baneo) == u
  {
    u.(baneado := false, razon_baneo := None)
  }

  /**
   * PUT /usuarios/:id/banear: sets `baneado` and the reason, the default
   * text when none is given; no other field changes. A missing user
   * matches no row and the reply is still 200.
   */
  method Banear(db: Store, authorization: Option<string>, verify: string -> Option<TokenPayload>,
                id: int, razon: Option<string>)
    returns (reply: Reply)
    requires db.Valid()
    modifies db
    ensures db.Valid()
    ensures AdminGate(authorization, verify).Deny? ==>
      reply == Reply(AdminGate(authorization, verify).status, AdminGate(authorization, verify).error) && unchanged(db)
    ensures AdminGate(authorization, verify).Next? ==>
      && reply == Reply(200, "Usuario baneado")
      && db.usuarios == (if id in old(db.usuarios)
                         then old(db.usuarios)[id := Baneado(old(db.usuarios[id]), razon)]
                         else old(db.usuarios))
      && db.ias == old(db.ias) && db.categorias == old(db.categorias) && db.resenas == old(db.resenas)
      && db.favoritos == old(db.favoritos) && db.historial == old(db.historial) && db.rpcs == old(db.rpcs)
      && db.nextId == old(db.nextId)
  {
    var gate := AdminGate(authorization, verify);
    if gate.Deny? {
      return Reply(gate.status, gate.error);
    }
    if id in db.usuarios {
      db.usuarios := db.usuarios[id := Baneado(db.usuarios[id], razon)];
    }
    reply := Reply(200, "Usuario baneado");
  }

  /** PUT /usuarios/:id/desbanear: clears `baneado` and the reason; no other field changes. */
  method Desbanear(db: Store, authorization: Option<string>, verify: string -> Option<TokenPayload>, id: int)
    returns (reply: Reply)
    requires db.Valid()
    modifies db
    ensures db.Valid()
    ensures AdminGate(authorization, verify).Deny? ==>
      reply == Reply(AdminGate(authorization, verify).status, AdminGate(authorization, verify).error) && unchanged(db)
    ensures AdminGate(authorization, verify).Next? ==>
      && reply == Reply(200, "Usuario desbaneado")
      && db.usuarios == (if id in old(db.usuarios)
                         then old(db.usuarios)[id := Desbaneado(old(db.usuarios[id]))]
                         else old(db.usuarios))
      && db.ias == old(db.ias) && db.categorias == old(db.categorias) && db.resenas == old(db.resenas)
      && db.favoritos == old(db.favoritos) && db.historial == old(db.historial) && db.rpcs == old(db.rpcs)
      && db.nextId == old(db.nextId)
  {
    var gate := AdminGate(authorization, verify);
    if gate.Deny? {
      return Reply(gate.status, gate.error);
    }
    if id in db.usuarios {
      db.usuarios := db.usuarios[id := Desbaneado(db.usuarios[id])];
    }
    reply := Reply(200, "Usuario desbaneado");
  }

  /** Ban and then unban gives the account back as it was, apart from a reason it had before. */
  lemma BanThenUnban(u: Usuario, razon: Option<string>)
    requires !u.baneado && u.razon_baneo.None?
    ensures Desbaneado(Baneado(u, razon)) == u
  {
  }

  // ---------------------------------------------------------------------
  // GET /stats

  /** The JSON body of GET /stats. */
  datatype Stats = Stats(totalUsuarios: nat, iasPendientes: nat, iasAprobadas: nat,
                         iasRechazadas: nat, totalVisitas: nat, totalResenas: nat)

  /**
   * What the six queries of /stats answer: five exact counts (null when a
   * query fails) and the `total_usos` column of the approved listings.
   */
  datatype StatsAnswers = StatsAnswers(
    totalUsuarios: Option<nat>, iasPendientes: Option<nat>, iasAprobadas: Option<nat>,
    iasRechazadas: Option<nat>, visitasData: Option<seq<nat>>, totalResenas: Option<nat>)

  /** `visitasData.reduce((acc, ia) => acc + ia.total_usos, 0)`: a left fold. */
  function SumUsos(usos: seq<nat>): nat
    decreases |usos|
  {
    if usos == [] then 0 else SumUsos(usos[..|usos| - 1]) + usos[|usos| - 1]
  }

  /** `count || 0`. */
  function OrZero(count: Option<nat>): nat {
    if count.Some? then count.value else 0
  }

  /** The body /stats sends for the given answers. */
  function StatsReply(a: StatsAnswers): (s: Stats)
    ensures a.visitasData.Some? ==> s.totalVisitas == SumUsos(a.visitasData.value)
    ensures a.visitasData.None? || a.visitasData == Some([]) ==> s.totalVisitas == 0
    ensures a.totalUsuarios.None? ==> s.totalUsuarios == 0
    ensures a.iasPendientes.None? ==> s.iasPendientes == 0
    ensures a.iasAprobadas.None? ==> s.iasAprobadas == 0
    ensures a.iasRechazadas.None? ==> s.iasRechazadas == 0
    ensures a.totalResenas.None? ==> s.totalResenas == 0
    ensures a.totalUsuarios.Some? ==> s.totalUsuarios == a.totalUsuarios.value
    ensures a.iasPendientes.Some? ==> s.iasPendientes == a.iasPendientes.value
    ensures a.iasAprobadas.Some? ==> s.iasAprobadas == a.iasAprobadas.value
    ensures a.iasRechazadas.Some? ==> s.iasRechazadas == a.iasRechazadas.value
    ensures a.totalResenas.Some? ==> s.totalResenas == a.totalResenas.value
  {
    Stats(OrZero(a.totalUsuarios), OrZero(a.iasPendientes), OrZero(a.iasAprobadas),
          OrZero(a.iasRechazadas),
          if a.visitasData.Some? then SumUsos(a.visitasData.value) else 0,
          OrZero(a.totalResenas))
  }

  function CountUsuariosActivos(rows: seq<Usuario>): nat {
    if rows == [] then 0 else (if rows[0].activo then 1 else 0) + CountUsuariosActivos(rows[1..])
  }

  function CountEstado(rows: seq<Ia>, e: Estado): nat {
    if rows == [] then 0 else (if rows[0].estado == e then 1 else 0) + CountEstado(rows[1..], e)
  }

  function CountResenasActivas(rows: seq<Resena>): nat {
    if rows == [] then 0 else (if rows[0].activo then 1 else 0) + CountResenasActivas(rows[1..])
  }

  /** `select('total_usos').eq('estado', 'aprobada')`: the usage counts of the approved rows, in row order. */
  function UsosAprobadas(rows: seq<Ia>): (usos: seq<nat>)
    ensures |usos| == CountEstado(rows, Aprobada)
  {
    if rows == [] then []
    else (if rows[0].estado == Aprobada then [rows[0].total_usos] else []) + UsosAprobadas(rows[1..])
  }

  /** The answers of the six queries when the store lists its rows in the given order. */
  function AnswersFor(usuarios: seq<Usuario>, ias: seq<Ia>, resenas: seq<Resena>): StatsAnswers {
    StatsAnswers(Some(CountUsuariosActivos(usuarios)), Some(CountEstado(ias, Pendiente)),
                 Some(CountEstado(ias, Aprobada)), Some(CountEstado(ias, Rechazada)),
                 Some(UsosAprobadas(ias)), Some(CountResenasActivas(resenas)))
  }

  /** Reference definition: the usage of the approved listings, summed from the front. */
  function ApprovedUsage(rows: seq<Ia>): nat {
    if rows == [] then 0
    else (if rows[0].estado == Aprobada then rows[0].total_usos else 0) + ApprovedUsage(rows[1..])
  }

  lemma {:induction false} SumUsosConcat(a: seq<nat>, b: seq<nat>)
    ensures SumUsos(a + b) == SumUsos(a) + SumUsos(b)
    decreases |b|
  {
    if b == [] {
      assert a + b == a;
    } else {
      SumUsosConcat(a, b[..|b| - 1]);
      assert (a + b)[..|a + b| - 1] == a + b[..|b| - 1];
    }
  }

  /** `totalVisitas` is the total usage of the approved listings, and 0 when there are none. */
  lemma {:induction false} TotalVisitasIsApprovedUsage(usuarios: seq<Usuario>, ias: seq<Ia>, resenas: seq<Resena>)
    ensures StatsReply(AnswersFor(usuarios, ias, resenas)).totalVisitas == ApprovedUsage(ias)
    ensures CountEstado(ias, Aprobada) == 0 ==> StatsReply(AnswersFor(usuarios, ias, resenas)).totalVisitas == 0
    decreases |ias|
  {
    if ias != [] {
      TotalVisitasIsApprovedUsage(usuarios, ias[1..], resenas);
      var head: seq<nat> := if ias[0].estado == Aprobada then [ias[0].total_usos] else [];
      SumUsosConcat(head, UsosAprobadas(ias[1..]));
      assert SumUsos(head) == (if ias[0].estado == Aprobada then ias[0].total_usos else 0) by {
        if head != [] { assert head[..0] == []; }
      }
    }
  }

  /** The order in which the database returns the rows does not change `totalVisitas`. */
  lemma {:induction false} SumUsosPermutation(a: seq<nat>, b: seq<nat>)
    requires multiset(a) == multiset(b)
    ensures SumUsos(a) == SumUsos(b)
    decreases |a|
  {
    if a != [] {
      var x := a[|a| - 1];
      assert x in multiset(b);
      var i :| 0 <= i < |b| && b[i] == x;
      var rest := b[..i] + b[i + 1..];
      assert b == b[..i] + [x] + b[i + 1..];
      assert a == a[..|a| - 1] + [x];
      assert multiset(a[..|a| - 1]) == multiset(a) - multiset{x};
      assert multiset(rest) == multiset(b) - multiset{x} by {
        assert multiset(b) == multiset(b[..i]) + multiset{x} + multiset(b[i + 1..]);
      }
      SumUsosPermutation(a[..|a| - 1], rest);
      SumUsosConcat(b[..i] + [x], b[i + 1..]);
      SumUsosConcat(b[..i], [x]);
      SumUsosConcat(b[..i], b[i + 1..]);
      assert SumUsos([x]) == x by { assert [x][..0] == []; }
    }
  }
}
