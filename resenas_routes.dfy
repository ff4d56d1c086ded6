/**
 * The review routes: list the active reviews of a listing, and create,
 * edit and soft-delete one's own review. A new review earns its author 10
 * points; every change asks the database to recompute the listing's
 * average.
 */
module ResenasRoutes {
  import opened Base
  import opened Schema
  import opened Database
  import opened AuthMiddleware

  const Requeridos: string := "IA y puntuación son requeridos"
  const FueraDeRango: string := "La puntuación debe ser entre 1 y 5"
  const YaResenada: string := "Ya dejaste una reseña para esta IA"
  const ResenaPublicada: string := "¡Reseña publicada! +10 puntos"
  const SinPermiso: string := "Reseña no encontrada o no tienes permiso"
  const ResenaActualizada: string := "Reseña actualizada"
  const ResenaEliminada: string := "Reseña eliminada"

  /** GET /ia/:iaId: the keys of the active reviews of listing `ia`. */
  function ResenasDeIa(resenas: map<int, Resena>, ia: int): (r: set<int>)
    ensures r <= resenas.Keys
  {
    set k | k in resenas && resenas[k].ia_id == ia && resenas[k].activo
  }

  /** The review rows written by `user` about listing `ia`, active or not. */
  function ResenasDe(resenas: map<int, Resena>, ia: int, user: int): (r: set<int>)
    ensures r <= resenas.Keys
  {
    set k | k in resenas && resenas[k].ia_id == ia && resenas[k].usuario_id == user
  }

  /** With one review per pair, `.single()` on (listing, author) yields the review whenever there is one. */
  lemma SingleReviewLookup(resenas: map<int, Resena>, ia: int, user: int)
    requires OneReviewPerPair(resenas)
    ensures SingleMatch(ResenasDe(resenas, ia, user)) <==> exists k :: k in ResenasDe(resenas, ia, user)
  {
    SingleMatchUnique(ResenasDe(resenas, ia, user));
  }

  /** A listed review belongs to the listing and is active; each author appears at most once. */
  lemma ListedReviews(resenas: map<int, Resena>, ia: int)
    requires OneReviewPerPair(resenas)
    ensures forall k :: k in ResenasDeIa(resenas, ia) ==> resenas[k].ia_id == ia && resenas[k].activo
    ensures forall a, b :: a in ResenasDeIa(resenas, ia) && b in ResenasDeIa(resenas, ia) && a != b ==>
              resenas[a].usuario_id != resenas[b].usuario_id
  {
  }

  /** A soft-deleted review leaves the listing of every listing, and nothing else leaves it. */
  lemma DeletedNotListed(resenas: map<int, Resena>, id: int, ia: int)
    requires id in resenas
    ensures id !in ResenasDeIa(resenas[id := resenas[id].(activo := false)], ia)
    ensures ResenasDeIa(resenas[id := resenas[id].(activo := false)], ia) == ResenasDeIa(resenas, ia) - {id}
  {
  }

  /**
   * POST /: a score and a listing are required, the score must be 1..5 and
   * the listing approved, and the caller must have no review row for it
   * yet, active or deleted. The insert names the listing, the author, the
   * score and the comment or null; `editado` and `activo` are the table's
   * column defaults. Its author receives 10 points and the listing's
   * average is recomputed; an active row is then among the listing's
   * reviews.
   */
  method Crear(db: Store, authorization: Option<string>, verify: string -> Option<TokenPayload>,
               ia_id: Option<int>, puntuacion: Option<int>, comentario: Option<string>, defaults: ResenaDefaults)
    returns (reply: Reply)
    requires db.Valid()
    modifies db
    ensures db.Valid()
    ensures VerificarToken(authorization, verify).Deny? ==>
      reply == Reply(VerificarToken(authorization, verify).status, VerificarToken(authorization, verify).error) && unchanged(db)
    ensures VerificarToken(authorization, verify).Next? && (!TruthyInt(ia_id) || !TruthyInt(puntuacion)) ==>
      reply == Reply(400, Requeridos) && unchanged(db)
    ensures VerificarToken(authorization, verify).Next? && TruthyInt(ia_id) && TruthyInt(puntuacion)
            && !(1 <= puntuacion.value <= 5) ==>
      reply == Reply(400, FueraDeRango) && unchanged(db)
    ensures VerificarToken(authorization, verify).Next? && TruthyInt(ia_id) && TruthyInt(puntuacion)
            && 1 <= puntuacion.value <= 5
            && (ia_id.value !in old(db.ias) || old(db.ias[ia_id.value].estado) != Aprobada) ==>
      reply == Reply(404, IaNoEncontrada) && unchanged(db)
    ensures VerificarToken(authorization, verify).Next? && TruthyInt(ia_id) && TruthyInt(puntuacion)
            && 1 <= puntuacion.value <= 5
            && ia_id.value in old(db.ias) && old(db.ias[ia_id.value].estado) == Aprobada
            && (exists r :: r in ResenasDe(old(db.resenas), ia_id.value, VerificarToken(authorization, verify).usuario.user_id)) ==>
      reply == Reply(400, YaResenada) && unchanged(db)
    ensures VerificarToken(authorization, verify).Next? && TruthyInt(ia_id) && TruthyInt(puntuacion)
            && 1 <= puntuacion.value <= 5
            && ia_id.value in old(db.ias) && old(db.ias[ia_id.value].estado) == Aprobada
            && (forall r :: r !in ResenasDe(old(db.resenas), ia_id.value, VerificarToken(authorization, verify).usuario.user_id)) ==>
      var user := VerificarToken(authorization, verify).usuario.user_id;
      var k := old(db.nextId);
      && reply == Reply(201, ResenaPublicada)
      && db.resenas == old(db.resenas)[k := Resena(ia_id.value, user, puntuacion.value, OrNull(comentario), defaults.editado, defaults.activo)]
      && db.rpcs == old(db.rpcs) + [DarPuntos(user, PuntosResena, TipoResena, k, "Reseña en: " + old(db.ias[ia_id.value].nombre)),
                                    ActualizarCalificacion(ia_id.value)]
      && (k in ResenasDeIa(db.resenas, ia_id.value) <==> defaults.activo)
      && db.nextId == k + 1
      && db.usuarios == old(db.usuarios) && db.categorias == old(db.categorias) && db.ias == old(db.ias)
      && db.favoritos == old(db.favoritos) && db.historial == old(db.historial)
  {
    var gate := VerificarToken(authorization, verify);
    if gate.Deny? {
      return Reply(gate.status, gate.error);
    }
    var user := gate.usuario.user_id;
    if !TruthyInt(ia_id) || !TruthyInt(puntuacion) {
      return Reply(400, Requeridos);
    }
    var score := puntuacion.value;
    if score < 1 || score > 5 {
      return Reply(400, FueraDeRango);
    }
    var ia := ia_id.value;
    if ia !in db.ias || db.ias[ia].estado != Aprobada {
      return Reply(404, IaNoEncontrada);
    }
    var nombre := db.ias[ia].nombre;
    SingleReviewLookup(db.resenas, ia, user);
    if SingleMatch(ResenasDe(db.resenas, ia, user)) {
      return Reply(400, YaResenada);
    }
    var k := db.NewKey();
    var row := Resena(ia, user, score, OrNull(comentario), defaults.editado, defaults.activo);
    var award := DarPuntos(user, PuntosResena, TipoResena, k, "Reseña en: " + nombre);
    ReviewKeepsValid(db.usuarios, db.ias, db.resenas, db.historial, db.rpcs, db.nextId, k, row, award, "Reseña en: " + nombre, ActualizarCalificacion(ia));
    db.resenas := db.resenas[k := row];
    db.rpcs := db.rpcs + [award, ActualizarCalificacion(ia)];
    reply := Reply(201, ResenaPublicada);
  }

  /** Valid survives inserting review `k`, with no row for its pair yet, and recording its award and a recomputation. */
  lemma ReviewKeepsValid(
    usuarios: map<int, Usuario>, ias: map<int, Ia>, resenas: map<int, Resena>,
    historial: seq<HistRow>, rpcs: seq<Rpc>, nextId: int,
    k: int, row: Resena, award: Rpc, desc: string, recompute: Rpc)
    requires Consistent(usuarios, ias, resenas, historial, rpcs, nextId - 1)
    requires k == nextId - 1
    requires forall r :: r !in ResenasDe(resenas, row.ia_id, row.usuario_id)
    requires award == DarPuntos(row.usuario_id, PuntosResena, TipoResena, k, desc)
    requires recompute.ActualizarCalificacion?
    ensures Consistent(usuarios, ias, resenas[k := row], historial, rpcs + [award, recompute], nextId)
  {
    var resenas' := resenas[k := row];
    var rpcs' := rpcs + [award, recompute];
    assert rpcs' == (rpcs + [award]) + [recompute];
    forall a, b | a in resenas' && b in resenas' && a != b
      ensures resenas'[a].ia_id != resenas'[b].ia_id || resenas'[a].usuario_id != resenas'[b].usuario_id
    {
      if a == k {
        assert b !in ResenasDe(resenas, row.ia_id, row.usuario_id);
      } else if b == k {
        assert a !in ResenasDe(resenas, row.ia_id, row.usuario_id);
      }
    }
    AwardCountZero(rpcs, TipoResena, k);
    forall j | j in ias ensures AwardCount(rpcs', TipoPublicarIa, j) == (if ias[j].estado == Aprobada then 1 else 0) {
      AwardCountAppend(rpcs, award, TipoPublicarIa, j);
      AwardCountAppend(rpcs + [award], recompute, TipoPublicarIa, j);
    }
    forall j | j in resenas' ensures AwardCount(rpcs', TipoResena, j) == 1 {
      AwardCountAppend(rpcs, award, TipoResena, j);
      AwardCountAppend(rpcs + [award], recompute, TipoResena, j);
    }
  }

  /** The update PUT /:id applies: `editado`, the score when truthy, the comment when present (null included). */
  function Editada(r: Resena, puntuacion: Option<int>, comentario: Option<Option<string>>): (e: Resena)
    ensures e.editado && e.ia_id == r.ia_id && e.usuario_id == r.usuario_id && e.activo == r.activo
    ensures e.puntuacion == (if TruthyInt(puntuacion) then puntuacion.value else r.puntuacion)
    ensures e.comentario == (if comentario.Some? then comentario.value else r.comentario)
  {
    var r1 := r.(editado := true);
    var r2 := if TruthyInt(puntuacion) then r1.(puntuacion := puntuacion.value) else r1;
    if comentario.Some? then r2.(comentario := comentario.value) else r2
  }

  /** Editing with nothing to change only marks the review as edited. */
  lemma EditNothing(r: Resena)
    ensures Editada(r, None, None) == r.(editado := true)
  {
  }

  /**
   * PUT /:id: only the author may edit, and the row is found whether or not
   * it was deleted. The score is not range-checked again. The listing's
   * average is recomputed.
   */
  method Editar(db: Store, authorization: Option<string>, verify: string -> Option<TokenPayload>,
                id: int, puntuacion: Option<int>, comentario: Option<Option<string>>)
    returns (reply: Reply)
    requires db.Valid()
    modifies db
    ensures db.Valid()
    ensures VerificarToken(authorization, verify).Deny? ==>
      reply == Reply(VerificarToken(authorization, verify).status, VerificarToken(authorization, verify).error) && unchanged(db)
    ensures VerificarToken(authorization, verify).Next?
            && (id !in old(db.resenas) || old(db.resenas[id].usuario_id) != VerificarToken(authorization, verify).usuario.user_id) ==>
      reply == Reply(404, SinPermiso) && unchanged(db)
    ensures VerificarToken(authorization, verify).Next?
            && id in old(db.resenas) && old(db.resenas[id].usuario_id) == VerificarToken(authorization, verify).usuario.user_id ==>
      && reply == Reply(200, ResenaActualizada)
      && db.resenas == old(db.resenas)[id := Editada(old(db.resenas[id]), puntuacion, comentario)]
      && db.rpcs == old(db.rpcs) + [ActualizarCalificacion(old(db.resenas[id].ia_id))]
      && db.usuarios == old(db.usuarios) && db.categorias == old(db.categorias) && db.ias == old(db.ias)
      && db.favoritos == old(db.favoritos) && db.historial == old(db.historial) && db.nextId == old(db.nextId)
  {
    var gate := VerificarToken(authorization, verify);
    if gate.Deny? {
      return Reply(gate.status, gate.error);
    }
    if id !in db.resenas || db.resenas[id].usuario_id != gate.usuario.user_id {
      return Reply(404, SinPermiso);
    }
    var r := db.resenas[id];
    RowUpdateKeepsValid(db.usuarios, db.ias, db.resenas, db.historial, db.rpcs, db.nextId, id,
                        Editada(r, puntuacion, comentario), ActualizarCalificacion(r.ia_id));
    db.resenas := db.resenas[id := Editada(r, puntuacion, comentario)];
    db.rpcs := db.rpcs + [ActualizarCalificacion(r.ia_id)];
    reply := Reply(200, ResenaActualizada);
  }

  /** Valid survives rewriting review `id` without changing its pair, and recording a recomputation. */
  lemma RowUpdateKeepsValid(
    usuarios: map<int, Usuario>, ias: map<int, Ia>, resenas: map<int, Resena>,
    historial: seq<HistRow>, rpcs: seq<Rpc>, nextId: int,
    id: int, row: Resena, recompute: Rpc)
    requires Consistent(usuarios, ias, resenas, historial, rpcs, nextId)
    requires id in resenas && row.ia_id == resenas[id].ia_id && row.usuario_id == resenas[id].usuario_id
    requires recompute.ActualizarCalificacion?
    ensures Consistent(usuarios, ias, resenas[id := row], historial, rpcs + [recompute], nextId)
  {
    forall j | j in ias ensures AwardCount(rpcs + [recompute], TipoPublicarIa, j) == (if ias[j].estado == Aprobada then 1 else 0) {
      AwardCountAppend(rpcs, recompute, TipoPublicarIa, j);
    }
    forall j | j in resenas ensures AwardCount(rpcs + [recompute], TipoResena, j) == 1 {
      AwardCountAppend(rpcs, recompute, TipoResena, j);
    }
  }

  /**
   * DELETE /:id: only the author may delete; the row stays, marked
   * inactive, so it no longer appears in its listing's reviews. The
   * listing's average is recomputed.
   */
  method Eliminar(db: Store, authorization: Option<string>, verify: string -> Option<TokenPayload>, id: int)
    returns (reply: Reply)
    requires db.Valid()
    modifies db
    ensures db.Valid()
    ensures VerificarToken(authorization, verify).Deny? ==>
      reply == Reply(VerificarToken(authorization, verify).status, VerificarToken(authorization, verify).error) && unchanged(db)
    ensures VerificarToken(authorization, verify).Next?
            && (id !in old(db.resenas) || old(db.resenas[id].usuario_id) != VerificarToken(authorization, verify).usuario.user_id) ==>
      reply == Reply(404, SinPermiso) && unchanged(db)
    ensures VerificarToken(authorization, verify).Next?
            && id in old(db.resenas) && old(db.resenas[id].usuario_id) == VerificarToken(authorization, verify).usuario.user_id ==>
      && reply == Reply(200, ResenaEliminada)
      && db.resenas == old(db.resenas)[id := old(db.resenas[id]).(activo := false)]
      && id !in ResenasDeIa(db.resenas, old(db.resenas[id].ia_id))
      && db.rpcs == old(db.rpcs) + [ActualizarCalificacion(old(db.resenas[id].ia_id))]
      && db.usuarios == old(db.usuarios) && db.categorias == old(db.categorias) && db.ias == old(db.ias)
      && db.favoritos == old(db.favoritos) && db.historial == old(db.historial) && db.nextId == old(db.nextId)
  {
    var gate := VerificarToken(authorization, verify);
    if gate.Deny? {
      return Reply(gate.status, gate.error);
    }
    if id !in db.resenas || db.resenas[id].usuario_id != gate.usuario.user_id {
      return Reply(404, SinPermiso);
    }
    var r := db.resenas[id];
    RowUpdateKeepsValid(db.usuarios, db.ias, db.resenas, db.historial, db.rpcs, db.nextId, id,
                        r.(activo := false), ActualizarCalificacion(r.ia_id));
    DeletedNotListed(db.resenas, id, r.ia_id);
    db.resenas := db.resenas[id := r.(activo := false)];
    db.rpcs := db.rpcs + [ActualizarCalificacion(r.ia_id)];
    reply := Reply(200, ResenaEliminada);
  }
}
