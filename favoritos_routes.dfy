/**
 * The favourites routes: a user marks approved listings as favourites,
 * removes them, asks whether one is a favourite, and lists them. A
 * favourite is the pair (listing, user), so the table holds each pair at
 * most once.
 */
module FavoritosRoutes {
  import opened Base
  import opened Schema
  import opened Database
  import opened AuthMiddleware

  const IdRequerido: string := "ID de IA requerido"
  const YaFavorita: string := "Esta IA ya está en tus favoritos"
  const EliminadoDeFavoritos: string := "Eliminado de favoritos"

  /** The GET /check/:iaId answer. */
  predicate EsFavorito(favoritos: set<Favorito>, ia: int, user: int) {
    Favorito(ia, user) in favoritos
  }

  /** GET /: the listings `user` has marked, and only those. */
  function FavoritosDe(favoritos: set<Favorito>, user: int): (r: set<int>)
    ensures forall ia :: ia in r ==> EsFavorito(favoritos, ia, user)
  {
    set f | f in favoritos && f.usuario_id == user :: f.ia_id
  }

  /** Every favourite of `user` is listed for `user`. */
  lemma FavoritosDeComplete(favoritos: set<Favorito>, user: int, ia: int)
    requires EsFavorito(favoritos, ia, user)
    ensures ia in FavoritosDe(favoritos, user)
  {
    assert Favorito(ia, user) in favoritos && Favorito(ia, user).usuario_id == user;
  }

  /** Marking or unmarking one user's favourite leaves every other user's list as it was. */
  lemma OtherUsersUnaffected(favoritos: set<Favorito>, ia: int, user: int, other: int)
    requires other != user
    ensures FavoritosDe(favoritos + {Favorito(ia, user)}, other) == FavoritosDe(favoritos, other)
    ensures FavoritosDe(favoritos - {Favorito(ia, user)}, other) == FavoritosDe(favoritos, other)
  {
    forall x ensures x in FavoritosDe(favoritos + {Favorito(ia, user)}, other) <==> x in FavoritosDe(favoritos, other) {
      if x in FavoritosDe(favoritos, other) {
        assert Favorito(x, other) in favoritos;
      }
    }
    forall x ensures x in FavoritosDe(favoritos - {Favorito(ia, user)}, other) <==> x in FavoritosDe(favoritos, other) {
      if x in FavoritosDe(favoritos, other) {
        assert Favorito(x, other) in favoritos - {Favorito(ia, user)};
      }
    }
  }

  /**
   * POST /: a listing id is required and the listing must be approved; a
   * pair already marked is refused with 400. Otherwise the pair is added
   * and the reply names the listing.
   */
  method Agregar(db: Store, authorization: Option<string>, verify: string -> Option<TokenPayload>, ia_id: Option<int>)
    returns (reply: Reply)
    requires db.Valid()
    modifies db
    ensures db.Valid()
    ensures VerificarToken(authorization, verify).Deny? ==>
      reply == Reply(VerificarToken(authorization, verify).status, VerificarToken(authorization, verify).error) && unchanged(db)
    ensures VerificarToken(authorization, verify).Next? && !TruthyInt(ia_id) ==>
      reply == Reply(400, IdRequerido) && unchanged(db)
    ensures VerificarToken(authorization, verify).Next? && TruthyInt(ia_id)
            && (ia_id.value !in db.ias || db.ias[ia_id.value].estado != Aprobada) ==>
      reply == Reply(404, IaNoEncontrada) && unchanged(db)
    ensures VerificarToken(authorization, verify).Next? && TruthyInt(ia_id)
            && ia_id.value in db.ias && db.ias[ia_id.value].estado == Aprobada
            && EsFavorito(old(db.favoritos), ia_id.value, VerificarToken(authorization, verify).usuario.user_id) ==>
      reply == Reply(400, YaFavorita) && unchanged(db)
    ensures VerificarToken(authorization, verify).Next? && TruthyInt(ia_id)
            && ia_id.value in db.ias && db.ias[ia_id.value].estado == Aprobada
            && !EsFavorito(old(db.favoritos), ia_id.value, VerificarToken(authorization, verify).usuario.user_id) ==>
      && reply == Reply(201, db.ias[ia_id.value].nombre + " agregada a favoritos")
      && db.favoritos == old(db.favoritos) + {Favorito(ia_id.value, VerificarToken(authorization, verify).usuario.user_id)}
      && db.usuarios == old(db.usuarios) && db.categorias == old(db.categorias) && db.ias == old(db.ias)
      && db.resenas == old(db.resenas) && db.historial == old(db.historial) && db.rpcs == old(db.rpcs)
      && db.nextId == old(db.nextId)
  {
    var gate := VerificarToken(authorization, verify);
    if gate.Deny? {
      return Reply(gate.status, gate.error);
    }
    var user := gate.usuario.user_id;
    if !TruthyInt(ia_id) {
      return Reply(400, IdRequerido);
    }
    var ia := ia_id.value;
    if ia !in db.ias || db.ias[ia].estado != Aprobada {
      return Reply(404, IaNoEncontrada);
    }
    if EsFavorito(db.favoritos, ia, user) {
      return Reply(400, YaFavorita);
    }
    db.favoritos := db.favoritos + {Favorito(ia, user)};
    reply := Reply(201, db.ias[ia].nombre + " agregada a favoritos");
  }

  /** DELETE /:iaId: the caller's pair is gone afterwards, whether or not it was there. */
  method Quitar(db: Store, authorization: Option<string>, verify: string -> Option<TokenPayload>, iaId: int)
    returns (reply: Reply)
    requires db.Valid()
    modifies db
    ensures db.Valid()
    ensures VerificarToken(authorization, verify).Deny? ==>
      reply == Reply(VerificarToken(authorization, verify).status, VerificarToken(authorization, verify).error) && unchanged(db)
    ensures VerificarToken(authorization, verify).Next? ==>
      && reply == Reply(200, EliminadoDeFavoritos)
      && db.favoritos == old(db.favoritos) - {Favorito(iaId, VerificarToken(authorization, verify).usuario.user_id)}
      && !EsFavorito(db.favoritos, iaId, VerificarToken(authorization, verify).usuario.user_id)
      && db.usuarios == old(db.usuarios) && db.categorias == old(db.categorias) && db.ias == old(db.ias)
      && db.resenas == old(db.resenas) && db.historial == old(db.historial) && db.rpcs == old(db.rpcs)
      && db.nextId == old(db.nextId)
  {
    var gate := VerificarToken(authorization, verify);
    if gate.Deny? {
      return Reply(gate.status, gate.error);
    }
    db.favoritos := db.favoritos - {Favorito(iaId, gate.usuario.user_id)};
    reply := Reply(200, EliminadoDeFavoritos);
  }

  /** The GET /check/:iaId reply: the gate's refusal, or the `esFavorito` flag. */
  datatype CheckReply = CheckDenied(status: nat, error: string) | CheckAnswer(esFavorito: bool)

  /** GET /check/:iaId: true exactly when the caller has marked the listing. */
  function Check(favoritos: set<Favorito>, authorization: Option<string>, verify: string -> Option<TokenPayload>, iaId: int)
    : (r: CheckReply)
    ensures VerificarToken(authorization, verify).Deny? <==> r.CheckDenied?
    ensures r.CheckDenied? ==> r.status == VerificarToken(authorization, verify).status
    ensures r.CheckAnswer? ==>
      (r.esFavorito <==> Favorito(iaId, VerificarToken(authorization, verify).usuario.user_id) in favoritos)
  {
    match VerificarToken(authorization, verify)
    case Deny(status, error) => CheckDenied(status, error)
    case Next(u) => CheckAnswer(EsFavorito(favoritos, iaId, u.user_id))
  }

  /** After adding, checking says yes; after removing, it says no. */
  lemma AddRemoveCheck(favoritos: set<Favorito>, authorization: Option<string>, verify: string -> Option<TokenPayload>, ia: int)
    requires VerificarToken(authorization, verify).Next?
    ensures var f := Favorito(ia, VerificarToken(authorization, verify).usuario.user_id);
      && Check(favoritos + {f}, authorization, verify, ia) == CheckAnswer(true)
      && Check(favoritos - {f}, authorization, verify, ia) == CheckAnswer(false)
  {
  }
}
