/**
 * The account routes: registration, login and the profile update. The
 * password hash is computed and compared by bcrypt and the token is
 * signed by jsonwebtoken; all three are parameters.
 */
module AuthRoutes {
  import opened Base
  import opened Schema
  import opened Database
  import opened AuthMiddleware

  const MinPassword: nat := 6

  const TodosRequeridos: string := "Todos los campos son requeridos"
  const PasswordCorta: string := "La contraseña debe tener al menos 6 caracteres"
  const YaRegistrado: string := "El email o nombre de usuario ya está registrado"
  const ErrorRegistro: string := "Error al registrar usuario"
  const RegistroExitoso: string := "Usuario registrado exitosamente"
  const LoginRequeridos: string := "Email y contraseña son requeridos"
  const CredencialesInvalidas: string := "Credenciales inválidas"
  const CuentaSuspendida: string := "Tu cuenta ha sido suspendida"
  const LoginExitoso: string := "Inicio de sesión exitoso"
  const PerfilActualizado: string := "Perfil actualizado"
  const ErrorPerfil: string := "Error al actualizar perfil"

  /**
   * The `usuario` object registration and login send back: named columns
   * only, never the password hash. `avatar` is `None` when the field is
   * not part of the object (registration) and `Some` when it is (login).
   */
  datatype PublicUser = PublicUser(
    user_id: int, username: string, email: string, rol: string,
    puntos_totales: int, nivel: int, avatar: Option<Option<string>>)

  /** A reply of /registro or /login: an error (403 carries the ban reason) or the token and the user. */
  datatype AuthReply =
    | AuthError(status: nat, error: string, razon: Option<string>)
    | AuthOk(status: nat, mensaje: string, token: string, usuario: PublicUser)

  function Publico(user_id: int, u: Usuario, withAvatar: bool): (p: PublicUser)
    ensures p.user_id == user_id && p.username == u.username && p.email == u.email && p.rol == u.rol
    ensures p.puntos_totales == u.puntos_totales && p.nivel == u.nivel
    ensures p.avatar == (if withAvatar then Some(u.avatar) else None)
  {
    PublicUser(user_id, u.username, u.email, u.rol, u.puntos_totales, u.nivel,
               if withAvatar then Some(u.avatar) else None)
  }

  // ---------------------------------------------------------------------
  // POST /registro

  /** The accounts the registration check finds: same email or same username. */
  function Coincidencias(usuarios: map<int, Usuario>, email: string, username: string): (r: set<int>)
    ensures r <= usuarios.Keys
  {
    set k | k in usuarios && (usuarios[k].email == email || usuarios[k].username == username)
  }

  /** What the registration check meets: no account, exactly one, or two different ones. */
  datatype Clash = Libre | Registrado | Conflicto

  /** `.or(email, username).single()`: a row only when exactly one account matches. */
  function ClashOf(usuarios: map<int, Usuario>, email: string, username: string): (c: Clash)
    ensures c == Libre <==> forall j :: j !in Coincidencias(usuarios, email, username)
    ensures c == Registrado <==> SingleMatch(Coincidencias(usuarios, email, username))
  {
    var m := Coincidencias(usuarios, email, username);
    if SingleMatch(m) then Registrado
    else if exists j :: j in m then Conflicto
    else Libre
  }

  /** The row registration inserts: the given name and email, the hash, and the column defaults. */
  function NuevoUsuario(username: string, email: string, password_hash: string, d: UserDefaults): (u: Usuario)
    ensures u.username == username && u.email == email && u.password_hash == password_hash
    ensures !u.baneado && u.razon_baneo.None? && u.rol == d.rol
  {
    Usuario(username, email, password_hash, d.rol, d.puntos_totales, d.nivel, None, None, d.activo, false, None, None)
  }

  /** Valid survives inserting an account whose email and username nobody has, under a fresh key. */
  lemma NewAccountKeepsValid(
    usuarios: map<int, Usuario>, ias: map<int, Ia>, resenas: map<int, Resena>,
    historial: seq<HistRow>, rpcs: seq<Rpc>, nextId: int, k: int, u: Usuario)
    requires Consistent(usuarios, ias, resenas, historial, rpcs, nextId - 1)
    requires k == nextId - 1
    requires ClashOf(usuarios, u.email, u.username) == Libre
    ensures Consistent(usuarios[k := u], ias, resenas, historial, rpcs, nextId)
  {
    var us := usuarios[k := u];
    forall a, b | a in us && b in us && a != b
      ensures us[a].email != us[b].email && us[a].username != us[b].username
    {
      if a == k {
        assert b !in Coincidencias(usuarios, u.email, u.username);
      } else if b == k {
        assert a !in Coincidencias(usuarios, u.email, u.username);
      }
    }
  }

  /**
   * POST /registro. All three fields are required and the password needs 6
   * characters. One account with that email or username is reported as
   * taken (400); two different ones (one with the email, another with the
   * username) slip past the check, and the insert then breaks the
   * uniqueness of the columns (500). Otherwise the account is created with
   * the hashed password and the reply carries a token and the public view.
   */
  method Registro(db: Store, username: Option<string>, email: Option<string>, password: Option<string>,
                  hash: string -> string, sign: (TokenPayload, string) -> string, defaults: UserDefaults)
    returns (reply: AuthReply)
    requires db.Valid()
    modifies db
    ensures db.Valid()
    ensures !TruthyStr(username) || !TruthyStr(email) || !TruthyStr(password) ==>
      reply == AuthError(400, TodosRequeridos, None) && unchanged(db)
    ensures TruthyStr(username) && TruthyStr(email) && TruthyStr(password) && |password.value| < MinPassword ==>
      reply == AuthError(400, PasswordCorta, None) && unchanged(db)
    ensures TruthyStr(username) && TruthyStr(email) && TruthyStr(password) && |password.value| >= MinPassword
            && ClashOf(old(db.usuarios), email.value, username.value) == Registrado ==>
      reply == AuthError(400, YaRegistrado, None) && unchanged(db)
    ensures TruthyStr(username) && TruthyStr(email) && TruthyStr(password) && |password.value| >= MinPassword
            && ClashOf(old(db.usuarios), email.value, username.value) == Conflicto ==>
      reply == AuthError(500, ErrorRegistro, None) && unchanged(db)
    ensures TruthyStr(username) && TruthyStr(email) && TruthyStr(password) && |password.value| >= MinPassword
            && ClashOf(old(db.usuarios), email.value, username.value) == Libre ==>
      var k := old(db.nextId);
      var u := NuevoUsuario(username.value, email.value, hash(password.value), defaults);
      && k !in old(db.usuarios)
      && db.usuarios == old(db.usuarios)[k := u]
      && reply == AuthOk(201, RegistroExitoso, GenerarToken(k, u, sign), Publico(k, u, false))
      && db.nextId == k + 1
      && db.ias == old(db.ias) && db.categorias == old(db.categorias) && db.resenas == old(db.resenas)
      && db.favoritos == old(db.favoritos) && db.historial == old(db.historial) && db.rpcs == old(db.rpcs)
  {
    if !TruthyStr(username) || !TruthyStr(email) || !TruthyStr(password) {
      return AuthError(400, TodosRequeridos, None);
    }
    if |password.value| < MinPassword {
      return AuthError(400, PasswordCorta, None);
    }
    var clash := ClashOf(db.usuarios, email.value, username.value);
    if clash == Registrado {
      return AuthError(400, YaRegistrado, None);
    }
    if clash == Conflicto {
      // the insert violates the unique email or username column
      return AuthError(500, ErrorRegistro, None);
    }
    var u := NuevoUsuario(username.value, email.value, hash(password.value), defaults);
    var k := db.NewKey();
    NewAccountKeepsValid(db.usuarios, db.ias, db.resenas, db.historial, db.rpcs, db.nextId, k, u);
    db.usuarios := db.usuarios[k := u];
    reply := AuthOk(201, RegistroExitoso, GenerarToken(k, u, sign), Publico(k, u, false));
  }

  /** The 500 case needs two different accounts: one holding the email, another the username. */
  lemma ConflictoMeansTwoAccounts(usuarios: map<int, Usuario>, email: string, username: string)
    returns (a: int, b: int)
    requires UniqueAccounts(usuarios)
    requires ClashOf(usuarios, email, username) == Conflicto
    ensures a in usuarios && b in usuarios && a != b
    ensures usuarios[a].email == email && usuarios[b].username == username
  {
    var m := Coincidencias(usuarios, email, username);
    var j, k :| j in m && k in m && j != k;
    assert usuarios[j].email != usuarios[k].email && usuarios[j].username != usuarios[k].username;
    if usuarios[j].email == email {
      a, b := j, k;
    } else {
      a, b := k, j;
    }
  }

  /** With unique accounts, the registration check reports an existing account's own email and username as taken. */
  lemma EmailTakenIsReported(usuarios: map<int, Usuario>, email: string, username: string, k: int)
    requires UniqueAccounts(usuarios)
    requires k in usuarios && usuarios[k].email == email && usuarios[k].username == username
    ensures ClashOf(usuarios, email, username) == Registrado
  {
    assert k in Coincidencias(usuarios, email, username);
  }

  // ---------------------------------------------------------------------
  // POST /login

  /** The accounts with that email; at most one while accounts are unique. */
  function ConEmail(usuarios: map<int, Usuario>, email: string): (r: set<int>)
    ensures r <= usuarios.Keys
  {
    set k | k in usuarios && usuarios[k].email == email
  }

  lemma LoginLookup(usuarios: map<int, Usuario>, email: string)
    requires UniqueAccounts(usuarios)
    ensures SingleMatch(ConEmail(usuarios, email)) <==> exists k :: k in ConEmail(usuarios, email)
  {
    SingleMatchUnique(ConEmail(usuarios, email));
  }

  /**
   * POST /login. Unknown email: 401. A banned account: 403 with its reason,
   * decided before the password is compared. Wrong password: 401 with the
   * same text as an unknown email. Otherwise `ultima_actividad` is set and
   * the reply carries a token and the public view with the avatar.
   */
  method Login(db: Store, email: Option<string>, password: Option<string>,
               compare: (string, string) -> bool, sign: (TokenPayload, string) -> string, now: Timestamp)
    returns (reply: AuthReply)
    requires db.Valid()
    modifies db
    ensures db.Valid()
    ensures !TruthyStr(email) || !TruthyStr(password) ==>
      reply == AuthError(400, LoginRequeridos, None) && unchanged(db)
    ensures TruthyStr(email) && TruthyStr(password) && (forall k :: k !in ConEmail(old(db.usuarios), email.value)) ==>
      reply == AuthError(401, CredencialesInvalidas, None) && unchanged(db)
    ensures TruthyStr(email) && TruthyStr(password) ==>
      forall k :: k in ConEmail(old(db.usuarios), email.value) ==>
        var u := old(db.usuarios[k]);
        && (u.baneado ==> reply == AuthError(403, CuentaSuspendida, u.razon_baneo) && unchanged(db))
        && (!u.baneado && !compare(password.value, u.password_hash) ==>
              reply == AuthError(401, CredencialesInvalidas, None) && unchanged(db))
        && (!u.baneado && compare(password.value, u.password_hash) ==>
              && reply == AuthOk(200, LoginExitoso, GenerarToken(k, u, sign), Publico(k, u, true))
              && db.usuarios == old(db.usuarios)[k := u.(ultima_actividad := Some(now))]
              && db.ias == old(db.ias) && db.categorias == old(db.categorias) && db.resenas == old(db.resenas)
              && db.favoritos == old(db.favoritos) && db.historial == old(db.historial) && db.rpcs == old(db.rpcs)
              && db.nextId == old(db.nextId))
  {
    if !TruthyStr(email) || !TruthyStr(password) {
      return AuthError(400, LoginRequeridos, None);
    }
    var matches := ConEmail(db.usuarios, email.value);
    LoginLookup(db.usuarios, email.value);
    if !SingleMatch(matches) {
      return AuthError(401, CredencialesInvalidas, None);
    }
    var k :| k in matches;
    var u := db.usuarios[k];
    if u.baneado {
      return AuthError(403, CuentaSuspendida, u.razon_baneo);
    }
    if !compare(password.value, u.password_hash) {
      return AuthError(401, CredencialesInvalidas, None);
    }
    db.usuarios := db.usuarios[k := u.(ultima_actividad := Some(now))];
    reply := AuthOk(200, LoginExitoso, GenerarToken(k, u, sign), Publico(k, u, true));
  }

  // ---------------------------------------------------------------------
  // PUT /perfil

  /**
   * The `updates` object of PUT /perfil applied to the row: the username and
   * the avatar when truthy, the biography whenever the field is present
   * (null and "" included).
   */
  function ConCambios(u: Usuario, username: Option<string>, biografia: Option<Option<string>>, avatar: Option<string>)
    : (v: Usuario)
    ensures v.username == (if TruthyStr(username) then username.value else u.username)
    ensures v.biografia == (if biografia.Some? then biografia.value else u.biografia)
    ensures v.avatar == (if TruthyStr(avatar) then Some(avatar.value) else u.avatar)
    ensures v.(username := u.username, biografia := u.biografia, avatar := u.avatar) == u
  {
    var v1 := if TruthyStr(username) then u.(username := username.value) else u;
    var v2 := if biografia.Some? then v1.(biografia := biografia.value) else v1;
    if TruthyStr(avatar) then v2.(avatar := Some(avatar.value)) else v2
  }

  /**
   * The columns of the profile a client may see: the GET /perfil selection
   * without its `fecha_registro`, a column this model's user row does not
   * carry; the password hash is not among them.
   */
  datatype Perfil = Perfil(
    user_id: int, username: string, email: string, rol: string, puntos_totales: int, nivel: int,
    avatar: Option<string>, biografia: Option<string>, ultima_actividad: Option<Timestamp>)

  /** The `usuario` of the PUT /perfil reply as the code builds it: the whole updated row (`.select()`). */
  function PerfilRespuestaTalCual(u: Usuario): (row: Usuario)
    ensures row.password_hash == u.password_hash
  {
    u
  }

  /** The hash of any account whose profile is updated is sent back to the client. */
  lemma PerfilRespuestaExponeHash(u: Usuario, username: Option<string>, biografia: Option<Option<string>>,
                                  avatar: Option<string>)
    ensures PerfilRespuestaTalCual(ConCambios(u, username, biografia, avatar)).password_hash == u.password_hash
  {
  }

  /** The corrected `usuario` of the PUT /perfil reply: the public profile of the updated row. */
  function PerfilDe(user_id: int, u: Usuario): (p: Perfil)
    ensures p.user_id == user_id && p.username == u.username && p.email == u.email && p.rol == u.rol
    ensures p.avatar == u.avatar && p.biografia == u.biografia
    ensures p.puntos_totales == u.puntos_totales && p.nivel == u.nivel
  {
    Perfil(user_id, u.username, u.email, u.rol, u.puntos_totales, u.nivel, u.avatar, u.biografia, u.ultima_actividad)
  }

  /** The corrected reply depends on the row only through its public columns: two rows that differ only in their hash give the same reply. */
  lemma PerfilDeHidesHash(user_id: int, u: Usuario, h: string)
    ensures PerfilDe(user_id, u.(password_hash := h)) == PerfilDe(user_id, u)
  {
  }

  /**
   * PUT /perfil. The caller's row gets the partial update. A missing row
   * matches nothing and `.single()` fails (500); a username another
   * account has breaks the uniqueness of the column (500); neither
   * changes anything. The reply carries the whole updated row, as the
   * code sends it, password hash included.
   */
  method ActualizarPerfil(db: Store, authorization: Option<string>, verify: string -> Option<TokenPayload>,
                          username: Option<string>, biografia: Option<Option<string>>, avatar: Option<string>)
    returns (reply: Reply, usuario: Option<Usuario>)
    requires db.Valid()
    modifies db
    ensures db.Valid()
    ensures VerificarToken(authorization, verify).Deny? ==>
      reply == Reply(VerificarToken(authorization, verify).status, VerificarToken(authorization, verify).error)
      && usuario.None? && unchanged(db)
    ensures VerificarToken(authorization, verify).Next? ==>
      var me := VerificarToken(authorization, verify).usuario.user_id;
      && (me !in old(db.usuarios) ==> reply == Reply(500, ErrorPerfil) && usuario.None? && unchanged(db))
      && (me in old(db.usuarios) ==>
            var v := ConCambios(old(db.usuarios[me]), username, biografia, avatar);
            && ((exists j :: j in old(db.usuarios) && j != me && old(db.usuarios[j]).username == v.username) ==>
                  reply == Reply(500, ErrorPerfil) && usuario.None? && unchanged(db))
            && ((forall j :: j in old(db.usuarios) && j != me ==> old(db.usuarios[j]).username != v.username) ==>
                  && reply == Reply(200, PerfilActualizado) && usuario == Some(PerfilRespuestaTalCual(v))
                  && usuario.value.password_hash == old(db.usuarios[me]).password_hash
                  && db.usuarios == old(db.usuarios)[me := v]
                  && db.ias == old(db.ias) && db.categorias == old(db.categorias) && db.resenas == old(db.resenas)
                  && db.favoritos == old(db.favoritos) && db.historial == old(db.historial) && db.rpcs == old(db.rpcs)
                  && db.nextId == old(db.nextId)))
  {
    var gate := VerificarToken(authorization, verify);
    if gate.Deny? {
      return Reply(gate.status, gate.error), None;
    }
    var me := gate.usuario.user_id;
    if me !in db.usuarios {
      return Reply(500, ErrorPerfil), None;
    }
    var v := ConCambios(db.usuarios[me], username, biografia, avatar);
    if exists j :: j in db.usuarios && j != me && db.usuarios[j].username == v.username {
      return Reply(500, ErrorPerfil), None;
    }
    db.usuarios := db.usuarios[me := v];
    reply, usuario := Reply(200, PerfilActualizado), Some(PerfilRespuestaTalCual(v));
  }
}
