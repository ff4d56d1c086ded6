/**
 * The request gate of the backend: `verificarToken` takes the bearer token
 * out of the `Authorization` header (the RFC 6750, section 2.1 shape
 * `Bearer <token>`, though only the second space-separated piece is read and
 * the scheme word is never checked) and verifies it as a JWT (RFC 7519);
 * `verificarAdmin` lets through only the `admin` role; `generarToken` signs
 * the four identity claims with a seven-day lifetime.
 *
 * `jwt.verify` and `jwt.sign` (with the server secret) are parameters: the
 * model does not look inside a token.
 */
module AuthMiddleware {
  import opened Base
  import opened Strings
  import opened Schema

  /** The claims `generarToken` signs and that `jwt.verify` gives back as `req.usuario`. */
  datatype TokenPayload = TokenPayload(user_id: int, username: string, email: string, rol: string)

  /** What a middleware does: call `next()` with `req.usuario` set, or answer and stop. */
  datatype Gate = Next(usuario: TokenPayload) | Deny(status: nat, error: string)

  const AdminRole: string := "admin"

  /** The `expiresIn` option of `jwt.sign`. */
  const TokenLifetime: string := "7d"

  const NoTokenError: string := "Acceso denegado. Token no proporcionado."
  const BadTokenError: string := "Token inválido o expirado."
  const NotAdminError: string := "Acceso denegado. Se requieren permisos de administrador."

  /** `authHeader && authHeader.split(' ')[1]`, when that value is truthy. */
  function BearerToken(authorization: Option<string>): (token: Option<string>)
    ensures token.Some? ==> token.value != "" && ' ' !in token.value
    ensures token.Some? ==> authorization.Some? && |Split(authorization.value, ' ')| >= 2
                            && token.value == Split(authorization.value, ' ')[1]
  {
    if authorization.None? then None
    else
      var parts := Split(authorization.value, ' ');
      if |parts| >= 2 && parts[1] != "" then Some(parts[1]) else None
  }

  /** `h` reads `scheme`, one space, `t`, then nothing or a space and more. */
  ghost predicate HeaderShape(h: string, scheme: string, t: string, rest: string) {
    && ' ' !in scheme && (rest == "" || rest[0] == ' ')
    && h == scheme + " " + t + rest
  }

  lemma BearerTokenHasShape(h: string)
    requires BearerToken(Some(h)).Some?
    ensures exists scheme: string, rest: string :: HeaderShape(h, scheme, BearerToken(Some(h)).value, rest)
  {
    var parts := Split(h, ' ');
    var t := parts[1];
    var rest := if |parts| == 2 then "" else " " + Join(parts[2..], ' ');
    assert Join(parts[1..], ' ') == t + rest by {
      assert parts[1..][1..] == parts[2..];
    }
    assert HeaderShape(h, parts[0], t, rest);
  }

  lemma ShapeGivesBearerToken(h: string, scheme: string, t: string, rest: string)
    requires HeaderShape(h, scheme, t, rest) && t != "" && ' ' !in t
    ensures BearerToken(Some(h)) == Some(t)
  {
    assert h == scheme + [' '] + (t + rest);
    SplitPrefix(scheme, t + rest, ' ');
    if rest == "" {
      assert t + rest == t;
      SplitNoSep(t, ' ');
    } else {
      assert t + rest == t + [' '] + rest[1..];
      SplitPrefix(t, rest[1..], ' ');
    }
  }

  /**
   * The token is exactly the piece after the first space, up to the next
   * space or the end, whatever word stands before it.
   */
  lemma BearerTokenShape(h: string, t: string)
    ensures BearerToken(Some(h)) == Some(t) <==>
      t != "" && ' ' !in t && exists scheme: string, rest: string :: HeaderShape(h, scheme, t, rest)
  {
    if BearerToken(Some(h)) == Some(t) {
      BearerTokenHasShape(h);
    }
    if t != "" && ' ' !in t && exists scheme: string, rest: string :: HeaderShape(h, scheme, t, rest) {
      var scheme: string, rest: string :| HeaderShape(h, scheme, t, rest);
      ShapeGivesBearerToken(h, scheme, t, rest);
    }
  }

  /** `verificarToken`: 401 without a token, 403 when it does not verify, otherwise `next()` with the claims. */
  function VerificarToken(authorization: Option<string>, verify: string -> Option<TokenPayload>): (g: Gate)
    ensures BearerToken(authorization).None? ==> g == Deny(401, NoTokenError)
    ensures (BearerToken(authorization).Some? && verify(BearerToken(authorization).value).None?)
              ==> g == Deny(403, BadTokenError)
    ensures g.Next? <==> BearerToken(authorization).Some? && verify(BearerToken(authorization).value).Some?
    ensures g.Next? ==> g.usuario == verify(BearerToken(authorization).value).value
  {
    match BearerToken(authorization)
    case None => Deny(401, NoTokenError)
    case Some(token) =>
      match verify(token)
      case None => Deny(403, BadTokenError)
      case Some(decoded) => Next(decoded)
  }

  /** `verificarAdmin`: `next()` exactly when the caller's role is `admin`, 403 otherwise. */
  function VerificarAdmin(usuario: TokenPayload): (g: Gate)
    ensures g.Next? <==> usuario.rol == AdminRole
    ensures g.Next? ==> g.usuario == usuario
    ensures g.Deny? ==> g == Deny(403, NotAdminError)
  {
    if usuario.rol != AdminRole then Deny(403, NotAdminError) else Next(usuario)
  }

  /** `router.use(verificarToken); router.use(verificarAdmin)`: the gate in front of every admin route. */
  function AdminGate(authorization: Option<string>, verify: string -> Option<TokenPayload>): (g: Gate)
    ensures g.Next? <==> VerificarToken(authorization, verify).Next? && VerificarToken(authorization, verify).usuario.rol == AdminRole
    ensures g.Next? ==> g == VerificarToken(authorization, verify)
    ensures VerificarToken(authorization, verify).Deny? ==> g == VerificarToken(authorization, verify)
    ensures VerificarToken(authorization, verify).Next? && g.Deny? ==> g == Deny(403, NotAdminError)
  {
    match VerificarToken(authorization, verify)
    case Next(usuario) => VerificarAdmin(usuario)
    case Deny(status, error) => Deny(status, error)
  }

  /** The payload `generarToken` signs: the four identity fields of the user row, nothing else. */
  function PayloadOf(user_id: int, u: Usuario): (p: TokenPayload)
    ensures p.user_id == user_id && p.username == u.username && p.email == u.email && p.rol == u.rol
  {
    TokenPayload(user_id, u.username, u.email, u.rol)
  }

  /**
   * `generarToken(usuario)`: `jwt.sign` of the payload with a seven-day
   * lifetime. What is signed is the user's id, username, email and role and
   * nothing else, with `expiresIn` of seven days.
   */
  function GenerarToken(user_id: int, u: Usuario, sign: (TokenPayload, string) -> string): (t: string)
    ensures t == sign(TokenPayload(user_id, u.username, u.email, u.rol), "7d")
  {
    sign(PayloadOf(user_id, u), TokenLifetime)
  }

  /**
   * A token the server issued goes back through the gate: when `verify`
   * accepts what `sign` produced and the token has no space, a request
   * carrying it after any one-word scheme reaches `next()` with the user's
   * claims, and passes the admin gate exactly when the user is an admin.
   */
  lemma IssuedTokenPasses(user_id: int, u: Usuario, scheme: string,
                          sign: (TokenPayload, string) -> string, verify: string -> Option<TokenPayload>)
    requires forall p: TokenPayload :: verify(sign(p, TokenLifetime)) == Some(p)
    requires GenerarToken(user_id, u, sign) != "" && ' ' !in GenerarToken(user_id, u, sign)
    requires ' ' !in scheme
    ensures VerificarToken(Some(scheme + " " + GenerarToken(user_id, u, sign)), verify) == Next(PayloadOf(user_id, u))
    ensures AdminGate(Some(scheme + " " + GenerarToken(user_id, u, sign)), verify).Next? <==> u.rol == AdminRole
  {
    var t := GenerarToken(user_id, u, sign);
    var h := scheme + " " + t;
    assert HeaderShape(h, scheme, t, "");
    ShapeGivesBearerToken(h, scheme, t, "");
  }
}
