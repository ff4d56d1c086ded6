/**
 * The browser side of sign-in: the login and registration forms, the
 * session kept in browser storage (the `token` and `usuario` entries),
 * the header that shows who is signed in, and the helpers other scripts
 * call to read the session and build request headers.
 *
 * A request is modelled by the body the form sends and the answer it
 * gets back, which is a parameter; the stored user is kept as a value
 * (the JSON text round trip is not modelled).
 */
module ClientSession {
  import opened Base
  import opened Strings
  import opened AuthMiddleware

  /** The fields of the stored `usuario` the scripts read. */
  datatype StoredUser = StoredUser(username: string, rol: string, puntos_totales: Option<int>)

  /** What `fetch` and `response.json()` give: a thrown error, or the status flag and the body. */
  datatype Response =
    | Failed(message: string)
    | Answer(ok: bool, error: Option<string>, token: string, usuario: StoredUser)

  /** The bodies the forms post. */
  datatype LoginBody = LoginBody(email: string, password: string)
  datatype RegistroBody = RegistroBody(username: string, email: string, password: string)

  /** The page header: the sign-in buttons, or the user's name and points. */
  datatype Header = SignedOut | SignedIn(userName: string, userPoints: int)

  const LoginFallback: string := "Error al iniciar sesión"
  const RegistroFallback: string := "Error al registrarse"
  const PasswordsDiffer: string := "Las contraseñas no coinciden"

  /** `actualizarHeaderUsuario`: the header for the stored user; missing points show as 0. */
  function HeaderFor(usuario: Option<StoredUser>): (h: Header)
    ensures h.SignedIn? <==> usuario.Some?
    ensures h.SignedIn? ==> h.userName == usuario.value.username
    ensures h.SignedIn? ==> h.userPoints == (if TruthyInt(usuario.value.puntos_totales) then usuario.value.puntos_totales.value else 0)
  {
    match usuario
    case None => SignedOut
    case Some(u) => SignedIn(u.username, if TruthyInt(u.puntos_totales) then u.puntos_totales.value else 0)
  }

  /** The text the form's error box shows for a failed answer: the server's error, or the fallback. */
  function ErrorText(r: Response, fallback: string): (text: string)
    requires r.Failed? || !r.ok
    ensures r.Failed? ==> text == r.message
    ensures r.Answer? && TruthyStr(r.error) ==> text == r.error.value
    ensures r.Answer? && !TruthyStr(r.error) ==> text == fallback
  {
    if r.Failed? then r.message else if TruthyStr(r.error) then r.error.value else fallback
  }

  class Session {
    var token: Option<string>
    var usuario: Option<StoredUser>
    var header: Header
    var loginError: Option<string>
    var registroError: Option<string>
    var loginModalOpen: bool
    var registroModalOpen: bool

    /** The header shows the stored user. */
    predicate Valid()
      reads this
    {
      header == HeaderFor(usuario)
    }

    /** A page loaded over what browser storage holds; the header is brought up to date. */
    constructor (storedToken: Option<string>, storedUser: Option<StoredUser>)
      ensures Valid() && token == storedToken && usuario == storedUser
      ensures loginError.None? && registroError.None? && !loginModalOpen && !registroModalOpen
    {
      token, usuario := storedToken, storedUser;
      header := HeaderFor(storedUser);
      loginError, registroError := None, None;
      loginModalOpen, registroModalOpen := false, false;
    }

    /** `obtenerToken`. */
    function ObtenerToken(): (t: Option<string>)
      reads this
      ensures t == token
    {
      token
    }

    /** `estaAutenticado`: a non-empty token is stored. */
    predicate EstaAutenticado()
      reads this
      ensures EstaAutenticado() <==> token.Some? && token.value != ""
    {
      TruthyStr(ObtenerToken())
    }

    /** `esAdmin`: a stored user whose role is `admin`. */
    predicate EsAdmin()
      reads this
      ensures EsAdmin() ==> usuario.Some?
      ensures usuario.Some? ==> (EsAdmin() <==> usuario.value.rol == "admin")
    {
      usuario.Some? && usuario.value.rol == AdminRole
    }

    /** `obtenerHeaders`: always the JSON content type, and the bearer token exactly when signed in. */
    function ObtenerHeaders(): (h: map<string, string>)
      reads this
      ensures "Content-Type" in h && h["Content-Type"] == "application/json"
      ensures "Authorization" in h <==> EstaAutenticado()
      ensures "Authorization" in h ==> h["Authorization"] == "Bearer " + token.value
      ensures forall k :: k in h ==> k == "Content-Type" || k == "Authorization"
    {
      var headers := map["Content-Type" := "application/json"];
      if TruthyStr(ObtenerToken()) then headers["Authorization" := "Bearer " + token.value] else headers
    }

    /**
     * `handleLogin`: posts the two fields. A failure shows its message and
     * leaves the session as it was; success stores the token and the user,
     * closes the modal and updates the header.
     */
    method HandleLogin(email: string, password: string, response: Response) returns (sent: LoginBody)
      requires Valid()
      modifies this`token, this`usuario, this`header, this`loginError, this`loginModalOpen
      ensures Valid()
      ensures sent == LoginBody(email, password)
      ensures (response.Failed? || !response.ok) ==>
        && token == old(token) && usuario == old(usuario) && loginModalOpen == old(loginModalOpen)
        && loginError == Some(ErrorText(response, LoginFallback))
      ensures response.Answer? && response.ok ==>
        && token == Some(response.token) && usuario == Some(response.usuario)
        && !loginModalOpen && loginError.None?
    {
      sent := LoginBody(email, password);
      loginError := None;
      if response.Failed? || !response.ok {
        loginError := Some(ErrorText(response, LoginFallback));
        return;
      }
      token := Some(response.token);
      usuario := Some(response.usuario);
      loginModalOpen := false;
      header := HeaderFor(usuario);
    }

    /**
     * `handleRegistro`: differing passwords show an error and post
     * nothing; otherwise it posts the three fields and stores the session
     * exactly as a login does.
     */
    method HandleRegistro(username: string, email: string, password: string, passwordConfirm: string, response: Response)
      returns (sent: Option<RegistroBody>)
      requires Valid()
      modifies this`token, this`usuario, this`header, this`registroError, this`registroModalOpen
      ensures Valid()
      ensures password != passwordConfirm ==>
        && sent.None? && registroError == Some(PasswordsDiffer)
        && token == old(token) && usuario == old(usuario) && registroModalOpen == old(registroModalOpen)
      ensures password == passwordConfirm ==> sent == Some(RegistroBody(username, email, password))
      ensures password == passwordConfirm && (response.Failed? || !response.ok) ==>
        && token == old(token) && usuario == old(usuario) && registroModalOpen == old(registroModalOpen)
        && registroError == Some(ErrorText(response, RegistroFallback))
      ensures password == passwordConfirm && response.Answer? && response.ok ==>
        && token == Some(response.token) && usuario == Some(response.usuario)
        && !registroModalOpen && registroError.None?
    {
      if password != passwordConfirm {
        registroError := Some(PasswordsDiffer);
        return None;
      }
      sent := Some(RegistroBody(username, email, password));
      registroError := None;
      if response.Failed? || !response.ok {
        registroError := Some(ErrorText(response, RegistroFallback));
        return;
      }
      token := Some(response.token);
      usuario := Some(response.usuario);
      registroModalOpen := false;
      header := HeaderFor(usuario);
    }

    /** `cerrarSesion`: both entries are removed and the header shows the sign-in buttons. */
    method CerrarSesion()
      requires Valid()
      modifies this`token, this`usuario, this`header
      ensures Valid()
      ensures token.None? && usuario.None? && header == SignedOut
      ensures !EstaAutenticado() && !EsAdmin()
    {
      token := None;
      usuario := None;
      header := HeaderFor(usuario);
    }
  }

  /**
   * The header built from a stored token reaches the server's gate as that
   * same token, when the token holds no space (a signed JWT never does).
   */
  lemma HeadersCarryToken(s: Session)
    requires s.EstaAutenticado() && ' ' !in s.token.value
    ensures BearerToken(Some(s.ObtenerHeaders()["Authorization"])) == s.token
  {
    var t := s.token.value;
    assert HeaderShape("Bearer " + t, "Bearer", t, "") by {
      assert "Bearer " + t == "Bearer" + " " + t + "";
    }
    ShapeGivesBearerToken("Bearer " + t, "Bearer", t, "");
  }

  /** Without a stored token no header goes out, and the gate answers 401. */
  lemma NoTokenNoHeader(s: Session, verify: string -> Option<TokenPayload>)
    requires !s.EstaAutenticado()
    ensures "Authorization" !in s.ObtenerHeaders()
    ensures VerificarToken(None, verify) == Deny(401, NoTokenError)
  {
  }
}
