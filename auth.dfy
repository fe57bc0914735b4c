/** Authentication and authorization: the role guards, resolving a request's token
    to a user, issuing token claims at login, and registering users. */
module Auth {
  import opened Util
  import opened Modelos
  import opened BaseDatos
  import opened Http

  /** Token lifetime: `datetime.timedelta(hours=1)`, in seconds. */
  const UNA_HORA: int := 3600

  // ---------------------------------------------------------------------------
  // Role guards

  /** `getattr(user, f'es_{rol}', False)`: a role name with no matching attribute
      reads as False. */
  function AtributoRol(u: Usuario, rol: string): bool {
    if rol == "admin" then u.esAdmin
    else if rol == "empleado" then u.esEmpleado
    else if rol == "cliente" then u.esCliente
    else false
  }

  /** The roles a user holds, as a set of role names. */
  function RolesDe(u: Usuario): (r: set<string>)
    ensures r <= {"admin", "empleado", "cliente"}
  {
    (if u.esAdmin then {"admin"} else {})
    + (if u.esEmpleado then {"empleado"} else {})
    + (if u.esCliente then {"cliente"} else {})
  }

  /** `any(getattr(user, f'es_{rol}', False) for rol in roles)`, the test both
      `check_roles` and `role_required_api` apply. */
  function TieneAlgunRol(u: Usuario, roles: seq<string>): (r: bool)
    ensures r <==> exists i :: 0 <= i < |roles| && AtributoRol(u, roles[i])
  {
    if |roles| == 0 then false
    else AtributoRol(u, roles[0]) || TieneAlgunRol(u, roles[1..])
  }

  /** Access is granted exactly when the user's roles meet the required ones. */
  lemma TieneAlgunRolSiiInterseccion(u: Usuario, roles: seq<string>)
    ensures TieneAlgunRol(u, roles) <==> RolesDe(u) * (set r | r in roles) != {}
  {
    if TieneAlgunRol(u, roles) {
      var i :| 0 <= i < |roles| && AtributoRol(u, roles[i]);
      assert roles[i] in RolesDe(u) * (set r | r in roles);
    }
    if RolesDe(u) * (set r | r in roles) != {} {
      var x :| x in RolesDe(u) * (set r | r in roles);
      var i :| 0 <= i < |roles| && roles[i] == x;
      assert AtributoRol(u, roles[i]);
    }
  }

  /** An empty role list denies everyone. */
  lemma SinRolesDeniega(u: Usuario)
    ensures !TieneAlgunRol(u, [])
  {
  }

  /** A role name that is none of the three contributes nothing. */
  lemma RolDesconocidoNoCuenta(u: Usuario, roles: seq<string>, rol: string)
    requires rol != "admin" && rol != "empleado" && rol != "cliente"
    ensures TieneAlgunRol(u, roles + [rol]) == TieneAlgunRol(u, roles)
  {
    var s := roles + [rol];
    if TieneAlgunRol(u, s) {
      var i :| 0 <= i < |s| && AtributoRol(u, s[i]);
      assert i < |roles| && roles[i] == s[i];
    }
    if TieneAlgunRol(u, roles) {
      var i :| 0 <= i < |roles| && AtributoRol(u, roles[i]);
      assert s[i] == roles[i];
    }
  }

  /** `role_required_api(*roles)`: None lets the handler run, otherwise the 403
      response that replaces it. */
  function RoleRequiredApi(u: Usuario, roles: seq<string>): (r: Option<Respuesta>)
    ensures r.None? <==> TieneAlgunRol(u, roles)
    ensures r.Some? ==> r.value == Fallo(NoAutorizado) && r.value.status == 403
  {
    if TieneAlgunRol(u, roles) then None else Some(Fallo(NoAutorizado))
  }

  // ---------------------------------------------------------------------------
  // Tokens

  /** The payload of a JSON Web Token (RFC 7519) as `jwt.decode` returns it; a
      claim missing from the payload is None. */
  datatype Claims = Claims(
    userId: Option<int>,
    esAdmin: Option<bool>,
    esEmpleado: Option<bool>,
    esCliente: Option<bool>,
    exp: Option<int>)

  /** The three outcomes of `jwt.decode(token, SECRET_KEY, algorithms=['HS256'])`:
      the claims, ExpiredSignatureError, or any other InvalidTokenError. */
  datatype Decodificado = Valido(claims: Claims) | Expirado | Invalido

  /** The token codec with its signing secret fixed: decoding takes the token and the
      current time in seconds; encoding signs a claim set. */
  type Decodificador = (string, int) -> Decodificado
  type Codificador = Claims -> string

  /** `user.es_x = data.get('es_x', False)` for the three roles. */
  function ConRolesDeClaims(u: Usuario, c: Claims): (r: Usuario)
    ensures r.id == u.id && r.username == u.username && r.clave == u.clave
    ensures r.esAdmin == (c.esAdmin == Some(true))
    ensures r.esEmpleado == (c.esEmpleado == Some(true))
    ensures r.esCliente == (c.esCliente == Some(true))
  {
    u.(esAdmin := c.esAdmin.GetOr(false),
       esEmpleado := c.esEmpleado.GetOr(false),
       esCliente := c.esCliente.GetOr(false))
  }

  /** The `x-access-token` header decoded, or None when it is missing or empty. */
  function Decodificar(token: Option<string>, ahora: int, decode: Decodificador): (r: Option<Decodificado>)
    ensures r.None? <==> token.None? || token.value == ""
    ensures r.Some? ==> r == Some(decode(token.value, ahora))
  {
    if token.None? || token.value == "" then None else Some(decode(token.value, ahora))
  }

  /** `token_required`: the user the wrapped handler receives, or the response that
      replaces the handler. */
  function TokenRequired(token: Option<string>, ahora: int, decode: Decodificador, usuarios: seq<Usuario>)
    : (r: Result<Usuario, Respuesta>)
    ensures Decodificar(token, ahora, decode).None? <==> r == Err(Fallo(TokenRequerido))
    ensures Decodificar(token, ahora, decode) == Some(Expirado) <==> r == Err(Fallo(TokenExpirado))
    ensures Decodificar(token, ahora, decode) == Some(Invalido) <==> r == Err(Fallo(TokenInvalido))
    ensures r == Err(Aborto(500)) <==>
      var d := Decodificar(token, ahora, decode);
      d.Some? && d.value.Valido? && d.value.claims.userId.None?
    ensures r == Err(Fallo(UsuarioNoEncontrado)) <==>
      var d := Decodificar(token, ahora, decode);
      d.Some? && d.value.Valido? && d.value.claims.userId.Some?
      && BuscarUsuario(usuarios, d.value.claims.userId.value).None?
    ensures r.Ok? <==>
      var d := Decodificar(token, ahora, decode);
      d.Some? && d.value.Valido? && d.value.claims.userId.Some?
      && BuscarUsuario(usuarios, d.value.claims.userId.value).Some?
    ensures r.Ok? ==>
      var c := Decodificar(token, ahora, decode).value.claims;
      c.userId.Some? && BuscarUsuario(usuarios, c.userId.value).Some?
      && r.value == ConRolesDeClaims(usuarios[BuscarUsuario(usuarios, c.userId.value).value], c)
  {
    match Decodificar(token, ahora, decode)
    case None => Err(Fallo(TokenRequerido))
    case Some(Expirado) => Err(Fallo(TokenExpirado))
    case Some(Invalido) => Err(Fallo(TokenInvalido))
    case Some(Valido(c)) =>
      match c.userId
      case None => Err(Aborto(500))     // data['user_id'] raises KeyError
      case Some(id) =>
        match BuscarUsuario(usuarios, id)
        case None => Err(Fallo(UsuarioNoEncontrado))
        case Some(k) => Ok(ConRolesDeClaims(usuarios[k], c))
  }

  /** Two user tables that differ at most in role flags. */
  predicate MismasFilasSalvoRoles(us1: seq<Usuario>, us2: seq<Usuario>) {
    |us1| == |us2|
    && forall k :: 0 <= k < |us1| ==>
         us1[k].id == us2[k].id && us1[k].username == us2[k].username && us1[k].clave == us2[k].clave
  }

  /** The stored flags never matter to `token_required`: only the token's claims do. */
  lemma TokenRequiredIgnoraRolesAlmacenados(
    token: Option<string>, ahora: int, decode: Decodificador, us1: seq<Usuario>, us2: seq<Usuario>)
    requires MismasFilasSalvoRoles(us1, us2)
    ensures TokenRequired(token, ahora, decode, us1) == TokenRequired(token, ahora, decode, us2)
  {
    assert IdsUsuarios(us1) == IdsUsuarios(us2);
  }

  /** `token_required` followed by `role_required_api(*roles)`: the user the route's
      handler runs for, or the response it gets instead. */
  function Autenticar(token: Option<string>, ahora: int, decode: Decodificador, usuarios: seq<Usuario>, roles: seq<string>)
    : (r: Result<Usuario, Respuesta>)
    ensures TokenRequired(token, ahora, decode, usuarios).Err? ==> r == TokenRequired(token, ahora, decode, usuarios)
    ensures r.Ok? <==>
      TokenRequired(token, ahora, decode, usuarios).Ok?
      && TieneAlgunRol(TokenRequired(token, ahora, decode, usuarios).value, roles)
    ensures r.Ok? ==> r.value == TokenRequired(token, ahora, decode, usuarios).value
    ensures TokenRequired(token, ahora, decode, usuarios).Ok? && r.Err? ==> r == Err(Fallo(NoAutorizado))
  {
    match TokenRequired(token, ahora, decode, usuarios)
    case Err(resp) => Err(resp)
    case Ok(u) =>
      match RoleRequiredApi(u, roles)
      case Some(resp) => Err(resp)
      case None => Ok(u)
  }

  /** The claims both login paths sign: the user's key and stored flags, expiring one
      hour after `ahora`. */
  function EmitirClaims(u: Usuario, ahora: int): (c: Claims)
    ensures c.userId == Some(u.id) && c.exp == Some(ahora + UNA_HORA)
    ensures ConRolesDeClaims(u, c) == u
  {
    Claims(Some(u.id), Some(u.esAdmin), Some(u.esEmpleado), Some(u.esCliente), Some(ahora + UNA_HORA))
  }

  /** What an HS256 codec (section 3.2 of RFC 7518) with a fixed secret does with a
      token it signed: the claims come back until the expiry time and, from that
      time on, the token is reported expired (section 4.1.4 of RFC 7519). */
  predicate CodecConforme(encode: Codificador, decode: Decodificador, c: Claims, t: int) {
    encode(c) != ""
    && decode(encode(c), t) == (if c.exp.Some? && t >= c.exp.value then Expirado else Valido(c))
  }

  /** A token issued at `t0` to a stored user authenticates that user, with the flags
      it had at issuance, until `t0 + UNA_HORA`; from then on it is expired. */
  lemma TokenEmitidoResuelve(us: seq<Usuario>, k: nat, t0: int, t: int, encode: Codificador, decode: Decodificador)
    requires k < |us| && BuscarUsuario(us, us[k].id) == Some(k)
    requires CodecConforme(encode, decode, EmitirClaims(us[k], t0), t)
    ensures t < t0 + UNA_HORA ==>
      TokenRequired(Some(encode(EmitirClaims(us[k], t0))), t, decode, us) == Ok(us[k])
    ensures t >= t0 + UNA_HORA ==>
      TokenRequired(Some(encode(EmitirClaims(us[k], t0))), t, decode, us) == Err(Fallo(TokenExpirado))
  {
    var c := EmitirClaims(us[k], t0);
    if t < t0 + UNA_HORA {
      assert Decodificar(Some(encode(c)), t, decode) == Some(Valido(c));
    } else {
      assert Decodificar(Some(encode(c)), t, decode) == Some(Expirado);
    }
  }

  /** `load_user`: the session's user re-read from the table, or anonymous. */
  function UsuarioActual(sesion: Option<int>, usuarios: seq<Usuario>): (r: Option<Usuario>)
    ensures r.Some? <==> sesion.Some? && BuscarUsuario(usuarios, sesion.value).Some?
    ensures r.Some? ==> r.value == usuarios[BuscarUsuario(usuarios, sesion.value).value]
  {
    if sesion.None? then None
    else match BuscarUsuario(usuarios, sesion.value)
      case None => None
      case Some(k) => Some(usuarios[k])
  }

  /** Revoking a role in the table reaches session-based requests at once, but a token
      issued before the change keeps granting the role until it expires. */
  lemma RevocacionAsimetrica(us: seq<Usuario>, k: nat, t0: int, t: int, encode: Codificador, decode: Decodificador)
    requires k < |us| && BuscarUsuario(us, us[k].id) == Some(k) && us[k].esAdmin
    requires t < t0 + UNA_HORA
    requires CodecConforme(encode, decode, EmitirClaims(us[k], t0), t)
    ensures var revocado := us[k := us[k].(esAdmin := false)];
      && Autenticar(Some(encode(EmitirClaims(us[k], t0))), t, decode, revocado, ["admin"]).Ok?
      && UsuarioActual(Some(us[k].id), revocado).Some?
      && !TieneAlgunRol(UsuarioActual(Some(us[k].id), revocado).value, ["admin"])
  {
    var revocado := us[k := us[k].(esAdmin := false)];
    var token := Some(encode(EmitirClaims(us[k], t0)));
    TokenEmitidoResuelve(us, k, t0, t, encode, decode);
    TokenRequiredIgnoraRolesAlmacenados(token, t, decode, us, revocado);
    assert TieneAlgunRol(us[k], ["admin"]) by { assert AtributoRol(us[k], ["admin"][0]); }
    assert IdsUsuarios(revocado) == IdsUsuarios(us);
  }

  // ---------------------------------------------------------------------------
  // Page guards

  /** A page view run on the tables: it completes with new tables and a response, or
      raises before it has changed anything. */
  datatype Ejecucion = Completa(tablas: Tablas, respuesta: Respuesta) | Excepcion

  /** `role_required_html(*roles)` around `vista`, for the logged-in user `u`: a
      denied user gets `abort(403)`; an allowed one has the view run once inside
      `check_roles` (its response discarded) and then a second time, whose response
      is returned. An exception of the first run ends the request. */
  function RoleRequiredHtml(t: Tablas, u: Usuario, roles: seq<string>, vista: Tablas -> Ejecucion)
    : (r: (Tablas, Respuesta))
    ensures !TieneAlgunRol(u, roles) ==> r == (t, Aborto(403))
    ensures TieneAlgunRol(u, roles) && vista(t).Excepcion? ==> r == (t, Aborto(500))
    ensures TieneAlgunRol(u, roles) && vista(t).Completa? && vista(vista(t).tablas).Excepcion? ==>
      r == (vista(t).tablas, Aborto(500))
    ensures TieneAlgunRol(u, roles) && vista(t).Completa? && vista(vista(t).tablas).Completa? ==>
      r == (vista(vista(t).tablas).tablas, vista(vista(t).tablas).respuesta)
  {
    if !TieneAlgunRol(u, roles) then (t, Aborto(403))
    else
      match vista(t)
      case Excepcion => (t, Aborto(500))
      case Completa(t1, _) =>
        match vista(t1)
        case Excepcion => (t1, Aborto(500))
        case Completa(t2, r2) => (t2, r2)
  }

  /** `login_required` outside `role_required_html(*roles)`: an anonymous visitor is
      sent to the login page before any role is looked at. */
  function PaginaProtegida(t: Tablas, sesion: Option<int>, roles: seq<string>, vista: Tablas -> Ejecucion)
    : (r: (Tablas, Respuesta))
    ensures UsuarioActual(sesion, t.usuarios).None? ==> r == (t, Redireccion("auth.login"))
    ensures UsuarioActual(sesion, t.usuarios).Some? ==>
      r == RoleRequiredHtml(t, UsuarioActual(sesion, t.usuarios).value, roles, vista)
  {
    match UsuarioActual(sesion, t.usuarios)
    case None => (t, Redireccion("auth.login"))
    case Some(u) => RoleRequiredHtml(t, u, roles, vista)
  }

  /** A denied request never reaches the view: whatever the view would do, the
      outcome is the same 403 on unchanged tables. */
  lemma RoleRequiredHtmlDenegadoNoEjecuta(t: Tablas, u: Usuario, roles: seq<string>, v1: Tablas -> Ejecucion, v2: Tablas -> Ejecucion)
    requires !TieneAlgunRol(u, roles)
    ensures RoleRequiredHtml(t, u, roles, v1) == RoleRequiredHtml(t, u, roles, v2) == (t, Aborto(403))
  {
  }

  // ---------------------------------------------------------------------------
  // Login

  /** `usuario and usuario.check_password(password)` for the first user with that
      username; `checkPassword` is the password check of the users model. */
  function VerificarCredenciales(us: seq<Usuario>, username: string, password: string, checkPassword: (Clave, string) -> bool)
    : (r: Option<nat>)
    ensures r.Some? <==> BuscarPorUsername(us, username).Some?
                         && checkPassword(us[BuscarPorUsername(us, username).value].clave, password)
    ensures r.Some? ==> r == BuscarPorUsername(us, username)
  {
    match BuscarPorUsername(us, username)
    case None => None
    case Some(k) => if checkPassword(us[k].clave, password) then Some(k) else None
  }

  /** The session the request leaves (the user `login_user` stores, None when the
      session is not touched) and the response. */
  datatype ResultadoLogin = ResultadoLogin(sesion: Option<int>, respuesta: Respuesta)

  /** `login`: GET shows the form; POST checks the credentials, starts a session and
      answers a JSON request with a token, a form with a redirect. */
  function Login(
    us: seq<Usuario>, metodo: Metodo, esJson: bool, username: string, password: string,
    checkPassword: (Clave, string) -> bool, ahora: int, encode: Codificador)
    : (r: ResultadoLogin)
    ensures metodo == GET ==> r == ResultadoLogin(None, Pagina("login.html"))
    ensures metodo == POST && VerificarCredenciales(us, username, password, checkPassword).None? ==>
      r == ResultadoLogin(None, if esJson then Fallo(CredencialesInvalidas) else Redireccion("auth.login"))
    ensures metodo == POST && VerificarCredenciales(us, username, password, checkPassword).Some? ==>
      var u := us[VerificarCredenciales(us, username, password, checkPassword).value];
      && r.sesion == Some(u.id)
      && r.respuesta == (if esJson then Json(200, ConToken(encode(EmitirClaims(u, ahora))))
                         else Redireccion("heladeria.pagina_listar_productos"))
  {
    if metodo == GET then ResultadoLogin(None, Pagina("login.html"))
    else match VerificarCredenciales(us, username, password, checkPassword)
      case Some(k) =>
        ResultadoLogin(Some(us[k].id),
          if esJson then Json(200, ConToken(encode(EmitirClaims(us[k], ahora))))
          else Redireccion("heladeria.pagina_listar_productos"))
      case None =>
        ResultadoLogin(None, if esJson then Fallo(CredencialesInvalidas) else Redireccion("auth.login"))
  }

  /** `api_login`: a JSON object with `username` and `password`. */
  function ApiLogin(
    us: seq<Usuario>, datos: map<string, string>, checkPassword: (Clave, string) -> bool,
    ahora: int, encode: Codificador)
    : (r: Respuesta)
    ensures ("username" !in datos || "password" !in datos) ==> r == Fallo(FaltanCampos)
    ensures "username" in datos && "password" in datos ==>
      match VerificarCredenciales(us, datos["username"], datos["password"], checkPassword)
      case None => r == Fallo(CredencialesInvalidas)
      case Some(k) => r == Json(200, ConToken(encode(EmitirClaims(us[k], ahora))))
  {
    if "username" !in datos || "password" !in datos then Fallo(FaltanCampos)
    else match VerificarCredenciales(us, datos["username"], datos["password"], checkPassword)
      case None => Fallo(CredencialesInvalidas)
      case Some(k) => Json(200, ConToken(encode(EmitirClaims(us[k], ahora))))
  }

  /** A wrong password and an unknown username get the same answer from both login
      routes. */
  lemma FallosDeLoginIndistinguibles(
    us: seq<Usuario>, esJson: bool, conocido: string, desconocido: string, p1: string, p2: string,
    checkPassword: (Clave, string) -> bool, ahora: int, encode: Codificador)
    requires BuscarPorUsername(us, conocido).Some?
    requires !checkPassword(us[BuscarPorUsername(us, conocido).value].clave, p1)
    requires BuscarPorUsername(us, desconocido).None?
    ensures Login(us, POST, esJson, conocido, p1, checkPassword, ahora, encode)
         == Login(us, POST, esJson, desconocido, p2, checkPassword, ahora, encode)
    ensures ApiLogin(us, map["username" := conocido, "password" := p1], checkPassword, ahora, encode)
         == ApiLogin(us, map["username" := desconocido, "password" := p2], checkPassword, ahora, encode)
  {
  }

  /** The JSON form of `login` answers exactly as `api_login` does when both fields
      are present (message texts aside): the same token or the same 401. */
  lemma LoginJsonComoApiLogin(
    us: seq<Usuario>, username: string, password: string,
    checkPassword: (Clave, string) -> bool, ahora: int, encode: Codificador)
    ensures Login(us, POST, true, username, password, checkPassword, ahora, encode).respuesta
         == ApiLogin(us, map["username" := username, "password" := password], checkPassword, ahora, encode)
  {
    var datos := map["username" := username, "password" := password];
    assert datos["username"] == username && datos["password"] == password;
  }

  // ---------------------------------------------------------------------------
  // Registration

  /** The JSON fields `register` reads; an absent role flag is None. */
  datatype DatosRegistro = DatosRegistro(
    username: string,
    password: Option<string>,
    esAdmin: Option<bool>,
    esEmpleado: Option<bool>,
    esCliente: Option<bool>)

  /** Why an insert is refused: the username exists, or there is no password to hash
      (`generate_password_hash(None)` raises). */
  datatype ErrorAlta = Duplicado | SinPassword

  /** The users table after adding a new user: insert if the username is absent. */
  function AltaUsuario(us: seq<Usuario>, d: DatosRegistro): (r: Result<seq<Usuario>, ErrorAlta>)
    ensures r == Err(Duplicado) <==> BuscarPorUsername(us, d.username).Some?
    ensures r == Err(SinPassword) <==> BuscarPorUsername(us, d.username).None? && d.password.None?
    ensures r.Ok? ==> |r.value| == |us| + 1 && r.value[..|us|] == us
    ensures r.Ok? ==> r.value[|us|] == Usuario(SiguienteId(IdsUsuarios(us)), d.username, Pbkdf2(d.password.value),
                                              d.esAdmin == Some(true), d.esEmpleado == Some(true), d.esCliente == Some(true))
    ensures r.Ok? && Crecientes(IdsUsuarios(us)) && SinRepetidos(Usernames(us)) ==>
      Crecientes(IdsUsuarios(r.value)) && SinRepetidos(Usernames(r.value))
  {
    if BuscarPorUsername(us, d.username).Some? then Err(Duplicado)
    else if d.password.None? then Err(SinPassword)
    else
      var nuevo := Usuario(SiguienteId(IdsUsuarios(us)), d.username, Pbkdf2(d.password.value),
                           d.esAdmin.GetOr(false), d.esEmpleado.GetOr(false), d.esCliente.GetOr(false));
      assert IdsUsuarios(us + [nuevo]) == IdsUsuarios(us) + [nuevo.id];
      assert Usernames(us + [nuevo]) == Usernames(us) + [nuevo.username];
      Ok(us + [nuevo])
  }

  /** Roles required by `register`. */
  const ROLES_REGISTER: seq<string> := ["admin"]

  /** `register` behind `token_required` and `role_required_api('admin')`. The commit
      also writes back the caller's role flags that `token_required` assigned. */
  function EfectoRegister(t: Tablas, token: Option<string>, ahora: int, decode: Decodificador, d: DatosRegistro)
    : (Tablas, Respuesta)
  {
    match Autenticar(token, ahora, decode, t.usuarios, ROLES_REGISTER)
    case Err(resp) => (t, resp)
    case Ok(actual) =>
      match AltaUsuario(t.usuarios, d)
      case Err(Duplicado) => (t, Fallo(UsuarioYaExiste))
      case Err(SinPassword) => (t, Aborto(500))
      case Ok(us) => (t.(usuarios := Persistir(us, actual)), Json(201, Hecho))
  }

  /** A duplicate username is refused with 400 and nothing changes. */
  lemma RegisterDuplicadoNoCambia(t: Tablas, token: Option<string>, ahora: int, decode: Decodificador, d: DatosRegistro)
    requires Autenticar(token, ahora, decode, t.usuarios, ROLES_REGISTER).Ok?
    requires BuscarPorUsername(t.usuarios, d.username).Some?
    ensures EfectoRegister(t, token, ahora, decode, d) == (t, Fallo(UsuarioYaExiste))
    ensures Fallo(UsuarioYaExiste).status == 400
  {
  }

  /** A new username adds exactly one user, at the end, with the given flags (False
      when absent), and answers 201; the other rows keep everything but the caller's
      flags, and the other tables are untouched. */
  lemma RegisterAgregaUnUsuario(t: Tablas, token: Option<string>, ahora: int, decode: Decodificador, d: DatosRegistro)
    requires Autenticar(token, ahora, decode, t.usuarios, ROLES_REGISTER).Ok?
    requires BuscarPorUsername(t.usuarios, d.username).None? && d.password.Some?
    ensures var (t2, r) := EfectoRegister(t, token, ahora, decode, d);
      && r == Json(201, Hecho)
      && |t2.usuarios| == |t.usuarios| + 1
      && MismasFilasSalvoRoles(t2.usuarios[..|t.usuarios|], t.usuarios)
      && t2.usuarios[|t.usuarios|] == Usuario(SiguienteId(IdsUsuarios(t.usuarios)), d.username,
           Pbkdf2(d.password.value), d.esAdmin == Some(true), d.esEmpleado == Some(true), d.esCliente == Some(true))
      && t2.ingredientes == t.ingredientes && t2.productos == t.productos
  {
    var actual := Autenticar(token, ahora, decode, t.usuarios, ROLES_REGISTER).value;
    var us := AltaUsuario(t.usuarios, d).value;
    var us2 := Persistir(us, actual);
    assert us[..|t.usuarios|] == t.usuarios;
    assert us2[|t.usuarios|] == us[|t.usuarios|] by {
      // the caller's row is found among the old rows, never at the new one
      assert BuscarUsuario(t.usuarios, actual.id).Some?;
      assert IdsUsuarios(us)[..|t.usuarios|] == IdsUsuarios(t.usuarios);
    }
  }

  lemma RegisterConservaValidez(t: Tablas, token: Option<string>, ahora: int, decode: Decodificador, d: DatosRegistro)
    requires t.Valida()
    ensures EfectoRegister(t, token, ahora, decode, d).0.Valida()
  {
    match Autenticar(token, ahora, decode, t.usuarios, ROLES_REGISTER)
    case Err(_) =>
    case Ok(actual) =>
      match AltaUsuario(t.usuarios, d)
      case Err(_) =>
      case Ok(us) => PersistirConservaValidez(t.(usuarios := us), actual);
  }

  /** The `register` route, on the session's tables. */
  method Register(db: BaseDeDatos, token: Option<string>, ahora: int, decode: Decodificador, d: DatosRegistro)
    returns (r: Respuesta)
    requires db.Valid()
    modifies db
    ensures db.Valid()
    ensures (db.Estado(), r) == EfectoRegister(old(db.Estado()), token, ahora, decode, d)
  {
    RegisterConservaValidez(db.Estado(), token, ahora, decode, d);
    var auth := Autenticar(token, ahora, decode, db.usuarios, ROLES_REGISTER);
    if auth.Err? {
      return auth.error;
    }
    var alta := AltaUsuario(db.usuarios, d);
    if alta.Err? {
      r := if alta.error == Duplicado then Fallo(UsuarioYaExiste) else Aborto(500);
      return;
    }
    // db.session.add(nuevo_usuario); db.session.commit()
    db.usuarios := Persistir(alta.value, auth.value);
    r := Json(201, Hecho);
  }
}
