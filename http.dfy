/** Requests and responses as the handlers see them: JSON values, form fields and the
    response kinds (a JSON body with a status, a rendered page, a redirect, an abort). */
module Http {
  import opened Util
  import opened Modelos

  /** The error responses the handlers produce, one per message they send. */
  datatype Falla =
    | TokenRequerido          // 'Token requerido'
    | TokenExpirado           // 'El token ha expirado'
    | TokenInvalido           // 'Token inválido'
    | UsuarioNoEncontrado     // 'Usuario no encontrado'
    | NoAutorizado            // 'No autorizado'
    | CredencialesInvalidas   // 'Credenciales inválidas'
    | FaltanCampos            // 'Faltan campos en la solicitud'
    | UsuarioYaExiste         // 'El usuario ya existe'
    | AdminYaExiste           // 'El usuario admin ya existe'
    | ProductoNoEncontrado    // 'Producto no encontrado'
    | IngredienteNoEncontrado // 'Ingrediente no encontrado'
    | CantidadInvalida        // 'La nueva cantidad debe ser un número entero positivo'
    | ErrorInterno            // 'Ocurrió un error: ...'

  function StatusDe(f: Falla): int {
    match f
    case TokenRequerido | TokenExpirado | TokenInvalido | CredencialesInvalidas => 401
    case NoAutorizado => 403
    case UsuarioNoEncontrado | ProductoNoEncontrado | IngredienteNoEncontrado => 404
    case FaltanCampos | UsuarioYaExiste | AdminYaExiste | CantidadInvalida => 400
    case ErrorInterno => 500
  }

  /** What a visitor sees of a product: the public fields, plus cost and
      profitability for an administrator. */
  datatype Detalle = Detalle(
    id: int,
    nombre: string,
    precioPublico: real,
    caloriasTotales: real,
    costoProduccion: Option<real>,
    rentabilidad: Option<real>)

  /** The body of a JSON response, with message strings abstracted to their kind. */
  datatype Cuerpo =
    | Error(falla: Falla)
    | Hecho                                   // a {'message': ...} confirmation
    | ConToken(token: string)
    | Numero(valor: real)
    | Salud(idIngrediente: int, nombre: string, esSano: bool)
    | Productos(detalles: seq<Detalle>)
    | Ficha(detalle: Detalle)                 // one product with all six fields
    | Insumo(ingrediente: Ingrediente)        // one ingredient with all its columns
    | Insumos(ingredientes: seq<Ingrediente>)

  datatype Respuesta =
    | Json(status: int, cuerpo: Cuerpo)
    | Pagina(plantilla: string)
    | PaginaDetalle(detalle: Detalle)
    | Redireccion(endpoint: string)
    | Aborto(status: int)                     // abort(code), or an unhandled exception (500)

  function Fallo(f: Falla): Respuesta {
    Json(StatusDe(f), Error(f))
  }

  /** A value of a JSON request body. Numbers with a fractional part are not modelled;
      `Otro` is a list or an object. */
  datatype Valor = Nulo | Booleano(b: bool) | Entero(n: int) | Texto(s: string) | Otro

  /** `data.get(clave, porDefecto)` on a JSON object. */
  function Obtener(cuerpo: map<string, Valor>, clave: string, porDefecto: Valor): Valor {
    if clave in cuerpo then cuerpo[clave] else porDefecto
  }

  /** A submitted form field as `int(request.form.get(k, 0))` sees it: absent, a string
      `int` accepts, or one it rejects with ValueError. */
  datatype CampoFormulario = SinCampo | Numeral(n: int) | NoNumeral

  /** `int(request.form.get(k, 0))`: None when `int` raises. */
  function EnteroDeFormulario(c: CampoFormulario): (r: Option<int>)
    ensures r.None? <==> c.NoNumeral?
    ensures c.SinCampo? ==> r == Some(0)
    ensures c.Numeral? ==> r == Some(c.n)
  {
    match c
    case SinCampo => Some(0)
    case Numeral(n) => Some(n)
    case NoNumeral => None
  }

  datatype Metodo = GET | POST
}
