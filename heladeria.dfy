/** The shop's handlers: the pages (behind the session login and the HTML role
    guard, or public) and the JSON API (behind the token and the API role guard),
    each a role gate, then a lookup by key, then a validation, then an update that
    the session commits. */
module Heladeria {
  import opened Util
  import opened Modelos
  import opened BaseDatos
  import opened Http
  import opened Auth

  // ---------------------------------------------------------------------------
  // Route gates

  /** The API routes, named after their paths under `/heladeria`. */
  datatype Ruta =
    | UsuariosCrearAdmin            // /usuarios/crear_admin
    | ApiProducto                   // /api/productos/<id>
    | ApiProductoPorNombre          // /api/productos/nombre/<nombre>
    | ApiIngredientePorNombre       // /api/ingredientes/nombre/<nombre>
    | ApiProductoReabastecer        // /api/productos/reabastecer/<id>
    | ApiProductoCalorias           // /api/productos/<id>/calorias
    | ApiProductoRentabilidad       // /api/productos/<id>/rentabilidad
    | ApiProductoCostoProduccion    // /api/productos/<id>/costo_produccion
    | ApiProductoVender             // /api/productos/vender/<id>
    | ApiIngredientes               // /api/ingredientes
    | ApiIngrediente                // /api/ingredientes/<id>
    | ApiIngredienteEsSano          // /api/ingredientes/<id>/es_sano
    | ApiIngredienteReabastecer     // /api/ingredientes/reabastecer/<id>
    | ApiProductoRenovar            // /api/productos/renovar/<id>

  /** The role names each route passes to `role_required_api`, in the order written. */
  function RolesRuta(r: Ruta): seq<string> {
    match r
    case UsuariosCrearAdmin => ["admin"]
    case ApiProducto => ["admin", "empleado", "cliente"]
    case ApiProductoPorNombre => ["empleado", "admin"]
    case ApiIngredientePorNombre => ["empleado", "admin"]
    case ApiProductoReabastecer => ["empleado", "admin"]
    case ApiProductoCalorias => ["cliente", "empleado", "admin"]
    case ApiProductoRentabilidad => ["admin"]
    case ApiProductoCostoProduccion => ["admin"]
    case ApiProductoVender => ["cliente", "empleado", "admin"]
    case ApiIngredientes => ["empleado", "admin"]
    case ApiIngrediente => ["empleado", "admin"]
    case ApiIngredienteEsSano => ["cliente", "empleado", "admin"]
    case ApiIngredienteReabastecer => ["empleado", "admin"]
    case ApiProductoRenovar => ["admin"]
  }

  /** Who passes each gate: administrators only; employees and administrators; or any
      of the three roles. */
  lemma AccesoPorRuta(u: Usuario, r: Ruta)
    ensures (r.UsuariosCrearAdmin? || r.ApiProductoRentabilidad? || r.ApiProductoCostoProduccion? || r.ApiProductoRenovar?)
      ==> (TieneAlgunRol(u, RolesRuta(r)) <==> u.esAdmin)
    ensures (r.ApiProductoPorNombre? || r.ApiIngredientePorNombre? || r.ApiProductoReabastecer? ||
             r.ApiIngredientes? || r.ApiIngrediente? || r.ApiIngredienteReabastecer?)
      ==> (TieneAlgunRol(u, RolesRuta(r)) <==> u.esEmpleado || u.esAdmin)
    ensures (r.ApiProducto? || r.ApiProductoCalorias? || r.ApiProductoVender? || r.ApiIngredienteEsSano?)
      ==> (TieneAlgunRol(u, RolesRuta(r)) <==> u.esAdmin || u.esEmpleado || u.esCliente)
  {
    var roles := RolesRuta(r);
    if TieneAlgunRol(u, roles) {
      var i :| 0 <= i < |roles| && AtributoRol(u, roles[i]);
    }
    if |roles| == 1 {
      assert AtributoRol(u, roles[0]) ==> TieneAlgunRol(u, roles);
    } else if |roles| == 2 {
      assert AtributoRol(u, roles[0]) ==> TieneAlgunRol(u, roles);
      assert AtributoRol(u, roles[1]) ==> TieneAlgunRol(u, roles);
    } else {
      assert AtributoRol(u, roles[0]) ==> TieneAlgunRol(u, roles);
      assert AtributoRol(u, roles[1]) ==> TieneAlgunRol(u, roles);
      assert AtributoRol(u, roles[2]) ==> TieneAlgunRol(u, roles);
    }
  }

  /** A token whose claims do not make the caller an administrator is refused with
      403 on the admin-only profitability route, whatever the stored row says. */
  lemma ClienteNoVeRentabilidad(t: Tablas, token: Option<string>, ahora: int, decode: Decodificador, c: Claims)
    requires Decodificar(token, ahora, decode) == Some(Valido(c))
    requires c.userId.Some? && BuscarUsuario(t.usuarios, c.userId.value).Some?
    requires c.esAdmin != Some(true)
    ensures Autenticar(token, ahora, decode, t.usuarios, RolesRuta(ApiProductoRentabilidad)) == Err(Fallo(NoAutorizado))
    ensures Fallo(NoAutorizado).status == 403
  {
    var u := TokenRequired(token, ahora, decode, t.usuarios).value;
    AccesoPorRuta(u, ApiProductoRentabilidad);
  }

  // ---------------------------------------------------------------------------
  // What visitors see of a product

  /** The product as shown to a visitor: the four public fields, plus cost and
      profitability exactly when the visitor is an administrator. */
  function VistaProducto(p: Producto, esAdmin: bool): (d: Detalle)
    ensures d.id == p.id && d.nombre == p.nombre
    ensures d.precioPublico == p.precioPublico && d.caloriasTotales == p.caloriasTotales
    ensures d.costoProduccion.Some? <==> esAdmin
    ensures d.rentabilidad.Some? <==> esAdmin
    ensures esAdmin ==> d.costoProduccion == Some(p.costoProduccion) && d.rentabilidad == Some(p.rentabilidad)
  {
    var basico := Detalle(p.id, p.nombre, p.precioPublico, p.caloriasTotales, None, None);
    if esAdmin then basico.(costoProduccion := Some(p.costoProduccion), rentabilidad := Some(p.rentabilidad))
    else basico
  }

  /** What a non-administrator sees does not depend on cost or profitability: two
      products that agree on the public fields look the same. */
  lemma VistaOcultaCostoYRentabilidad(p1: Producto, p2: Producto)
    requires p1.id == p2.id && p1.nombre == p2.nombre
    requires p1.precioPublico == p2.precioPublico && p1.caloriasTotales == p2.caloriasTotales
    ensures VistaProducto(p1, false) == VistaProducto(p2, false)
  {
  }

  /** `current_user.is_authenticated and current_user.es_admin`, with the session's
      user loaded from the table. */
  function EsAdminEnSesion(sesion: Option<int>, usuarios: seq<Usuario>): (r: bool)
    ensures r <==> UsuarioActual(sesion, usuarios).Some? && UsuarioActual(sesion, usuarios).value.esAdmin
  {
    match UsuarioActual(sesion, usuarios)
    case None => false
    case Some(u) => u.esAdmin
  }

  /** The `pagina_detalle_producto` page: an unknown product sends the visitor back to
      the list, a known one is shown through the visitor's filter. */
  function PaginaDetalleProducto(t: Tablas, sesion: Option<int>, id: int): (r: Respuesta)
    ensures id !in IdsProductos(t.productos) <==> r == Redireccion("heladeria.pagina_listar_productos")
    ensures id in IdsProductos(t.productos) ==> r.PaginaDetalle?
    ensures r.PaginaDetalle? ==>
      && r.detalle.id == id
      && (r.detalle.costoProduccion.Some? <==> EsAdminEnSesion(sesion, t.usuarios))
      && exists k :: 0 <= k < |t.productos| && t.productos[k].id == id &&
           r.detalle == VistaProducto(t.productos[k], EsAdminEnSesion(sesion, t.usuarios))
  {
    match BuscarProducto(t.productos, id)
    case None => Redireccion("heladeria.pagina_listar_productos")
    case Some(k) => PaginaDetalle(VistaProducto(t.productos[k], EsAdminEnSesion(sesion, t.usuarios)))
  }

  /** The public `listar_productos` API: every product, in table order, through the
      filter of the session's user. */
  method ListarProductos(db: BaseDeDatos, sesion: Option<int>) returns (r: Respuesta)
    ensures r.Json? && r.status == 200 && r.cuerpo.Productos?
    ensures |r.cuerpo.detalles| == |db.productos|
    ensures forall k :: 0 <= k < |db.productos| ==>
      r.cuerpo.detalles[k] == VistaProducto(db.productos[k], EsAdminEnSesion(sesion, db.usuarios))
  {
    var admin := EsAdminEnSesion(sesion, db.usuarios);
    var datos: seq<Detalle> := [];
    var i := 0;
    while i < |db.productos|
      invariant 0 <= i <= |db.productos|
      invariant |datos| == i
      invariant forall k :: 0 <= k < i ==> datos[k] == VistaProducto(db.productos[k], admin)
    {
      var producto := db.productos[i];
      var info := Detalle(producto.id, producto.nombre, producto.precioPublico, producto.caloriasTotales, None, None);
      if admin {
        info := info.(costoProduccion := Some(producto.costoProduccion), rentabilidad := Some(producto.rentabilidad));
      }
      datos := datos + [info];
      i := i + 1;
    }
    r := Json(200, Productos(datos));
  }

  // ---------------------------------------------------------------------------
  // Read-only API routes

  /** The gate of `ruta`, then `Producto.query.get(id)`: the row, or the response
      that ends the request. */
  function LeerProducto(t: Tablas, token: Option<string>, ahora: int, decode: Decodificador, ruta: Ruta, id: int)
    : (r: Result<Producto, Respuesta>)
    ensures Autenticar(token, ahora, decode, t.usuarios, RolesRuta(ruta)).Err? ==>
      r == Err(Autenticar(token, ahora, decode, t.usuarios, RolesRuta(ruta)).error)
    ensures Autenticar(token, ahora, decode, t.usuarios, RolesRuta(ruta)).Ok? ==>
      (r.Ok? <==> id in IdsProductos(t.productos)) &&
      (r.Err? ==> r == Err(Fallo(ProductoNoEncontrado)))
    ensures r.Ok? ==> r.value in t.productos && r.value.id == id
  {
    match Autenticar(token, ahora, decode, t.usuarios, RolesRuta(ruta))
    case Err(resp) => Err(resp)
    case Ok(_) =>
      match BuscarProducto(t.productos, id)
      case None => Err(Fallo(ProductoNoEncontrado))
      case Some(k) => Ok(t.productos[k])
  }

  /** The gate of `ruta`, then `Ingrediente.query.get(id)`. */
  function LeerIngrediente(t: Tablas, token: Option<string>, ahora: int, decode: Decodificador, ruta: Ruta, id: int)
    : (r: Result<Ingrediente, Respuesta>)
    ensures Autenticar(token, ahora, decode, t.usuarios, RolesRuta(ruta)).Err? ==>
      r == Err(Autenticar(token, ahora, decode, t.usuarios, RolesRuta(ruta)).error)
    ensures Autenticar(token, ahora, decode, t.usuarios, RolesRuta(ruta)).Ok? ==>
      (r.Ok? <==> id in IdsIngredientes(t.ingredientes)) &&
      (r.Err? ==> r == Err(Fallo(IngredienteNoEncontrado)))
    ensures r.Ok? ==> r.value in t.ingredientes && r.value.id == id
  {
    match Autenticar(token, ahora, decode, t.usuarios, RolesRuta(ruta))
    case Err(resp) => Err(resp)
    case Ok(_) =>
      match BuscarIngrediente(t.ingredientes, id)
      case None => Err(Fallo(IngredienteNoEncontrado))
      case Some(k) => Ok(t.ingredientes[k])
  }

  /** `obtener_producto`: all six fields, whatever the caller's role. */
  function ObtenerProducto(t: Tablas, token: Option<string>, ahora: int, decode: Decodificador, id: int): (r: Respuesta)
    ensures r.Json? && r.status == 200 <==> LeerProducto(t, token, ahora, decode, ApiProducto, id).Ok?
    ensures LeerProducto(t, token, ahora, decode, ApiProducto, id).Err? ==> r == LeerProducto(t, token, ahora, decode, ApiProducto, id).error
    ensures r.Json? && r.status == 200 ==>
      r.cuerpo == Ficha(VistaProducto(LeerProducto(t, token, ahora, decode, ApiProducto, id).value, true))
  {
    match LeerProducto(t, token, ahora, decode, ApiProducto, id)
    case Err(resp) => resp
    case Ok(p) => Json(200, Ficha(VistaProducto(p, true)))
  }

  /** `consultar_calorias`. */
  function ConsultarCalorias(t: Tablas, token: Option<string>, ahora: int, decode: Decodificador, id: int): (r: Respuesta)
    ensures r.Json? && r.status == 200 <==> LeerProducto(t, token, ahora, decode, ApiProductoCalorias, id).Ok?
    ensures LeerProducto(t, token, ahora, decode, ApiProductoCalorias, id).Err? ==> r == LeerProducto(t, token, ahora, decode, ApiProductoCalorias, id).error
    ensures r.Json? && r.status == 200 ==>
      r.cuerpo == Numero(LeerProducto(t, token, ahora, decode, ApiProductoCalorias, id).value.caloriasTotales)
  {
    match LeerProducto(t, token, ahora, decode, ApiProductoCalorias, id)
    case Err(resp) => resp
    case Ok(p) => Json(200, Numero(p.caloriasTotales))
  }

  /** `consultar_rentabilidad`. */
  function ConsultarRentabilidad(t: Tablas, token: Option<string>, ahora: int, decode: Decodificador, id: int): (r: Respuesta)
    ensures r.Json? && r.status == 200 <==> LeerProducto(t, token, ahora, decode, ApiProductoRentabilidad, id).Ok?
    ensures LeerProducto(t, token, ahora, decode, ApiProductoRentabilidad, id).Err? ==> r == LeerProducto(t, token, ahora, decode, ApiProductoRentabilidad, id).error
    ensures r.Json? && r.status == 200 ==>
      r.cuerpo == Numero(LeerProducto(t, token, ahora, decode, ApiProductoRentabilidad, id).value.rentabilidad)
  {
    match LeerProducto(t, token, ahora, decode, ApiProductoRentabilidad, id)
    case Err(resp) => resp
    case Ok(p) => Json(200, Numero(p.rentabilidad))
  }

  /** `consultar_costo_produccion`. */
  function ConsultarCostoProduccion(t: Tablas, token: Option<string>, ahora: int, decode: Decodificador, id: int): (r: Respuesta)
    ensures r.Json? && r.status == 200 <==> LeerProducto(t, token, ahora, decode, ApiProductoCostoProduccion, id).Ok?
    ensures LeerProducto(t, token, ahora, decode, ApiProductoCostoProduccion, id).Err? ==> r == LeerProducto(t, token, ahora, decode, ApiProductoCostoProduccion, id).error
    ensures r.Json? && r.status == 200 ==>
      r.cuerpo == Numero(LeerProducto(t, token, ahora, decode, ApiProductoCostoProduccion, id).value.costoProduccion)
  {
    match LeerProducto(t, token, ahora, decode, ApiProductoCostoProduccion, id)
    case Err(resp) => resp
    case Ok(p) => Json(200, Numero(p.costoProduccion))
  }

  /** `obtener_producto_por_nombre`: the first product, in key order, with that name. */
  function ObtenerProductoPorNombre(t: Tablas, token: Option<string>, ahora: int, decode: Decodificador, nombre: string)
    : (r: Respuesta)
    ensures Autenticar(token, ahora, decode, t.usuarios, RolesRuta(ApiProductoPorNombre)).Err? ==> r == Autenticar(token, ahora, decode, t.usuarios, RolesRuta(ApiProductoPorNombre)).error
    ensures Autenticar(token, ahora, decode, t.usuarios, RolesRuta(ApiProductoPorNombre)).Ok? && nombre in NombresProductos(t.productos) ==> r.Json? && r.status == 200 && r.cuerpo.Ficha?
    ensures Autenticar(token, ahora, decode, t.usuarios, RolesRuta(ApiProductoPorNombre)).Ok? ==>
      (nombre !in NombresProductos(t.productos) <==> r == Fallo(ProductoNoEncontrado))
    ensures r.Json? && r.cuerpo.Ficha? ==>
      exists k :: 0 <= k < |t.productos| && t.productos[k].nombre == nombre &&
        (forall j :: 0 <= j < k ==> t.productos[j].nombre != nombre) &&
        r.cuerpo.detalle == VistaProducto(t.productos[k], true)
  {
    match Autenticar(token, ahora, decode, t.usuarios, RolesRuta(ApiProductoPorNombre))
    case Err(resp) => resp
    case Ok(_) =>
      match PrimerIndice(NombresProductos(t.productos), nombre)
      case None => Fallo(ProductoNoEncontrado)
      case Some(k) => Json(200, Ficha(VistaProducto(t.productos[k], true)))
  }

  /** `obtener_ingrediente_por_nombre`: the first ingredient, in key order, with that name. */
  function ObtenerIngredientePorNombre(t: Tablas, token: Option<string>, ahora: int, decode: Decodificador, nombre: string)
    : (r: Respuesta)
    ensures Autenticar(token, ahora, decode, t.usuarios, RolesRuta(ApiIngredientePorNombre)).Err? ==> r == Autenticar(token, ahora, decode, t.usuarios, RolesRuta(ApiIngredientePorNombre)).error
    ensures Autenticar(token, ahora, decode, t.usuarios, RolesRuta(ApiIngredientePorNombre)).Ok? && nombre in NombresIngredientes(t.ingredientes) ==> r.Json? && r.status == 200 && r.cuerpo.Insumo?
    ensures Autenticar(token, ahora, decode, t.usuarios, RolesRuta(ApiIngredientePorNombre)).Ok? ==>
      (nombre !in NombresIngredientes(t.ingredientes) <==> r == Fallo(IngredienteNoEncontrado))
    ensures r.Json? && r.cuerpo.Insumo? ==>
      exists k :: 0 <= k < |t.ingredientes| && t.ingredientes[k].nombre == nombre &&
        (forall j :: 0 <= j < k ==> t.ingredientes[j].nombre != nombre) &&
        r.cuerpo.ingrediente == t.ingredientes[k]
  {
    match Autenticar(token, ahora, decode, t.usuarios, RolesRuta(ApiIngredientePorNombre))
    case Err(resp) => resp
    case Ok(_) =>
      match PrimerIndice(NombresIngredientes(t.ingredientes), nombre)
      case None => Fallo(IngredienteNoEncontrado)
      case Some(k) => Json(200, Insumo(t.ingredientes[k]))
  }

  /** `listar_ingredientes`: the whole table to employees and administrators. */
  function ListarIngredientes(t: Tablas, token: Option<string>, ahora: int, decode: Decodificador): (r: Respuesta)
    ensures r == Json(200, Insumos(t.ingredientes)) <==>
      Autenticar(token, ahora, decode, t.usuarios, RolesRuta(ApiIngredientes)).Ok?
    ensures Autenticar(token, ahora, decode, t.usuarios, RolesRuta(ApiIngredientes)).Err? ==> r == Autenticar(token, ahora, decode, t.usuarios, RolesRuta(ApiIngredientes)).error
  {
    match Autenticar(token, ahora, decode, t.usuarios, RolesRuta(ApiIngredientes))
    case Err(resp) => resp
    case Ok(_) => Json(200, Insumos(t.ingredientes))
  }

  /** `obtener_ingrediente_por_id`. */
  function ObtenerIngrediente(t: Tablas, token: Option<string>, ahora: int, decode: Decodificador, id: int): (r: Respuesta)
    ensures r.Json? && r.status == 200 <==> LeerIngrediente(t, token, ahora, decode, ApiIngrediente, id).Ok?
    ensures LeerIngrediente(t, token, ahora, decode, ApiIngrediente, id).Err? ==> r == LeerIngrediente(t, token, ahora, decode, ApiIngrediente, id).error
    ensures r.Json? && r.status == 200 ==>
      r.cuerpo == Insumo(LeerIngrediente(t, token, ahora, decode, ApiIngrediente, id).value)
  {
    match LeerIngrediente(t, token, ahora, decode, ApiIngrediente, id)
    case Err(resp) => resp
    case Ok(i) => Json(200, Insumo(i))
  }

  /** The healthiness test of the `es_sano` route: few calories AND vegetarian. */
  predicate SanoSegunApi(i: Ingrediente) {
    i.calorias < 100.0 && i.esVegetariano
  }

  /** `consultar_ingrediente_es_sano`: the ingredient's key and name with the route's
      own test. */
  function ConsultarIngredienteEsSano(t: Tablas, token: Option<string>, ahora: int, decode: Decodificador, id: int)
    : (r: Respuesta)
    ensures r.Json? && r.status == 200 <==> LeerIngrediente(t, token, ahora, decode, ApiIngredienteEsSano, id).Ok?
    ensures LeerIngrediente(t, token, ahora, decode, ApiIngredienteEsSano, id).Err? ==> r == LeerIngrediente(t, token, ahora, decode, ApiIngredienteEsSano, id).error
    ensures r.Json? && r.status == 200 ==>
      var i := LeerIngrediente(t, token, ahora, decode, ApiIngredienteEsSano, id).value;
      r.cuerpo == Salud(i.id, i.nombre, i.calorias < 100.0 && i.esVegetariano)
  {
    match LeerIngrediente(t, token, ahora, decode, ApiIngredienteEsSano, id)
    case Err(resp) => resp
    case Ok(i) => Json(200, Salud(i.id, i.nombre, SanoSegunApi(i)))
  }

  /** The route's test is stricter than the model's `es_sano`: whatever it calls
      healthy is healthy, not the other way round (the seeded chocolate, vegetarian
      with 120 calories, is healthy for the model and not for the route). */
  lemma SanoSegunApiMasEstricto(i: Ingrediente)
    ensures SanoSegunApi(i) ==> i.EsSano()
    ensures SanoSegunApi(i) <==> i.EsSano() && i.calorias < 100.0 && i.esVegetariano
    ensures var chocolate := Ingrediente(1, "Chocolate", 5.0, 120.0, 50, true);
      chocolate.EsSano() && !SanoSegunApi(chocolate)
  {
  }

  // ---------------------------------------------------------------------------
  // API routes that change the tables

  /** `inventario += cantidad` for a JSON value: a number is added, a boolean adds 1
      or 0 (`bool` is an `int` in Python); anything else makes `+=` raise TypeError. */
  function Sumando(v: Valor): (r: Option<int>)
    ensures r.Some? <==> v.Entero? || v.Booleano?
    ensures v.Entero? ==> r == Some(v.n)
    ensures v.Booleano? ==> r == Some(if v.b then 1 else 0)
  {
    match v
    case Entero(n) => Some(n)
    case Booleano(b) => Some(if b then 1 else 0)
    case _ => None
  }

  /** `ingrediente.inventario += cantidad`: the stock grows by `n`, every other column
      stays. */
  function IngredienteReabastecido(i: Ingrediente, n: int): (j: Ingrediente)
    ensures j.inventario == i.inventario + n
    ensures j.(inventario := i.inventario) == i
  {
    i.(inventario := i.inventario + n)
  }

  /** `producto.inventario += cantidad`. */
  function ProductoReabastecido(p: Producto, n: int): (q: Producto)
    ensures q.inventario == p.inventario + n
    ensures q.(inventario := p.inventario) == p
  {
    p.(inventario := p.inventario + n)
  }

  /** `reabastecer_ingrediente` behind its gate. The commit also writes back the
      caller's role flags that `token_required` assigned. */
  function EfectoReabastecerIngrediente(
    t: Tablas, token: Option<string>, ahora: int, decode: Decodificador, id: int, cuerpo: map<string, Valor>)
    : (Tablas, Respuesta)
  {
    match Autenticar(token, ahora, decode, t.usuarios, RolesRuta(ApiIngredienteReabastecer))
    case Err(resp) => (t, resp)
    case Ok(actual) => EfectoAtenderReabastecerIngrediente(t, actual, id, cuerpo)
  }

  /** The handler `reabastecer_ingrediente` runs for the user the gate let through. */
  function EfectoAtenderReabastecerIngrediente(t: Tablas, actual: Usuario, id: int, cuerpo: map<string, Valor>): (Tablas, Respuesta) {
    match BuscarIngrediente(t.ingredientes, id)
    case None => (t, Fallo(IngredienteNoEncontrado))
    case Some(k) =>
      match Sumando(Obtener(cuerpo, "cantidad", Entero(0)))
      case None => (t, Aborto(500))
      case Some(n) =>
        (Tablas(Persistir(t.usuarios, actual),
                t.ingredientes[k := IngredienteReabastecido(t.ingredientes[k], n)], t.productos),
         Json(200, Hecho))
  }

  /** A refused request (the gate, an unknown key, a value `+=` rejects) changes
      nothing; an unknown key is a 404. */
  lemma ReabastecerIngredienteRechazos(
    t: Tablas, token: Option<string>, ahora: int, decode: Decodificador, id: int, cuerpo: map<string, Valor>)
    ensures EfectoReabastecerIngrediente(t, token, ahora, decode, id, cuerpo).1.Json? &&
            EfectoReabastecerIngrediente(t, token, ahora, decode, id, cuerpo).1.status != 200
        ==> EfectoReabastecerIngrediente(t, token, ahora, decode, id, cuerpo).0 == t
    ensures EfectoReabastecerIngrediente(t, token, ahora, decode, id, cuerpo).1 != Json(200, Hecho)
        ==> EfectoReabastecerIngrediente(t, token, ahora, decode, id, cuerpo).0 == t
    ensures Autenticar(token, ahora, decode, t.usuarios, RolesRuta(ApiIngredienteReabastecer)).Ok? &&
            id !in IdsIngredientes(t.ingredientes)
        ==> (EfectoReabastecerIngrediente(t, token, ahora, decode, id, cuerpo) == (t, Fallo(IngredienteNoEncontrado))
             && Fallo(IngredienteNoEncontrado).status == 404)
    ensures Autenticar(token, ahora, decode, t.usuarios, RolesRuta(ApiIngredienteReabastecer)).Ok? &&
            id in IdsIngredientes(t.ingredientes) && Sumando(Obtener(cuerpo, "cantidad", Entero(0))).None?
        ==> EfectoReabastecerIngrediente(t, token, ahora, decode, id, cuerpo) == (t, Aborto(500))
  {
  }

  /** An accepted restock adds `cantidad` (0 when absent) to that ingredient alone. */
  lemma ReabastecerIngredienteSuma(
    t: Tablas, token: Option<string>, ahora: int, decode: Decodificador, id: int, cuerpo: map<string, Valor>, n: int)
    requires Autenticar(token, ahora, decode, t.usuarios, RolesRuta(ApiIngredienteReabastecer)).Ok?
    requires id in IdsIngredientes(t.ingredientes)
    requires Sumando(Obtener(cuerpo, "cantidad", Entero(0))) == Some(n)
    ensures var (t2, r) := EfectoReabastecerIngrediente(t, token, ahora, decode, id, cuerpo);
      && r == Json(200, Hecho)
      && |t2.ingredientes| == |t.ingredientes|
      && (forall k :: 0 <= k < |t.ingredientes| ==>
            t2.ingredientes[k] == if t.ingredientes[k].id == id && (forall j :: 0 <= j < k ==> t.ingredientes[j].id != id)
                                  then t.ingredientes[k].(inventario := t.ingredientes[k].inventario + n)
                                  else t.ingredientes[k])
      && t2.productos == t.productos
      && MismasFilasSalvoRoles(t2.usuarios, t.usuarios)
    ensures "cantidad" !in cuerpo ==> EfectoReabastecerIngrediente(t, token, ahora, decode, id, cuerpo).0.ingredientes == t.ingredientes
  {
    var k := BuscarIngrediente(t.ingredientes, id).value;
    var t2 := EfectoReabastecerIngrediente(t, token, ahora, decode, id, cuerpo).0;
    forall j | 0 <= j < |t.ingredientes|
      ensures t2.ingredientes[j] == if t.ingredientes[j].id == id && (forall i :: 0 <= i < j ==> t.ingredientes[i].id != id)
                                   then t.ingredientes[j].(inventario := t.ingredientes[j].inventario + n)
                                   else t.ingredientes[j]
    {
      if j < k {
        assert IdsIngredientes(t.ingredientes)[j] != id;
      } else if j > k {
        assert t.ingredientes[k].id == id;
      }
    }
    if "cantidad" !in cuerpo {
      assert n == 0;
      assert t2.ingredientes[k] == t.ingredientes[k];
      assert t2.ingredientes == t.ingredientes;
    }
  }

  /** The inline test's figures: an ingredient with 10 units, restocked by 20, has 30. */
  lemma ReabastecerDiezMasVeinte(t: Tablas, token: Option<string>, ahora: int, decode: Decodificador)
    requires t.ingredientes == [Ingrediente(1, "Leche", 3.0, 150.0, 10, false)]
    requires Autenticar(token, ahora, decode, t.usuarios, RolesRuta(ApiIngredienteReabastecer)).Ok?
    ensures EfectoReabastecerIngrediente(t, token, ahora, decode, 1, map["cantidad" := Entero(20)]).0.ingredientes[0].inventario == 30
  {
    assert IdsIngredientes(t.ingredientes) == [1];
  }

  method ReabastecerIngrediente(
    db: BaseDeDatos, token: Option<string>, ahora: int, decode: Decodificador, id: int, cuerpo: map<string, Valor>)
    returns (r: Respuesta)
    requires db.Valid()
    modifies db
    ensures db.Valid()
    ensures (db.Estado(), r) == EfectoReabastecerIngrediente(old(db.Estado()), token, ahora, decode, id, cuerpo)
  {
    var auth := Autenticar(token, ahora, decode, db.usuarios, RolesRuta(ApiIngredienteReabastecer));
    if auth.Err? {
      return auth.error;
    }
    r := AtenderReabastecerIngrediente(db, auth.value, id, cuerpo);
  }

  /** The handler body on the session's tables, once the gate has let `actual` in. */
  method AtenderReabastecerIngrediente(db: BaseDeDatos, actual: Usuario, id: int, cuerpo: map<string, Valor>) returns (r: Respuesta)
    requires db.Valid()
    modifies db
    ensures db.Valid()
    ensures (db.Estado(), r) == EfectoAtenderReabastecerIngrediente(old(db.Estado()), actual, id, cuerpo)
  {
    var t := db.Estado();
    var k := BuscarIngrediente(t.ingredientes, id);
    if k.None? {
      return Fallo(IngredienteNoEncontrado);
    }
    var n := Sumando(Obtener(cuerpo, "cantidad", Entero(0)));
    if n.None? {
      return Aborto(500);
    }
    var nuevo := IngredienteReabastecido(t.ingredientes[k.value], n.value);
    ActualizarIngredienteConservaValidez(t, k.value, nuevo);
    PersistirConservaValidez(t.(ingredientes := t.ingredientes[k.value := nuevo]), actual);
    db.Confirmar(Tablas(Persistir(t.usuarios, actual), t.ingredientes[k.value := nuevo], t.productos));
    r := Json(200, Hecho);
  }

  /** `reabastecer_producto` behind its gate. */
  function EfectoReabastecerProducto(
    t: Tablas, token: Option<string>, ahora: int, decode: Decodificador, id: int, cuerpo: map<string, Valor>)
    : (Tablas, Respuesta)
  {
    match Autenticar(token, ahora, decode, t.usuarios, RolesRuta(ApiProductoReabastecer))
    case Err(resp) => (t, resp)
    case Ok(actual) => EfectoAtenderReabastecerProducto(t, actual, id, cuerpo)
  }

  /** The handler `reabastecer_producto` runs for the user the gate let through. */
  function EfectoAtenderReabastecerProducto(t: Tablas, actual: Usuario, id: int, cuerpo: map<string, Valor>): (Tablas, Respuesta) {
    match BuscarProducto(t.productos, id)
    case None => (t, Fallo(ProductoNoEncontrado))
    case Some(k) =>
      match Sumando(Obtener(cuerpo, "cantidad", Entero(0)))
      case None => (t, Aborto(500))
      case Some(n) =>
        (Tablas(Persistir(t.usuarios, actual), t.ingredientes,
                t.productos[k := ProductoReabastecido(t.productos[k], n)]),
         Json(200, Hecho))
  }

  /** A product restock adds `cantidad` to that product's stock and changes no other
      record (beyond the caller's flags); an unknown key is a 404 that changes nothing. */
  lemma ReabastecerProductoSuma(
    t: Tablas, token: Option<string>, ahora: int, decode: Decodificador, id: int, cuerpo: map<string, Valor>)
    requires Autenticar(token, ahora, decode, t.usuarios, RolesRuta(ApiProductoReabastecer)).Ok?
    ensures id !in IdsProductos(t.productos) ==>
      EfectoReabastecerProducto(t, token, ahora, decode, id, cuerpo) == (t, Fallo(ProductoNoEncontrado))
    ensures id in IdsProductos(t.productos) && Sumando(Obtener(cuerpo, "cantidad", Entero(0))).Some? ==>
      var k := BuscarProducto(t.productos, id).value;
      var n := Sumando(Obtener(cuerpo, "cantidad", Entero(0))).value;
      var (t2, r) := EfectoReabastecerProducto(t, token, ahora, decode, id, cuerpo);
      && r == Json(200, Hecho)
      && t.productos[k].id == id
      && t2.productos == t.productos[k := t.productos[k].(inventario := t.productos[k].inventario + n)]
      && t2.ingredientes == t.ingredientes
      && MismasFilasSalvoRoles(t2.usuarios, t.usuarios)
  {
  }

  method ReabastecerProducto(
    db: BaseDeDatos, token: Option<string>, ahora: int, decode: Decodificador, id: int, cuerpo: map<string, Valor>)
    returns (r: Respuesta)
    requires db.Valid()
    modifies db
    ensures db.Valid()
    ensures (db.Estado(), r) == EfectoReabastecerProducto(old(db.Estado()), token, ahora, decode, id, cuerpo)
  {
    var auth := Autenticar(token, ahora, decode, db.usuarios, RolesRuta(ApiProductoReabastecer));
    if auth.Err? {
      return auth.error;
    }
    r := AtenderReabastecerProducto(db, auth.value, id, cuerpo);
  }

  /** The handler body on the session's tables, once the gate has let `actual` in. */
  method AtenderReabastecerProducto(db: BaseDeDatos, actual: Usuario, id: int, cuerpo: map<string, Valor>) returns (r: Respuesta)
    requires db.Valid()
    modifies db
    ensures db.Valid()
    ensures (db.Estado(), r) == EfectoAtenderReabastecerProducto(old(db.Estado()), actual, id, cuerpo)
  {
    var t := db.Estado();
    var k := BuscarProducto(t.productos, id);
    if k.None? {
      return Fallo(ProductoNoEncontrado);
    }
    var n := Sumando(Obtener(cuerpo, "cantidad", Entero(0)));
    if n.None? {
      return Aborto(500);
    }
    var nuevo := ProductoReabastecido(t.productos[k.value], n.value);
    ActualizarProductoConservaValidez(t, k.value, nuevo);
    PersistirConservaValidez(t.(productos := t.productos[k.value := nuevo]), actual);
    db.Confirmar(Tablas(Persistir(t.usuarios, actual), t.ingredientes, t.productos[k.value := nuevo]));
    r := Json(200, Hecho);
  }

  /** The check on `nueva_cantidad`: present, an `int` (booleans are) and not
      negative. */
  function NuevaCantidad(v: Valor): (r: Option<int>)
    ensures r.Some? ==> 0 <= r.value
    ensures r.None? <==> v.Nulo? || v.Texto? || v.Otro? || (v.Entero? && v.n < 0)
    ensures v.Entero? && 0 <= v.n ==> r == Some(v.n)
    ensures v.Booleano? ==> r == Some(if v.b then 1 else 0)
  {
    match v
    case Entero(n) => if n < 0 then None else Some(n)
    case Booleano(b) => Some(if b then 1 else 0)
    case _ => None
  }

  /** `renovar_inventario_producto` behind its gate: the key is looked up before the
      body is read. */
  function EfectoRenovarInventarioProducto(
    t: Tablas, token: Option<string>, ahora: int, decode: Decodificador, id: int, cuerpo: map<string, Valor>)
    : (Tablas, Respuesta)
  {
    match Autenticar(token, ahora, decode, t.usuarios, RolesRuta(ApiProductoRenovar))
    case Err(resp) => (t, resp)
    case Ok(actual) => EfectoAtenderRenovarInventarioProducto(t, actual, id, cuerpo)
  }

  /** The handler `renovar_inventario_producto` runs for the user the gate let through. */
  function EfectoAtenderRenovarInventarioProducto(t: Tablas, actual: Usuario, id: int, cuerpo: map<string, Valor>): (Tablas, Respuesta) {
    match BuscarProducto(t.productos, id)
    case None => (t, Fallo(ProductoNoEncontrado))
    case Some(k) =>
      match NuevaCantidad(Obtener(cuerpo, "nueva_cantidad", Nulo))
      case None => (t, Fallo(CantidadInvalida))
      case Some(n) =>
        (Tablas(Persistir(t.usuarios, actual), t.ingredientes, t.productos[k := t.productos[k].(inventario := n)]),
         Json(200, Hecho))
  }

  /** The order of the checks: an unknown key is a 404 whatever the body holds; then a
      missing, non-integer or negative quantity is a 400; both change nothing.
      Otherwise the stock is set to exactly that quantity. */
  lemma RenovarOrdenDeControles(
    t: Tablas, token: Option<string>, ahora: int, decode: Decodificador, id: int, cuerpo: map<string, Valor>)
    requires Autenticar(token, ahora, decode, t.usuarios, RolesRuta(ApiProductoRenovar)).Ok?
    ensures id !in IdsProductos(t.productos) ==>
      EfectoRenovarInventarioProducto(t, token, ahora, decode, id, cuerpo) == (t, Fallo(ProductoNoEncontrado))
    ensures id in IdsProductos(t.productos) && ("nueva_cantidad" !in cuerpo || NuevaCantidad(cuerpo["nueva_cantidad"]).None?) ==>
      EfectoRenovarInventarioProducto(t, token, ahora, decode, id, cuerpo) == (t, Fallo(CantidadInvalida))
      && Fallo(CantidadInvalida).status == 400
    ensures id in IdsProductos(t.productos) && "nueva_cantidad" in cuerpo && NuevaCantidad(cuerpo["nueva_cantidad"]).Some? ==>
      var k := BuscarProducto(t.productos, id).value;
      var (t2, r) := EfectoRenovarInventarioProducto(t, token, ahora, decode, id, cuerpo);
      && r == Json(200, Hecho)
      && t2.productos == t.productos[k := t.productos[k].(inventario := NuevaCantidad(cuerpo["nueva_cantidad"]).value)]
      && t2.productos[k].inventario >= 0
      && t2.ingredientes == t.ingredientes
      && MismasFilasSalvoRoles(t2.usuarios, t.usuarios)
  {
  }

  method RenovarInventarioProducto(
    db: BaseDeDatos, token: Option<string>, ahora: int, decode: Decodificador, id: int, cuerpo: map<string, Valor>)
    returns (r: Respuesta)
    requires db.Valid()
    modifies db
    ensures db.Valid()
    ensures (db.Estado(), r) == EfectoRenovarInventarioProducto(old(db.Estado()), token, ahora, decode, id, cuerpo)
  {
    var auth := Autenticar(token, ahora, decode, db.usuarios, RolesRuta(ApiProductoRenovar));
    if auth.Err? {
      return auth.error;
    }
    r := AtenderRenovarInventarioProducto(db, auth.value, id, cuerpo);
  }

  /** The handler body on the session's tables, once the gate has let `actual` in. */
  method AtenderRenovarInventarioProducto(db: BaseDeDatos, actual: Usuario, id: int, cuerpo: map<string, Valor>) returns (r: Respuesta)
    requires db.Valid()
    modifies db
    ensures db.Valid()
    ensures (db.Estado(), r) == EfectoAtenderRenovarInventarioProducto(old(db.Estado()), actual, id, cuerpo)
  {
    var t := db.Estado();
    var k := BuscarProducto(t.productos, id);
    if k.None? {
      return Fallo(ProductoNoEncontrado);
    }
    var nuevaCantidad := NuevaCantidad(Obtener(cuerpo, "nueva_cantidad", Nulo));
    if nuevaCantidad.None? {
      return Fallo(CantidadInvalida);
    }
    var nuevo := t.productos[k.value].(inventario := nuevaCantidad.value);
    ActualizarProductoConservaValidez(t, k.value, nuevo);
    PersistirConservaValidez(t.(productos := t.productos[k.value := nuevo]), actual);
    db.Confirmar(Tablas(Persistir(t.usuarios, actual), t.ingredientes, t.productos[k.value := nuevo]));
    r := Json(200, Hecho);
  }

  /** A sale: the profitability grows by the public price. */
  function Vendido(p: Producto): (q: Producto)
    ensures q.rentabilidad == p.rentabilidad + p.precioPublico
    ensures q.(rentabilidad := p.rentabilidad) == p
  {
    p.(rentabilidad := p.rentabilidad + p.precioPublico)
  }

  /** `vender_producto` behind its gate. */
  function EfectoVenderProducto(t: Tablas, token: Option<string>, ahora: int, decode: Decodificador, id: int)
    : (Tablas, Respuesta)
  {
    match Autenticar(token, ahora, decode, t.usuarios, RolesRuta(ApiProductoVender))
    case Err(resp) => (t, resp)
    case Ok(actual) => EfectoAtenderVenderProducto(t, actual, id)
  }

  /** The handler `vender_producto` runs for the user the gate let through. */
  function EfectoAtenderVenderProducto(t: Tablas, actual: Usuario, id: int): (Tablas, Respuesta) {
    match BuscarProducto(t.productos, id)
    case None => (t, Fallo(ProductoNoEncontrado))
    case Some(k) =>
      (Tablas(Persistir(t.usuarios, actual), t.ingredientes, t.productos[k := Vendido(t.productos[k])]), Json(200, Hecho))
  }

  /** A sale adds exactly the public price to that product's profitability, leaves its
      stock and its other fields as they were, and touches no other product. */
  lemma VenderSumaPrecio(t: Tablas, token: Option<string>, ahora: int, decode: Decodificador, id: int)
    requires Autenticar(token, ahora, decode, t.usuarios, RolesRuta(ApiProductoVender)).Ok?
    ensures id !in IdsProductos(t.productos) ==>
      EfectoVenderProducto(t, token, ahora, decode, id) == (t, Fallo(ProductoNoEncontrado))
    ensures id in IdsProductos(t.productos) ==>
      var k := BuscarProducto(t.productos, id).value;
      var (t2, r) := EfectoVenderProducto(t, token, ahora, decode, id);
      && r == Json(200, Hecho)
      && |t2.productos| == |t.productos|
      && t2.productos[k].rentabilidad == t.productos[k].rentabilidad + t.productos[k].precioPublico
      && t2.productos[k].inventario == t.productos[k].inventario
      && t2.productos[k].(rentabilidad := t.productos[k].rentabilidad) == t.productos[k]
      && (forall j :: 0 <= j < |t.productos| && j != k ==> t2.productos[j] == t.productos[j])
      && t2.ingredientes == t.ingredientes
      && MismasFilasSalvoRoles(t2.usuarios, t.usuarios)
  {
  }

  method VenderProducto(db: BaseDeDatos, token: Option<string>, ahora: int, decode: Decodificador, id: int)
    returns (r: Respuesta)
    requires db.Valid()
    modifies db
    ensures db.Valid()
    ensures (db.Estado(), r) == EfectoVenderProducto(old(db.Estado()), token, ahora, decode, id)
  {
    var auth := Autenticar(token, ahora, decode, db.usuarios, RolesRuta(ApiProductoVender));
    if auth.Err? {
      return auth.error;
    }
    r := AtenderVenderProducto(db, auth.value, id);
  }

  /** The handler body on the session's tables, once the gate has let `actual` in. */
  method AtenderVenderProducto(db: BaseDeDatos, actual: Usuario, id: int) returns (r: Respuesta)
    requires db.Valid()
    modifies db
    ensures db.Valid()
    ensures (db.Estado(), r) == EfectoAtenderVenderProducto(old(db.Estado()), actual, id)
  {
    var t := db.Estado();
    var k := BuscarProducto(t.productos, id);
    if k.None? {
      return Fallo(ProductoNoEncontrado);
    }
    var vendido := Vendido(t.productos[k.value]);
    ActualizarProductoConservaValidez(t, k.value, vendido);
    PersistirConservaValidez(t.(productos := t.productos[k.value := vendido]), actual);
    db.Confirmar(Tablas(Persistir(t.usuarios, actual), t.ingredientes, t.productos[k.value := vendido]));
    r := Json(200, Hecho);
  }

  /** The administrator `crear_admin` inserts: username "admin", administrator only,
      with the unhashed password. */
  function AdminNuevo(us: seq<Usuario>): (u: Usuario)
    ensures u.username == "admin" && u.esAdmin && !u.esEmpleado && !u.esCliente && u.clave == EnClaro
    ensures Crecientes(IdsUsuarios(us)) ==> forall k :: 0 <= k < |us| ==> us[k].id < u.id
  {
    Usuario(SiguienteId(IdsUsuarios(us)), "admin", EnClaro, true, false, false)
  }

  /** `crear_admin` behind its gate: insert the administrator if the username "admin"
      is free. */
  function EfectoCrearAdmin(t: Tablas, token: Option<string>, ahora: int, decode: Decodificador): (Tablas, Respuesta)
  {
    match Autenticar(token, ahora, decode, t.usuarios, RolesRuta(UsuariosCrearAdmin))
    case Err(resp) => (t, resp)
    case Ok(actual) =>
      if BuscarPorUsername(t.usuarios, "admin").Some? then (t, Fallo(AdminYaExiste))
      else (t.(usuarios := Persistir(t.usuarios + [AdminNuevo(t.usuarios)], actual)), Json(200, Hecho))
  }

  /** With "admin" taken the request is a 400 that changes nothing; otherwise exactly
      one row is appended, the administrator. */
  lemma CrearAdminInsertaSiAusente(t: Tablas, token: Option<string>, ahora: int, decode: Decodificador)
    requires Autenticar(token, ahora, decode, t.usuarios, RolesRuta(UsuariosCrearAdmin)).Ok?
    ensures "admin" in Usernames(t.usuarios) ==>
      EfectoCrearAdmin(t, token, ahora, decode) == (t, Fallo(AdminYaExiste)) && Fallo(AdminYaExiste).status == 400
    ensures "admin" !in Usernames(t.usuarios) ==>
      var (t2, r) := EfectoCrearAdmin(t, token, ahora, decode);
      && r == Json(200, Hecho)
      && |t2.usuarios| == |t.usuarios| + 1
      && MismasFilasSalvoRoles(t2.usuarios[..|t.usuarios|], t.usuarios)
      && t2.usuarios[|t.usuarios|] == AdminNuevo(t.usuarios)
      && t2.ingredientes == t.ingredientes && t2.productos == t.productos
  {
    if "admin" !in Usernames(t.usuarios) {
      var actual := Autenticar(token, ahora, decode, t.usuarios, RolesRuta(UsuariosCrearAdmin)).value;
      var nuevo := AdminNuevo(t.usuarios);
      var us := t.usuarios + [nuevo];
      assert us[..|t.usuarios|] == t.usuarios;
      assert Persistir(us, actual)[|t.usuarios|] == nuevo by {
        assert BuscarUsuario(t.usuarios, actual.id).Some?;
        assert IdsUsuarios(us) == IdsUsuarios(t.usuarios) + [nuevo.id];
        assert IdsUsuarios(us)[..|t.usuarios|] == IdsUsuarios(t.usuarios);
      }
    }
  }

  /** Creating the administrator keeps the invariant, whatever the gate decides. */
  lemma CrearAdminConservaValidez(t: Tablas, token: Option<string>, ahora: int, decode: Decodificador)
    requires t.Valida()
    ensures EfectoCrearAdmin(t, token, ahora, decode).0.Valida()
  {
    var auth := Autenticar(token, ahora, decode, t.usuarios, RolesRuta(UsuariosCrearAdmin));
    if auth.Ok? && "admin" !in Usernames(t.usuarios) {
      var nuevo := AdminNuevo(t.usuarios);
      var us := t.usuarios + [nuevo];
      assert IdsUsuarios(us) == IdsUsuarios(t.usuarios) + [nuevo.id];
      assert Usernames(us) == Usernames(t.usuarios) + [nuevo.username];
      PersistirConservaValidez(t.(usuarios := us), auth.value);
    }
  }

  method CrearAdmin(db: BaseDeDatos, token: Option<string>, ahora: int, decode: Decodificador) returns (r: Respuesta)
    requires db.Valid()
    modifies db
    ensures db.Valid()
    ensures (db.Estado(), r) == EfectoCrearAdmin(old(db.Estado()), token, ahora, decode)
  {
    var t := db.Estado();
    var auth := Autenticar(token, ahora, decode, t.usuarios, RolesRuta(UsuariosCrearAdmin));
    if auth.Err? {
      return auth.error;
    }
    CrearAdminConservaValidez(t, token, ahora, decode);
    if BuscarPorUsername(t.usuarios, "admin").Some? {
      return Fallo(AdminYaExiste);
    }
    db.Confirmar(t.(usuarios := Persistir(t.usuarios + [AdminNuevo(t.usuarios)], auth.value)));
    r := Json(200, Hecho);
  }

  // ---------------------------------------------------------------------------
  // Pages

  const ROLES_PAGINA_INGREDIENTES: seq<string> := ["empleado", "admin"]
  const ROLES_PAGINA_ADMIN: seq<string> := ["admin"]

  function EfectoVistaListarIngredientes(t: Tablas): Ejecucion {
    Completa(t, Pagina("ingredientes.html"))
  }

  /** `pagina_listar_ingredientes`: the list is rendered exactly for a logged-in
      employee or administrator. */
  function PaginaListarIngredientes(t: Tablas, sesion: Option<int>): (r: Respuesta)
    ensures r == Pagina("ingredientes.html") <==>
      UsuarioActual(sesion, t.usuarios).Some? &&
      (UsuarioActual(sesion, t.usuarios).value.esEmpleado || UsuarioActual(sesion, t.usuarios).value.esAdmin)
    ensures UsuarioActual(sesion, t.usuarios).Some? && r != Pagina("ingredientes.html") ==> r == Aborto(403)
    ensures UsuarioActual(sesion, t.usuarios).None? ==> r == Redireccion("auth.login")
  {
    match UsuarioActual(sesion, t.usuarios)
    case None => Redireccion("auth.login")
    case Some(u) =>
      assert AtributoRol(u, ROLES_PAGINA_INGREDIENTES[0]) ==> TieneAlgunRol(u, ROLES_PAGINA_INGREDIENTES);
      assert AtributoRol(u, ROLES_PAGINA_INGREDIENTES[1]) ==> TieneAlgunRol(u, ROLES_PAGINA_INGREDIENTES);
      PaginaProtegida(t, sesion, ROLES_PAGINA_INGREDIENTES, EfectoVistaListarIngredientes).1
  }

  /** The `pagina_reabastecer_ingrediente` view as one run of it: an unknown key goes
      back to the list; a POST adds `int(cantidad)` and commits, or raises when the
      field is not an integer; a GET renders the form. */
  function EfectoVistaReabastecerIngrediente(t: Tablas, id: int, metodo: Metodo, cantidad: CampoFormulario): Ejecucion {
    match BuscarIngrediente(t.ingredientes, id)
    case None => Completa(t, Redireccion("heladeria.pagina_listar_ingredientes"))
    case Some(k) =>
      if metodo == GET then Completa(t, Pagina("reabastecer_ingrediente.html"))
      else
        match EnteroDeFormulario(cantidad)
        case None => Excepcion
        case Some(n) =>
          Completa(t.(ingredientes := t.ingredientes[k := IngredienteReabastecido(t.ingredientes[k], n)]),
                   Redireccion("heladeria.pagina_listar_ingredientes"))
  }

  method VistaReabastecerIngrediente(db: BaseDeDatos, id: int, metodo: Metodo, cantidad: CampoFormulario)
    returns (r: Option<Respuesta>)
    requires db.Valid()
    modifies db
    ensures db.Valid()
    ensures r.None? ==> db.Estado() == old(db.Estado())
    ensures EfectoVistaReabastecerIngrediente(old(db.Estado()), id, metodo, cantidad) ==
      if r.Some? then Completa(db.Estado(), r.value) else Excepcion
  {
    var t := db.Estado();
    var k := BuscarIngrediente(t.ingredientes, id);
    if k.None? {
      return Some(Redireccion("heladeria.pagina_listar_ingredientes"));
    }
    if metodo == POST {
      var n := EnteroDeFormulario(cantidad);
      if n.None? {
        return None;
      }
      var nuevo := IngredienteReabastecido(t.ingredientes[k.value], n.value);
      ActualizarIngredienteConservaValidez(t, k.value, nuevo);
      db.Confirmar(t.(ingredientes := t.ingredientes[k.value := nuevo]));
      return Some(Redireccion("heladeria.pagina_listar_ingredientes"));
    }
    r := Some(Pagina("reabastecer_ingrediente.html"));
  }

  /** The page behind `login_required` and `role_required_html('admin')`. */
  function EfectoPaginaReabastecerIngrediente(t: Tablas, sesion: Option<int>, id: int, metodo: Metodo, cantidad: CampoFormulario)
    : (Tablas, Respuesta)
  {
    PaginaProtegida(t, sesion, ROLES_PAGINA_ADMIN, x => EfectoVistaReabastecerIngrediente(x, id, metodo, cantidad))
  }

  /** Because the guard runs the view twice, an authorised POST adds the quantity to
      the ingredient twice, where one run of the view adds it once. */
  lemma PaginaReabastecerSumaDosVeces(t: Tablas, sesion: Option<int>, id: int, cantidad: CampoFormulario, n: int)
    requires UsuarioActual(sesion, t.usuarios).Some? && UsuarioActual(sesion, t.usuarios).value.esAdmin
    requires id in IdsIngredientes(t.ingredientes)
    requires EnteroDeFormulario(cantidad) == Some(n)
    ensures var k := BuscarIngrediente(t.ingredientes, id).value;
      var (t2, r) := EfectoPaginaReabastecerIngrediente(t, sesion, id, POST, cantidad);
      && r == Redireccion("heladeria.pagina_listar_ingredientes")
      && t2.ingredientes == t.ingredientes[k := t.ingredientes[k].(inventario := t.ingredientes[k].inventario + 2 * n)]
      && t2.usuarios == t.usuarios && t2.productos == t.productos
    ensures n != 0 ==>
      EfectoPaginaReabastecerIngrediente(t, sesion, id, POST, cantidad).0 !=
      EfectoVistaReabastecerIngrediente(t, id, POST, cantidad).tablas
  {
    var k := BuscarIngrediente(t.ingredientes, id).value;
    var u := UsuarioActual(sesion, t.usuarios).value;
    assert AtributoRol(u, ROLES_PAGINA_ADMIN[0]);
    var t1 := EfectoVistaReabastecerIngrediente(t, id, POST, cantidad).tablas;
    assert t1.ingredientes == t.ingredientes[k := IngredienteReabastecido(t.ingredientes[k], n)];
    assert IdsIngredientes(t1.ingredientes) == IdsIngredientes(t.ingredientes);
    assert BuscarIngrediente(t1.ingredientes, id) == Some(k);
  }

  method PaginaReabastecerIngrediente(db: BaseDeDatos, sesion: Option<int>, id: int, metodo: Metodo, cantidad: CampoFormulario)
    returns (r: Respuesta)
    requires db.Valid()
    modifies db
    ensures db.Valid()
    ensures (db.Estado(), r) == EfectoPaginaReabastecerIngrediente(old(db.Estado()), sesion, id, metodo, cantidad)
  {
    var u := UsuarioActual(sesion, db.usuarios);
    if u.None? {
      return Redireccion("auth.login");
    }
    if !TieneAlgunRol(u.value, ROLES_PAGINA_ADMIN) {
      return Aborto(403);
    }
    // check_roles runs the view and drops its response ...
    var primera := VistaReabastecerIngrediente(db, id, metodo, cantidad);
    if primera.None? {
      return Aborto(500);
    }
    // ... and the guard runs it again
    var segunda := VistaReabastecerIngrediente(db, id, metodo, cantidad);
    if segunda.None? {
      return Aborto(500);
    }
    r := segunda.value;
  }

  /** One run of the `pagina_renovar_inventario_producto` view: a POST sets the stock
      to `int(nueva_cantidad)`. */
  function EfectoVistaRenovarInventarioProducto(t: Tablas, id: int, metodo: Metodo, nuevaCantidad: CampoFormulario)
    : Ejecucion
  {
    match BuscarProducto(t.productos, id)
    case None => Completa(t, Redireccion("heladeria.pagina_listar_productos"))
    case Some(k) =>
      if metodo == GET then Completa(t, Pagina("renovar_inventario.html"))
      else
        match EnteroDeFormulario(nuevaCantidad)
        case None => Excepcion
        case Some(n) =>
          Completa(t.(productos := t.productos[k := t.productos[k].(inventario := n)]),
                   Redireccion("heladeria.pagina_listar_productos"))
  }

  method VistaRenovarInventarioProducto(db: BaseDeDatos, id: int, metodo: Metodo, nuevaCantidad: CampoFormulario)
    returns (r: Option<Respuesta>)
    requires db.Valid()
    modifies db
    ensures db.Valid()
    ensures r.None? ==> db.Estado() == old(db.Estado())
    ensures EfectoVistaRenovarInventarioProducto(old(db.Estado()), id, metodo, nuevaCantidad) ==
      if r.Some? then Completa(db.Estado(), r.value) else Excepcion
  {
    var t := db.Estado();
    var k := BuscarProducto(t.productos, id);
    if k.None? {
      return Some(Redireccion("heladeria.pagina_listar_productos"));
    }
    if metodo == POST {
      var n := EnteroDeFormulario(nuevaCantidad);
      if n.None? {
        return None;
      }
      var nuevo := t.productos[k.value].(inventario := n.value);
      ActualizarProductoConservaValidez(t, k.value, nuevo);
      db.Confirmar(t.(productos := t.productos[k.value := nuevo]));
      return Some(Redireccion("heladeria.pagina_listar_productos"));
    }
    r := Some(Pagina("renovar_inventario.html"));
  }

  function EfectoPaginaRenovarInventarioProducto(t: Tablas, sesion: Option<int>, id: int, metodo: Metodo, nuevaCantidad: CampoFormulario)
    : (Tablas, Respuesta)
  {
    PaginaProtegida(t, sesion, ROLES_PAGINA_ADMIN, x => EfectoVistaRenovarInventarioProducto(x, id, metodo, nuevaCantidad))
  }

  /** Setting is idempotent, so for an administrator the double run ends exactly as
      one run of the view would. */
  lemma PaginaRenovarComoUnaVez(t: Tablas, sesion: Option<int>, id: int, metodo: Metodo, nuevaCantidad: CampoFormulario)
    requires UsuarioActual(sesion, t.usuarios).Some? && UsuarioActual(sesion, t.usuarios).value.esAdmin
    ensures EfectoVistaRenovarInventarioProducto(t, id, metodo, nuevaCantidad).Completa? ==>
      EfectoPaginaRenovarInventarioProducto(t, sesion, id, metodo, nuevaCantidad) ==
      (EfectoVistaRenovarInventarioProducto(t, id, metodo, nuevaCantidad).tablas,
       EfectoVistaRenovarInventarioProducto(t, id, metodo, nuevaCantidad).respuesta)
    ensures EfectoVistaRenovarInventarioProducto(t, id, metodo, nuevaCantidad).Excepcion? ==>
      EfectoPaginaRenovarInventarioProducto(t, sesion, id, metodo, nuevaCantidad) == (t, Aborto(500))
  {
    var u := UsuarioActual(sesion, t.usuarios).value;
    assert AtributoRol(u, ROLES_PAGINA_ADMIN[0]);
    match BuscarProducto(t.productos, id)
    case None =>
    case Some(k) =>
      if metodo == POST && EnteroDeFormulario(nuevaCantidad).Some? {
        var t1 := EfectoVistaRenovarInventarioProducto(t, id, metodo, nuevaCantidad).tablas;
        assert IdsProductos(t1.productos) == IdsProductos(t.productos);
        var n := EnteroDeFormulario(nuevaCantidad).value;
        assert t1.productos[k := t1.productos[k].(inventario := n)] == t1.productos;
      }
  }

  method PaginaRenovarInventarioProducto(db: BaseDeDatos, sesion: Option<int>, id: int, metodo: Metodo, nuevaCantidad: CampoFormulario)
    returns (r: Respuesta)
    requires db.Valid()
    modifies db
    ensures db.Valid()
    ensures (db.Estado(), r) == EfectoPaginaRenovarInventarioProducto(old(db.Estado()), sesion, id, metodo, nuevaCantidad)
  {
    var u := UsuarioActual(sesion, db.usuarios);
    if u.None? {
      return Redireccion("auth.login");
    }
    if !TieneAlgunRol(u.value, ROLES_PAGINA_ADMIN) {
      return Aborto(403);
    }
    var primera := VistaRenovarInventarioProducto(db, id, metodo, nuevaCantidad);
    if primera.None? {
      return Aborto(500);
    }
    var segunda := VistaRenovarInventarioProducto(db, id, metodo, nuevaCantidad);
    if segunda.None? {
      return Aborto(500);
    }
    r := segunda.value;
  }

  /** `pagina_vender_producto`, which has no guard at all: anyone, logged in or not,
      can record a sale. */
  function EfectoPaginaVenderProducto(t: Tablas, id: int, metodo: Metodo): (Tablas, Respuesta) {
    match BuscarProducto(t.productos, id)
    case None => (t, Redireccion("heladeria.pagina_listar_productos"))
    case Some(k) =>
      if metodo == GET then (t, Pagina("vender_producto.html"))
      else (t.(productos := t.productos[k := Vendido(t.productos[k])]), Redireccion("heladeria.pagina_listar_productos"))
  }

  /** The page sale adds the public price once, like the API sale, without any
      session; an unknown key or a GET changes nothing. */
  lemma PaginaVenderComoApi(t: Tablas, id: int, metodo: Metodo, token: Option<string>, ahora: int, decode: Decodificador)
    ensures id !in IdsProductos(t.productos) || metodo == GET ==> EfectoPaginaVenderProducto(t, id, metodo).0 == t
    ensures Autenticar(token, ahora, decode, t.usuarios, RolesRuta(ApiProductoVender)).Ok? ==>
      EfectoPaginaVenderProducto(t, id, POST).0.productos == EfectoVenderProducto(t, token, ahora, decode, id).0.productos
  {
  }

  method PaginaVenderProducto(db: BaseDeDatos, id: int, metodo: Metodo) returns (r: Respuesta)
    requires db.Valid()
    modifies db
    ensures db.Valid()
    ensures (db.Estado(), r) == EfectoPaginaVenderProducto(old(db.Estado()), id, metodo)
  {
    var t := db.Estado();
    var k := BuscarProducto(t.productos, id);
    if k.None? {
      return Redireccion("heladeria.pagina_listar_productos");
    }
    if metodo == POST {
      var vendido := Vendido(t.productos[k.value]);
      ActualizarProductoConservaValidez(t, k.value, vendido);
      db.Confirmar(t.(productos := t.productos[k.value := vendido]));
      return Redireccion("heladeria.pagina_listar_productos");
    }
    r := Pagina("vender_producto.html");
  }
}
