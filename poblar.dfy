/** The seeding script: three users, three ingredients and three products, each
    inserted only when no row with its username or name exists, all under one
    commit that is rolled back on failure; and the script's own `/register` route. */
module Poblar {
  import opened Util
  import opened Modelos
  import opened BaseDatos
  import opened Http
  import opened Auth

  // ---------------------------------------------------------------------------
  // Seed data

  /** The columns of a seed ingredient (the key comes from the table). */
  datatype DatosIngrediente = DatosIngrediente(nombre: string, precio: real, calorias: real, inventario: int, esVegetariano: bool)

  /** The columns of a seed product. Its stock starts at 0: the seed gives none. */
  datatype DatosProducto = DatosProducto(
    nombre: string, precioPublico: real, caloriasTotales: real, costoProduccion: real, rentabilidad: real)

  const INGREDIENTES_SEMILLA: seq<DatosIngrediente> := [
    DatosIngrediente("Chocolate", 5.0, 120.0, 50, true),
    DatosIngrediente("Fresa", 4.0, 90.0, 30, true),
    DatosIngrediente("Leche", 3.0, 150.0, 100, false)
  ]

  const PRODUCTOS_SEMILLA: seq<DatosProducto> := [
    DatosProducto("Helado de Chocolate", 15.0, 200.0, 8.0, 0.0),
    DatosProducto("Helado de Fresa", 12.0, 180.0, 7.0, 0.0),
    DatosProducto("Batido Mixto", 20.0, 250.0, 10.0, 0.0)
  ]

  function NombresSemillaIngrediente(ds: seq<DatosIngrediente>): (r: seq<string>)
    ensures |r| == |ds| && forall i :: 0 <= i < |ds| ==> r[i] == ds[i].nombre
  {
    seq(|ds|, i requires 0 <= i < |ds| => ds[i].nombre)
  }

  function NombresSemillaProducto(ds: seq<DatosProducto>): (r: seq<string>)
    ensures |r| == |ds| && forall i :: 0 <= i < |ds| ==> r[i] == ds[i].nombre
  {
    seq(|ds|, i requires 0 <= i < |ds| => ds[i].nombre)
  }

  function NuevoIngrediente(d: DatosIngrediente, id: int): Ingrediente {
    Ingrediente(id, d.nombre, d.precio, d.calorias, d.inventario, d.esVegetariano)
  }

  function NuevoProducto(d: DatosProducto, id: int): Producto {
    Producto(id, d.nombre, d.precioPublico, d.caloriasTotales, d.costoProduccion, d.rentabilidad, 0)
  }

  // ---------------------------------------------------------------------------
  // Users

  /** One conditional insert of a seed user: present already means untouched. */
  function SembrarUsuario(us: seq<Usuario>, username: string, password: string, esAdmin: bool, esEmpleado: bool, esCliente: bool)
    : (r: seq<Usuario>)
    ensures username in Usernames(us) ==> r == us
    ensures username !in Usernames(us) ==>
      r == us + [Usuario(SiguienteId(IdsUsuarios(us)), username, Pbkdf2(password), esAdmin, esEmpleado, esCliente)]
  {
    if BuscarPorUsername(us, username).Some? then us
    else us + [Usuario(SiguienteId(IdsUsuarios(us)), username, Pbkdf2(password), esAdmin, esEmpleado, esCliente)]
  }

  /** One insert keeps the rows there, in front; afterwards the username is present;
      an added row has the given flags. */
  lemma SembrarUsuarioExtiende(us: seq<Usuario>, username: string, password: string, esAdmin: bool, esEmpleado: bool, esCliente: bool)
    ensures var r := SembrarUsuario(us, username, password, esAdmin, esEmpleado, esCliente);
      && |us| <= |r| && r[..|us|] == us
      && username in Usernames(r)
      && (forall k :: |us| <= k < |r| ==>
            r[k].username == username && r[k].esAdmin == esAdmin && r[k].esEmpleado == esEmpleado && r[k].esCliente == esCliente)
  {
    var r := SembrarUsuario(us, username, password, esAdmin, esEmpleado, esCliente);
    if username !in Usernames(us) {
      assert Usernames(r) == Usernames(us) + [username];
    }
  }

  /** Keeping a prefix is transitive. */
  lemma PrefijoTransitivo<T>(a: seq<T>, b: seq<T>, c: seq<T>)
    requires |a| <= |b| && b[..|a|] == a
    requires |b| <= |c| && c[..|b|] == b
    ensures |a| <= |c| && c[..|a|] == a
  {
    assert c[..|b|][..|a|] == c[..|a|];
  }

  /** A username stays present when rows are only appended. */
  lemma UsernameSeConserva(a: seq<Usuario>, b: seq<Usuario>, n: string)
    requires |a| <= |b| && b[..|a|] == a
    requires n in Usernames(a)
    ensures n in Usernames(b)
  {
    var i :| 0 <= i < |a| && Usernames(a)[i] == n;
    assert b[i] == a[i];
    assert Usernames(b)[i] == n;
  }

  /** One insert keeps the table invariant: the new key is one past the last and the
      username was absent. */
  lemma SembrarUsuarioConservaValidez(us: seq<Usuario>, username: string, password: string, esAdmin: bool, esEmpleado: bool, esCliente: bool)
    requires Crecientes(IdsUsuarios(us)) && SinRepetidos(Usernames(us))
    ensures Crecientes(IdsUsuarios(SembrarUsuario(us, username, password, esAdmin, esEmpleado, esCliente)))
    ensures SinRepetidos(Usernames(SembrarUsuario(us, username, password, esAdmin, esEmpleado, esCliente)))
  {
    var r := SembrarUsuario(us, username, password, esAdmin, esEmpleado, esCliente);
    if username !in Usernames(us) {
      assert IdsUsuarios(r) == IdsUsuarios(us) + [r[|us|].id];
      assert Usernames(r) == Usernames(us) + [username];
    }
  }

  /** The three user inserts, each with exactly its one role. */
  function SembrarUsuarios(us: seq<Usuario>): seq<Usuario> {
    var us1 := SembrarUsuario(us, "admin", "admin123", true, false, false);
    var us2 := SembrarUsuario(us1, "empleado", "empleado123", false, true, false);
    SembrarUsuario(us2, "cliente", "cliente123", false, false, true)
  }

  /** Rows already there are kept as they were, in front. */
  lemma SembrarUsuariosExtiende(us: seq<Usuario>)
    ensures |us| <= |SembrarUsuarios(us)| && SembrarUsuarios(us)[..|us|] == us
  {
    var us1 := SembrarUsuario(us, "admin", "admin123", true, false, false);
    var us2 := SembrarUsuario(us1, "empleado", "empleado123", false, true, false);
    SembrarUsuarioExtiende(us, "admin", "admin123", true, false, false);
    SembrarUsuarioExtiende(us1, "empleado", "empleado123", false, true, false);
    SembrarUsuarioExtiende(us2, "cliente", "cliente123", false, false, true);
    PrefijoTransitivo(us, us1, us2);
    PrefijoTransitivo(us, us2, SembrarUsuarios(us));
  }

  /** The three seed usernames are present afterwards. */
  lemma SembrarUsuariosPresentes(us: seq<Usuario>)
    ensures "admin" in Usernames(SembrarUsuarios(us))
    ensures "empleado" in Usernames(SembrarUsuarios(us))
    ensures "cliente" in Usernames(SembrarUsuarios(us))
  {
    var us1 := SembrarUsuario(us, "admin", "admin123", true, false, false);
    var us2 := SembrarUsuario(us1, "empleado", "empleado123", false, true, false);
    var r := SembrarUsuarios(us);
    SembrarUsuarioExtiende(us, "admin", "admin123", true, false, false);
    SembrarUsuarioExtiende(us1, "empleado", "empleado123", false, true, false);
    SembrarUsuarioExtiende(us2, "cliente", "cliente123", false, false, true);
    PrefijoTransitivo(us1, us2, r);
    UsernameSeConserva(us1, r, "admin");
    UsernameSeConserva(us2, r, "empleado");
  }

  /** The three inserts keep the users' invariant. */
  lemma SembrarUsuariosConservaValidez(us: seq<Usuario>)
    requires Crecientes(IdsUsuarios(us)) && SinRepetidos(Usernames(us))
    ensures Crecientes(IdsUsuarios(SembrarUsuarios(us))) && SinRepetidos(Usernames(SembrarUsuarios(us)))
  {
    var us1 := SembrarUsuario(us, "admin", "admin123", true, false, false);
    var us2 := SembrarUsuario(us1, "empleado", "empleado123", false, true, false);
    SembrarUsuarioConservaValidez(us, "admin", "admin123", true, false, false);
    SembrarUsuarioConservaValidez(us1, "empleado", "empleado123", false, true, false);
    SembrarUsuarioConservaValidez(us2, "cliente", "cliente123", false, false, true);
  }

  /** Each added user is a seed user with exactly its one role. */
  lemma SembrarUsuariosRoles(us: seq<Usuario>)
    ensures var r := SembrarUsuarios(us);
      forall k :: |us| <= k < |r| ==>
        || (r[k].username == "admin" && r[k].esAdmin && !r[k].esEmpleado && !r[k].esCliente)
        || (r[k].username == "empleado" && !r[k].esAdmin && r[k].esEmpleado && !r[k].esCliente)
        || (r[k].username == "cliente" && !r[k].esAdmin && !r[k].esEmpleado && r[k].esCliente)
  {
    var us1 := SembrarUsuario(us, "admin", "admin123", true, false, false);
    var us2 := SembrarUsuario(us1, "empleado", "empleado123", false, true, false);
    var r := SembrarUsuario(us2, "cliente", "cliente123", false, false, true);
    SembrarUsuarioExtiende(us, "admin", "admin123", true, false, false);
    SembrarUsuarioExtiende(us1, "empleado", "empleado123", false, true, false);
    SembrarUsuarioExtiende(us2, "cliente", "cliente123", false, false, true);
    forall k | |us| <= k < |r|
      ensures || (r[k].username == "admin" && r[k].esAdmin && !r[k].esEmpleado && !r[k].esCliente)
              || (r[k].username == "empleado" && !r[k].esAdmin && r[k].esEmpleado && !r[k].esCliente)
              || (r[k].username == "cliente" && !r[k].esAdmin && !r[k].esEmpleado && r[k].esCliente)
    {
      if k < |us1| {
        assert r[k] == us2[k] == us1[k] by {
          assert r[..|us2|] == us2;
          assert us2[..|us1|] == us1;
        }
      } else if k < |us2| {
        assert r[..|us2|] == us2;
        assert r[k] == us2[k];
      }
    }
  }

  // ---------------------------------------------------------------------------
  // Ingredients and products

  /** Rows kept in front keep their names. */
  lemma NombresIngredientesSeConservan(a: seq<Ingrediente>, b: seq<Ingrediente>)
    requires |a| <= |b| && b[..|a|] == a
    ensures forall n :: n in NombresIngredientes(a) ==> n in NombresIngredientes(b)
  {
    forall n | n in NombresIngredientes(a)
      ensures n in NombresIngredientes(b)
    {
      var i :| 0 <= i < |a| && NombresIngredientes(a)[i] == n;
      assert b[i] == a[i];
      assert NombresIngredientes(b)[i] == n;
    }
  }

  lemma NombresProductosSeConservan(a: seq<Producto>, b: seq<Producto>)
    requires |a| <= |b| && b[..|a|] == a
    ensures forall n :: n in NombresProductos(a) ==> n in NombresProductos(b)
  {
    forall n | n in NombresProductos(a)
      ensures n in NombresProductos(b)
    {
      var i :| 0 <= i < |a| && NombresProductos(a)[i] == n;
      assert b[i] == a[i];
      assert NombresProductos(b)[i] == n;
    }
  }

  /** One pass of the ingredient loop: insert unless an ingredient of that name exists. */
  function SembrarIngrediente(ings: seq<Ingrediente>, d: DatosIngrediente): (r: seq<Ingrediente>)
    ensures d.nombre in NombresIngredientes(ings) ==> r == ings
    ensures d.nombre !in NombresIngredientes(ings) ==>
      r == ings + [NuevoIngrediente(d, SiguienteId(IdsIngredientes(ings)))]
    ensures |ings| <= |r| && r[..|ings|] == ings
    ensures d.nombre in NombresIngredientes(r)
    ensures Crecientes(IdsIngredientes(ings)) ==> Crecientes(IdsIngredientes(r))
  {
    if PrimerIndice(NombresIngredientes(ings), d.nombre).Some? then ings
    else
      var nuevo := NuevoIngrediente(d, SiguienteId(IdsIngredientes(ings)));
      assert IdsIngredientes(ings + [nuevo]) == IdsIngredientes(ings) + [nuevo.id];
      assert NombresIngredientes(ings + [nuevo])[|ings|] == d.nombre;
      ings + [nuevo]
  }

  /** The ingredient loop over `ds`, in order. */
  function SembrarIngredientes(ings: seq<Ingrediente>, ds: seq<DatosIngrediente>): seq<Ingrediente>
    decreases |ds|
  {
    if |ds| == 0 then ings else SembrarIngrediente(SembrarIngredientes(ings, ds[..|ds| - 1]), ds[|ds| - 1])
  }

  /** The loop keeps the rows already there, in front, and keys increasing. */
  lemma {:induction false} SembrarIngredientesExtiende(ings: seq<Ingrediente>, ds: seq<DatosIngrediente>)
    ensures var r := SembrarIngredientes(ings, ds);
      |ings| <= |r| && r[..|ings|] == ings && (Crecientes(IdsIngredientes(ings)) ==> Crecientes(IdsIngredientes(r)))
    decreases |ds|
  {
    if |ds| > 0 {
      var prev := SembrarIngredientes(ings, ds[..|ds| - 1]);
      SembrarIngredientesExtiende(ings, ds[..|ds| - 1]);
      var r := SembrarIngrediente(prev, ds[|ds| - 1]);
      assert r[..|ings|] == prev[..|ings|];
    }
  }

  /** After the loop every seed name is present. */
  lemma {:induction false} SembrarIngredientesContiene(ings: seq<Ingrediente>, ds: seq<DatosIngrediente>)
    ensures forall d :: d in ds ==> d.nombre in NombresIngredientes(SembrarIngredientes(ings, ds))
    decreases |ds|
  {
    if |ds| > 0 {
      var ds' := ds[..|ds| - 1];
      var prev := SembrarIngredientes(ings, ds');
      SembrarIngredientesContiene(ings, ds');
      var r := SembrarIngrediente(prev, ds[|ds| - 1]);
      NombresIngredientesSeConservan(prev, r);
      forall d | d in ds
        ensures d.nombre in NombresIngredientes(r)
      {
        if d != ds[|ds| - 1] {
          assert d in ds';
        }
      }
    }
  }

  /** Every row the loop adds carries a seed name. */
  lemma {:induction false} SembrarIngredientesDeSemilla(ings: seq<Ingrediente>, ds: seq<DatosIngrediente>)
    ensures forall k :: |ings| <= k < |SembrarIngredientes(ings, ds)| ==>
      SembrarIngredientes(ings, ds)[k].nombre in NombresSemillaIngrediente(ds)
    decreases |ds|
  {
    if |ds| > 0 {
      var ds' := ds[..|ds| - 1];
      var prev := SembrarIngredientes(ings, ds');
      SembrarIngredientesDeSemilla(ings, ds');
      var r := SembrarIngrediente(prev, ds[|ds| - 1]);
      forall k | |ings| <= k < |r|
        ensures r[k].nombre in NombresSemillaIngrediente(ds)
      {
        if k < |prev| {
          assert r[k] == prev[k];
          assert prev[k].nombre in NombresSemillaIngrediente(ds');
          var i :| 0 <= i < |ds'| && NombresSemillaIngrediente(ds')[i] == prev[k].nombre;
          assert NombresSemillaIngrediente(ds)[i] == prev[k].nombre;
        } else {
          assert NombresSemillaIngrediente(ds)[|ds| - 1] == r[k].nombre;
        }
      }
    }
  }

  /** No row the loop adds repeats the name of an earlier row. */
  lemma {:induction false} SembrarIngredientesNuevas(ings: seq<Ingrediente>, ds: seq<DatosIngrediente>)
    ensures forall k, j :: |ings| <= k < |SembrarIngredientes(ings, ds)| && 0 <= j < k ==>
      SembrarIngredientes(ings, ds)[j].nombre != SembrarIngredientes(ings, ds)[k].nombre
    decreases |ds|
  {
    if |ds| > 0 {
      var ds' := ds[..|ds| - 1];
      var prev := SembrarIngredientes(ings, ds');
      SembrarIngredientesNuevas(ings, ds');
      var r := SembrarIngrediente(prev, ds[|ds| - 1]);
      forall k, j | |ings| <= k < |r| && 0 <= j < k
        ensures r[j].nombre != r[k].nombre
      {
        if k < |prev| {
          assert r[k] == prev[k] && r[j] == prev[j];
        } else {
          assert r[j] == prev[j];
          assert NombresIngredientes(prev)[j] == prev[j].nombre;
        }
      }
    }
  }

  /** One pass of the product loop: insert unless a product of that name exists, so
      names stay unique as the column demands. */
  function SembrarProducto(ps: seq<Producto>, d: DatosProducto): (r: seq<Producto>)
    ensures d.nombre in NombresProductos(ps) ==> r == ps
    ensures d.nombre !in NombresProductos(ps) ==>
      r == ps + [NuevoProducto(d, SiguienteId(IdsProductos(ps)))]
    ensures |ps| <= |r| && r[..|ps|] == ps
    ensures d.nombre in NombresProductos(r)
    ensures Crecientes(IdsProductos(ps)) ==> Crecientes(IdsProductos(r))
    ensures SinRepetidos(NombresProductos(ps)) ==> SinRepetidos(NombresProductos(r))
  {
    if PrimerIndice(NombresProductos(ps), d.nombre).Some? then ps
    else
      var nuevo := NuevoProducto(d, SiguienteId(IdsProductos(ps)));
      assert IdsProductos(ps + [nuevo]) == IdsProductos(ps) + [nuevo.id];
      assert NombresProductos(ps + [nuevo]) == NombresProductos(ps) + [d.nombre];
      ps + [nuevo]
  }

  /** Once every name of `ds` is present, the loop adds nothing. */
  lemma {:induction false} SembrarIngredientesPresentes(ings: seq<Ingrediente>, ds: seq<DatosIngrediente>)
    requires forall d :: d in ds ==> d.nombre in NombresIngredientes(ings)
    ensures SembrarIngredientes(ings, ds) == ings
    decreases |ds|
  {
    if |ds| > 0 {
      var ds' := ds[..|ds| - 1];
      forall d | d in ds'
        ensures d.nombre in NombresIngredientes(ings)
      {
        assert d in ds;
      }
      SembrarIngredientesPresentes(ings, ds');
      assert ds[|ds| - 1] in ds;
    }
  }

  function SembrarProductos(ps: seq<Producto>, ds: seq<DatosProducto>): seq<Producto>
    decreases |ds|
  {
    if |ds| == 0 then ps else SembrarProducto(SembrarProductos(ps, ds[..|ds| - 1]), ds[|ds| - 1])
  }

  lemma {:induction false} SembrarProductosExtiende(ps: seq<Producto>, ds: seq<DatosProducto>)
    ensures var r := SembrarProductos(ps, ds);
      && |ps| <= |r| && r[..|ps|] == ps
      && (Crecientes(IdsProductos(ps)) ==> Crecientes(IdsProductos(r)))
      && (SinRepetidos(NombresProductos(ps)) ==> SinRepetidos(NombresProductos(r)))
    decreases |ds|
  {
    if |ds| > 0 {
      var prev := SembrarProductos(ps, ds[..|ds| - 1]);
      SembrarProductosExtiende(ps, ds[..|ds| - 1]);
      var r := SembrarProducto(prev, ds[|ds| - 1]);
      assert r[..|ps|] == prev[..|ps|];
    }
  }

  lemma {:induction false} SembrarProductosContiene(ps: seq<Producto>, ds: seq<DatosProducto>)
    ensures forall d :: d in ds ==> d.nombre in NombresProductos(SembrarProductos(ps, ds))
    decreases |ds|
  {
    if |ds| > 0 {
      var ds' := ds[..|ds| - 1];
      var prev := SembrarProductos(ps, ds');
      SembrarProductosContiene(ps, ds');
      var r := SembrarProducto(prev, ds[|ds| - 1]);
      NombresProductosSeConservan(prev, r);
      forall d | d in ds
        ensures d.nombre in NombresProductos(r)
      {
        if d != ds[|ds| - 1] {
          assert d in ds';
        }
      }
    }
  }

  /** Every row the loop adds carries a seed name. */
  lemma {:induction false} SembrarProductosDeSemilla(ps: seq<Producto>, ds: seq<DatosProducto>)
    ensures forall k :: |ps| <= k < |SembrarProductos(ps, ds)| ==>
      SembrarProductos(ps, ds)[k].nombre in NombresSemillaProducto(ds)
    decreases |ds|
  {
    if |ds| > 0 {
      var ds' := ds[..|ds| - 1];
      var prev := SembrarProductos(ps, ds');
      SembrarProductosDeSemilla(ps, ds');
      var r := SembrarProducto(prev, ds[|ds| - 1]);
      forall k | |ps| <= k < |r|
        ensures r[k].nombre in NombresSemillaProducto(ds)
      {
        if k < |prev| {
          assert r[k] == prev[k];
          assert prev[k].nombre in NombresSemillaProducto(ds');
          var i :| 0 <= i < |ds'| && NombresSemillaProducto(ds')[i] == prev[k].nombre;
          assert NombresSemillaProducto(ds)[i] == prev[k].nombre;
        } else {
          assert NombresSemillaProducto(ds)[|ds| - 1] == r[k].nombre;
        }
      }
    }
  }

  /** No row the loop adds repeats the name of an earlier row. */
  lemma {:induction false} SembrarProductosNuevas(ps: seq<Producto>, ds: seq<DatosProducto>)
    ensures forall k, j :: |ps| <= k < |SembrarProductos(ps, ds)| && 0 <= j < k ==>
      SembrarProductos(ps, ds)[j].nombre != SembrarProductos(ps, ds)[k].nombre
    decreases |ds|
  {
    if |ds| > 0 {
      var ds' := ds[..|ds| - 1];
      var prev := SembrarProductos(ps, ds');
      SembrarProductosNuevas(ps, ds');
      var r := SembrarProducto(prev, ds[|ds| - 1]);
      forall k, j | |ps| <= k < |r| && 0 <= j < k
        ensures r[j].nombre != r[k].nombre
      {
        if k < |prev| {
          assert r[k] == prev[k] && r[j] == prev[j];
        } else {
          assert r[j] == prev[j];
          assert NombresProductos(prev)[j] == prev[j].nombre;
        }
      }
    }
  }

  // ---------------------------------------------------------------------------
  // The whole script

  /** What a successful run of `poblar_base_datos` leaves. */
  function Sembrar(t: Tablas): Tablas {
    Tablas(SembrarUsuarios(t.usuarios),
           SembrarIngredientes(t.ingredientes, INGREDIENTES_SEMILLA),
           SembrarProductos(t.productos, PRODUCTOS_SEMILLA))
  }

  /** Once every name of `ds` is present, the loop adds nothing. */
  lemma {:induction false} SembrarProductosPresentes(ps: seq<Producto>, ds: seq<DatosProducto>)
    requires forall d :: d in ds ==> d.nombre in NombresProductos(ps)
    ensures SembrarProductos(ps, ds) == ps
    decreases |ds|
  {
    if |ds| > 0 {
      var ds' := ds[..|ds| - 1];
      forall d | d in ds'
        ensures d.nombre in NombresProductos(ps)
      {
        assert d in ds;
      }
      SembrarProductosPresentes(ps, ds');
      assert ds[|ds| - 1] in ds;
    }
  }

  /** The single commit: when it fails everything is rolled back. */
  function EfectoPoblar(t: Tablas, fallaCommit: bool): (r: Tablas)
    ensures fallaCommit ==> r == t
  {
    if fallaCommit then t else Sembrar(t)
  }

  /** Seeding keeps the invariant. */
  lemma SembrarConservaValidez(t: Tablas)
    requires t.Valida()
    ensures Sembrar(t).Valida()
  {
    SembrarUsuariosConservaValidez(t.usuarios);
    SembrarIngredientesExtiende(t.ingredientes, INGREDIENTES_SEMILLA);
    SembrarProductosExtiende(t.productos, PRODUCTOS_SEMILLA);
  }

  /** Running the script a second time changes nothing. */
  lemma SembrarIdempotente(t: Tablas)
    ensures Sembrar(Sembrar(t)) == Sembrar(t)
  {
    var s := Sembrar(t);
    SembrarUsuariosPresentes(t.usuarios);
    SembrarIngredientesContiene(t.ingredientes, INGREDIENTES_SEMILLA);
    SembrarProductosContiene(t.productos, PRODUCTOS_SEMILLA);
    SembrarIngredientesPresentes(s.ingredientes, INGREDIENTES_SEMILLA);
    SembrarProductosPresentes(s.productos, PRODUCTOS_SEMILLA);
  }

  /** On an empty database the script creates exactly the seed users, with keys 1, 2
      and 3. */
  lemma SembrarVaciaUsuarios()
    ensures SembrarUsuarios([]) == [
      Usuario(1, "admin", Pbkdf2("admin123"), true, false, false),
      Usuario(2, "empleado", Pbkdf2("empleado123"), false, true, false),
      Usuario(3, "cliente", Pbkdf2("cliente123"), false, false, true)]
  {
    var u1 := [Usuario(1, "admin", Pbkdf2("admin123"), true, false, false)];
    var u2 := u1 + [Usuario(2, "empleado", Pbkdf2("empleado123"), false, true, false)];
    assert Usernames(u1) == ["admin"];
    assert Usernames(u2) == ["admin", "empleado"];
    assert IdsUsuarios(u2) == [1, 2];
  }

  /** The three user inserts on the session's tables. */
  method SembrarUsuariosEn(db: BaseDeDatos)
    modifies db
    ensures db.usuarios == SembrarUsuarios(old(db.usuarios))
    ensures db.ingredientes == old(db.ingredientes) && db.productos == old(db.productos)
  {
    db.usuarios := SembrarUsuario(db.usuarios, "admin", "admin123", true, false, false);
    db.usuarios := SembrarUsuario(db.usuarios, "empleado", "empleado123", false, true, false);
    db.usuarios := SembrarUsuario(db.usuarios, "cliente", "cliente123", false, false, true);
  }

  /** The ingredient loop on the session's tables. */
  method SembrarIngredientesEn(db: BaseDeDatos, ds: seq<DatosIngrediente>)
    modifies db
    ensures db.ingredientes == SembrarIngredientes(old(db.ingredientes), ds)
    ensures db.usuarios == old(db.usuarios) && db.productos == old(db.productos)
  {
    var i := 0;
    while i < |ds|
      invariant 0 <= i <= |ds|
      invariant db.ingredientes == SembrarIngredientes(old(db.ingredientes), ds[..i])
      invariant db.usuarios == old(db.usuarios) && db.productos == old(db.productos)
    {
      var d := ds[i];
      ghost var antes := db.ingredientes;
      if PrimerIndice(NombresIngredientes(db.ingredientes), d.nombre).None? {
        db.ingredientes := db.ingredientes + [NuevoIngrediente(d, SiguienteId(IdsIngredientes(db.ingredientes)))];
      }
      assert db.ingredientes == SembrarIngrediente(antes, d);
      assert ds[..i + 1][..i] == ds[..i];
      i := i + 1;
    }
    assert ds[..i] == ds;
  }

  /** The product loop on the session's tables. */
  method SembrarProductosEn(db: BaseDeDatos, ds: seq<DatosProducto>)
    modifies db
    ensures db.productos == SembrarProductos(old(db.productos), ds)
    ensures db.usuarios == old(db.usuarios) && db.ingredientes == old(db.ingredientes)
  {
    var j := 0;
    while j < |ds|
      invariant 0 <= j <= |ds|
      invariant db.productos == SembrarProductos(old(db.productos), ds[..j])
      invariant db.usuarios == old(db.usuarios) && db.ingredientes == old(db.ingredientes)
    {
      var d := ds[j];
      ghost var antes := db.productos;
      if PrimerIndice(NombresProductos(db.productos), d.nombre).None? {
        db.productos := db.productos + [NuevoProducto(d, SiguienteId(IdsProductos(db.productos)))];
      }
      assert db.productos == SembrarProducto(antes, d);
      assert ds[..j + 1][..j] == ds[..j];
      j := j + 1;
    }
    assert ds[..j] == ds;
  }

  /** `poblar_base_datos`, on the session's tables; `fallaCommit` says whether the
      commit (or any step before it) raised. */
  method PoblarBaseDatos(db: BaseDeDatos, fallaCommit: bool)
    requires db.Valid()
    modifies db
    ensures db.Valid()
    ensures db.Estado() == EfectoPoblar(old(db.Estado()), fallaCommit)
  {
    var inicial := db.Estado();
    SembrarUsuariosEn(db);
    SembrarIngredientesEn(db, INGREDIENTES_SEMILLA);
    SembrarProductosEn(db, PRODUCTOS_SEMILLA);
    if fallaCommit {
      // db.session.rollback()
      db.usuarios, db.ingredientes, db.productos := inicial.usuarios, inicial.ingredientes, inicial.productos;
      assert db.Estado() == inicial;
    } else {
      ghost var sembrado := Sembrar(inicial);
      SembrarConservaValidez(inicial);
      assert db.Estado() == sembrado;
    }
  }

  // ---------------------------------------------------------------------------
  // The script's `/register` route

  /** `register_user`: no gate; a taken username is a 400; a missing password or a
      failed commit is caught, rolled back and answered with 500. */
  function EfectoRegisterUser(t: Tablas, d: DatosRegistro, fallaCommit: bool): (Tablas, Respuesta) {
    match AltaUsuario(t.usuarios, d)
    case Err(Duplicado) => (t, Fallo(UsuarioYaExiste))
    case Err(SinPassword) => (t, Fallo(ErrorInterno))
    case Ok(us) => if fallaCommit then (t, Fallo(ErrorInterno)) else (t.(usuarios := us), Json(201, Hecho))
  }

  /** A taken username inserts nothing and answers 400; otherwise either exactly one
      user with the given flags is appended (201) or, on an error, nothing changes
      (500). The caller's flags play no part, unlike the token-protected route. */
  lemma RegisterUserInsertaSiAusente(t: Tablas, d: DatosRegistro, fallaCommit: bool)
    ensures d.username in Usernames(t.usuarios) ==>
      EfectoRegisterUser(t, d, fallaCommit) == (t, Fallo(UsuarioYaExiste)) && Fallo(UsuarioYaExiste).status == 400
    ensures d.username !in Usernames(t.usuarios) && (d.password.None? || fallaCommit) ==>
      EfectoRegisterUser(t, d, fallaCommit) == (t, Fallo(ErrorInterno)) && Fallo(ErrorInterno).status == 500
    ensures d.username !in Usernames(t.usuarios) && d.password.Some? && !fallaCommit ==>
      EfectoRegisterUser(t, d, fallaCommit) ==
        (t.(usuarios := t.usuarios + [Usuario(SiguienteId(IdsUsuarios(t.usuarios)), d.username, Pbkdf2(d.password.value),
                                              d.esAdmin == Some(true), d.esEmpleado == Some(true), d.esCliente == Some(true))]),
         Json(201, Hecho))
    ensures t.Valida() ==> EfectoRegisterUser(t, d, fallaCommit).0.Valida()
  {
    if AltaUsuario(t.usuarios, d).Ok? {
      var us := AltaUsuario(t.usuarios, d).value;
      assert us == us[..|t.usuarios|] + [us[|t.usuarios|]];
    }
  }

  method RegisterUser(db: BaseDeDatos, d: DatosRegistro, fallaCommit: bool) returns (r: Respuesta)
    requires db.Valid()
    modifies db
    ensures db.Valid()
    ensures (db.Estado(), r) == EfectoRegisterUser(old(db.Estado()), d, fallaCommit)
  {
    RegisterUserInsertaSiAusente(db.Estado(), d, fallaCommit);
    var alta := AltaUsuario(db.usuarios, d);
    if alta.Err? {
      r := if alta.error == Duplicado then Fallo(UsuarioYaExiste) else Fallo(ErrorInterno);
      return;
    }
    if fallaCommit {
      // the commit raised: db.session.rollback()
      return Fallo(ErrorInterno);
    }
    db.usuarios := alta.value;
    r := Json(201, Hecho);
  }
}
