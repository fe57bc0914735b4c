/** The database as the handlers see it: three tables of rows kept in primary-key
    order, and the object that holds them and that handlers update in place. */
module BaseDatos {
  import opened Util
  import opened Modelos

  // One column projection per table and column the program queries by: the
  // tables hold different row types, so each projection is written once for its
  // own table rather than shared.
  function IdsUsuarios(us: seq<Usuario>): (r: seq<int>)
    ensures |r| == |us| && forall k :: 0 <= k < |us| ==> r[k] == us[k].id
  {
    seq(|us|, k requires 0 <= k < |us| => us[k].id)
  }

  function Usernames(us: seq<Usuario>): (r: seq<string>)
    ensures |r| == |us| && forall k :: 0 <= k < |us| ==> r[k] == us[k].username
  {
    seq(|us|, k requires 0 <= k < |us| => us[k].username)
  }

  function IdsIngredientes(ings: seq<Ingrediente>): (r: seq<int>)
    ensures |r| == |ings| && forall k :: 0 <= k < |ings| ==> r[k] == ings[k].id
  {
    seq(|ings|, k requires 0 <= k < |ings| => ings[k].id)
  }

  function NombresIngredientes(ings: seq<Ingrediente>): (r: seq<string>)
    ensures |r| == |ings| && forall k :: 0 <= k < |ings| ==> r[k] == ings[k].nombre
  {
    seq(|ings|, k requires 0 <= k < |ings| => ings[k].nombre)
  }

  function IdsProductos(ps: seq<Producto>): (r: seq<int>)
    ensures |r| == |ps| && forall k :: 0 <= k < |ps| ==> r[k] == ps[k].id
  {
    seq(|ps|, k requires 0 <= k < |ps| => ps[k].id)
  }

  function NombresProductos(ps: seq<Producto>): (r: seq<string>)
    ensures |r| == |ps| && forall k :: 0 <= k < |ps| ==> r[k] == ps[k].nombre
  {
    seq(|ps|, k requires 0 <= k < |ps| => ps[k].nombre)
  }

  /** Primary keys handed out by an auto-increment counter: strictly increasing. */
  predicate Crecientes(ids: seq<int>) {
    forall i, j :: 0 <= i < j < |ids| ==> ids[i] < ids[j]
  }

  predicate SinRepetidos<T(==)>(s: seq<T>) {
    forall i, j :: 0 <= i < j < |s| ==> s[i] != s[j]
  }

  /** The key the auto-increment counter gives the next row: one past the last. */
  function SiguienteId(ids: seq<int>): (r: int)
    ensures Crecientes(ids) ==> forall k :: 0 <= k < |ids| ==> ids[k] < r
    ensures Crecientes(ids) ==> Crecientes(ids + [r])
  {
    if |ids| == 0 then 1 else ids[|ids| - 1] + 1
  }

  /** `Usuario.query.get(id)`: the position of the row with that key. */
  function BuscarUsuario(us: seq<Usuario>, id: int): (r: Option<nat>)
    ensures r.Some? ==> r.value < |us| && us[r.value].id == id
    ensures r.None? <==> forall k :: 0 <= k < |us| ==> us[k].id != id
  {
    PrimerIndice(IdsUsuarios(us), id)
  }

  /** `Usuario.query.filter_by(username=name).first()`. */
  function BuscarPorUsername(us: seq<Usuario>, name: string): (r: Option<nat>)
    ensures r.Some? ==> r.value < |us| && us[r.value].username == name
    ensures r.Some? ==> forall j :: 0 <= j < r.value ==> us[j].username != name
    ensures r.None? <==> forall k :: 0 <= k < |us| ==> us[k].username != name
  {
    PrimerIndice(Usernames(us), name)
  }

  /** `Ingrediente.query.get(id)`. */
  function BuscarIngrediente(ings: seq<Ingrediente>, id: int): (r: Option<nat>)
    ensures r.Some? ==> r.value < |ings| && ings[r.value].id == id
    ensures r.None? <==> forall k :: 0 <= k < |ings| ==> ings[k].id != id
  {
    PrimerIndice(IdsIngredientes(ings), id)
  }

  /** `Producto.query.get(id)`. */
  function BuscarProducto(ps: seq<Producto>, id: int): (r: Option<nat>)
    ensures r.Some? ==> r.value < |ps| && ps[r.value].id == id
    ensures r.None? <==> forall k :: 0 <= k < |ps| ==> ps[k].id != id
  {
    PrimerIndice(IdsProductos(ps), id)
  }

  /** What a commit writes back for a user object whose three role attributes were
      assigned in memory: the row with the same key gets those flags, nothing else
      changes. */
  function Persistir(us: seq<Usuario>, u: Usuario): (r: seq<Usuario>)
    ensures |r| == |us|
    ensures forall k :: 0 <= k < |us| ==>
      r[k].id == us[k].id && r[k].username == us[k].username && r[k].clave == us[k].clave
    ensures BuscarUsuario(us, u.id).None? ==> r == us
    ensures BuscarUsuario(us, u.id).Some? ==>
      var k := BuscarUsuario(us, u.id).value;
      r == us[k := us[k].(esAdmin := u.esAdmin, esEmpleado := u.esEmpleado, esCliente := u.esCliente)]
  {
    match BuscarUsuario(us, u.id)
    case None => us
    case Some(k) => us[k := us[k].(esAdmin := u.esAdmin, esEmpleado := u.esEmpleado, esCliente := u.esCliente)]
  }

  /** The three tables at one moment. */
  datatype Tablas = Tablas(usuarios: seq<Usuario>, ingredientes: seq<Ingrediente>, productos: seq<Producto>)
  {
    /** Keys come from auto-increment counters, and usernames and product names are
        unique (product names by a column constraint, usernames because every insert
        checks first). */
    predicate Valida() {
      && Crecientes(IdsUsuarios(usuarios))
      && SinRepetidos(Usernames(usuarios))
      && Crecientes(IdsIngredientes(ingredientes))
      && Crecientes(IdsProductos(productos))
      && SinRepetidos(NombresProductos(productos))
    }
  }

  /** Every row keeps its key, username and password: the invariant survives. */
  lemma PersistirConservaValidez(t: Tablas, u: Usuario)
    requires t.Valida()
    ensures t.(usuarios := Persistir(t.usuarios, u)).Valida()
  {
    var us := Persistir(t.usuarios, u);
    assert IdsUsuarios(us) == IdsUsuarios(t.usuarios);
    assert Usernames(us) == Usernames(t.usuarios);
  }

  /** Changing an ingredient's other columns keeps its key, so the invariant survives. */
  lemma ActualizarIngredienteConservaValidez(t: Tablas, k: nat, v: Ingrediente)
    requires t.Valida() && k < |t.ingredientes| && v.id == t.ingredientes[k].id
    ensures IdsIngredientes(t.ingredientes[k := v]) == IdsIngredientes(t.ingredientes)
    ensures t.(ingredientes := t.ingredientes[k := v]).Valida()
  {
    assert IdsIngredientes(t.ingredientes[k := v]) == IdsIngredientes(t.ingredientes);
  }

  /** Changing a product's other columns keeps its key and name. */
  lemma ActualizarProductoConservaValidez(t: Tablas, k: nat, v: Producto)
    requires t.Valida() && k < |t.productos| && v.id == t.productos[k].id && v.nombre == t.productos[k].nombre
    ensures IdsProductos(t.productos[k := v]) == IdsProductos(t.productos)
    ensures t.(productos := t.productos[k := v]).Valida()
  {
    assert IdsProductos(t.productos[k := v]) == IdsProductos(t.productos);
    assert NombresProductos(t.productos[k := v]) == NombresProductos(t.productos);
  }

  /** The session's tables (`db.session`): handlers read and assign them. */
  class BaseDeDatos {
    var usuarios: seq<Usuario>
    var ingredientes: seq<Ingrediente>
    var productos: seq<Producto>

    /** An empty database, as `db.create_all()` leaves it. */
    constructor ()
      ensures Estado() == Tablas([], [], []) && Valid()
    {
      usuarios, ingredientes, productos := [], [], [];
    }

    function Estado(): Tablas
      reads this
    {
      Tablas(usuarios, ingredientes, productos)
    }

    predicate Valid()
      reads this
    {
      Estado().Valida()
    }

    /** `db.session.commit()`: the session's pending tables become the stored ones. */
    method Confirmar(t: Tablas)
      requires t.Valida()
      modifies this
      ensures Estado() == t && Valid()
    {
      usuarios, ingredientes, productos := t.usuarios, t.ingredientes, t.productos;
    }
  }
}
