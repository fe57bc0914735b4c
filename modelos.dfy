/** The three persistent records of the shop: users, ingredients and products. */
module Modelos {

  /** A stored password. `Pbkdf2(p)` stands for the salted PBKDF2-SHA256 hash that
      `generate_password_hash(p, method='pbkdf2:sha256')` produces; the hash itself is
      not modelled. `EnClaro` is a password stored without any hashing. */
  datatype Clave = Pbkdf2(de: string) | EnClaro

  /** A row of the users table, with its three independent role flags. */
  datatype Usuario = Usuario(
    id: int,
    username: string,
    clave: Clave,
    esAdmin: bool,
    esEmpleado: bool,
    esCliente: bool)

  /** A row of the ingredients table. Prices and calories are Float columns in the
      source; they are exact reals here. */
  datatype Ingrediente = Ingrediente(
    id: int,
    nombre: string,
    precio: real,
    calorias: real,
    inventario: int,
    esVegetariano: bool)
  {
    /** An ingredient is healthy when it has under 100 calories or is vegetarian. */
    predicate EsSano() {
      calorias < 100.0 || esVegetariano
    }
  }

  /** A row of the products table. `inventario` is not a declared column of the
      product model, but the handlers read and write it as one. */
  datatype Producto = Producto(
    id: int,
    nombre: string,
    precioPublico: real,
    caloriasTotales: real,
    costoProduccion: real,
    rentabilidad: real,
    inventario: int)

  lemma SanoSiPocasCalorias(i: Ingrediente)
    requires i.calorias < 100.0
    ensures i.EsSano()
  {
  }

  lemma SanoSiVegetariano(i: Ingrediente)
    requires i.esVegetariano
    ensures i.EsSano()
  {
  }

  lemma NoSanoSii(i: Ingrediente)
    ensures !i.EsSano() <==> i.calorias >= 100.0 && !i.esVegetariano
  {
  }
}
