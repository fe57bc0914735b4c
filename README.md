# Heladería backend — a Dafny model

This project models the core of a Flask backend for an ice-cream shop. It has three
tables: users with three independent role flags, ingredients, and products. The
modelled behaviour covers:

- the JWT-based API guard (`token_required` followed by `role_required_api`);
- the session-based page guard (`login_required` followed by `role_required_html`);
- login and registration;
- the inventory and sales handlers, both the JSON API and the HTML pages;
- the business rules in `funciones.py` and `Ingrediente.es_sano`;
- the seeding script `poblar_base_datos.py` and its own `/register` route.

The modules follow the program's structure:

| module | file | models |
|---|---|---|
| `Util` | util.dfy | `Option`, `Result`, the first index of a value in a sequence |
| `Modelos` | modelos.dfy | the `Usuario`, `Ingrediente` and `Producto` records, and `Ingrediente.es_sano` |
| `BaseDatos` | base_datos.dfy | the tables as sequences ordered by id, their lookups, and the id/uniqueness invariant `Tablas.Valida` |
| `Http` | http.dfy | JSON values, form fields, and responses: status plus payload kind, page, redirect or abort |
| `Auth` | auth.dfy | `controllers/auth_controller.py` |
| `Heladeria` | heladeria.dfy | `controllers/heladeria_controller.py` |
| `Funciones` | funciones.dfy | `models/funciones.py` |
| `Poblar` | poblar.dfy | `poblar_base_datos.py` |

`BaseDatos.BaseDeDatos` is the database session. It is a class whose three `seq` fields
are the tables. Its `Confirmar` method is `db.session.commit()`. Every state-changing
handler has two parts:

- a method on that class;
- a function `EfectoX(tablas, request) : (tablas', response)`.

Each method's `ensures` ties its new state and its response to that function, and the
lemmas state what the function does.

A role check is a single predicate, `Auth.TieneAlgunRol`. It is true when some listed
role `r` has its flag `es_r` set. Both guards use it:

- the API guard reads the flags from the token's claims;
- the page guard reads them from the stored row of the session's user.

The JWT codec is the abstract `Decodificador`, which returns valid claims, expired or
invalid. The password check is an opaque predicate `checkPassword`. The clock is an
integer `ahora`. The session is the stored `user_id` (`Option<int>`).

Three behaviours of the code are worth knowing, and the model keeps them:

- a valid token whose user is not stored gets 404;
- registering a username that is already stored gets 400;
- the page guard calls the view twice when access is allowed.

## Model

| member | source | states |
|---|---|---|
| Modelos.SanoSiPocasCalorias | models/ingrediente.py:13-14 | an ingredient under 100 calories is healthy |
| Modelos.SanoSiVegetariano | models/ingrediente.py:13-14 | a vegetarian ingredient is healthy |
| Modelos.NoSanoSii | models/ingrediente.py:13-14 | an ingredient is unhealthy exactly when it has at least 100 calories and is not vegetarian |
| Funciones.EsSanoCoincideConIngrediente | models/funciones.py:1-2 | the method `Ingrediente.es_sano` and the free function `es_sano(calorias, vegetariano)` agree on every ingredient |
| Funciones.CalcularCosto | models/funciones.py:7-8 | with non-negative prices, the cost is non-negative and at least each single price |
| Funciones.CostoVacio | models/funciones.py:7-8 | the cost of no ingredients is 0 |
| Funciones.CostoConcatenado | models/funciones.py:7-8 | cost is additive over concatenation of ingredient lists |
| Funciones.CostoRotado | models/funciones.py:7-8 | cost does not depend on order: moving the first ingredient to the end leaves it unchanged |
| Funciones.CalcularRentabilidad | models/funciones.py:10-11 | profitability plus cost equals the price; with non-negative prices it never exceeds the price |
| Funciones.RentabilidadConIngredienteExtra | models/funciones.py:10-11 | one more ingredient lowers profitability by exactly its price |
| Funciones.IndiceMasRentable | models/funciones.py:13-14 | the index chosen is a maximum of `rentabilidad`, and every earlier element is strictly smaller, so ties go to the first |
| Funciones.ProductoMasRentable | models/funciones.py:13-14 | no result exactly when the list is empty (where `max` raises); otherwise the name of the first product of maximal profitability |
| Funciones.MasRentableEstableAlFinal | models/funciones.py:13-14 | appending products that are no more profitable than the winner does not change the winner |
| BaseDatos.BuscarUsuario | controllers/auth_controller.py:28 | `Usuario.query.get(id)` finds a row with that id, or none when no row has it |
| BaseDatos.BuscarPorUsername | controllers/auth_controller.py:92 | `filter_by(username=...).first()` gives the first row with that username, or none when no row has it |
| BaseDatos.BuscarIngrediente | controllers/heladeria_controller.py:393 | `Ingrediente.query.get(id)` finds a row with that id, or none when no row has it |
| BaseDatos.BuscarProducto | controllers/heladeria_controller.py:258 | `Producto.query.get(id)` finds a row with that id, or none when no row has it |
| BaseDatos.Persistir | controllers/auth_controller.py:33-38 | a commit writes back the role flags that `token_required` set on the loaded user, changes only that row's flags, and changes nothing when the user is not stored |
| BaseDatos.PersistirConservaValidez | controllers/auth_controller.py:33-38 | writing back the flags keeps ids increasing and usernames unique |
| BaseDatos.ActualizarIngredienteConservaValidez | controllers/heladeria_controller.py:397-398 | updating an ingredient row in place keeps its key, so the table's ids and the invariant are unchanged |
| BaseDatos.ActualizarProductoConservaValidez | controllers/heladeria_controller.py:262-263 | updating a product row in place keeps its key and name, so the table's ids and the invariant are unchanged |
| BaseDatos.BaseDeDatos.constructor | database/__init__.py:6 | a fresh session starts with three empty tables that satisfy the invariant |
| BaseDatos.BaseDeDatos.Confirmar | controllers/heladeria_controller.py:398 | `db.session.commit()`: the session's tables become exactly the given valid tables |
| Http.EnteroDeFormulario | controllers/heladeria_controller.py:79 | `int(request.form.get(k, 0))` fails exactly on a non-numeral, gives the numeral's value when there is one, and gives 0 when the field is absent |
| Auth.RolesDe | controllers/auth_controller.py:53-64 | the roles a user holds are among `admin`, `empleado` and `cliente` |
| Auth.TieneAlgunRol | controllers/auth_controller.py:53-64 | the `any(getattr(u, f'es_{role}', False))` test holds exactly when some listed role's flag is set |
| Auth.TieneAlgunRolSiiInterseccion | controllers/auth_controller.py:60-68 | access is allowed exactly when the user's role set meets the listed roles (OR semantics) |
| Auth.SinRolesDeniega | controllers/auth_controller.py:60-68 | an empty role list denies every user |
| Auth.RolDesconocidoNoCuenta | controllers/auth_controller.py:60-68 | a role name other than the three known ones never changes the decision |
| Auth.RoleRequiredApi | controllers/auth_controller.py:60-68 | the handler runs exactly when some listed role's flag is set; otherwise the answer is 403 "No autorizado" |
| Auth.ConRolesDeClaims | controllers/auth_controller.py:33-35 | the user keeps id, username and password; each flag becomes the claim's value, with `False` when the claim is absent |
| Auth.Decodificar | controllers/auth_controller.py:21-26 | decoding is skipped (no result) exactly when the header is missing or empty; otherwise the result is the decoder's verdict on the header's value |
| Auth.TokenRequired | controllers/auth_controller.py:18-44 | missing header gives 401 "Token requerido"; expired gives 401; invalid gives 401; no `user_id` claim gives 500; unknown user gives 404; the handler runs exactly when the claims are valid, carry a `user_id` and that user is stored, and it gets the stored row with its flags overwritten from the claims |
| Auth.TokenRequiredIgnoraRolesAlmacenados | controllers/auth_controller.py:28-38 | the stored role flags never affect the outcome of `token_required` |
| Auth.Autenticar | controllers/auth_controller.py:18-68 | `token_required` then `role_required_api`: the token's errors pass through unchanged; a resolved user is let in exactly when it holds a listed role; otherwise 403 |
| Auth.EmitirClaims | controllers/auth_controller.py:97-103 | the claims carry the user's id and `exp = now + 1 hour`, and resolving them again gives back exactly the stored flags |
| Auth.TokenEmitidoResuelve | controllers/auth_controller.py:18-44 | a token issued at login resolves to exactly the stored user before it expires, and gives 401 "El token ha expirado" from one hour on |
| Auth.UsuarioActual | app.py:38-40 | the session's user is the stored row with that id, re-read on every request, or none |
| Auth.RevocacionAsimetrica | controllers/auth_controller.py:18-82 | after an admin's flag is revoked in the table, an earlier token still passes the `admin` API gate while the session page guard denies |
| Auth.RoleRequiredHtml | controllers/auth_controller.py:71-82 | a user without a listed role gets 403 and the view's effects are lost; a first run that raises gives 500 on unchanged tables; otherwise the view runs a second time on the tables the first run left, and its outcome is returned, or 500 on those tables when that second run raises |
| Auth.PaginaProtegida | controllers/auth_controller.py:71-82 | without a logged-in user the page redirects to `auth.login`; otherwise the outcome is that of the role guard for the stored user |
| Auth.RoleRequiredHtmlDenegadoNoEjecuta | controllers/auth_controller.py:71-82 | when access is denied the view never matters: any two views give the same unchanged tables and 403 |
| Auth.VerificarCredenciales | controllers/auth_controller.py:92-93 | credentials are accepted exactly when the first row with that username exists and its password checks, and the match is that row |
| Auth.Login | controllers/auth_controller.py:85-116 | GET renders the form; a failed POST gives 401 for JSON or a redirect to the form; a successful POST sets the session to the user and answers with a token of its claims (JSON) or a redirect to the product list |
| Auth.ApiLogin | controllers/auth_controller.py:119-143 | a missing field gives 400 before any lookup; bad credentials give 401; otherwise 200, with a token for the matched user's claims |
| Auth.FallosDeLoginIndistinguibles | controllers/auth_controller.py:92-133 | a wrong password for a known user and any password for an unknown user give identical responses, on both login routes |
| Auth.LoginJsonComoApiLogin | controllers/auth_controller.py:85-143 | a JSON POST to `/login` and `/api_login` with both fields give the same response |
| Auth.AltaUsuario | controllers/auth_controller.py:157-169 | a duplicate username is refused; a missing password is an error; otherwise exactly one row is appended, with the next id, the hashed password and each flag defaulting to false; the invariant is kept |
| Auth.RegisterDuplicadoNoCambia | controllers/auth_controller.py:157-158 | registering an existing username gives 400 and leaves every table unchanged |
| Auth.RegisterAgregaUnUsuario | controllers/auth_controller.py:160-170 | a new username with a password adds exactly one user with the given flags and answers 201; the other tables are unchanged |
| Auth.RegisterConservaValidez | controllers/auth_controller.py:146-170 | registration keeps ids increasing and usernames unique |
| Auth.Register | controllers/auth_controller.py:146-170 | the route's new tables and response are those of its effect function, and the invariant is kept |
| Heladeria.AccesoPorRuta | controllers/heladeria_controller.py:135-405 | the role gate of each API route: admin only; employee or admin; or any of the three roles |
| Heladeria.ClienteNoVeRentabilidad | controllers/heladeria_controller.py:282-285 | a token without the admin claim is refused 403 on the profitability route |
| Heladeria.VistaProducto | controllers/heladeria_controller.py:36-47 | everyone sees id, name, price and calories; cost and profitability appear exactly for an admin, with the stored values |
| Heladeria.VistaOcultaCostoYRentabilidad | controllers/heladeria_controller.py:36-47 | a non-admin cannot tell apart two products that differ only in cost, profitability or stock |
| Heladeria.EsAdminEnSesion | controllers/heladeria_controller.py:43 | the session user is admin exactly when a stored user is logged in and its admin flag is set |
| Heladeria.PaginaDetalleProducto | controllers/heladeria_controller.py:25-49 | an unknown id redirects to the product list, and exactly then; a known id always renders the detail page, showing that product filtered by the session user's admin flag |
| Heladeria.ListarProductos | controllers/heladeria_controller.py:152-179 | 200 with one entry per product, in order, each filtered by the session user's admin flag |
| Heladeria.LeerProducto | controllers/heladeria_controller.py:183-193 | gate errors pass through; past the gate, the product is found exactly when its id is stored, else 404 |
| Heladeria.LeerIngrediente | controllers/heladeria_controller.py:346-356 | gate errors pass through; past the gate, the ingredient is found exactly when its id is stored, else 404 |
| Heladeria.ObtenerProducto | controllers/heladeria_controller.py:183-201 | 200 exactly when the gate and the lookup succeed, with all six fields of that product; otherwise the gate's refusal or the 404 of the lookup, unchanged |
| Heladeria.ConsultarCalorias | controllers/heladeria_controller.py:268-279 | 200 exactly when the gate and the lookup succeed, with the product's calories; otherwise the gate's refusal or the 404 of the lookup, unchanged |
| Heladeria.ConsultarRentabilidad | controllers/heladeria_controller.py:282-293 | 200 exactly when the admin gate and the lookup succeed, with the product's profitability; otherwise the gate's refusal or the 404 of the lookup, unchanged |
| Heladeria.ConsultarCostoProduccion | controllers/heladeria_controller.py:296-307 | 200 exactly when the admin gate and the lookup succeed, with the product's production cost; otherwise the gate's refusal or the 404 of the lookup, unchanged |
| Heladeria.ObtenerProductoPorNombre | controllers/heladeria_controller.py:205-223 | a refusal of the gate is the response; past the gate, a stored name gives 200 with a product and a missing one gives 404, and exactly then; the product is the first with that name |
| Heladeria.ObtenerIngredientePorNombre | controllers/heladeria_controller.py:226-244 | a refusal of the gate is the response; past the gate, a stored name gives 200 with an ingredient and a missing one gives 404, and exactly then; the ingredient is the first with that name |
| Heladeria.ListarIngredientes | controllers/heladeria_controller.py:327-343 | the whole ingredient table with 200, exactly when the gate lets the caller in; otherwise the gate's own 401/403/404/500 response |
| Heladeria.ObtenerIngrediente | controllers/heladeria_controller.py:346-364 | 200 exactly when the gate and the lookup succeed, with all columns of that ingredient; otherwise the gate's refusal or the 404 of the lookup, unchanged |
| Heladeria.ConsultarIngredienteEsSano | controllers/heladeria_controller.py:367-379 | 200 exactly when the gate and the lookup succeed, reporting `calorias < 100 and es_vegetariano`; otherwise the gate's refusal or the 404 of the lookup, unchanged |
| Heladeria.SanoSegunApiMasEstricto | controllers/heladeria_controller.py:378 | the API's conjunction implies the model's disjunction but not conversely: chocolate at 120 calories, vegetarian, is healthy for the model and not for the API |
| Heladeria.Sumando | controllers/heladeria_controller.py:391-397 | `inventario += cantidad` succeeds for an integer or a bool (as 1/0) and raises for null, text or containers |
| Heladeria.IngredienteReabastecido | controllers/heladeria_controller.py:397 | the stock grows by the amount and every other column stays |
| Heladeria.ProductoReabastecido | controllers/heladeria_controller.py:262 | the stock grows by the amount and every other column stays |
| Heladeria.ReabastecerIngredienteRechazos | controllers/heladeria_controller.py:390-397 | every response other than the success leaves the tables unchanged; an unknown id gives 404; an amount that cannot be added gives 500 |
| Heladeria.ReabastecerIngredienteSuma | controllers/heladeria_controller.py:390-399 | a successful restock adds the amount to exactly the first row with that id, leaves every other ingredient and all products unchanged, changes only users' role flags, and with no `cantidad` leaves stock unchanged |
| Heladeria.ReabastecerDiezMasVeinte | tests/test_heladeria.py:41-54 | restocking an ingredient with stock 10 by 20 gives 30 |
| Heladeria.ReabastecerIngrediente | controllers/heladeria_controller.py:382-399 | the route's new tables and response are those of its effect function, and the invariant is kept |
| Heladeria.AtenderReabastecerIngrediente | controllers/heladeria_controller.py:390-399 | the handler body's new tables and response are those of its effect function for the user the gate let in, and the invariant is kept |
| Heladeria.ReabastecerProductoSuma | controllers/heladeria_controller.py:255-264 | unknown id gives 404 with no change; otherwise the amount is added to that product's stock only, ingredients are unchanged and only users' role flags may change |
| Heladeria.ReabastecerProducto | controllers/heladeria_controller.py:247-264 | the route's new tables and response are those of its effect function, and the invariant is kept |
| Heladeria.AtenderReabastecerProducto | controllers/heladeria_controller.py:255-264 | the handler body's new tables and response are those of its effect function, and the invariant is kept |
| Heladeria.NuevaCantidad | controllers/heladeria_controller.py:419 | a new quantity is accepted exactly when it is an integer or a bool and not negative; an integer is taken as itself and a bool as 1 or 0 |
| Heladeria.RenovarOrdenDeControles | controllers/heladeria_controller.py:411-426 | unknown id gives 404 first; then a missing, non-integer or negative quantity gives 400 with no change; otherwise the stock is set to exactly that quantity and nothing else changes but users' role flags |
| Heladeria.RenovarInventarioProducto | controllers/heladeria_controller.py:402-426 | the route's new tables and response are those of its effect function, and the invariant is kept |
| Heladeria.AtenderRenovarInventarioProducto | controllers/heladeria_controller.py:411-426 | the handler body's new tables and response are those of its effect function, and the invariant is kept |
| Heladeria.Vendido | controllers/heladeria_controller.py:322 | a sale adds the public price to profitability and keeps every other field |
| Heladeria.VenderSumaPrecio | controllers/heladeria_controller.py:318-324 | unknown id gives 404 with no change; otherwise only that product's profitability grows, by exactly its price, its stock is untouched, all other products and ingredients are unchanged and only users' role flags may change |
| Heladeria.VenderProducto | controllers/heladeria_controller.py:310-324 | the route's new tables and response are those of its effect function, and the invariant is kept |
| Heladeria.AtenderVenderProducto | controllers/heladeria_controller.py:318-324 | the handler body's new tables and response are those of its effect function, and the invariant is kept |
| Heladeria.AdminNuevo | controllers/heladeria_controller.py:146 | the created user is `admin` with only the admin flag, an unhashed password and an id above every existing one |
| Heladeria.CrearAdminInsertaSiAusente | controllers/heladeria_controller.py:143-149 | an existing `admin` gives 400 with no change; otherwise exactly one admin row is appended and the other tables are unchanged |
| Heladeria.CrearAdminConservaValidez | controllers/heladeria_controller.py:143-148 | creating the admin keeps ids increasing and usernames unique |
| Heladeria.CrearAdmin | controllers/heladeria_controller.py:135-149 | the route's new tables and response are those of its effect function, and the invariant is kept |
| Heladeria.PaginaListarIngredientes | controllers/heladeria_controller.py:53-62 | the page renders exactly for a logged-in employee or admin; any other logged-in user gets 403; a visitor with no session user is redirected to the login page |
| Heladeria.VistaReabastecerIngrediente | controllers/heladeria_controller.py:73-85 | one run of the view: new tables and response as its effect function says, with no change when `int()` raises |
| Heladeria.PaginaReabastecerSumaDosVeces | controllers/heladeria_controller.py:65-83 | because the guard runs the view twice, an admin's POST adds twice the amount to the ingredient, which differs from one run whenever the amount is not 0 |
| Heladeria.PaginaReabastecerIngrediente | controllers/heladeria_controller.py:65-85 | the page's new tables and response are those of its effect function, and the invariant is kept |
| Heladeria.VistaRenovarInventarioProducto | controllers/heladeria_controller.py:117-129 | one run of the view: new tables and response as its effect function says, with no change when `int()` raises |
| Heladeria.PaginaRenovarComoUnaVez | controllers/heladeria_controller.py:109-127 | setting the stock survives the double run: for an admin the page's outcome equals one run of the view, and 500 with no change when `int()` raises |
| Heladeria.PaginaRenovarInventarioProducto | controllers/heladeria_controller.py:109-129 | the page's new tables and response are those of its effect function, and the invariant is kept |
| Heladeria.PaginaVenderComoApi | controllers/heladeria_controller.py:94-104 | an unknown id or a GET leaves the tables unchanged; a POST changes the products exactly as the API sale does |
| Heladeria.PaginaVenderProducto | controllers/heladeria_controller.py:88-106 | the page's new tables and response are those of its effect function, and the invariant is kept |
| Poblar.SembrarUsuario | poblar_base_datos.py:68-74 | a seed user is appended with the next id only when no user has its username; otherwise the table is unchanged |
| Poblar.SembrarUsuarioExtiende | poblar_base_datos.py:68-74 | seeding one user keeps every existing row, leaves its username present, and any added row has exactly the stated flags |
| Poblar.SembrarUsuarioConservaValidez | poblar_base_datos.py:68-74 | seeding one user keeps ids increasing and usernames unique |
| Poblar.SembrarUsuariosExtiende | poblar_base_datos.py:68-90 | seeding the three users leaves every existing user untouched, as a prefix |
| Poblar.SembrarUsuariosPresentes | poblar_base_datos.py:68-90 | after seeding, `admin`, `empleado` and `cliente` all exist |
| Poblar.SembrarUsuariosConservaValidez | poblar_base_datos.py:68-90 | seeding the users keeps ids increasing and usernames unique |
| Poblar.SembrarUsuariosRoles | poblar_base_datos.py:68-90 | each added user is one of the three seeds with exactly its one role flag |
| Poblar.SembrarIngrediente | poblar_base_datos.py:100-106 | a seed ingredient is appended with the next id only when no row has its name; existing rows stay; ids stay increasing |
| Poblar.SembrarIngredientesExtiende | poblar_base_datos.py:100-106 | the loop keeps existing ingredients as a prefix and ids increasing |
| Poblar.SembrarIngredientesContiene | poblar_base_datos.py:100-106 | after the loop every seed ingredient's name is present |
| Poblar.SembrarIngredientesDeSemilla | poblar_base_datos.py:94-106 | every added ingredient carries a seed name |
| Poblar.SembrarIngredientesNuevas | poblar_base_datos.py:100-106 | every added ingredient's name differs from all rows before it |
| Poblar.SembrarIngredientesPresentes | poblar_base_datos.py:100-106 | when every seed name is already present, the loop changes nothing |
| Poblar.SembrarProducto | poblar_base_datos.py:116-122 | a seed product is appended with the next id only when no row has its name; existing rows stay; ids stay increasing and names unique |
| Poblar.SembrarProductosExtiende | poblar_base_datos.py:116-122 | the loop keeps existing products as a prefix, ids increasing and names unique |
| Poblar.SembrarProductosContiene | poblar_base_datos.py:116-122 | after the loop every seed product's name is present |
| Poblar.SembrarProductosDeSemilla | poblar_base_datos.py:110-122 | every added product carries a seed name |
| Poblar.SembrarProductosNuevas | poblar_base_datos.py:116-122 | every added product's name differs from all rows before it |
| Poblar.SembrarProductosPresentes | poblar_base_datos.py:116-122 | when every seed name is already present, the loop changes nothing |
| Poblar.EfectoPoblar | poblar_base_datos.py:125-129 | a failed commit rolls back to the initial tables, leaving no partial seed |
| Poblar.SembrarConservaValidez | poblar_base_datos.py:63-126 | seeding keeps all three tables' ids increasing and usernames and product names unique |
| Poblar.SembrarIdempotente | poblar_base_datos.py:63-126 | seeding twice gives the same tables as seeding once |
| Poblar.SembrarVaciaUsuarios | poblar_base_datos.py:68-90 | on an empty user table the seed creates admin, empleado and cliente with ids 1, 2, 3, their hashed passwords and one role each |
| Poblar.SembrarUsuariosEn | poblar_base_datos.py:68-90 | the user inserts change the user table as the seeding function says and nothing else |
| Poblar.SembrarIngredientesEn | poblar_base_datos.py:100-106 | the ingredient loop changes the ingredient table as the seeding function says and nothing else |
| Poblar.SembrarProductosEn | poblar_base_datos.py:116-122 | the product loop changes the product table as the seeding function says and nothing else |
| Poblar.PoblarBaseDatos | poblar_base_datos.py:63-129 | the script's final tables are the seeded ones on commit and the initial ones on rollback, and the invariant is kept |
| Poblar.RegisterUserInsertaSiAusente | poblar_base_datos.py:33-59 | a duplicate gives 400 with no change; a missing password or a failed commit gives 500 with no change; otherwise exactly one user with the given flags is appended and 201 returned; the invariant is kept |
| Poblar.RegisterUser | poblar_base_datos.py:27-59 | the route's new tables and response are those of its effect function, and the invariant is kept |

## Left out

- JWT signing and verification (HS256, RFC 7519) are the abstract `Decodificador` and `Codificador`. Only the outcome shapes are modelled: valid claims, expired or invalid. `Auth.CodecConforme` states what a conforming codec gives back for an issued token.
- PBKDF2 hashing is the constructor `Pbkdf2(p)`, and password checking is the opaque `checkPassword`. Neither is computed.
- The wall clock is the integer parameter `ahora`, counted in seconds.
- Flask-Login session machinery is not modelled: `login_user`, `logout_user`, the `/logout` and `/protegido` routes, and cookies. The session is the stored `user_id`; `Auth.Login` returns the id it would store.
- `solo_admin` is left out. It stacks the API role guard under `login_required`, so its handler never receives the user argument the guard passes, and the route fails.
- Template rendering, `flash` messages and the interpolated text of JSON messages are left out. Responses are a status with a payload kind, a template name, a redirect endpoint or an abort code.
- The `pagina_listar_productos` page and the 403 error handler `manejar_no_autorizado` are not modelled. Each only renders a template.
- `print` debugging output is not modelled.
- `calcular_calorias` is left out: it relies on floating-point multiplication and `round`.
- Float columns are exact reals, with no rounding.
- JSON numbers with a fractional part are not modelled. `Valor` has no such case, so `cantidad: 2.5` is not represented.
- A missing or non-object JSON body is not modelled. The handlers would raise on `data.get`, and every modelled request body is an object.
- `register` with no `username` is not modelled. The model's `DatosRegistro` always carries a username string.
- The functions in `funciones.py` take lists of dicts. A dict missing `precio`, `rentabilidad` or `nombre` would raise `KeyError`; the model takes records, which always have those fields.
- Modelos.Producto, Modelos.Ingrediente: nullable columns are not modelled, every column always holds a value. For products these are `calorias_totales`, `costo_produccion` and `rentabilidad`. For ingredients they are `inventario` and `es_vegetariano` (models/ingrediente.py:10-11), which have defaults but no `nullable=False`. A stored NULL `inventario` makes the restock's `+=` raise TypeError, answered with 500. A stored NULL `es_vegetariano` makes `es_sano` return None, not False, for an ingredient with 100 calories or more. The model has neither case.
- Products have an `inventario` field. It is not a declared column of the product model, but the handlers read and write it as one. Seeded products start with stock 0.
- Heladeria.ReabastecerProductoSuma, Heladeria.RenovarOrdenDeControles and Heladeria.PaginaRenovarComoUnaVez state what the handlers evidently intend, not what the program as written does. Because `Producto` declares no `inventario` column, `producto.inventario += cantidad` (controllers/heladeria_controller.py:262) raises AttributeError and answers 500. The assignments `producto.inventario = ...` at lines 124 and 423 set a plain Python attribute, which the commit never stores.
- Auto-increment ids are the last id plus one. Gaps left by a rolled-back insert are not modelled.
- The database engine, migrations and `create_database_if_not_exists` are not modelled. Concurrent requests are not modelled either; each request runs alone on the tables.
- BaseDatos.BuscarPorUsername, Heladeria.ObtenerProductoPorNombre, Heladeria.ObtenerIngredientePorNombre, Auth.AltaUsuario, Poblar.SembrarUsuario, Poblar.SembrarIngrediente and Poblar.SembrarProducto compare names with exact string equality. The program's tables live in MySQL, whose default collation ignores case, so the program's `filter_by(username=...)` and `filter_by(nombre=...)` also match names that differ only in case. For example, with `admin` stored, registering `Admin` gives 400 in the program, but the model appends the new user. Collations are not modelled.
- Heladeria.IngredienteReabastecido and Heladeria.ReabastecerIngredienteSuma add unbounded integers. The program's `inventario` is a 32-bit `db.Integer` column, so a restock past 2^31 - 1 fails at commit on a strict-mode server instead of being stored. Column widths are not modelled.
- Auth.ApiLogin and Auth.Login take the username and password as strings. A JSON value of another type, such as `"password": null`, cannot be represented, so what `check_password` does with it is not modelled.
- `Auth.Login` receives the username and password already taken from the form or the JSON body. The `or` fallback between the two sources in lines 89-90 is not modelled.
