# AppCenar in Dafny

AppCenar is a food-ordering web application. Clients browse merchants' catalogues, fill a
browser cart and place orders. Merchants manage their categories and products and assign a
courier to each order. Couriers complete orders. Administrators switch accounts on and off,
manage the business types and set the tax rate (ITBIS).

This project models the application's decision logic and its store updates:

- the cart, and the id list it submits;
- the server-side decoding and pricing of that list;
- order creation, with one snapshot line per unit;
- the order and courier life cycle;
- the tax-rate singleton;
- login, registration, activation and password-reset tokens;
- the owner-scoped tables of addresses, products, categories, favourites and business types;
- the middleware gates;
- the form validators;
- the template helpers;
- the upload rules;
- the request-metrics collector.

The store is a class `Db.Base` with one map per collection. Handlers are methods that
change the tables named in their `modifies` clause. Their `ensures` clauses tie the new
tables to pure functions, and the lemmas about the application's promises are stated on
those functions. The browser cart (`Carrito.CarritoCompras`) and the metrics collector
(`Metrics.MetricsCollector`) are classes whose fields the methods update in place.

Conventions:

- Ids are natural numbers.
- Time is whole milliseconds, passed in as a parameter.
- Random tokens and file names are parameters.
- bcrypt is an injective `Hash` constructor.
- Amounts are exact reals, or whole cents in the currency helper.

## Model

| member | source | states |
|---|---|---|
| Texto.Recortar | models/Usuario.js:6-12 | `trim`: the result is no longer than the input and neither starts nor ends with whitespace (`RecortarInfijo` places it in the input) |
| Texto.RecortarInfijo | models/Usuario.js:6-12 | the trim is the infix of the input with only whitespace before and after it, which with its non-blank ends makes it the only such infix |
| Texto.RecortarIdempotente | models/Producto.js:4-13 | trimming a trimmed field again changes nothing, so a re-save keeps the stored text |
| Texto.RecortarVacio | middleware/validators.js:16-18 | trimming leaves the empty text exactly when the input is all whitespace |
| Texto.Minusculas | config/multer.js:24 | `toLowerCase` keeps the length and maps each character to its lower-case form, every ASCII capital to its small letter and every other character to itself |
| Texto.ContieneDesde | config/multer.js:23-25 | the executable search answers true exactly when the literal occurs at or after the start position |
| Texto.Decimal | app.js:56 | `String(n)` of a whole number is a non-empty digit string with no leading zero |
| Texto.LeerDecimalDeDecimal | app.js:56 | reading a printed whole number back gives the number |
| Texto.DecimalInyectivo | app.js:56 | distinct numbers print differently |
| Modelos.LeerRol | models/Usuario.js:18-22 | the role enum admits exactly the four role names |
| Modelos.LeerNombreRol | models/Usuario.js:18-22 | each role's stored name reads back as that role |
| Modelos.Requerido | models/Producto.js:4-13 | a required trimmed field is present exactly when its trimmed text is non-empty, and then holds that text |
| Modelos.RequeridoEstable | models/Producto.js:4-13 | a stored required field passes its own setter and validator unchanged |
| Modelos.NuevoUsuario | models/Usuario.js:23-42 | a new account is inactive, has no tokens, has no forced change and is an available courier, as the schema defaults give |
| Modelos.NormalizarCorreo | models/Usuario.js:6-12 | the stored address is the input without the whitespace at its ends, each capital lowered: it has no capital letter and neither starts nor ends with whitespace |
| Modelos.PrecioNumerico | controllers/clienteController.js:156-161 | the price the handlers multiply and add: the stored number, or 0 for a null price, as JavaScript arithmetic reads `null` |
| Modelos.AntesDeGuardar | models/Usuario.js:113-126 | the save hook hashes the password only when it was modified, and changes no other field |
| Modelos.GuardarPasswordNuevo | models/Usuario.js:113-139 | after a new plain password is saved, `compararPassword` accepts exactly that password |
| Modelos.GuardarSinPasswordConserva | models/Usuario.js:113-117 | a save that did not touch the password accepts the same candidates as before |
| Modelos.AJson | models/Usuario.js:144-151 | `toJSON` drops the password, the activation token and the expiry, and keeps `tokenResetPassword` and every other present field |
| Http.InicioDeRol | controllers/authController.js:7-21 | each of the four roles has its dashboard, and any other text has none |
| Http.InicioDeRolInyectivo | controllers/authController.js:7-21 | different roles have different dashboards |
| Db.Base.PrimeraConfiguracion | models/Configuracion.js:17 | `findOne()` finds nothing exactly when the collection is empty, and otherwise finds a stored document |
| Db.Base.GuardarPedido | models/Pedido.js:4-53 | the validating save stores the order exactly when it meets the schema, and otherwise leaves the table unchanged |
| Precios.Tasa | controllers/clienteController.js:169-171 | the rate is 18 without a configuration, and within [0, 100] with a valid one |
| Precios.ValorItbis | controllers/clienteController.js:172 | the tax lies between 0 and the subtotal for a non-negative subtotal and a rate in [0, 100] |
| Precios.Total | controllers/clienteController.js:173 | the total is the subtotal scaled by 1 + rate/100, so it lies between the subtotal and twice the subtotal |
| Precios.TotalSinConfiguracion | controllers/pedidoController.js:27-29 | with no configuration the tax is 18 % of the subtotal and the total 118 % |
| Usuarios.BuscarUsuario | controllers/authController.js:58-60 | `findOne` returns a matching stored account when one exists, and nothing otherwise |
| Usuarios.GuardarNuevo | models/Usuario.js:6-17 | a new document is stored, with its password hashed, exactly when its address is not blank, its password is not the empty text and it breaks no unique index |
| Usuarios.GuardarExistente | models/Usuario.js:13-17 | a loaded document is written back, re-hashing the password only when it was assigned; a stored empty address, or an assigned empty password, fails `required` and writes nothing |
| ConfiguracionModelo.ConDefecto | models/Configuracion.js:16-25 | find-or-create keeps an existing collection unchanged, and otherwise creates exactly one document with rate 18 |
| ConfiguracionModelo.ConDefectoIdempotente | models/Configuracion.js:16-25 | a second find-or-create creates nothing |
| ConfiguracionModelo.ConDefectoConservaTasa | models/Configuracion.js:16-25 | creating the default document does not change the rate the order flows read |
| ConfiguracionModelo.ObtenerConfiguracion | models/Configuracion.js:16-25 | returns the first stored document, or stores and returns the default one |
| ConfiguracionController.Mostrar | controllers/configuracionController.js:4-46 | the settings pages create the default document only when none exists, and never overwrite a stored rate |
| ConfiguracionController.Editado | controllers/configuracionController.js:48-68 | a rate in [0, 100] replaces the first document's rate, or creates a document holding it; an absent rate creates the default 18 only in an empty collection; an empty text, a non-number or a rate out of range is refused |
| ConfiguracionController.EditadoFijaTasa | controllers/configuracionController.js:48-68 | after a successful edit both order flows price at exactly the new rate |
| ConfiguracionController.Editar | controllers/configuracionController.js:48-68 | the store after the handler is the edited collection, or is unchanged when the save is refused |
| Carrito.Indice | public/js/carrito.js:80-81 | `findIndex` finds the first line with the id, or reports that no line has it |
| Carrito.Agregar | public/js/carrito.js:56-100 | adding bumps the quantity of an id already present or appends it with quantity 1; an invalid card changes nothing; ids stay unique |
| Carrito.Incrementar | public/js/carrito.js:102-109 | only the matching line gains one unit; an unknown id changes nothing |
| Carrito.Eliminar | public/js/carrito.js:131-145 | exactly the matching line is removed and the others keep their order |
| Carrito.Decrementar | public/js/carrito.js:114-126 | a line above 1 loses one unit, a line at 1 is removed, so every quantity stays at least 1 |
| Carrito.Repetir | public/js/carrito.js:252-254 | `n` copies of the id |
| Carrito.CodificarLongitud | public/js/carrito.js:250-257 | the encoded list has one entry per unit: its length is `cantidadTotal()` |
| Carrito.CodificarConcatenar | public/js/carrito.js:250-255 | encoding a concatenation concatenates the encodings |
| Carrito.CodificarSoloIds | public/js/carrito.js:250-255 | every entry of the encoded list is the id of a cart line |
| Carrito.CarritoCompras.constructor | public/js/carrito.js:8-20 | a new cart is empty, with continue disabled and input `'[]'` |
| Carrito.CarritoCompras.HabilitarContinuar | public/js/carrito.js:246-261 | the nested loops write the encoded list and enable continuing |
| Carrito.CarritoCompras.ActualizarCarrito | public/js/carrito.js:151-175 | the cart is kept; the submitted list becomes the cart's encoding, and continuing is enabled exactly when the cart is non-empty |
| Carrito.CarritoCompras.AgregarProducto | public/js/carrito.js:56-100 | the cart becomes `Agregar` of the old cart, and the submitted list and the continue button follow it |
| Carrito.CarritoCompras.IncrementarCantidad | public/js/carrito.js:102-109 | the cart becomes `Incrementar` of the old cart |
| Carrito.CarritoCompras.EliminarProducto | public/js/carrito.js:131-145 | the cart becomes `Eliminar` of the old cart |
| Carrito.CarritoCompras.DecrementarCantidad | public/js/carrito.js:114-126 | the cart becomes `Decrementar` of the old cart |
| Carrito.CarritoCompras.VaciarCarrito | public/js/carrito.js:332-336 | the cart and the list are empty and continuing is disabled |
| Carrito.CarritoCompras.CantidadTotal | public/js/carrito.js:275-277 | the unit count equals the length of the submitted list |
| Cliente.Contar | controllers/clienteController.js:158 | the number of entries equal to the id |
| Cliente.Unicos | controllers/clienteController.js:148 | `new Set` keeps each id once, in first-occurrence order, and drops none |
| Cliente.Resueltos | controllers/clienteController.js:149 | the `$in` lookup keeps exactly the listed ids that have a product, each once, in the list's first-occurrence order |
| Cliente.Cubiertos | controllers/clienteController.js:156-164 | the entries naming one of the products number at most the list length, and all of it when every entry does |
| Cliente.SumaConteosAnexar | controllers/clienteController.js:158 | one more entry raises the count of exactly the product it names |
| Cliente.SumaConteosCubiertos | controllers/clienteController.js:156-164 | over distinct products the counts add up to the entries naming one of them |
| Cliente.CantidadesResueltas | controllers/clienteController.js:148-164 | the quantities of the resolved products add up to at most the list length, and to exactly it when every id resolves |
| Cliente.IdsDe | public/js/carrito.js:9 | the ids of the cart lines, in cart order |
| Cliente.ContarConcatenar | controllers/clienteController.js:158 | counting in a concatenation adds the counts |
| Cliente.ContarRepetir | public/js/carrito.js:252-254 | `n` copies of an id count `n` for it and 0 for any other |
| Cliente.IdAusenteDeCodificacion | public/js/carrito.js:250-255 | an id absent from the cart does not occur in its encoding |
| Cliente.ContarCodificar | controllers/clienteController.js:158 | in the encoding of a cart with unique ids, each line's id occurs exactly `cantidad` times |
| Cliente.UnicosCodificar | controllers/clienteController.js:148 | deduplicating the encoded list gives the cart's ids in cart order |
| Cliente.ResueltosTodos | controllers/clienteController.js:149 | when every id has a product the lookup keeps the whole list |
| Cliente.DecodificarCarrito | controllers/clienteController.js:148-164 | decoding a submitted cart whose products exist gives back one line per cart line, each with its original quantity, in the cart's order |
| Cliente.Lineas | controllers/clienteController.js:157-164 | one priced line per resolved product, with its counted quantity and `precio * cantidad` |
| Cliente.SumaLineasAnexar | controllers/clienteController.js:167 | one more resolved product adds its line's amount to the subtotal |
| Cliente.LineaDeCarrito | controllers/clienteController.js:162 | a line's server amount is the browser's price times quantity |
| Cliente.SubtotalPrefijo | controllers/clienteController.js:167 | the running server subtotal over a cart prefix equals the browser subtotal of that prefix |
| Cliente.SubtotalCoincide | controllers/clienteController.js:148-167 | for a cart whose prices match the store, the server subtotal equals `calcularSubtotal` |
| Cliente.Copias | controllers/clienteController.js:308-314 | `n` copies of the unit line |
| Cliente.SnapshotLongitud | controllers/clienteController.js:298-316 | the snapshot has one line per unit: its length is the sum of the quantities |
| Cliente.SumaPreciosConcatenar | controllers/clienteController.js:298-316 | the stored prices of a concatenation add up |
| Cliente.SumaPreciosCopias | controllers/clienteController.js:308-314 | `n` copies of a line add up to `n` times its price |
| Cliente.SnapshotPrecios | controllers/clienteController.js:298-316 | the snapshot prices add up to the order's subtotal |
| Cliente.CalcularPedido | controllers/clienteController.js:294-316 | the loop accumulates exactly the subtotal and the snapshot the specification functions define |
| Cliente.SeleccionarDireccion | controllers/clienteController.js:104-198 | an unreadable or empty list goes back to the catalogue with nothing priced and the session untouched; otherwise the cart is kept in the session, a value that is not an array goes home, a list with no product goes back to the catalogue, and the rest is priced with its subtotal, rate, tax and total |
| Cliente.RestaurarCarrito | controllers/clienteController.js:203-229 | without a session cart the client goes home unpriced; otherwise the selection re-runs on the stored merchant and list |
| Cliente.RestaurarRepite | controllers/clienteController.js:136-141 | restoring a stored cart reproduces the selection that stored it: same response, session and prices |
| Cliente.CrearRechaza | controllers/clienteController.js:245-292 | no order is created when a field is missing, the list is unreadable or empty, nothing resolves, or the address or merchant is missing; only the missing address goes to the address list |
| Cliente.CrearPedidoNuevo | controllers/clienteController.js:294-341 | the created order is pending with no courier, has one snapshot line per unit whose prices add up to the subtotal, and tax and total at the configured rate |
| Cliente.CrearNoCompruebaPropietarios | controllers/clienteController.js:279-292 | the address's owner and the merchant's role are not checked |
| Cliente.SubtotalNoNegativo | controllers/clienteController.js:294-306 | stored non-negative prices give a non-negative subtotal |
| Cliente.CrearPedido | controllers/clienteController.js:234-362 | the order `Crear` describes is stored under the fresh id and the session cart is dropped; on failure nothing is stored and the session is kept |
| Cliente.DeCategoria | controllers/clienteController.js:81-87 | a group is empty exactly when no product carries its category name |
| Cliente.DeCategoriaAnexar | controllers/clienteController.js:81-87 | one more product extends only its own group |
| Cliente.AgruparPorCategoria | controllers/clienteController.js:79-98 | a product whose category name is inherited from `Object.prototype` makes the loop throw (no catalogue); otherwise one group per occurring name, each holding exactly that name's products in order |
| Cliente.CategoriaConstructorRompe | controllers/clienteController.js:80-87 | one product in a category named "constructor" breaks its merchant's catalogue |
| Cliente.Agrupar | controllers/clienteController.js:80-87 | on a table with no inherited entries every list groups: one group per occurring name, each holding exactly that name's products in order |
| Pedidos.Asignado | controllers/pedidoController.js:92-95 | the order gets the courier and 'en proceso' whatever its state, and a missing id changes nothing |
| Pedidos.Cerrado | controllers/deliveryController.js:66-68 | the order becomes 'completado' whatever its state, and a missing id changes nothing |
| Pedidos.ConDisponibilidad | controllers/pedidoController.js:98-100 | only the named account's availability changes |
| Pedidos.BuscarDelivery | controllers/pedidoController.js:80-84 | the search returns an active, available courier when there is one, and nothing otherwise |
| Pedidos.AsignarPedido | controllers/comercioController.js:76-79 | the order table becomes `Asignado` |
| Pedidos.CompletarPedido | controllers/deliveryController.js:66-68 | the order table becomes `Cerrado` |
| Pedidos.FijarDisponibilidad | controllers/deliveryController.js:71-73 | the user table becomes `ConDisponibilidad` |
| Pedidos.AsignarDelivery | controllers/comercioController.js:62-84 | with no eligible courier nothing changes; otherwise the chosen eligible courier gets the order and becomes 'ocupado' |
| Pedidos.Completar | controllers/deliveryController.js:66-73 | the order is closed and the session user, not the order's courier, becomes 'disponible' |
| Pedidos.AsignarQuitaElegible | controllers/pedidoController.js:80-100 | assignment takes exactly the chosen courier out of the eligible set |
| Pedidos.CicloCompleto | controllers/pedidoController.js:92-124 | assignment then completion by that courier leaves the order completed with that courier and the user table as before |
| Pedidos.CompletarSinAsignar | controllers/pedidoController.js:117-119 | a pending order with no courier can be completed directly |
| Pedidos.AsignarReabre | controllers/pedidoController.js:92-95 | a completed order can be reassigned and reopened |
| Pedidos.CompletarOtroUsuario | controllers/pedidoController.js:117-124 | when another user completes, the assigned courier stays 'ocupado' and the completer becomes 'disponible' |
| Pedidos.AsignarInexistente | controllers/pedidoController.js:92-100 | assigning a missing order changes no order, yet still marks the courier 'ocupado' |
| PedidoController.Referencias | controllers/pedidoController.js:35 | one bare reference per found product, with no name or price copied |
| PedidoController.Crear | controllers/pedidoController.js:8-51 | a missing address after a list, a missing value or `null` (parsed or raw) goes back to the catalogue; a missing value and `null` match no product; any document it builds lacks `itbis` and `direccion`, fails validation and sends the client home |
| PedidoController.CrearPedido | controllers/pedidoController.js:8-51 | the response is the one `Crear` gives on the store's products, addresses and configuration, and the handler never stores an order |
| PedidoController.CobraUnaVez | controllers/pedidoController.js:13-26 | for the list `[a, a]` the document holds one reference priced once, where the client flow charges two units |
| PedidoController.AsignarDelivery | controllers/pedidoController.js:75-109 | back to the order page whether or not a courier was found, with the store changed as `Pedidos.AsignarDelivery` |
| PedidoController.Completar | controllers/pedidoController.js:112-133 | the order is closed; the session user becomes available, or without one nothing else changes and the courier goes home |
| PedidoController.ListarPorRol | controllers/pedidoController.js:136-166 | a client, merchant or courier sees exactly the orders they take part in; an administrator or unknown role is refused, and no session user is a server error |
| ComercioController.MostrarHome | controllers/comercioController.js:7-24 | the dashboard lists exactly the orders of the session merchant |
| ComercioController.MostrarHomeComoListado | controllers/comercioController.js:9 | the dashboard lists the same orders as the JSON listing for a merchant |
| ComercioController.MostrarDetallePedido | controllers/comercioController.js:27-52 | any existing order is shown; a missing one goes to the dashboard |
| ComercioController.AsignarDelivery | controllers/comercioController.js:55-98 | neither the state nor the merchant of the order is checked, and the merchant goes back to the order page |
| ComercioController.PerfilComercio | controllers/comercioController.js:116-134 | when the account exists and the address is free, the sent phone (trimmed), address (normalised) and hours replace the stored ones and the logo changes only with an upload; an address already taken changes nothing; no other field changes |
| ComercioController.ActualizarPerfil | controllers/comercioController.js:116-134 | the session merchant's account becomes `PerfilComercio`, and without a session user nothing changes |
| DeliveryController.MostrarHome | controllers/deliveryController.js:5-21 | the dashboard lists exactly the orders of the session courier |
| DeliveryController.MostrarHomeComoListado | controllers/deliveryController.js:7 | the dashboard lists the same orders as the JSON listing for a courier |
| DeliveryController.AsignadoApareceEnInicio | controllers/deliveryController.js:7 | an order just assigned to the courier is on their dashboard |
| DeliveryController.MostrarDetallePedido | controllers/deliveryController.js:24-58 | any existing order is shown; a missing one goes to the dashboard |
| DeliveryController.CompletarPedido | controllers/deliveryController.js:61-82 | the order is closed whatever its state and courier, then the session user becomes available |
| DeliveryController.PerfilDelivery | controllers/deliveryController.js:100-117 | the sent name, surname and phone replace the stored ones trimmed, the photo changes only with an upload, and no other field changes |
| DeliveryController.ActualizarPerfil | controllers/deliveryController.js:100-117 | the session courier's account becomes `PerfilDelivery`, and without a session user nothing changes |
| AuthController.GetRoleHome | controllers/authController.js:7-21 | each role goes to its dashboard, and anything else to the login page |
| AuthController.MostrarLogin | controllers/authController.js:23-29 | a logged-in user goes to their dashboard, and anyone else sees the form |
| AuthController.SesionDe | controllers/authController.js:84-91 | the session record carries the account's id, role, address, activo flag and forced-change flag |
| AuthController.DecidirLogin | controllers/authController.js:52-118 | unknown, inactive (checked before the password) and wrong-password logins return to the form with the session untouched; success writes the session and goes to the dashboard or the forced change |
| AuthController.InactivoRechazado | controllers/authController.js:69-72 | an inactive account is refused even with the right password |
| AuthController.Login | controllers/authController.js:52-118 | the lookup by user name or address feeds the decision |
| AuthController.Logout | controllers/authController.js:377-383 | logout empties the session and goes to the login page |
| AuthController.RegistroCliente | controllers/authController.js:121-169 | a mismatch, a duplicate or a role outside the enum stores nothing; a stored account is inactive, holds the activation token and accepts the password; the user goes to login only when the mail went out |
| AuthController.RegistrarCliente | controllers/authController.js:121-169 | the store after the handler is the one `RegistroCliente` describes |
| AuthController.RegistroComercio | controllers/authController.js:171-217 | only the address is checked for duplicates; the stored account is an inactive merchant with no user name that holds the token and accepts the password |
| AuthController.RegistrarComercio | controllers/authController.js:171-217 | the store after the handler is the one `RegistroComercio` describes |
| AuthController.Activado | controllers/authController.js:219-243 | activation sets activo and clears the token |
| AuthController.ActivarCuenta | controllers/authController.js:219-243 | the account holding the token, if any, is activated, unless its stored address is empty and the save fails `required`; the user always returns to login |
| AuthController.RecuperarPassword | controllers/authController.js:250-298 | the named account gets the token with an expiry one hour from now, unless its stored address is empty and the save fails `required`; the user returns to the form either way |
| AuthController.MostrarResetPassword | controllers/authController.js:300-331 | the form is shown only while an account holds the unexpired token |
| AuthController.ResetPassword | controllers/authController.js:333-375 | a mismatch or an unknown or expired token changes nothing; an empty new password or an empty stored address fails `required` and changes nothing; otherwise the new password is stored and the token cleared |
| AuthController.TokenResetUnSoloUso | controllers/authController.js:333-375 | a reset token works until one hour after issue and only once, and afterwards only the new password is accepted |
| AuthController.ActivacionUnSoloUso | controllers/authController.js:219-243 | once the account holding an activation token is activated, no account matches that token |
| AuthController.RegistroActivacionLogin | controllers/authController.js:52-243 | a new account is refused at login until activated, and is then let in with its password |
| AdminController.Alternado | controllers/adminController.js:95-112 | the account's activo flag flips and nothing else changes; a missing account changes nothing |
| AdminController.AlternarDosVeces | controllers/adminController.js:95-112 | toggling twice restores the table |
| AdminController.Alternar | controllers/adminController.js:95-112 | the user table becomes `Alternado` |
| AdminController.ToggleActivoCliente | controllers/adminController.js:95-112 | the account is toggled, whatever its role, and the admin returns to the client list |
| AdminController.ToggleActivoDelivery | controllers/adminController.js:144-161 | the account is toggled and the admin returns to the courier list |
| AdminController.ToggleActivoComercio | controllers/adminController.js:190-207 | the account is toggled and the admin returns to the merchant list |
| AdminController.ToggleActivoAdministrador | controllers/adminController.js:329-352 | the session admin's own account is never toggled, and any other account is |
| AdminController.MostrarEditarAdministrador | controllers/adminController.js:278-300 | the session admin's own id is refused |
| AdminController.NuevoAdmin | controllers/adminController.js:233-276 | the new document is an active administrator with the given fields |
| AdminController.CrearAdministrador | controllers/adminController.js:233-276 | an admin is stored exactly when the passwords match, the user name and address are free and the document is valid (an empty password never is); otherwise nothing is stored and the form is shown again |
| AdminController.AdminCreadoEntra | controllers/adminController.js:233-276 | a stored new administrator can log in at once with their password |
| AdminController.Editado | controllers/adminController.js:302-327 | the sent text fields are stored trimmed and the address normalised, unsent ones kept; a non-blank password is stored hashed and a blank one keeps the stored password; no other field changes |
| AdminController.EditarAdministrador | controllers/adminController.js:302-327 | a non-blank mismatched password changes nothing; otherwise the account is updated unless an index clash refuses it |
| AdminController.EdicionSinPassword | controllers/adminController.js:309-316 | a blank password field never changes the stored password |
| AdminController.CambiarPasswordDe | controllers/adminController.js:364-421 | a mismatch, a short password, a missing account, a wrong current password or a stored empty address (the save fails `required`) return to the form and change nothing; success stores the password and clears the forced-change flag in account and session, keeping every other field of the account |
| AdminController.CambiarPassword | controllers/adminController.js:364-421 | the store and session after the handler are those `CambiarPasswordDe` describes, and without a session user nothing changes |
| FavoritoController.Alternado | controllers/favoritoController.js:4-36 | the toggle removes every row holding the pair, or adds one when there is none |
| FavoritoController.AlternarInvierte | models/Favorito.js:19 | a toggle flips its own pair's membership, keeps every other pair's, and keeps the pair index unique |
| FavoritoController.AlternarDosVeces | controllers/favoritoController.js:4-36 | two toggles of the same pair restore every membership |
| FavoritoController.Volver | controllers/favoritoController.js:4-36 | an absent or empty Referer falls back to the client home |
| FavoritoController.Toggle | controllers/favoritoController.js:4-36 | the handler deletes the found row or inserts a new one, then returns to the Referer; on a collection whose pair index holds this is `Alternado` |
| Propios.DeDueno | controllers/direccionController.js:6 | the owner query returns exactly the rows the user owns |
| Propios.Listar | controllers/productoController.js:5-20 | a list page shows exactly the session user's rows; without a session user it redirects with nothing listed |
| Propios.Formulario | controllers/direccionController.js:65-88 | an edit or delete form renders only for a row of the session user |
| Propios.Borrado | controllers/direccionController.js:135-150 | the owner-filtered delete removes the row only when the user owns it |
| Propios.ActualizarAislado | controllers/productoController.js:90-114 | an owner-filtered update leaves every other user's rows and list unchanged |
| Propios.BorrarAislado | controllers/productoController.js:141-156 | an owner-filtered delete leaves every other user's rows and list unchanged |
| DireccionController.Listar | controllers/direccionController.js:4-18 | exactly the session client's addresses |
| DireccionController.NuevaDireccion | controllers/direccionController.js:34-63 | both fields are required and trimmed, and the owner is the session client |
| DireccionController.TrasCrear | controllers/direccionController.js:45-51 | with a parked cart the client goes back to checkout, and otherwise to the list |
| DireccionController.Crear | controllers/direccionController.js:34-63 | a valid address is stored for the session client; otherwise nothing is stored |
| DireccionController.CrearDesdeCarrito | controllers/direccionController.js:20-63 | from checkout, a saved address sends the client back to checkout and is on their list |
| DireccionController.MostrarFormulario | controllers/direccionController.js:65-133 | the forms render only for the session client's own address |
| DireccionController.Cambiada | controllers/direccionController.js:90-108 | sent fields replace stored ones, trimmed, and the owner is kept |
| DireccionController.Editadas | controllers/direccionController.js:90-108 | only an address of the session client changes |
| DireccionController.Editar | controllers/direccionController.js:90-108 | the table becomes `Editadas`, and without a session user nothing changes |
| DireccionController.Eliminar | controllers/direccionController.js:135-150 | the owner-filtered delete |
| DireccionController.OtrosClientesIntactos | controllers/direccionController.js:90-150 | editing and deleting never reach another client's addresses |
| CategoriaController.ProductosDe | controllers/categoriaController.js:13-15 | exactly the products referencing the category |
| CategoriaController.Listar | controllers/categoriaController.js:5-30 | each of the session merchant's categories with its product count |
| CategoriaController.ProductoNuevoCuenta | controllers/categoriaController.js:13-15 | a new product raises only its own category's count, by one |
| CategoriaController.NuevaCategoria | controllers/categoriaController.js:39-58 | both fields are required and trimmed, and the owner is the session merchant |
| CategoriaController.InsertarConservaUnicas | models/Categoria.js:24 | inserting a name the merchant does not use keeps the index unique |
| CategoriaController.Crear | controllers/categoriaController.js:39-58 | a valid new name is stored; a missing field, a duplicate name or no session user stores nothing |
| CategoriaController.MostrarFormulario | controllers/categoriaController.js:60-128 | the forms render only for the merchant's own category |
| CategoriaController.Cambiada | controllers/categoriaController.js:85-103 | sent fields replace stored ones, trimmed |
| CategoriaController.Editadas | controllers/categoriaController.js:85-103 | only an own category changes, and an index clash changes nothing |
| CategoriaController.EditarConservaUnicas | models/Categoria.js:24 | the name index survives every edit |
| CategoriaController.Editar | controllers/categoriaController.js:85-103 | the table becomes `Editadas`; a refused update returns to the form |
| CategoriaController.Eliminar | controllers/categoriaController.js:130-145 | the owner-filtered delete |
| CategoriaController.EliminarDejaProductos | controllers/categoriaController.js:130-145 | the deleted category's products remain, referencing an id that is no longer a category |
| CategoriaController.OtrosComerciosIntactos | controllers/categoriaController.js:85-145 | editing and deleting never reach another merchant's categories |
| ProductoController.Listar | controllers/productoController.js:5-20 | exactly the session merchant's products |
| ProductoController.MostrarCrear | controllers/productoController.js:22-36 | the form offers exactly the session merchant's categories |
| ProductoController.NuevoProducto | controllers/productoController.js:38-60 | the product is saved exactly when the text fields, a non-negative price, the image and the category are present; the category's owner is not checked |
| ProductoController.Crear | controllers/productoController.js:38-60 | a valid product is stored for the session merchant; otherwise nothing is stored |
| ProductoController.CrearApareceEnListados | controllers/productoController.js:38-60 | a created product is on its merchant's list and raises its category's count by one |
| ProductoController.MostrarFormulario | controllers/productoController.js:62-139 | the forms render only for the merchant's own product |
| ProductoController.Cambiado | controllers/productoController.js:90-114 | sent fields replace stored ones, an empty price text stores a null price, and the image changes only with an upload |
| ProductoController.Editados | controllers/productoController.js:90-114 | only an own product changes |
| ProductoController.Editar | controllers/productoController.js:90-114 | a price text that is not a number (the empty text aside) or no session user changes nothing; otherwise the table becomes `Editados` |
| ProductoController.EditarSinValidar | controllers/productoController.js:90-114 | an edit can store a negative price and a blank name, or a null price, all of which creation refuses |
| ProductoController.Eliminar | controllers/productoController.js:141-156 | the owner-filtered delete |
| ProductoController.OtrosComerciosIntactos | controllers/productoController.js:90-156 | editing and deleting never reach another merchant's products |
| TipoComercioController.ComerciosDe | controllers/tipoComercioController.js:10-13 | exactly the merchant accounts of the type |
| TipoComercioController.Listar | controllers/tipoComercioController.js:5-33 | every type with its merchant count |
| TipoComercioController.NuevoTipo | controllers/tipoComercioController.js:42-61 | the text fields and the icon upload are required |
| TipoComercioController.Crear | controllers/tipoComercioController.js:42-61 | a valid type with a new name is stored, and the name index is kept |
| TipoComercioController.MostrarEditar | controllers/tipoComercioController.js:63-83 | the form renders exactly for an existing type |
| TipoComercioController.MostrarEliminar | controllers/tipoComercioController.js:108-135 | the confirmation shows the number of merchants of the type |
| TipoComercioController.Cambiado | controllers/tipoComercioController.js:85-106 | sent fields replace stored ones, and the icon changes only with an upload |
| TipoComercioController.Editados | controllers/tipoComercioController.js:85-106 | only the type changes, and a name clash changes nothing |
| TipoComercioController.EditarConservaUnicos | models/TipoComercio.js:4-9 | the name index survives every edit |
| TipoComercioController.Editar | controllers/tipoComercioController.js:85-106 | the table becomes `Editados`, and a clash returns to the form |
| TipoComercioController.SinComerciosDe | controllers/tipoComercioController.js:137-156 | the cascade removes exactly the merchants of the type |
| TipoComercioController.Eliminar | controllers/tipoComercioController.js:137-156 | the merchants of the type are deleted, then the type |
| TipoComercioController.CascadaExacta | controllers/tipoComercioController.js:108-156 | the cascade removes exactly the number of merchants the confirmation showed, and keeps every other account |
| TipoComercioController.CascadaConservaOtrosTipos | controllers/tipoComercioController.js:5-33 | after the cascade the other types keep their merchant counts |
| Roles.CheckRole | middleware/roles.js:4-31 | continues exactly for a user whose role is allowed; no user goes to login, and a disallowed role to its own dashboard |
| Roles.LoginYPuerta | middleware/roles.js:4-31 | the session login writes passes its own role's gate, and another role's gate sends it to its dashboard |
| AuthMiddleware.IsAuthenticated | middleware/auth.js:3-10 | continues exactly when a user is logged in, and otherwise goes to login |
| AuthMiddleware.IsNotAuthenticated | middleware/auth.js:12-33 | continues exactly when nobody is logged in; a known role goes to its dashboard, and an unknown one to "/" |
| AuthMiddleware.Complementarios | middleware/auth.js:3-33 | exactly one of the two guards continues |
| CheckPasswordChange.Revisar | middleware/checkPasswordChange.js:2-23 | continues exactly when no change is forced or the path is the change form or logout; otherwise redirects to the form |
| CheckPasswordChange.LoginObligado | middleware/checkPasswordChange.js:2-23 | a flagged admin's login goes to the form, which passes the gate, and every other path is redirected |
| CheckPasswordChange.CambioLibera | middleware/checkPasswordChange.js:2-23 | after a successful change every path passes |
| CheckActiveAccount.Revisar | middleware/checkActiveAccount.js:2-25 | continues exactly when there is no user or the session's flag is set; otherwise destroys the session, clears the cookie and goes to login |
| CheckActiveAccount.LoginNuncaExpulsado | middleware/checkActiveAccount.js:9 | any session login writes passes the gate |
| CheckActiveAccount.DesactivarNoExpulsa | middleware/checkActiveAccount.js:9 | after an admin deactivates a logged-in account, the gate still lets its session through |
| CheckActiveAccount.RevisarEnBase | middleware/checkActiveAccount.js:2-25 | the gate checks the stored account's flag |
| CheckActiveAccount.RevisarEnBaseCoincide | middleware/checkActiveAccount.js:2-25 | the two gates agree when the session flag matches the store |
| CheckActiveAccount.DesactivarExpulsa | middleware/checkActiveAccount.js:2-25 | with the stored flag, deactivation evicts the session |
| Validators.TextoEntre | middleware/validators.js:16-24 | a trimmed text field has no error exactly when its length is in range, and an empty one fails "required" first |
| Validators.ReglasTelefono | middleware/validators.js:26-29 | no error exactly for ten digits after trimming |
| Validators.ReglasCorreo | middleware/validators.js:31-35 | no error exactly for a non-empty address the address check accepts |
| Validators.ReglasPassword | middleware/validators.js:47-58 | no error exactly for a password of at least 6 characters and a matching confirmation |
| Validators.ReglasNombreUsuario | middleware/validators.js:37-41 | no error exactly for 4 to 20 letters, digits or underscores |
| Validators.ReglasRol | middleware/validators.js:43-45 | no error exactly for 'cliente' or 'delivery' |
| Validators.ErroresCliente | middleware/validators.js:15-61 | the error list is empty exactly when every field rule holds, and an empty name is reported first |
| Validators.ErroresComercio | middleware/validators.js:68-108 | the error list is empty exactly when every merchant rule holds |
| Validators.HandleValidationErrors | middleware/validators.js:4-12 | continues exactly when there are no errors; otherwise flashes the first and redirects to the Referrer or "/" |
| Validators.Marcador | middleware/validators.js:112-140 | the placeholder validators always continue |
| Validators.ValidadoRolYPassword | middleware/validators.js:43-58 | a validated form has a client or courier role and a password equal to its confirmation |
| Validators.RegistroSinRechazoPrevio | controllers/authController.js:121-169 | with a matching password and a valid role, only a duplicate or an invalid document stops registration |
| Validators.ValidadoLlegaAlRegistro | middleware/validators.js:15-61 | a validated client form reaches the store when no duplicate exists |
| App.Or | app.js:35 | the result is truthy exactly when either argument is, and is the first truthy one |
| App.And | app.js:36 | the result is truthy exactly when both are, and is the first falsy one |
| App.Not | app.js:37 | the negated truthiness, as a boolean |
| App.DeMorgan | app.js:35-37 | De Morgan's laws hold for the helpers' truthiness |
| App.EqSimetrica | app.js:34 | loose equality is symmetric |
| App.EqReflexiva | app.js:34 | every value but NaN is loosely equal to itself |
| App.EqEjemplos | tests/unit/helpers.test.js:42-47 | `eq(1,1)`, `eq('1',1)` and not `eq(1,2)` |
| App.EqNoTransitiva | app.js:34 | loose equality is not transitive: `' ' == 0` and `0 == ''` but not `' ' == ''` |
| App.TextoIgualaNumero | app.js:34 | a text loosely equals, from either side, the number it reads as |
| App.BlancoIgualaCero | app.js:34 | a blank text loosely equals 0, from either side |
| App.Includes | app.js:39-42 | a non-array gives false; null or undefined throws; otherwise true exactly when an element equals the value's text |
| App.IncludesCompararTexto | app.js:41 | the number 5 is not found among `[5]`, but is found among `['5']` |
| App.DosDigitos | app.js:56 | two digits that read back as the cents |
| App.ConComasPartido | app.js:56 | the comma regex splits over a block of a multiple of three digits |
| App.ConComasAgrupa | app.js:56 | the regex replacement inserts a comma before each group of three digits from the right |
| App.FormatCurrency | app.js:54-57 | a falsy amount other than 0 gives "RD$ 0.00"; the formatting of real amounts is stated by the lemmas below |
| App.QuitarComasDeConComas | app.js:56 | removing the commas undoes the grouping |
| App.FormatCurrencyLeible | app.js:54-57 | reading the formatted amount back gives the cents |
| App.FormatCurrencyInyectivo | app.js:54-57 | different amounts format differently, and none like the falsy placeholder |
| App.FormatCurrencyCien | tests/unit/helpers.test.js:30-38 | 100 gives "RD$100.00", 0 "RD$0.00", null "RD$ 0.00" |
| App.FormatCurrencyMil | tests/unit/helpers.test.js:31 | 1000 gives "RD$1,000.00" |
| App.FormatCurrencyDecimales | tests/unit/helpers.test.js:32 | 1234.56 gives "RD$1,234.56" |
| App.Divide | app.js:61-64 | a zero divisor gives 0, and otherwise the quotient times the divisor is the dividend |
| App.Raiz | app.js:164-178 | no user or an unknown role goes to login, and a known role goes to its dashboard |
| App.RaizComoLogin | app.js:164-178 | the root route agrees with `getRoleHome` and, for a known role, with `isNotAuthenticated` |
| Multer.Imagen | config/multer.js:23 | the test passes exactly when one of the five names occurs anywhere |
| Multer.FileFilter | config/multer.js:22-33 | accepted exactly when the lower-cased extension and the type as sent both pass; otherwise the error message |
| Multer.FiltroSinAnclar | config/multer.js:23-25 | ".webpage" passes, because the test is not anchored |
| Multer.FiltroExtensionMayuscula | config/multer.js:24 | ".PNG" passes because the extension is lower-cased |
| Multer.SinMinusculas | config/multer.js:23 | a text without lower-case letters names no format |
| Multer.FiltroTipoMayuscula | config/multer.js:25 | the type "IMAGE/PNG" is refused, because it is not lower-cased |
| Multer.NombreArchivo | config/multer.js:15-19 | the stored name is the random name followed by the extension |
| Multer.NombresDistintos | config/multer.js:17-18 | different random names of one length never share a stored file |
| Multer.Subir | config/multer.js:35-41 | kept exactly when the filter accepts and the size is at most 5 MiB; a filter refusal keeps its message |
| Metrics.Contar | monitoring/metrics.js:42-50 | one more request adds one to the count and to exactly one of success (status below 400) or errors |
| Metrics.Endpoint | monitoring/metrics.js:31 | the key is the method, a space, and the route pattern or else the path |
| Metrics.EndpointDistingue | monitoring/metrics.js:31 | two requests share an entry exactly when method and route pattern (or path) agree |
| Metrics.SumaFuera | monitoring/metrics.js:33-49 | changing an unlisted entry leaves the sum of counts alone |
| Metrics.SumaIncrementa | monitoring/metrics.js:42 | one more request on a listed endpoint adds one to the sum of counts |
| Metrics.SumaAgrega | monitoring/metrics.js:33-40 | a new endpoint adds its count to the sum |
| Metrics.ConteoAcotado | monitoring/metrics.js:29-50 | no endpoint's count exceeds the sum of all counts |
| Metrics.Registrada | monitoring/metrics.js:28-51 | one more request: the total and exactly one of success (status below 400) or errors go up by one; the endpoint's entry is created at zero if new and then counted; other entries stay; a new endpoint is listed last |
| Metrics.RegistrarCuadra | monitoring/metrics.js:28-51 | a recorded request keeps `total == success + errors`, the endpoint table consistent, and the table's counts adding up to the total |
| Metrics.TasaDe | monitoring/metrics.js:112-117 | '0%' exactly when the total is 0, and otherwise the part over the total |
| Metrics.InsertarPermuta | monitoring/metrics.js:126 | an insertion adds exactly the inserted pair |
| Metrics.InsertarOrdena | monitoring/metrics.js:126 | an insertion keeps the order non-increasing by count |
| Metrics.OrdenarOrdena | monitoring/metrics.js:125-126 | the sort orders by non-increasing count and keeps every pair |
| Metrics.OrdenarEstable | monitoring/metrics.js:125-126 | pairs already in order, ties included, keep their insertion order |
| Metrics.TopEndpoints | monitoring/metrics.js:124-137 | at most `limit` entries (a negative limit drops that many from the end), in non-increasing count, each from the table |
| Metrics.TopK | monitoring/metrics.js:124-137 | an endpoint left off the list has no more requests than any listed one |
| Metrics.TopDeRegistro | monitoring/metrics.js:128-134 | each listed endpoint shows its stored count and its success rate as a percentage, and a large limit lists all |
| Metrics.PisoCociente | monitoring/metrics.js:83-86 | flooring a non-negative real's quotient or remainder by a whole number agrees with whole division of its floor |
| Metrics.DesgloseCorrecto | monitoring/metrics.js:82-89 | hours below 24, minutes and seconds below 60, and days·86400 + hours·3600 + minutes·60 + seconds = ⌊seconds⌋ |
| Metrics.UptimeEjemplo | monitoring/metrics.js:82-89 | 90061.5 seconds format as "1d 1h 1m 1s" |
| Metrics.MetricsCollector.constructor | monitoring/metrics.js:5-25 | every counter starts at zero with no endpoints, and the start time is now |
| Metrics.MetricsCollector.RecordRequest | monitoring/metrics.js:28-51 | the request counters become `Registrada` of the old ones for the request's endpoint key, the database counters stay, and the collector stays consistent |
| Metrics.MetricsCollector.RecordDatabaseQuery | monitoring/metrics.js:101-103 | queries go up by one and nothing else changes |
| Metrics.MetricsCollector.Reset | monitoring/metrics.js:148-156 | request counters and queries are zeroed and endpoints emptied; the start time and connections stay |
| Metrics.MetricsCollector.GetTopEndpoints | monitoring/metrics.js:124-137 | the list is sorted by count; each listed endpoint is recorded, with its own count and success rate; it has at most `limit` entries, and all endpoints when the limit covers them |
| Metrics.MetricsCollector.GetSummary | monitoring/metrics.js:106-121 | the total is the request count; both rates are '0%' with no requests, and otherwise success/total and errors/total; at most five top endpoints |

## Left out

- I/O is not modelled: rendering, flash messages and their texts, logging, e-mail sending, and the session store's persistence.
  - The mail result is an input (`envioOk`).
  - `req.session.save` is taken to succeed.
- `isEmail` and `normalizeEmail` are not modelled. The address check is a parameter (`esCorreo`), and normalisation is the schema's lowercase-and-trim setters.
- A form field missing from the request body reads as empty text in the validators.
- Mongoose mechanics are abstracted:
  - ObjectId casting and generation: fresh ids are parameters;
  - `populate`;
  - sorting of result lists;
  - timestamps;
  - `select`;
  - the `fechaHora` sort key.
  - A query over several matches returns an arbitrary match.
- Concurrency between requests is not modelled; each handler runs alone against the store.
- Floating point is not modelled:
  - prices and rates are exact reals;
  - `toFixed` rounding is not modelled;
  - the currency helper takes whole cents;
  - rates are the exact fraction `Porcentaje(part, total)`.
- App.NumeroDeTexto: JavaScript numbers are whole numbers only. Numeric strings are read only as optionally signed decimal integers, with no fractions, exponent, hexadecimal or Infinity.
- App.Eq: objects with a custom `valueOf` are not modelled.
- Roles.CheckRole: a session role named after an `Object.prototype` property (such as `constructor`) is not modelled. There the `redirectPaths[rol]` lookup yields the inherited value instead of the fallback; the model's table has only the four roles, so such a role gets the fallback.
- AuthMiddleware.IsNotAuthenticated: the same holds for its `redirectPaths[rol]` lookup, whose fallback is "/".
- App.Divide: takes two numbers. The string coercion of `Number(a)` is not modelled.
- The helpers `json`, `formatDate`, `toString`, `add`, `subtract` and `multiply` are not modelled: they are formatting or plain arithmetic with no decision in them.
- `getSystemMetrics` and the memory figure of `getSummary` read process, memory and CPU data from the runtime, so they are out. `getAllMetrics` and `startPeriodicLogging` are a timestamp and a timer, so they are out too.
- The endpoint entry's `avgResponseTime` is always 0 and `connections` never changes. Both are kept as constants.
- `path.extname` and `uuidv4` are inputs of the upload rules, and so is the size a file turns out to have. The upload directory creation is file-system I/O and is out.
- Cliente.CrearPedido requires a session user: every client route sits behind the role gate, which guarantees one.
- Routes, `requestLogger`, the health routes and the scripts are not part of this model.
- Password hashing is an injective constructor, with salts and timing ignored.
- Texto.Recortar: only ASCII whitespace is trimmed (space, tab, line feed, carriage return, vertical tab, form feed). JavaScript's `trim` also strips U+00A0, U+FEFF, U+2028, U+2029 and the other Unicode space separators. Address normalisation, the unique-address checks and `Requerido` inherit this.
- Texto.Minusculas: only the ASCII capitals A-Z are lowered. `toLowerCase` lowers every Unicode capital ("É" to "é"). Address normalisation and the upload extension check inherit this.
- Cliente.Resueltos: MongoDB returns the `$in` matches in store order, which the model does not know. The model takes the list's first-occurrence order. The quantities and sums proved about the result do not depend on that order; the order of the lines in `Cliente.DecodificarCarrito` and in the order snapshot does.
- AdminController.CambiarPasswordDe: `passwordNuevo.length` counts UTF-16 code units, while `|nuevo|` counts characters. A password with characters outside the Basic Multilingual Plane can be 6 or longer in the source and shorter in the model.
- PedidoController.Crear: a parsed list that is a single text naming a valid ObjectId is looked up by `$in` as a one-id list. The model treats every truthy value that is not an array as failing the id cast.
- Random tokens and the clock are parameters.

## Findings

| source | as written | input that shows it | evidently intended | confidence | as-written member | corrected member |
|---|---|---|---|---|---|---|
| controllers/pedidoController.js:32-42 | the order document has no `itbis` and no `direccion`, both required by models/Pedido.js | any request with an existing address | an order priced with its tax and linked to its address, as `crearPedido` of the client flow builds it | not executed | PedidoController.Crear | Cliente.CrearPedidoNuevo |
| controllers/pedidoController.js:17,26 | the `$in` lookup returns each product once, so repeated ids are priced once | `productosIds = [a, a]` | one unit priced per list entry, as the client flow counts occurrences | not executed | PedidoController.CobraUnaVez | Cliente.SubtotalCoincide |
| middleware/checkActiveAccount.js:9 | the gate reads `activo` from the session, a snapshot that login writes only for active accounts | an admin deactivates an account that is logged in | evict the session once the stored account is inactive | not executed | CheckActiveAccount.DesactivarNoExpulsa | CheckActiveAccount.DesactivarExpulsa |
| controllers/clienteController.js:80-87 | the groups live in a plain object `{}`, so a category name inherited from `Object.prototype` reads a truthy value without `push`, which throws | a merchant category named "constructor" | every category name is grouped, on an object without a prototype or a `Map` | not executed | Cliente.AgruparPorCategoria | Cliente.Agrupar |
