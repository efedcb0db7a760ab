# Pizzería admin front end: the order-status service and the admin screens, in Dafny

This project models, in Dafny, the logic of a restaurant chain's administration front end, a React and TypeScript web
application.

Its core is the **order-status service** (`src/services/pedidoEstadoService.ts`), a singleton with four jobs:
- it decides which role (`ADMIN`, `CAJERO`, `COCINERO`, `DELIVERY`) may move an order from one status to another;
- it lists the statuses each role may choose or see;
- it keeps a registry of listeners and fans each status event from the websocket out to them;
- it sends status-change requests over the socket (`src/services/websocketService.ts`).

Around it, the model covers the logic of the admin screens:
- the pager;
- the rubro tree table and the rubro form;
- promotions: their status by date, the form's detail rows and its validation, and the viewer;
- the product and insumo (ingredient) forms and hooks: search, selectors, stock statistics, ingredient lists and
  request bodies;
- the stock replenishment dialog;
- the order list filter and the order detail;
- the role, employee and client forms with their e-mail pattern;
- the side menu;
- the popularity bars of the statistics screen.

One Dafny module models each source file.
- **Modules for the service, the pager and the rubro table** use classes and loops where the source mutates
  fields or builds arrays step by step. Examples are the listener registry and transport, `getPageNumbers`'
  pushes, the rubro map and hierarchy loops, and the row-validation loop.
- **Modules for the other source files** are functions over sequences, as those files are filter/map
  expressions and switches.
- **Shared modules:**
  - `Common` models the JavaScript semantics the code relies on: truthiness of numbers and of select values,
    `Number()` of an input text, `filter`, `map`, `find`, `findIndex`, `slice` with negative indices,
    `Math.ceil` of a division and `Math.round` of an exact percentage (the floating-point quotient is not modelled).
  - `Text` models strings: `trim` with JavaScript's white-space set, `toLowerCase`/`toUpperCase`, `includes`,
    the code-unit order of `<`, and `String(n)`.
  - `AdminTypes` holds the entities of `src/types/adminTypes.ts`.
  - `Crud` holds the create-or-update dispatch and the list load that the catalogue hooks share.

The code compares the administrator role, after upper-casing, with `'ADMIN'`, not `'ADMINISTRADOR'`. The model
follows the code. The lemma `PedidoEstado.AdministradorNoEsAdmin` shows the consequence: a user whose role is
stored as "Administrador" is granted no transition and shown no status by the service. The side menu, by
contrast, compares the stored spelling "Administrador".

## Model

| member | source | states |
|---|---|---|
| `PedidoEstado.PuedeRealizarCambio` | src/services/pedidoEstadoService.ts:157-179 | a missing or empty role may do nothing; a role that upper-cases to ADMIN may do everything; CAJERO, COCINERO and DELIVERY may do exactly the (role, from, to) triples of the seven-entry transition table; every other role nothing |
| `PedidoEstado.GetEstadosDisponibles` | src/services/pedidoEstadoService.ts:182-217 | nothing without a role, every status for ADMIN, nothing for an unknown role, and otherwise only statuses taken from the given list |
| `PedidoEstado.DisponiblesSegunTabla` | src/services/pedidoEstadoService.ts:182-217 | the options offered are exactly the order-preserving subsequence of the status list whose names the transition check allows from the current status |
| `PedidoEstado.FilterNothing` | src/services/pedidoEstadoService.ts:216 | a filter that keeps nothing yields the empty list, the fall-through `return []` |
| `PedidoEstado.GetEstadosVisibles` | src/services/pedidoEstadoService.ts:220-241 | nothing without a role or for an unknown role; the seven status names in order for ADMIN; for CAJERO exactly EN ESPERA, LISTO, ENTREGADO, FACTURADO; for COCINERO exactly EN COCINA, EN PREPARACION; for DELIVERY exactly EN DELIVERY, ENTREGADO; every list holds known names without repetitions |
| `PedidoEstado.OrigenVisible` | src/services/pedidoEstadoService.ts:163-177 | for a restricted role, the status an allowed transition starts from is one of the statuses that role sees |
| `PedidoEstado.TablaDentroDeEstados` | src/services/pedidoEstadoService.ts:163-177 | every status in the transition table is one of the seven known names, and every role in it is restricted |
| `PedidoEstado.OtraLongitudSinPermisos` | src/services/pedidoEstadoService.ts:161-177 | a role whose name is not 5, 6 or 8 characters long matches no branch, so it may do nothing and sees nothing |
| `PedidoEstado.AdministradorNoEsAdmin` | src/services/pedidoEstadoService.ts:161 | the role name "Administrador" does not upper-case to ADMIN, so it is granted no transition, offered no option and shown no status |
| `PedidoEstado.CocineroEnCualquierCaso` | src/services/pedidoEstadoService.ts:163-171 | role matching ignores case: "cocinero" at EN COCINA is offered exactly the EN PREPARACION entries |
| `PedidoEstado.WithoutMembers` | src/services/pedidoEstadoService.ts:74-76 | unsubscribing removes the callback completely and keeps exactly the other listeners |
| `PedidoEstado.WithoutConcat` | src/services/pedidoEstadoService.ts:75 | the identity filter works piecewise over a concatenation, so the relative order of the remaining listeners is kept |
| `PedidoEstado.WithoutAbsent` | src/services/pedidoEstadoService.ts:75 | removing a callback that is not registered leaves the list unchanged |
| `PedidoEstado.RegisterThenUnsubscribe` | src/services/pedidoEstadoService.ts:70-76 | registering a new callback and then calling the function returned restores the previous list exactly |
| `PedidoEstado.WithoutIdempotent` | src/services/pedidoEstadoService.ts:74-76 | calling the unsubscribe function twice is the same as calling it once |
| `PedidoEstado.Transport.constructor` | src/services/websocketService.ts:8-10 | no client, so not connected, no subscription, no url, nothing sent |
| `PedidoEstado.Transport.Connect` | src/services/websocketService.ts:13-42 | whenever a client exists, connected or not, it resolves true and changes nothing; otherwise the url is recorded and a client exists and is connected exactly when the outcome is a success |
| `PedidoEstado.Transport.StartConnect` | src/services/websocketService.ts:13-23 | the part of connect that runs before its promise settles: with no client the url is recorded and a client is created that is not yet connected; with a client nothing changes |
| `PedidoEstado.Transport.Drop` | src/services/websocketService.ts:45-47 | the socket under an existing client closes: the client stays and is no longer connected, which is the state isConnected reports as false while connect still resolves true |
| `PedidoEstado.Transport.Subscribe` | src/services/websocketService.ts:50-76 | the subscription is recorded only when a client exists and is connected, replacing an earlier one |
| `PedidoEstado.Transport.Unsubscribe` | src/services/websocketService.ts:79-86 | the subscription is dropped and nothing else changes |
| `PedidoEstado.Transport.Send` | src/services/websocketService.ts:89-104 | a message is appended to the sent log and true returned exactly when a connected client exists and the transmission succeeds |
| `PedidoEstado.Transport.Disconnect` | src/services/websocketService.ts:107-121 | a connected client loses its subscriptions and is dropped; a missing or disconnected client is left exactly as it was |
| `PedidoEstado.PedidoEstadoService.constructor` | src/services/pedidoEstadoService.ts:8-13 | a new service has no listeners, is not initialised and has an empty url |
| `PedidoEstado.PedidoEstadoService.Init` | src/services/pedidoEstadoService.ts:24-51 | a second call changes nothing; otherwise the url given is recorded (the default url is not modelled); with an existing client the service becomes initialised at once and subscribes only if that client is connected; without one it becomes initialised, connected and subscribed exactly when the connection succeeds; listeners and sent messages are untouched |
| `PedidoEstado.PedidoEstadoService.HandleStateChange` | src/services/pedidoEstadoService.ts:54-67 | an event with an error invokes no listener and reports "Error: ..."; otherwise every listener is invoked once in registration order, then the success notice names the order and the new status |
| `PedidoEstado.PedidoEstadoService.OnStateChange` | src/services/pedidoEstadoService.ts:70-71 | the callback is appended to the listeners; nothing else changes |
| `PedidoEstado.PedidoEstadoService.Unsubscribe` | src/services/pedidoEstadoService.ts:74-76 | the listeners become the old ones without every entry identical to the callback |
| `PedidoEstado.PedidoEstadoService.CambiarEstado` | src/services/pedidoEstadoService.ts:80-130 | employee id 0: false, nothing sent, transport unchanged; not connected: false, nothing sent, and with no client a connect to the recorded url has created a client that is not yet connected; connected: the request {pedidoId, nuevoEstadoId, empleadoId, estadoAnteriorId} is sent to /app/cambiar-estado and the send result returned, with the matching notice; the connection flag and the subscription never change |
| `PedidoEstado.PedidoEstadoService.IsConnected` | src/services/pedidoEstadoService.ts:133-135 | true exactly when a client exists and is connected |
| `PedidoEstado.PedidoEstadoService.Reconnect` | src/services/pedidoEstadoService.ts:138-154 | with an existing client it answers true without dialling and subscribes again only if that client is connected; without one it answers whether the connection to the recorded url succeeded and subscribes exactly then |
| `PedidoEstado.PedidoEstadoService.Cleanup` | src/services/pedidoEstadoService.ts:244-255 | a connected client is unsubscribed and dropped, any other is left as it was; listeners become empty and the service uninitialised |
| `PedidoEstado.ClienteCaidoSinSuscripcion` | src/services/pedidoEstadoService.ts:35-43 | after the socket of an existing client drops, init and then reconnect both report success while the status topic has no subscription and the client is not connected |
| `PedidoEstado.CambioSinClienteDejaPendiente` | src/services/pedidoEstadoService.ts:100-117 | a status change asked for with no client answers false and leaves a pending client, so a following init reports success at once without subscribing |
| `Pagination.GetPageNumbers` | src/components/Pagination/Pagination.tsx:12-43 | the pushes build exactly the window: page 0, an optional -1, the pages start..end, an optional -2 and the last page when there is more than one |
| `Pagination.PushRange` | src/components/Pagination/Pagination.tsx:28-30 | the loop appends start, start+1, ..., end in order |
| `Pagination.FirstAndLast` | src/components/Pagination/Pagination.tsx:16-40 | the first entry is 0, and with more than one page the last entry is the last page |
| `Pagination.AtMostSeven` | src/components/Pagination/Pagination.tsx:16-40 | the window never has more than seven entries |
| `Pagination.ContainsCurrent` | src/components/Pagination/Pagination.tsx:19-30 | an existing current page always has a button |
| `Pagination.PagesIncreasingAndInRange` | src/components/Pagination/Pagination.tsx:16-40 | for an existing current page the page entries are strictly increasing and lie in [0, totalPages-1] |
| `Pagination.Markers` | src/components/Pagination/Pagination.tsx:19-35 | -1 appears iff max(1, current-1) > 1 and -2 appears iff min(total-2, current+1) < total-2 |
| `Pagination.Render` | src/components/Pagination/Pagination.tsx:45-80 | nothing is rendered iff totalPages <= 1; otherwise the page entries are the window |
| `Pagination.ButtonsStayInRange` | src/components/Pagination/Pagination.tsx:49-77 | previous is disabled iff on page 0 and next iff on the last page; an enabled button requests an existing page |
| `GenericRubroTable.MapaFilas` | src/features/rubros/ui/GenericRubroTable.tsx:28-31 | every id of a row has an entry, and each entry is a row carrying that id |
| `GenericRubroTable.MapaFilasLast` | src/features/rubros/ui/GenericRubroTable.tsx:29-31 | as with Map.set, the last row with an id is the one the map keeps |
| `GenericRubroTable.BuildMapaFilas` | src/features/rubros/ui/GenericRubroTable.tsx:28-31 | the forEach of `set` calls builds exactly that map |
| `GenericRubroTable.EncontradasLoop` | src/features/rubros/ui/GenericRubroTable.tsx:58-63 | the loop over the children pushes, in order, the row of each child found in the map |
| `GenericRubroTable.BloqueLoop` | src/features/rubros/ui/GenericRubroTable.tsx:42-65 | one parent pushes its own row and then its children's, or nothing when it has no row |
| `GenericRubroTable.Organizar` | src/features/rubros/ui/GenericRubroTable.tsx:26-72 | the nested loops compute organizedRubros: for each top-level rubro of the tipo, in order, its block |
| `GenericRubroTable.JerarquiaPaso` | src/features/rubros/ui/GenericRubroTable.tsx:41-66 | processing one more parent appends that parent's block at the end |
| `GenericRubroTable.OrganizadasSonAdmisibles` | src/features/rubros/ui/GenericRubroTable.tsx:34-66 | every row shown is a row of `rubros`, found by id, of a top-level rubro of the tipo or of a direct child of one; grandchildren and other tipos never appear |
| `GenericRubroTable.BloqueAdmisible` | src/features/rubros/ui/GenericRubroTable.tsx:43-63 | each row in a top-level rubro's block is such an admissible row |
| `GenericRubroTable.JerarquiaConcat` | src/features/rubros/ui/GenericRubroTable.tsx:41-66 | parents are processed in order: the rows for two runs of parents are the rows of the first run followed by those of the second |
| `GenericRubroTable.PadreAusente` | src/features/rubros/ui/GenericRubroTable.tsx:43-44 | a parent without a row is skipped together with all its children |
| `GenericRubroTable.PadrePresente` | src/features/rubros/ui/GenericRubroTable.tsx:44-63 | a parent with a row contributes that row followed by its direct children's rows in rubrosApi order |
| `GenericRubroTable.IndiceOriginal` | src/features/rubros/ui/GenericRubroTable.tsx:78 | findIndex: the first position in `rubros` with the row's id, or -1 exactly when there is none |
| `GenericRubroTable.BuildIndexMap` | src/features/rubros/ui/GenericRubroTable.tsx:75-84 | the map has a key for exactly the shown rows whose id occurs in `rubros`, mapped to that first position |
| `GenericRubroTable.DestinoDeFilaMostrada` | src/features/rubros/ui/GenericRubroTable.tsx:104-112 | each action on a shown row goes to the first row of `rubros` that has that id, never to the fallback index |
| `GenericRubroTable.OnAlta` | src/features/rubros/ui/GenericRubroTable.tsx:103-106 | the target row is toggled exactly when it is "Inactivo" |
| `GenericRubroTable.OnBaja` | src/features/rubros/ui/GenericRubroTable.tsx:107-110 | the target row is toggled exactly when it is "Activo" |
| `RubroModal.IdPorNombre` | src/features/rubros/ui/RubroModal.tsx:52-53 | the id of the first rubro with the parent's name, and none exactly when no rubro has that name |
| `RubroModal.FormEdicion` | src/features/rubros/ui/RubroModal.tsx:43-49 | editing starts from the rubro's own name, tipo and parent |
| `RubroModal.FormCreacion` | src/features/rubros/ui/RubroModal.tsx:50-59 | creating starts blank with the default tipo; a parent is preset exactly when one is named, found and its id is truthy |
| `RubroModal.Candidatos` | src/features/rubros/ui/RubroModal.tsx:67-74 | the candidate parents are exactly the rubros of the form's tipo other than the one being edited |
| `RubroModal.CambiarTipo` | src/features/rubros/ui/RubroModal.tsx:145-149 | changing the tipo keeps the name and clears the parent |
| `RubroModal.ElegirPadre` | src/features/rubros/ui/RubroModal.tsx:162-169 | the chosen parent is always a candidate; the empty option clears it and a candidate's id selects it |
| `RubroModal.Enviar` | src/features/rubros/ui/RubroModal.tsx:76-106 | a blank name is refused without calling onSubmit; otherwise onSubmit gets the edited id (or null) and the form; on success the modal closes and a creation resets the form, on failure the form stays and the edit/create error is shown |
| `RubroModal.ResetPadre` | src/features/rubros/ui/RubroModal.tsx:95 | after a creation with a parent name the parent is `{ id }` of that rubro, or `{ id: "" }` when it is not found; without a name there is none |
| `RubroModal.ResetMatchesCreacion` | src/features/rubros/ui/RubroModal.tsx:52-95 | the reset keeps the parent the form started with, and a parent not found becomes `{ id: "" }` in place of null |
| `UsePromociones.Pad2` | src/features/promociones/hooks/usePromociones.tsx:129-130 | padStart(2, '0'): below 100 the number in exactly two digits; from 10 up its plain decimal text |
| `UsePromociones.LocalDateString` | src/features/promociones/hooks/usePromociones.tsx:126-132 | for a four-digit year the text is `YYYY-MM-DD`, month and day in two digits |
| `UsePromociones.DateShape` | src/features/promociones/hooks/usePromociones.tsx:126-132 | such a text has ten characters, dashes at positions 4 and 7 and digits everywhere else |
| `UsePromociones.DateOrder` | src/features/promociones/hooks/usePromociones.tsx:134-143 | comparing two such texts as strings is comparing the dates in calendar order, and equal texts are equal dates |
| `UsePromociones.Prefix10` | src/features/promociones/hooks/usePromociones.tsx:137-138 | slice(0, 10): the first ten characters, or all of a shorter text |
| `UsePromociones.Estado` | src/features/promociones/hooks/usePromociones.tsx:134-143 | Programada exactly when today sorts before the start, Activa exactly when it is neither before the start nor after the end, Vencida otherwise |
| `UsePromociones.ActivaEntreFechas` | src/features/promociones/hooks/usePromociones.tsx:140-141 | active exactly on the days from the start to the end, both included |
| `UsePromociones.NuncaActivaSiTerminaAntes` | src/features/promociones/hooks/usePromociones.tsx:140-142 | a promotion whose end sorts before its start is never Activa |
| `UsePromociones.EstadoAvanza` | src/features/promociones/hooks/usePromociones.tsx:134-143 | the status only moves forward with the date: a later Programada day means an earlier one was Programada, an earlier Vencida stays Vencida |
| `UsePromociones.ADetalleApi` | src/features/promociones/hooks/usePromociones.tsx:176-192 | the detail keeps the row's quantity and carries an article id exactly when the select of the row's own kind holds one, and then that id |
| `UsePromociones.FormatearDetalles` | src/features/promociones/hooks/usePromociones.tsx:182-195 | no more details than rows, and each detail carries exactly one of the two article ids |
| `UsePromociones.FormatearConservaFilas` | src/features/promociones/hooks/usePromociones.tsx:176-195 | the details are those of the rows that name their kind's article, in row order, each built from its own row |
| `UsePromociones.FormatearSinPerdidas` | src/features/promociones/hooks/usePromociones.tsx:193-195 | when every row names its article, no row is dropped |
| `Crud.Enviar` | src/features/promociones/hooks/usePromociones.tsx:269-278 | handleSubmit creates exactly when the id is null and otherwise updates that id, sending the data unchanged |
| `Crud.Cargar` | src/features/insumos/hooks/useInsumos.tsx:87-122 | the list load both catalogue hooks share: a failed request gives an empty first page and the error; no search keeps the server page and its counts; a search keeps exactly the matching items, in order, and counts and pages them itself |
| `PromocionModal.AgregarFila` | src/features/promociones/ui/PromocionModal.tsx:77-90 | exactly one row `{producto, "", "", 1}` is appended; the other rows and fields are unchanged |
| `PromocionModal.QuitarFila` | src/features/promociones/ui/PromocionModal.tsx:92-98 | exactly the row at the index is removed and the rest keep their order; an index out of range changes nothing |
| `PromocionModal.CambiarFila` | src/features/promociones/ui/PromocionModal.tsx:100-121 | a new kind clears both article selects; any other field changes only that field of that row; all other rows are unchanged |
| `PromocionModal.FilaDeDetalle` | src/features/promociones/ui/PromocionModal.tsx:38-62 | an edit row is a product row for a positive manufactured id, else an insumo row for a positive insumo id, else the empty product row; its quantity is never falsy |
| `PromocionModal.FilaIdaYVuelta` | src/features/promociones/ui/PromocionModal.tsx:38-62 | a stored detail with one positive article id and a non-zero quantity is sent back unchanged when its row is left alone |
| `PromocionModal.ErrorFila` | src/features/promociones/ui/PromocionModal.tsx:185-206 | a row raises no error exactly when it has the article of its kind, not the other one, and a positive quantity |
| `PromocionModal.ErrorFilasDesdeSii` | src/features/promociones/ui/PromocionModal.tsx:184-207 | the rows raise no error exactly when all are valid, and an error is that of the first invalid row |
| `PromocionModal.ValidarFilas` | src/features/promociones/ui/PromocionModal.tsx:184-207 | the loop returns that first row error, or none |
| `PromocionModal.DescuentoInvalido` | src/features/promociones/ui/PromocionModal.tsx:155 | the discount check fails for an empty text or a number outside (0, 100], and passes a text that is not a number |
| `PromocionModal.ErrorPromocion` | src/features/promociones/ui/PromocionModal.tsx:145-207 | the first failing check of handleSubmit: the start date, then the end date, then the discount; no error only with the end after the start, some row and, in a creation, a start not before today |
| `PromocionModal.ValidarPromocion` | src/features/promociones/ui/PromocionModal.tsx:145-207 | handleSubmit's checks run in the source's order and give the first error |
| `PromocionModal.PromocionValidaSii` | src/features/promociones/ui/PromocionModal.tsx:147-207 | the form passes exactly when both dates are set, the discount is in (0, 100], the end is after the start, there is a row, a creation does not start before today, and every row is valid |
| `PromocionModal.ErrorSenalaPrimeraFila` | src/features/promociones/ui/PromocionModal.tsx:188-204 | a row error names the first invalid row, numbered from 1 |
| `PromocionModal.FilasValidasSeEnvian` | src/features/promociones/ui/PromocionModal.tsx:184-207 | when the rows pass, formatting drops none of them |
| `VerItemModal.UnidadMedidaLabel` | src/features/promociones/ui/VerItemModal.tsx:14-22 | a missing or empty unit gives "", GRAMOS gr, MILILITROS ml, UNIDADES u, and any other unit its lower-cased text |
| `VerItemModal.EtiquetaEnMinusculas` | src/features/promociones/ui/VerItemModal.tsx:14-22 | every label is already in lower case |
| `VerItemModal.ProductoPorId` | src/features/promociones/ui/VerItemModal.tsx:37 | the catalogue product with the detail's id, and none exactly when no product has it |
| `VerItemModal.InsumoPorId` | src/features/promociones/ui/VerItemModal.tsx:53 | the catalogue insumo with the detail's id, and none exactly when no insumo has it |
| `VerItemModal.LineaProducto` | src/features/promociones/ui/VerItemModal.tsx:39-45 | a product line carries the detail's quantity and the unit "u" |
| `VerItemModal.LineaInsumo` | src/features/promociones/ui/VerItemModal.tsx:55-60 | an insumo line carries the detail's quantity and the insumo's unit label |
| `VerItemModal.LineaProductoONulo` | src/features/promociones/ui/VerItemModal.tsx:36-47 | the map gives a line exactly when the product is in the catalogue, and null otherwise |
| `VerItemModal.LineaInsumoONulo` | src/features/promociones/ui/VerItemModal.tsx:52-62 | the map gives a line exactly when the insumo is in the catalogue, and null otherwise |
| `VerItemModal.Productos` | src/features/promociones/ui/VerItemModal.tsx:34-48 | the products list: the details with a product, mapped to their lines, the missing ones dropped |
| `VerItemModal.Insumos` | src/features/promociones/ui/VerItemModal.tsx:50-63 | the insumos list: the details with an insumo, mapped to their lines, the missing ones dropped |
| `VerItemModal.ValorLinea` | src/features/promociones/ui/VerItemModal.tsx:48 | the line a present entry holds, the value that `.filter(Boolean)` keeps |
| `VerItemModal.ProductosSonLosEncontrados` | src/features/promociones/ui/VerItemModal.tsx:34-48 | the product list has exactly one line per detail with a positive product id found in the catalogue, in order |
| `VerItemModal.InsumosSonLosEncontrados` | src/features/promociones/ui/VerItemModal.tsx:50-63 | the insumo list has exactly one line per detail with a positive insumo id found in the catalogue, in order, with the mapped unit |
| `VerItemModal.ProductoListado` | src/features/promociones/ui/VerItemModal.tsx:34-48 | a detail whose product is in the catalogue is listed among the products |
| `VerItemModal.InsumoListado` | src/features/promociones/ui/VerItemModal.tsx:50-63 | a detail whose insumo is in the catalogue is listed among the insumos |
| `VerItemModal.DetalleDobleEnAmbas` | src/features/promociones/ui/VerItemModal.tsx:34-63 | the two filters are independent: a detail naming both a catalogue product and a catalogue insumo is in both lists |
| `ProductoModal.AgregarDetalle` | src/features/productos/ui/ProductoModal.tsx:103-135 | the checks run in order (an insumo and a positive numeric quantity, an insumo of that id in the catalogue, no ingredient with that insumo yet), each failure leaving the ingredients unchanged with its own error; only when all pass is exactly one ingredient appended and the entry and error cleared |
| `ProductoModal.AgregarConservaDistintos` | src/features/productos/ui/ProductoModal.tsx:116-132 | adding keeps the ingredients' insumos pairwise distinct |
| `ProductoModal.QuitarDetalle` | src/features/productos/ui/ProductoModal.tsx:137-141 | splice removes one ingredient, the others keeping their order: the one at a non-negative index, the one counted from the end for a negative index down to minus the length, the first for anything lower, and none for an index past the end |
| `ProductoModal.QuitarConservaDistintos` | src/features/productos/ui/ProductoModal.tsx:137-141 | removing keeps the insumos pairwise distinct |
| `ProductoModal.CambiarCantidad` | src/features/productos/ui/ProductoModal.tsx:329-335 | the inline edit replaces only the quantity at its index; every insumo and every other ingredient is unchanged |
| `ProductoModal.CambiarConservaDistintos` | src/features/productos/ui/ProductoModal.tsx:329-335 | editing a quantity keeps the insumos pairwise distinct |
| `ProductoModal.Invalido` | src/features/productos/ui/ProductoModal.tsx:157-159 | a time or price fails exactly when it is not a positive number |
| `ProductoModal.ValidarProducto` | src/features/productos/ui/ProductoModal.tsx:145-152 | a blank name is reported first, then a blank description |
| `ProductoModal.ValidoSii` | src/features/productos/ui/ProductoModal.tsx:145-182 | the form passes exactly when it has a name, a description, a rubro, a positive time and an ingredient, plus a positive price when editing or an image when creating |
| `ProductoModal.DatosEnvio` | src/features/productos/ui/ProductoModal.tsx:184-220 | onSubmit gets the form's id only when editing; an edit sends the price, the rubro as `{ id }` and the image kept, a creation the rubro's text and no price; the ingredients go as quantity and insumo id |
| `ProductoModal.CreacionEnviaRubroComoEdicion` | src/features/productos/ui/ProductoModal.tsx:195-212 | after createProducto wraps it, a created product's rubro reaches the API as the same `{ id }` an edit sends |
| `UseProductos.NombreRubro` | src/features/productos/hooks/useProductos.tsx:108 | the rubro's name, "" when the product has no rubro or the rubro no name |
| `UseProductos.Coincide` | src/features/productos/hooks/useProductos.tsx:106-110 | the search filter: the lower-cased query occurs in the lower-cased name, rubro name or description |
| `UseProductos.CoincideSinMayusculas` | src/features/productos/hooks/useProductos.tsx:106-110 | the search ignores the case of the query |
| `UseProductos.CoincidePropio` | src/features/productos/hooks/useProductos.tsx:106-110 | searching for a product's own name, or its rubro's, finds it |
| `UseProductos.CargarProductos` | src/features/productos/hooks/useProductos.tsx:98-133 | a failed load gives no products, one page and no elements; a search keeps the matching products with totalElements their count and totalPages their ceiling over the page size; otherwise the server's page |
| `UseProductos.BusquedaListaCoincidentes` | src/features/productos/hooks/useProductos.tsx:106-112 | a search lists exactly the products of the answer that match it |
| `UseProductos.InsumosIniciales` | src/features/productos/hooks/useProductos.tsx:80-89 | the initial load keeps exactly the insumos without fechaBaja, and none when it fails |
| `UseProductos.RubrosManufacturado` | src/features/productos/hooks/useProductos.tsx:259-261 | exactly the MANUFACTURADO rubros (the filter of ProductoModal.tsx line 39 too) |
| `UseProductos.RubrosDisjuntos` | src/features/productos/hooks/useProductos.tsx:259-261 | no rubro offered for products is offered as a top-level insumo rubro |
| `UseProductos.CuerpoCrear` | src/features/productos/hooks/useProductos.tsx:166-173 | a rubro given as text is wrapped as `{ id }`, an object passes through, the price is sent exactly when given, and the other fields pass unchanged |
| `UseInsumos.NombreRubro` | src/features/insumos/hooks/useInsumos.tsx:97 | the rubro's name, "" when the insumo has no rubro or the rubro no name |
| `UseInsumos.Coincide` | src/features/insumos/hooks/useInsumos.tsx:95-99 | the search filter: the lower-cased query occurs in the lower-cased name, rubro name or stock figure |
| `UseInsumos.CoincideSinMayusculas` | src/features/insumos/hooks/useInsumos.tsx:95-99 | the search ignores the case of the query |
| `UseInsumos.CoincidePropio` | src/features/insumos/hooks/useInsumos.tsx:95-99 | searching for an insumo's own name, or its stock figure, finds it |
| `UseInsumos.CargarInsumos` | src/features/insumos/hooks/useInsumos.tsx:87-122 | a failed load gives no insumos, one page and no elements; a search keeps the matching insumos with totalElements their count and totalPages their ceiling over the page size; otherwise the server's page |
| `UseInsumos.BusquedaListaCoincidentes` | src/features/insumos/hooks/useInsumos.tsx:95-101 | a search lists exactly the insumos of the answer that match it |
| `UseInsumos.RubrosPrincipales` | src/features/insumos/hooks/useInsumos.tsx:263-265 | exactly the INSUMO rubros without a parent (the filter of InsumoModal.tsx line 38 too) |
| `UseInsumos.SubRubros` | src/features/insumos/hooks/useInsumos.tsx:270-274 | exactly the rubros whose parent id is the argument as a number |
| `UseInsumos.PrincipalNoEsSubRubro` | src/features/insumos/hooks/useInsumos.tsx:263-274 | a top-level rubro is never listed as a sub-rubro |
| `UseInsumos.InsumosParaElaborar` | src/features/insumos/hooks/useInsumos.tsx:279-281 | exactly the active insumos marked for recipes (the same filter as useProductos.tsx lines 266-268 and ProductoModal.tsx line 42) |
| `UseInsumos.InsumosStockBajo` | src/features/insumos/hooks/useInsumos.tsx:286-288 | exactly the active insumos with less than 1000 in stock |
| `UseInsumos.InsumosSinStock` | src/features/insumos/hooks/useInsumos.tsx:293-295 | exactly the active insumos with no stock |
| `UseInsumos.SinStockEsStockBajo` | src/features/insumos/hooks/useInsumos.tsx:286-295 | every insumo without stock is also low on stock, so there are never more of the first |
| `UseInsumos.Porcentaje` | src/features/insumos/hooks/useInsumos.tsx:320-321 | the rounded percentage, and 0 for an empty list |
| `UseInsumos.StockStatsComoEscrito` | src/features/insumos/hooks/useInsumos.tsx:309-323 | getStockStats as written: the normal-stock figure is the total minus both counts |
| `UseInsumos.StockNormalNegativo` | src/features/insumos/hooks/useInsumos.tsx:313 | one active insumo with stock 0 gives a normal-stock figure of -1 |
| `UseInsumos.StockStatsCorregido` | src/features/insumos/hooks/useInsumos.tsx:309-323 | with the normal-stock figure counting the insumos not low on stock, no figure is negative, normal and low add up to the total, and 0 <= the no-stock percentage <= the low-stock percentage <= 100, both 0 for an empty list |
| `UseInsumos.CorreccionSoloConSinStock` | src/features/insumos/hooks/useInsumos.tsx:313 | the written and corrected figures differ exactly when some active insumo has no stock |
| `UseInsumos.FindInsumoById` | src/features/insumos/hooks/useInsumos.tsx:335-337 | the first insumo with that id, and none exactly when no insumo has it |
| `UseInsumos.FindInsumosByRubro` | src/features/insumos/hooks/useInsumos.tsx:342-344 | exactly the insumos whose rubro has that id |
| `UseInsumos.FindByIdEnSuRubro` | src/features/insumos/hooks/useInsumos.tsx:335-344 | the insumo found by id is among the insumos of its rubro |
| `UseInsumos.RegistroReposicion` | src/features/insumos/hooks/useInsumos.tsx:217-223 | an INGRESO record for this insumo at branch 1, with the given quantity and reason |
| `UseInsumos.NumeroODefecto` | src/features/insumos/hooks/useInsumos.tsx:145-146 | `x \|\| 0`: the number itself when it is truthy, else 0 |
| `UseInsumos.CuerpoCrearInsumo` | src/features/insumos/hooks/useInsumos.tsx:141-148 | missing, zero or NaN prices are sent as 0, the flag is true only when given true, and the other fields pass unchanged |
| `InsumoModal.FormInicial` | src/features/insumos/ui/InsumoModal.tsx:46-80 | an edit starts from the insumo's id, name, unit, prices, recipe flag, stock and image, its rubro's id as the rubro (none for a missing or zero id) and no subrubro; a creation starts from an empty form without an image |
| `InsumoModal.CambiarRubro` | src/features/insumos/ui/InsumoModal.tsx:217 | choosing a rubro resets the subrubro to "" and changes nothing else |
| `InsumoModal.RubroEnviado` | src/features/insumos/ui/InsumoModal.tsx:132 | the rubro sent is the subrubro when one is chosen, else the rubro |
| `InsumoModal.CambiarRubroEnvia` | src/features/insumos/ui/InsumoModal.tsx:132-217 | right after the rubro changes, the rubro sent is the new one |
| `InsumoModal.SubRubrosDe` | src/features/insumos/ui/InsumoModal.tsx:41-43 | the subrubros offered are exactly the rubros whose parent id is the selected rubro as a number |
| `InsumoModal.PrecioInvalido` | src/features/insumos/ui/InsumoModal.tsx:112-119 | a price fails exactly when it is non-empty and not a number, or negative |
| `InsumoModal.ValidarInsumo` | src/features/insumos/ui/InsumoModal.tsx:98-109 | a blank name is reported first, then a missing rubro, then a missing unit |
| `InsumoModal.ValidoSii` | src/features/insumos/ui/InsumoModal.tsx:98-119 | the form passes exactly when it has a name, a rubro and a unit, and each price is empty or a non-negative number |
| `InsumoModal.ValidoEnviaRubro` | src/features/insumos/ui/InsumoModal.tsx:102-132 | a form that passes always sends a rubro |
| `InsumoModal.DatosEnvio` | src/features/insumos/ui/InsumoModal.tsx:125-153 | onSubmit gets the id only when editing, the subrubro-or-rubro, each price as `Number(text) \|\| 0`, and in an edit also the stock and the image kept |
| `InsumoModal.PreciosEnviados` | src/features/insumos/ui/InsumoModal.tsx:129-148 | on a form that passes, an empty price is sent as 0 and any other as its value, never negative |
| `InsumoModal.CreacionLlegaIntacta` | src/features/insumos/ui/InsumoModal.tsx:143-150 | createNewInsumo in useInsumos.tsx sends a creation's data unchanged |
| `InsumoModal.EdicionSinCambiosValida` | src/features/insumos/ui/InsumoModal.tsx:46-153 | an insumo with a name, a rubro, a unit and non-negative prices, opened and submitted unchanged, passes and sends its own id, name, unit, rubro, prices, recipe flag and stock |
| `AdminTypes.ImagenConservada` | src/features/insumos/ui/InsumoModal.tsx:136-140 | an edit keeps the current image exactly when no new file is chosen and the image has an id (also ProductoModal.tsx lines 201-204) |
| `ReponerStockModal.ErrorReposicion` | src/features/insumos/ui/ReponerStockModal.tsx:33-41 | the quantity is checked first and must be a non-empty positive number, then the reason must not be blank; nothing else is refused |
| `ReponerStockModal.SolicitudValidaRegistra` | src/features/insumos/ui/ReponerStockModal.tsx:33-47 | a request that passes becomes, through reponerStock, an INGRESO record of a positive quantity with a non-blank reason for that insumo |
| `ReponerStockModal.Dialogo.constructor` | src/features/insumos/ui/ReponerStockModal.tsx:19-21 | quantity, reason and error all start empty |
| `ReponerStockModal.Dialogo.EscribirCantidad` | src/features/insumos/ui/ReponerStockModal.tsx:19 | the quantity input sets the quantity and nothing else |
| `ReponerStockModal.Dialogo.EscribirMotivo` | src/features/insumos/ui/ReponerStockModal.tsx:20 | the reason input sets the reason and nothing else |
| `ReponerStockModal.Dialogo.AlCambiarInsumo` | src/features/insumos/ui/ReponerStockModal.tsx:24-30 | a newly given insumo clears the dialog; a null one leaves it as it was |
| `ReponerStockModal.Dialogo.Enviar` | src/features/insumos/ui/ReponerStockModal.tsx:32-57 | a failed check sets its error and calls nothing; a null insumo calls nothing; otherwise onSubmit gets the insumo, the quantity and the untrimmed reason, and on success everything is cleared and the dialog closes, on failure the error is set and the inputs kept |
| `ReponerStockModal.Dialogo.Cerrar` | src/features/insumos/ui/ReponerStockModal.tsx:59-64 | closing clears quantity, reason and error |
| `ReponerStockModal.EnviarSoloValido` | src/features/insumos/ui/ReponerStockModal.tsx:32-47 | any call a submit makes carries a positive quantity and a non-blank reason |
| `GestionSection.NombreCompleto` | src/features/gestion/GestionSection.tsx:327 | the text searched is the first name, one space and the last name |
| `GestionSection.PasaFiltros` | src/features/gestion/GestionSection.tsx:325-329 | the filter callback: no state or the exact state name, and the search in the full name ignoring case or in the decimal id |
| `GestionSection.PedidosFiltrados` | src/features/gestion/GestionSection.tsx:324-330 | the rows are a prefix, in order, of the orders passing both filters; a non-negative count keeps at most that many, a negative one drops that many from the end |
| `GestionSection.FilasPasanFiltros` | src/features/gestion/GestionSection.tsx:324-330 | every row shown is an order of the list passing both filters, so with a state chosen it is in that state |
| `GestionSection.ContieneVacio` | src/features/gestion/GestionSection.tsx:327-328 | the empty text occurs in every text |
| `GestionSection.BusquedaVaciaCoincide` | src/features/gestion/GestionSection.tsx:327-328 | an empty search matches every order |
| `GestionSection.SinFiltrosMuestraLosPrimeros` | src/features/gestion/GestionSection.tsx:324-330 | with no state and no search the first `cantidad` orders are shown unfiltered |
| `GestionSection.BusquedaPorId` | src/features/gestion/GestionSection.tsx:328 | searching an order's own id finds it |
| `GestionSection.BusquedaPorNombre` | src/features/gestion/GestionSection.tsx:327 | searching the client's first name, in any case, finds the order |
| `GestionSection.MasCantidadExtiende` | src/features/gestion/GestionSection.tsx:330 | a larger count shows the same rows and possibly more after them |
| `VerPedidoModal.DenominacionArticulo` | src/features/gestion/ui/VerPedidoModal.tsx:155-164 | the name of the first source present: product, then insumo, then "Promoción #id", then "Artículo no disponible" |
| `VerPedidoModal.DescripcionArticulo` | src/features/gestion/ui/VerPedidoModal.tsx:166-171 | there is a description exactly when the line has a product, and it is the product's |
| `VerPedidoModal.PrecioUnitario` | src/features/gestion/ui/VerPedidoModal.tsx:173-184 | the price comes from the product, else the insumo, else a non-zero promotion price, else a non-zero subtotal over a positive quantity, else "0.00" |
| `VerPedidoModal.NombreYPrecioDeLaMismaFuente` | src/features/gestion/ui/VerPedidoModal.tsx:155-184 | the name, the description and the price of a line come from the same product or insumo |
| `VerPedidoModal.SinFuenteEsCero` | src/features/gestion/ui/VerPedidoModal.tsx:178-183 | a line with no source and no usable subtotal is priced "0.00" |
| `VerPedidoModal.Aporte` | src/features/gestion/ui/VerPedidoModal.tsx:22 | `subTotal \|\| 0`: a line's own subtotal, or 0 without one |
| `VerPedidoModal.Subtotal` | src/features/gestion/ui/VerPedidoModal.tsx:20-23 | the reduce from 0 adding each line's contribution, first to last |
| `VerPedidoModal.SubtotalConcat` | src/features/gestion/ui/VerPedidoModal.tsx:20-23 | the subtotal of two runs of lines is the sum of their subtotals |
| `VerPedidoModal.SubtotalCotas` | src/features/gestion/ui/VerPedidoModal.tsx:20-23 | with non-negative line subtotals the sum is non-negative and at least each line's own |
| `VerPedidoModal.SinSubtotalNoSuma` | src/features/gestion/ui/VerPedidoModal.tsx:22 | a line without a subtotal leaves the sum unchanged wherever it stands |
| `Roles.Enviar` | src/features/administracion/Roles/Roles.tsx:70-94 | a blank name is refused first, then (outside edit mode) a name some role already has ignoring case; otherwise the trimmed, non-blank name is sent, as an update of the edited role exactly when in edit mode with a role, else as a creation |
| `Roles.CreacionSinDuplicados` | src/features/administracion/Roles/Roles.tsx:77-93 | a role created from the screen never repeats, ignoring case, the name of a role already listed |
| `Roles.TotalPages` | src/features/administracion/Roles/Roles.tsx:35 | Math.ceil(roles / 8): the fewest pages of eight holding every role |
| `Roles.PaginaRoles` | src/features/administracion/Roles/Roles.tsx:105-108 | a page has at most eight roles: the slice from page * 8, empty past the end |
| `Roles.PaginasSonPrefijo` | src/features/administracion/Roles/Roles.tsx:105-108 | the first n pages together are the first 8n roles |
| `Roles.PaginasDanLosRoles` | src/features/administracion/Roles/Roles.tsx:35-108 | all the pages, one after another, give back every role in order |
| `Roles.PaginadorSiMasDeUnaPagina` | src/features/administracion/Roles/Roles.tsx:149 | the pager is shown exactly when there is more than one page |
| `Email.PatronSii` | src/features/administracion/Empleados/Empleados.tsx:135-136 | the address pattern accepts exactly the addresses without white space, with one '@' that has something before it and, after it, a '.' with something on both sides |
| `Email.CumplePatron` | src/features/administracion/Empleados/Empleados.tsx:135-136 | the regular expression: three non-empty runs without white space or '@', joined by '@' and then '.' |
| `Email.PatronNoEsBlanco` | src/features/administracion/Empleados/Empleados.tsx:130-136 | an address the pattern accepts has at least five characters and is not blank |
| `Email.ValidarPersona` | src/features/administracion/Empleados/Empleados.tsx:121-139 | name, surname and address are checked in that order, the first failure giving its error; they pass exactly when name and surname are not blank and the trimmed address matches the pattern |
| `Empleados.ValidarEmpleado` | src/features/administracion/Empleados/Empleados.tsx:121-158 | the personal checks come first; a creation then needs a non-blank password equal, untrimmed, to its repetition; then a role; the form passes exactly when all of these hold |
| `Empleados.EdicionIgnoraPassword` | src/features/administracion/Empleados/Empleados.tsx:142-151 | in edit mode the password fields never change the outcome |
| `Empleados.PasswordSinRecortar` | src/features/administracion/Empleados/Empleados.tsx:147-150 | passwords that differ only in surrounding white space are refused as different |
| `Empleados.Datos` | src/features/administracion/Empleados/Empleados.tsx:173-190 | the request carries the trimmed name, surname and address, Number(telefono) and the role's id |
| `Empleados.Enviar` | src/features/administracion/Empleados/Empleados.tsx:160-193 | nothing is sent exactly when the checks fail; an edit without a user's Auth0 id is refused with its error, otherwise it is an update without password; anything else is a creation with the trimmed password |
| `Empleados.PeticionValida` | src/features/administracion/Empleados/Empleados.tsx:121-193 | every request carries a non-blank name and surname, a valid address and the selected role; a creation from the create form also carries a non-blank password |
| `Clientes.ClienteRolId` | src/features/administracion/Clientes/Clientes.tsx:52-57 | the id of the first role whose lower-cased name is "cliente", and none exactly when no role is so named |
| `Clientes.ClienteEnCualquierCaso` | src/features/administracion/Clientes/Clientes.tsx:52 | a role named "CLIENTE" or "Cliente" is found |
| `Clientes.ValidarCliente` | src/features/administracion/Clientes/Clientes.tsx:121-145 | the personal checks come first, then a truthy client role id; the form passes exactly when both hold |
| `Clientes.Enviar` | src/features/administracion/Clientes/Clientes.tsx:147-169 | nothing is sent exactly when the checks fail; the data are the trimmed texts, Number(telefono) and the client role; it is an update of the edited client exactly when in edit mode with one, else a creation |
| `Clientes.EnviaRolCliente` | src/features/administracion/Clientes/Clientes.tsx:52-162 | every client is sent with the id of a role called "cliente" in some letter case |
| `SideBar.RolesPermitidos` | src/components/SideBar/SideBar.tsx:20-118 | the administrator is offered every section, the cook exactly Insumos, Productos and Gestión, the cashier exactly Gestión |
| `SideBar.HasAccess` | src/components/SideBar/SideBar.tsx:10-13 | a missing or empty role has no access; otherwise access is exact, case-sensitive membership |
| `SideBar.Entrada` | src/components/SideBar/SideBar.tsx:20-31 | a menu entry is rendered exactly when the role has access to its section |
| `SideBar.Visibles` | src/components/SideBar/SideBar.tsx:18-130 | the menu as rendered: the sections the role may see, in menu order |
| `SideBar.AdministradorVeTodo` | src/components/SideBar/SideBar.tsx:20-129 | "Administrador" sees the whole menu in order |
| `SideBar.CocineroVeCocina` | src/components/SideBar/SideBar.tsx:48-101 | "Cocinero" sees Insumos, Productos and Gestión |
| `SideBar.CajeroVeGestion` | src/components/SideBar/SideBar.tsx:90-101 | "Cajero" sees only Gestión |
| `SideBar.OtrosNoVenNada` | src/components/SideBar/SideBar.tsx:10-13 | any other role, a differently cased name included, sees nothing |
| `SideBar.NadieMas` | src/components/SideBar/SideBar.tsx:10-13 | a missing role, or one of no listed name, has access to no section and sees nothing |
| `SideBar.VisiblesSii` | src/components/SideBar/SideBar.tsx:10-129 | a section is shown to a role exactly when hasAccess grants it |
| `SideBar.VisiblesSinRepetir` | src/components/SideBar/SideBar.tsx:18-130 | no section is shown twice |
| `EstadisticasCharts.MaxVentas` | src/features/estadisticas/EstadisticasCharts.tsx:47 | Math.max: no product sold more, and some product sold exactly that |
| `EstadisticasCharts.Popularidad` | src/features/estadisticas/EstadisticasCharts.tsx:51 | the rounded percentage of the maximum, NaN for 0 / 0 |
| `EstadisticasCharts.CalculatePopularity` | src/features/estadisticas/EstadisticasCharts.tsx:44-53 | [] for no products; otherwise every product, in order and unchanged, with its popularity against the best seller |
| `EstadisticasCharts.PopularidadAcotada` | src/features/estadisticas/EstadisticasCharts.tsx:44-53 | with some sale, every popularity lies in [0, 100], the best sellers get 100 and popularity follows the quantities sold; with none, every popularity is NaN |
| `EstadisticasCharts.Hex` | src/features/estadisticas/EstadisticasCharts.tsx:57-59 | each colour is a seven-character `#` hex text |
| `EstadisticasCharts.PopularityColor` | src/features/estadisticas/EstadisticasCharts.tsx:56-60 | green exactly from 80, orange exactly in [60, 80), red otherwise, NaN included |
| `EstadisticasCharts.ColorMonotono` | src/features/estadisticas/EstadisticasCharts.tsx:56-60 | a higher popularity never gets a lower colour |
| `EstadisticasCharts.MejorVendidoEsVerde` | src/features/estadisticas/EstadisticasCharts.tsx:44-60 | the best seller's bar is green whenever something was sold |

## Left out

- **The STOMP/SockJS socket.** The broker, the topic payloads' JSON decoding and the client library stand behind `PedidoEstado.Transport`. It records whether a client exists, whether it is connected, one subscription, a log of sent messages and the url. Whether a connect or a send succeeds is a parameter.
- `PedidoEstado.Transport.Connect`: a successful connect is one step. The window in which a new client exists but its handshake has not finished is not a separate state. A client that exists without being connected is reached through `PedidoEstado.Transport.Drop`, which stands for the socket closing.
- `PedidoEstado.PedidoEstadoService.Init`: the default value of `serverUrl` (`http://localhost:8080/pizzamia-websocket`, `pedidoEstadoService.ts` line 24) is not modelled; the url is always an argument.
- `PedidoEstado.PedidoEstadoService.Init`: the error toast and the 5-second `setTimeout` retry after a failed connection (`pedidoEstadoService.ts` line 49) are not modelled, because timers are outside the model. A failed init simply leaves the service uninitialised.
- `PedidoEstado.PedidoEstadoService.CambiarEstado`: when not connected it returns false with the warning and, with no client, creates one through `PedidoEstado.Transport.StartConnect`, as the code does. What happens once that connect settles is not modelled, because it runs after the call has returned. That covers the handshake's result, the send in `.then` and the error toast in `.catch` (lines 105-115).
- `PedidoEstado.PedidoEstadoService.HandleStateChange`: it returns the listeners it invokes, in order, instead of running them. Callbacks that change the registry while they run are not modelled.
- **Toast notifications and console output.** Toasts are returned as a value (`Toast`) where a contract speaks of them. Console output is dropped.
- **HTTP calls** (`src/api/*`) are parameters: the answer of a list load, or whether `onSubmit` throws. The pages that reload after a save are not modelled.
- **Floating-point money.** Prices and the quantities of order and recipe lines are exact reals (`real`) or `JsNumber` (a real or NaN); insumo stock is a whole number, as the `UseInsumos.Coincide` line below says. `calcularPrecioTotal` (usePromociones.tsx and PromocionModal.tsx) and `calcularPrecioCosto` (ProductoModal.tsx) are not modelled, because they are float sums with `toFixed`. `toFixed(2)` in `getPrecioUnitario` is abstracted: `VerPedidoModal.PrecioUnitario` returns the source of the amount and the amount before formatting.
- **Dates.** `new Date()` is not modelled.
  - Today's date is a parameter: the year, month and day of `getLocalDateString`, or the `hoy` text of `getEstadoPromocion` and of the promotion form.
  - The form's end-after-start check is a boolean parameter of `PromocionModal.ErrorPromocion`, because it compares parsed dates.
  - `split('T')[0]` of the stored dates in edit mode is not modelled.
- `Text.ToUpper`: case mapping covers ASCII and Latin-1 letters, except 'ß'. JavaScript upper-cases 'ß' to "SS"; the model leaves it unchanged, so its length result does not hold for that letter. No role name contains it.
- **Text.** JavaScript string `<` is modelled as code-unit order on `char`. `String(n)` is modelled for integers only.
- `Crud.Cargar`, `UseProductos.CargarProductos` and `UseInsumos.CargarInsumos` require a positive page size. The hooks always use a constant positive one, and the model does not cover Math.ceil of a division by 0.
- `ProductoModal.CambiarCantidad` and `PromocionModal.CambiarFila` require an index in range. Their inputs exist only for rendered rows, and writing to an array slot past the end is not modelled.
- `GenericRubroTable.OnAlta` and `GenericRubroTable.OnBaja` require the target index to be a row of `rubros`. The table only calls them from rendered rows (`GenericRubroTable.DestinoDeFilaMostrada`), and the code throws on a missing row.
- **Rubro ids** are integers. The form's string ids are compared as id texts (`IdText`), and mixed string/number ids are not modelled.
- **Image handling.** The FileReader previews, the file itself and the multipart upload are not modelled. Whether a file was chosen is a boolean.
- **Other parts of the application:**
  - the Excel export;
  - authentication, the session and routing;
  - rendering-only components;
  - the sample orders of the management screen;
  - the loading flags of the forms.

  None of these decides anything the modelled logic depends on.
- `Common.RoundPercent`: it rounds the exact quotient. The source rounds the floating-point value of `(part / total) * 100`, which can fall just below a half. For 23 of 40 the source gives 57 and the model 58. The model does not capture this off-by-one at half-way quotients.
- `UseInsumos.Porcentaje`: the percentages of getStockStats use `Common.RoundPercent`, so they share its exact rounding.
- `EstadisticasCharts.Popularidad`: the popularity uses `Common.RoundPercent`, so it shares its exact rounding. The colour thresholds are applied to the exact value.
- `UseInsumos.Coincide`: the stock figure is searched as the decimal text of a whole number. `AdminTypes.Insumo`'s `stockActual` is an integer in the model, while the source's is a JavaScript number. A replenishment may add a fractional quantity, and `String(item.stockActual)` then gives a text such as "12.5" that the model cannot produce. Whole-number stock only is modelled, throughout: the low-stock and no-stock tests, the statistics and the form's stock.
- `Crud.Cargar`: while searching, `respuesta` stands for the one page the hooks fetch, page 0 of size 100. Items past the first 100 are never searched, in the source as in the model.
- `EstadisticasCharts.MaxVentas` requires a non-empty list. `calculatePopularity` returns before `Math.max` when the list is empty. Quantities sold are natural numbers.

## Findings

| source | as written | input that shows it | evidently intended | confidence | as-written member | corrected member |
|---|---|---|---|---|---|---|
| src/features/insumos/hooks/useInsumos.tsx:313 | `stockNormal = total - sinStock - stockBajo`. Every insumo without stock is also counted as low on stock, so it is subtracted twice. | one active insumo with stock 0: total 1, sinStock 1, stockBajo 1, stockNormal -1 | stockNormal counts the insumos that are not low on stock (`total - stockBajo`), never negative, and adds up with stockBajo to the total | not executed | `UseInsumos.StockStatsComoEscrito` (exhibited by `UseInsumos.StockNormalNegativo`) | `UseInsumos.StockStatsCorregido` |
