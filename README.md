# Sales API resolvers: stock bookkeeping, leaderboards and accounts

A Dafny model of the decision logic in the resolvers of a small CRM/sales
API (customers, products, orders and salesperson accounts kept in MongoDB
collections). Three pieces have rules worth stating; the rest of the
resolvers only pass arguments on to the database.

- **Order and inventory state machine** (`inventario.dfy`, and the methods
  `CrearPedido` and `ActualizarPedido` in `resolvers.dfy`). Creating an
  order (`crearPedido`) takes each line item's quantity out of its product's
  stock and stores the order as PENDIENTE, whatever status the form carries.
  Updating an order (`actualizarPedido`) picks one instruction from the new
  status and the status the client says the order held before: take the
  quantities out again, put them back, or leave stock alone. It applies that
  instruction to every submitted line item and then overwrites the stored
  order. Stock is a `map<ProductId, int>` with no floor. An update whose
  product id names no product changes nothing. The "no change" instruction
  is sent to the database as the text `0*n`, which is not a number; that
  update fails and its error is dropped, so its effect is a delta of 0.
  The methods are loops over the line items, proved against the function
  `Ajustar`. The lemmas about `Ajustar` prove three things. Each product
  moves by the instruction's delta for the quantity the order names of it,
  and unnamed products are untouched. Creating and then cancelling an order
  restores the table. Over any history of real status changes, stock equals
  the starting stock minus what the order holds in its final status.
  An update that repeats the current status still moves stock
  (`MismoEstadoDesvia`): the status→instruction table has no "same status" row.
- **Leaderboards** (`ranking.dfy`, and `TopClientes`/`TopVendedores` in
  `resolvers.dfy`). Both run the same aggregation. It keeps the COMPLETADO
  orders, groups them by customer or by salesperson summing `total`, sorts
  the groups largest first, and keeps ten. `EsRanking` states the result:
  - at most ten rows, in non-increasing order, with no id twice;
  - each row's total equals the revenue from that key's COMPLETADO orders;
  - a key left off the board is outranked by a full board.

  Orders in other statuses contribute nothing. The order among equal totals
  is not specified, and nothing here asserts it.
- **Accounts** (`usuarios.dfy`, and `CrearUsuario`/`AutenticarUsuario` in
  `resolvers.dfy`). Registration fails when the login name is taken and
  otherwise appends exactly one account. The class invariant `Valid()` says
  login names are unique, and every method preserves it. Login fails on an
  unknown login name or when the password check rejects the password. The
  password check is a function parameter `compara`, and the token is a value
  that carries the login name and the one-hour lifetime.

The collections are fields of the class `Resolvers.BaseDeDatos`. Stock is a
map; orders and users are sequences, and an order's id is its position.
`ActualizarPedido` takes that id as its own parameter `id`; it stands for
the form's `id` field, which the source looks the order up by, and the
update behaves the same either way.
The scenario methods `EscenarioCrearYCancelar` and
`EscenarioUsuarioDuplicado` show the class used as a client would use it:
stock 10, order 3 → 7, cancel → 10. A second registration of "ana" fails. A login with the wrong password fails, and one with the right password yields a token for "ana".

## Model

| member | source | states |
|---|---|---|
| `Inventario.InstruccionPara` | database/resolvers.js:333-340 | the instruction is "put back" exactly when the new status is CANCELADO; it is "no change" exactly for COMPLETADO after PENDIENTE and PENDIENTE after COMPLETADO; so it is "take out" in every other case |
| `Inventario.Delta` | database/resolvers.js:342-346 | the stock change of one line item is zero exactly for "no change" (the text `0*n` is not a number) or a zero quantity; a negative change only comes from "take out" and a positive one only from "put back"; it is never larger than the quantity |
| `Inventario.Ajustar` | database/resolvers.js:342-352 | the per-item updates, applied first to last, add or drop no product, and "no change" leaves the whole table as it was |
| `Inventario.Incrementar1` | database/resolvers.js:310-313 | one `$inc` on a product id changes only that product, by the delta; an id that names no product leaves the table unchanged |
| `Inventario.AjustarEfecto` | database/resolvers.js:342-352 | applying an instruction to the line items keeps the set of products. Every product moves by the instruction's delta for the total quantity the items name of it, repeated items adding up |
| `Inventario.NoNombradoSinCambio` | database/resolvers.js:309-319 | a product that no line item names keeps its stock exactly |
| `Inventario.CrearYCancelarRestaura` | database/resolvers.js:309-352 | creating an order and then cancelling it from PENDIENTE with the same items gives back the original stock table |
| `Inventario.CambioRespetaReserva` | database/resolvers.js:334-340 | for a status change to a different status, the delta equals the units held out of stock before minus those held after; an order holds its quantities unless it is CANCELADO |
| `Inventario.MismoEstadoDesvia` | database/resolvers.js:334-340 | an update naming the status the order already has still moves stock: back in for CANCELADO, out again otherwise |
| `Inventario.CicloConserva` | database/resolvers.js:295-352 | after creation and any history of real status changes, each product's stock is its starting stock minus the order's quantity of it, or exactly its starting stock if the order ended CANCELADO |
| `Resolvers.BaseDeDatos.CrearPedido` | database/resolvers.js:295-329 | stores the form as a new order with status PENDIENTE at the next id. Every product's stock drops by the quantity the order names of it, unnamed products and users unchanged |
| `Resolvers.BaseDeDatos.ActualizarPedido` | database/resolvers.js:330-362 | every product moves by the delta of the (new status, prior status) instruction for its quantity in the form. The order with that id is overwritten by the form; an unknown id leaves the orders unchanged |
| `Usuarios.Buscar` | database/resolvers.js:364-366 | finds the first account with the login name, or reports that none has it |
| `Usuarios.AltaConservaUnicos` | database/resolvers.js:364-378 | appending an account whose login name nobody has keeps login names unique |
| `Resolvers.BaseDeDatos.CrearUsuario` | database/resolvers.js:363-380 | a taken login name fails with "user exists" and changes nothing. Otherwise exactly one account is appended and existing accounts are unchanged. Uniqueness is preserved |
| `Usuarios.CrearToken` | database/resolvers.js:12-18 | the token's only claim is the user's login name, and it is valid for "1hr" |
| `Usuarios.TokenSoloLogin` | database/resolvers.js:12-18 | two accounts with the same login name get the same token: name, password and role do not enter it |
| `Resolvers.BaseDeDatos.AutenticarUsuario` | database/resolvers.js:381-396 | fails with "no such user" exactly when no account has the login name. It succeeds exactly when an account has it and the password check accepts, issuing a one-hour token for that login name |
| `Ranking.Completados` | database/resolvers.js:116-120 | an order is in the filtered list exactly when it is in the collection and is COMPLETADO |
| `Ranking.CompletadosMultiplicidad` | database/resolvers.js:116-120 | the filter keeps each COMPLETADO order as many times as it is stored and drops every other order |
| `Ranking.SumaUltimo` | database/resolvers.js:121-128 | one more order adds its total to its own key's sum and to no other key's |
| `Ranking.IngresosSonDirectos` | database/resolvers.js:116-128 | filtering then summing per key equals summing `total` straight over the stored orders that are COMPLETADO and have that key, repeated orders each counted |
| `Ranking.CompletadosIgnora` | database/resolvers.js:116-120 | an order in another status, anywhere in the collection, is dropped as if absent |
| `Ranking.Acumular` | database/resolvers.js:121-128 | adding an order's total to its key's row adds that key and keeps ids distinct. Only that key's sum grows, by the total |
| `Ranking.Grupos` | database/resolvers.js:121-128 | one row per key of the orders, ids distinct, each row's total the sum of that key's order totals |
| `Ranking.Insertar` | database/resolvers.js:137-141 | inserting into rows sorted largest first keeps them sorted and contains exactly the old rows and the new one |
| `Ranking.InsertarPermuta` | database/resolvers.js:137-141 | insertion adds exactly the inserted row to the multiset of rows |
| `Ranking.InsertarIds` | database/resolvers.js:137-141 | insertion adds the row's id and, for a new id, keeps ids distinct |
| `Ranking.Ordenar` | database/resolvers.js:137-141 | the sorted rows are in non-increasing order of total |
| `Ranking.OrdenarPermuta` | database/resolvers.js:137-141 | sorting is a permutation of the groups |
| `Ranking.OrdenarIds` | database/resolvers.js:137-141 | sorting keeps the ids and their distinctness |
| `Ranking.Limitar` | database/resolvers.js:142-144 | the board is a prefix of the sorted rows, of length ten when there are at least ten rows and all of them otherwise |
| `Ranking.FueraDelLimite` | database/resolvers.js:142-144 | a sorted row the limit cuts off means the board is full and its last row's total is at least the cut row's |
| `Ranking.FilasSonIngresos` | database/resolvers.js:115-141 | every sorted row is a key with COMPLETADO orders and carries exactly its revenue from them |
| `Ranking.ParticipantesTienenFila` | database/resolvers.js:115-141 | every key with a COMPLETADO order has a sorted row |
| `Ranking.FueraSoloSiSuperado` | database/resolvers.js:115-144 | a key with COMPLETADO orders missing from the board was outranked by a full board of ten |
| `Ranking.RankingOrdenadoYDistinto` | database/resolvers.js:137-144 | the board is sorted largest first and has no id twice |
| `Ranking.RankingFilas` | database/resolvers.js:115-144 | every board row is a key with COMPLETADO orders and carries its revenue |
| `Ranking.TopEsRanking` | database/resolvers.js:115-144 | the aggregation's result meets `EsRanking` |
| `Ranking.Top` | database/resolvers.js:115-144 | at most ten rows, largest first, no id twice, each carrying its key's COMPLETADO revenue, and no omitted key outranks the board |
| `Ranking.SoloCompletadosCuentan` | database/resolvers.js:116-128 | adding an order in any other status anywhere leaves the board unchanged |
| `Resolvers.BaseDeDatos.TopClientes` | database/resolvers.js:113-153 | the customers board over the stored orders meets `EsRanking` grouped by customer |
| `Resolvers.BaseDeDatos.TopVendedores` | database/resolvers.js:154-194 | the salespeople board over the stored orders meets `EsRanking` grouped by salesperson |

## Left out

- Server and connection setup: `index.js` and the connection and schema declarations in `database/db.js` are not part of this model.
- Customer and product CRUD and the plain queries (`getClientes`, `getCliente`, `totalClientes`, `getProductos`, `getProducto`, `totalProductos`, `getPedidos`, `getUsuario`, `crearCliente`, `actualizarCliente`, `eliminarCliente`, `crearProducto`, `actualizarProducto`, `eliminarProducto`): each is one database call with no decision logic, and pagination with it.
- Asynchrony: the per-item stock updates are not awaited and can race with each other and with other requests. The model runs them one after another, and does not model concurrent requests.
- Database failures: errors from `save`, `updateOne` and `findOneAndUpdate` are not modelled. The per-item update errors are dropped by the source anyway, except the "no change" instruction's failure, which is modelled as a delta of 0.
- The credential hashing, and the user schema that would perform it, are not part of this model: `CrearUsuario` stores the password field as given, and `AutenticarUsuario` takes the password check (`bcrypt.compare`) as the parameter `compara`.
- Token signing: the secret, the signature and expiry checking are not modelled. A token is the login name and the lifetime `"1hr"`.
- The `$lookup` join that attaches customer or salesperson display data to each leaderboard row: rows carry only the id and the summed total.
- `Ranking.Top`: the tie order among equal totals is deliberately not stated; the model sorts deterministically, the database does not promise one.
- Number types: order totals are integers; floating-point `Number` arithmetic is not modelled. Line item quantities are natural numbers, so the source's text-built increment for a negative quantity (`--n`) is not modelled.
- The clock read `fecha: new Date()` and the generated object ids: an order has no date, and its id is its position in the orders sequence.
- `Resolvers.BaseDeDatos.ActualizarPedido`: the stored order is replaced by the whole form. The database's update sets only the fields the form carries, so a stored field the form lacks (the date) would survive there.
- The source's `reject` calls name a parameter that does not exist, and `database/db.js` exports no users model and declares no salesperson field on orders; the model follows what the resolvers evidently mean and keeps `vendedor` on orders.
