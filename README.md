# Hardware-store point of sale: the sale lifecycle, in Dafny

This project models the client side of a small hardware-store point of sale
written in React. It covers the whole life of a sale:

- the cart on the sales screen, kept within the catalog's stock;
- the commit that records a sale, takes its quantities out of stock and
  empties the cart;
- the history screen, which filters sales by day, cancels a sale and returns
  its products to stock, and totals the listed sales;
- the daily cash closing, with today's figures and the one-way closing of
  the till;
- the dashboard's low-stock list and today's figures;
- the rules of the catalog, category and user screens: the three-way stock
  badge, the admin-only product edits, the category that cannot be deleted
  while it has products, the user who cannot delete themselves, and the list
  replace/append/remove each screen applies after the API answers;
- the shell's access rule per role, and the role-filtered side menu.

Each screen whose handlers change React state is a `class` whose fields are
that state. Its methods take the answers of the dialogs and of the API as
parameters, and say in `ensures` what the new state is, in terms of pure
functions. The properties the screens promise are lemmas about those
functions. Money is integer cents. A calendar day is an abstract
(year, month, day) value, and "today" is a parameter.

Modules, one per source file plus four shared ones:

| module | file | models |
|---|---|---|
| `Seqs` | seqs.dfy | `filter`, `find`, `map` and a summing `reduce` over sequences, with their lemmas |
| `Domain` | domain.dfy | products, cart lines, sales and their lines, users, API answers |
| `Crud` | crud.dfy | the replace / append / remove-by-id list updates every management screen applies |
| `Fecha` | fecha.dfy | the `YYYY-MM-DD` string the history screen compares days with |
| `DailySales` | dailysales.dfy | today's sales and their split by status, shared by the closing screen and the dashboard |
| `Ventas` | ventas.dfy | src/components/VentasView.js |
| `Historial` | historial.dfy | src/components/HistorialVentasView.js |
| `Corte` | corte.dfy | src/components/CorteView.js |
| `Dashboard` | dashboard.dfy | src/components/Dashboard.js |
| `Productos` | productos.dfy | src/components/ProductosView.js |
| `Categorias` | categorias.dfy | src/components/CategoriasView.js |
| `Usuarios` | usuarios.dfy | src/components/UsuariosView.js |
| `App` | app.dfy | src/App.js (access rule, view change, redirect) |
| `Sidebar` | sidebar.dfy | src/components/Sidebar.js |

### Behaviour of the code worth knowing

- **No stock re-check at commit.** The commit does not re-check stock
  against the catalog, and nothing makes it all-or-nothing.
  `procesarVenta` sends the cart as it is. After a successful answer it
  subtracts each line's quantity from the local catalog. A cart built
  against a catalog that has since sold out drives stock below zero
  (`Ventas.StaleCartOversells`).
- **Cancelling is never rejected.** Cancelling a missing or already
  cancelled sale is not rejected; the screen still marks it `cancelada`.
  Only a sale that was `completada` before the call gives its stock back,
  so there is no double reversal (`Historial.NoDoubleReversal`). Stock is
  returned from the first line of the sale for each product. Because the
  commit also takes stock from the first cart line per product, commit
  followed by cancel restores every product exactly
  (`Historial.CommitThenCancel`).
- **Success rate.** The closing screen divides the completed count by all
  of today's sales, not by completed plus cancelled. The two differ when a
  sale has some other status.
- **Units sold.** The history screen counts the units of every listed
  sale, cancelled ones included. The closing record counts completed sales
  only (`Corte.CancelledUnitsOnlyInHistorial`).
- **The closed flag can be reset by the server.** After a successful
  closing, the screen reloads the day's summary. If the server answers, its
  `corteYaRealizado` value replaces the local flag.

## Model

| member | source | states |
|---|---|---|
| Ventas.QuantityOf | src/components/VentasView.js:35 | the quantity is 0 when the product has no cart line, else that of its first line |
| Ventas.QuantityAt | src/components/VentasView.js:35 | with unique line ids, looking a line up by its id gives that line's quantity |
| Ventas.AddToCart | src/components/VentasView.js:34-57 | new product in stock: a last line of quantity 1; in the cart under its stock: that line +1, all others unchanged; otherwise the cart is unchanged |
| Ventas.AddOutcomeOf | src/components/VentasView.js:34-57 | Added / OutOfStock / Incremented / InsufficientStock, each exactly when its condition on cart and stock holds |
| Ventas.SetQuantity | src/components/VentasView.js:59-73 | n <= 0 removes the line; 0 < n <= catalog stock sets that line to n, nothing else changes; above the stock (or for a missing product) the cart is unchanged |
| Ventas.SetOutcomeOf | src/components/VentasView.js:59-73 | each branch exactly when its condition holds; the reported maximum is the catalog stock |
| Ventas.AddKeepsValid | src/components/VentasView.js:34-57 | adding a catalog product keeps the cart valid: unique lines, each for a catalog product with quantity between 1 and its stock |
| Ventas.AppendKeepsValid | src/components/VentasView.js:48-49 | a new line of quantity 1 for an in-stock product keeps the cart valid |
| Ventas.IncrementKeepsValid | src/components/VentasView.js:38-43 | raising a line still under its stock keeps the cart valid |
| Ventas.SetQuantityKeepsValid | src/components/VentasView.js:59-73 | setting a quantity keeps the cart valid |
| Ventas.SetLineKeepsValid | src/components/VentasView.js:59-73 | a new quantity between 1 and the catalog stock keeps the cart valid |
| Ventas.RemoveKeepsValid | src/components/VentasView.js:75-77 | removing a line keeps the cart valid |
| Ventas.RemoveLine | src/components/VentasView.js:75-77 | no line for the id remains, every remaining line was in the cart, every line for another product is kept |
| Ventas.AddChangesOnlyThatQuantity | src/components/VentasView.js:38-43 | an add changes only the added product's quantity, by one while under its stock |
| Ventas.RemoveExactlyThatLine | src/components/VentasView.js:75-77 | with unique ids, removal deletes exactly that line and keeps the others in order |
| Ventas.RequestTotalIsSumOfLines | src/components/VentasView.js:92-100 | the total sent equals the sum of price times quantity over the lines sent; an empty cart totals 0 |
| Ventas.CalcularTotal | src/components/VentasView.js:79-81 | an empty cart totals 0; with non-negative subtotals the total is at least each line's subtotal |
| Ventas.TotalOfAppend | src/components/VentasView.js:79-81 | a new line adds exactly its subtotal to the cart total |
| Ventas.TotalNonNegative | src/components/VentasView.js:79-81 | with non-negative prices and quantities the total is non-negative |
| Ventas.ApplySale | src/components/VentasView.js:110-117 | each product loses the quantity of its first cart line; products not in the cart are unchanged |
| Ventas.CommitKeepsStockNonNegative | src/components/VentasView.js:110-117 | committing a cart valid for the catalog keeps ids unique and every stock non-negative |
| Ventas.SoldWithinStock | src/components/VentasView.js:110-117 | a product in a valid cart never sells more than its catalog stock |
| Ventas.StaleCartOversells | src/components/VentasView.js:110-117 | the commit does not re-check stock: a cart valid for a catalog that later sold out leaves stock at -1 |
| Ventas.VentasView.AgregarAlCarrito | src/components/VentasView.js:34-57 | the new cart is AddToCart of the old one; the outcome is its branch; a valid cart stays valid |
| Ventas.VentasView.ActualizarCantidad | src/components/VentasView.js:59-73 | the new cart is SetQuantity of the old one; a rejected quantity leaves it unchanged; a valid cart stays valid |
| Ventas.VentasView.EliminarDelCarrito | src/components/VentasView.js:75-77 | the product has no line afterwards; a valid cart stays valid |
| Ventas.VentasView.ProcesarVenta | src/components/VentasView.js:83-129 | an empty cart makes no call; on success the sale is prepended, stock updated by ApplySale and the cart emptied; on failure nothing changes (CommitKeepsStockNonNegative then keeps stock non-negative) |
| Ventas.VentasView.LimpiarCarrito | src/components/VentasView.js:131-135 | the cart is emptied exactly when it was non-empty and the user confirmed |
| Historial.FilterByDate | src/components/HistorialVentasView.js:21-36 | no day selected: all sales; otherwise exactly the sales whose date string is the selected one |
| Historial.FilterByDayString | src/components/HistorialVentasView.js:21-36 | selecting a valid day's string lists exactly that day's sales, in order |
| Historial.MarkCancelled | src/components/HistorialVentasView.js:46-51 | the sale with the id becomes `cancelada`, every other sale is kept |
| Historial.FindSale | src/components/HistorialVentasView.js:54 | None exactly when no sale has the id; otherwise the first sale with it |
| Historial.RestoreStock | src/components/HistorialVentasView.js:54-64 | each product gains the quantity of its first line in the sale; others unchanged |
| Historial.ReturnedQuantity | src/components/HistorialVentasView.js:57 | 0 when no line is for the product; otherwise the quantity of the first line for it |
| Historial.StockAfterCancel | src/components/HistorialVentasView.js:54-64 | stock is returned only when the sale was `completada` before the call and has lines |
| Historial.CancelledAfterMark | src/components/HistorialVentasView.js:46-51 | after a cancel the sale with that id, if any, is `cancelada` |
| Historial.NoDoubleReversal | src/components/HistorialVentasView.js:54-64 | cancelling the same sale again returns no stock |
| Historial.ReturnedIsCommitted | src/components/HistorialVentasView.js:56 | per product, the quantity a cancel returns from a cart's lines is the quantity the commit took |
| Historial.RestoreUndoesCommit | src/components/HistorialVentasView.js:54-64 | restoring a committed cart's lines undoes the commit's stock update exactly |
| Historial.CommitThenCancel | src/components/HistorialVentasView.js:38-75 | commit then cancel of the recorded sale restores every product's stock |
| Historial.CancelButtonMatchesReversal | src/components/HistorialVentasView.js:303 | the cancel button shows exactly for the sales whose cancel returns their stock |
| Historial.ShowsCancelButton | src/components/HistorialVentasView.js:303 | the cancel button's condition (see CancelButtonMatchesReversal for what it agrees with) |
| Historial.CalcularTotales | src/components/HistorialVentasView.js:77-103 | the two counts and two revenues are those of the completed and the cancelled sales of the list; gross = completed + cancelled revenue (the revenue of the sales in either state); net = completed revenue; units = completed units plus the others' |
| Historial.TotalesCoverWellFormedList | src/components/HistorialVentasView.js:77-103 | when every sale is completed or cancelled, the counts cover the list and gross is the revenue of the list |
| Historial.HistorialVentasView.FiltrarPorFecha | src/components/HistorialVentasView.js:21-36 | the listed sales are FilterByDate of the sales and the selected day |
| Historial.HistorialVentasView.CancelarVenta | src/components/HistorialVentasView.js:38-75 | only a confirmed and successful cancel changes state: the sale is marked, stock returned per StockAfterCancel |
| Historial.HistorialVentasView.SetFechaHoy | src/components/HistorialVentasView.js:107-115 | the selected day is today's string, 10 characters for a 4-digit year |
| Historial.HistorialVentasView.LimpiarFiltro | src/components/HistorialVentasView.js:117-119 | the selected day is cleared |
| Fecha.NatToString | src/components/HistorialVentasView.js:26-27 | `String(n)`: at least one character, all digits, one digit exactly below 10 |
| Fecha.FormatDate | src/components/HistorialVentasView.js:24-29 | for a valid day: dashes 6 and 3 characters from the end, the year's string before the first, month and day padded to two characters after them |
| Fecha.ParseIntToString | src/components/HistorialVentasView.js:25-28 | the year's string reads back as the year |
| Fecha.ParsePadded | src/components/HistorialVentasView.js:26-27 | a month or day padded to 2 characters reads back as itself |
| Fecha.ReadBack | src/components/HistorialVentasView.js:24-29 | the `YYYY-MM-DD` string of a valid day reads back, field by field, as that day |
| Fecha.FormatDateInjective | src/components/HistorialVentasView.js:24-29 | two valid days have the same string exactly when they are the same day |
| Fecha.FormatDateLength | src/components/HistorialVentasView.js:107-115 | a day of a 4-digit year formats to 10 characters |
| DailySales.VentasDelDia | src/components/CorteView.js:30-34 | exactly the sales dated today |
| DailySales.Completadas | src/components/CorteView.js:36 | exactly the sales with `estado` completada |
| DailySales.Canceladas | src/components/CorteView.js:37 | exactly the sales with `estado` cancelada |
| DailySales.SumaTotales | src/components/CorteView.js:39-41 | an empty list sums to 0; with non-negative totals the sum is non-negative and at least each sale's total |
| DailySales.Unidades | src/components/CorteView.js:49 | an empty list has 0 units; with non-negative lines the units are non-negative and at least each sale's units |
| DailySales.StatusPartition | src/components/CorteView.js:36-45 | the completed and cancelled lists are disjoint, their sizes add to at most all sales, their revenues add to the revenue of both |
| DailySales.UnitsSplit | src/components/HistorialVentasView.js:85-90 | units over a list are the completed sales' units plus the others' |
| DailySales.UnitsAtLeastCompleted | src/components/CorteView.js:48-50 | with non-negative quantities, the completed units are at most the units of all sales |
| Corte.PromedioPorVenta | src/components/CorteView.js:239 | with sales, average times count equals revenue; without, 0; non-negative for non-negative revenue |
| Corte.PromedioDelCierre | src/components/CorteView.js:239 | the average on the closing screen is `PromedioPorVenta` of today's completed revenue over today's completed count (so times that count it is the revenue); 0 with none; non-negative when every total is |
| Corte.TasaDeExito | src/components/CorteView.js:245 | with sales, rate times count equals completed times 100; without, 0; between 0 and 100 when completed <= count |
| Corte.TasaDelDia | src/components/CorteView.js:245 | the day's rate is between 0 and 100, and is 100 exactly when the day has sales and all are completed |
| Corte.ProductosVendidos | src/components/CorteView.js:48-50 | with non-negative lines, between 0 and the units of all of today's sales |
| Corte.CierreDe | src/components/CorteView.js:80-86 | the record sends the responsible user's name, today's completed and cancelled counts, today's completed revenue and today's completed units; the two counts add to at most today's sales |
| Corte.CierreMatchesHistorial | src/components/CorteView.js:80-86 | the record's counts and revenue equal the history totals for the same day; its units are at most the history's |
| Corte.CancelledUnitsOnlyInHistorial | src/components/CorteView.js:48-50 | a cancelled sale of the day with units makes the history's units strictly exceed the record's |
| Corte.CorteView.CargarResumenDelDia | src/components/CorteView.js:18-28 | a successful answer sets the summary and the closed flag; otherwise nothing changes |
| Corte.CorteView.CerrarCaja | src/components/CorteView.js:57-112 | already closed: rejected and nothing changes; the record is sent exactly when confirmed (and the no-sales warning accepted); after a successful create the flag is set, and only the reloaded summary can change it |
| Dashboard.ProductosStockBajo | src/components/Dashboard.js:6 | exactly the products with stock <= minimum, every sold-out product with a non-negative minimum among them |
| Dashboard.StockBajoKeepsOrder | src/components/Dashboard.js:6 | the list keeps catalog order |
| Dashboard.EnStock | src/components/Dashboard.js:63 | at most the catalog size; 0 exactly when no product has stock |
| Dashboard.EnStockAppend | src/components/Dashboard.js:63 | adding a product raises the count by one exactly when that product has stock |
| Dashboard.EnStockPlusAgotados | src/components/Dashboard.js:53-63 | in-stock plus out-of-stock products make up the catalog count |
| Dashboard.EstadisticasDe | src/components/Dashboard.js:9-20 | today's sale count, the completed and cancelled counts, and the completed and cancelled revenues, each that of today's sales in that state; the two counts add to at most today's sales |
| Dashboard.VentasHoyCard | src/components/Dashboard.js:73 | at most today's sales, and below them exactly when some sale of today is not completed |
| Dashboard.TotalDelDia | src/components/Dashboard.js:193 | the revenue of today's completed sales; non-negative when no total is negative |
| Dashboard.DashboardMatchesCierre | src/components/Dashboard.js:73 | when every total of today's sales is a number, the dashboard's sales card, day total and cancelled count equal the closing record's completed count, revenue and cancelled count |
| Dashboard.CancelledLeavesTotal | src/components/Dashboard.js:193 | when every total of today's sales is a number, cancelling a completed sale of today lowers the day total by exactly its total |
| Productos.GetStockStatus | src/components/ProductosView.js:135-139 | Sin stock iff stock <= 0; Stock bajo iff 0 < stock <= minimum; Stock normal iff above both |
| Productos.ShowsLowStockWarning | src/components/ProductosView.js:233 | the warning never shows with Stock normal, always with Stock bajo, and is missing for Sin stock only when the minimum is below the stock |
| Productos.WarningMatchesDashboard | src/components/ProductosView.js:233 | the warning shows exactly on the products the dashboard lists as low on stock |
| Productos.ProductosView.HandleSubmit | src/components/ProductosView.js:31-73 | non-admin or thrown call: nothing changes; otherwise the list is SubmitList of the old one and the form is reset |
| Productos.ProductosView.HandleEdit | src/components/ProductosView.js:81-98 | non-admin: nothing changes; otherwise the product is being edited, the form filled from it, the modal open |
| Productos.ProductosView.HandleDelete | src/components/ProductosView.js:100-119 | the product is removed exactly for a confirmed, successful delete by an admin |
| Productos.ProductosView.OpenNewProductModal | src/components/ProductosView.js:121-130 | non-admin: nothing changes; otherwise an empty form in an open modal |
| Productos.ProductosView.ResetForm | src/components/ProductosView.js:75-79 | empty form, nothing being edited, modal closed |
| Productos.DeleteRemovesExactlyOne | src/components/ProductosView.js:111 | with unique ids, a delete removes exactly that product, the rest in order |
| Productos.UpdateReplacesExactlyOne | src/components/ProductosView.js:55 | with unique ids, an update replaces exactly that position |
| Crud.FindById | src/components/VentasView.js:35 | None exactly when no record has the id; otherwise the first record with it |
| Crud.FindByIdAt | src/components/VentasView.js:111 | with unique ids, lookup by a record's id finds that record |
| Crud.ReplaceById | src/components/ProductosView.js:55 | the records with the id become the saved one, the others are kept in place |
| Crud.Append | src/components/ProductosView.js:62 | the saved record is added after the unchanged list |
| Crud.RemoveById | src/components/ProductosView.js:111 | no record with the id is left; every other record is kept |
| Crud.ReplaceUnique | src/components/CategoriasView.js:31 | with unique ids, an update is a single-position replacement |
| Crud.RemoveAbsent | src/components/CategoriasView.js:80 | removing an absent id changes nothing |
| Crud.RemoveUnique | src/components/CategoriasView.js:80 | with unique ids, a delete removes exactly the one record, the others in order |
| Crud.RemoveKeepsUnique | src/components/UsuariosView.js:80 | a delete keeps ids unique |
| Crud.SubmitList | src/components/UsuariosView.js:28-41 | answer without success: unchanged; update: edited id replaced, rest unchanged; create: appended at the end |
| Crud.SubmitKeepsUnique | src/components/UsuariosView.js:28-41 | when the server keeps an edited id and gives a new one to a create, ids stay unique |
| Categorias.ProductCount | src/components/CategoriasView.js:96-98 | at most the catalog size; positive exactly when some product has the category |
| Categorias.ProductCountAppend | src/components/CategoriasView.js:96-98 | a new product adds one to its own category's count and nothing to the others' |
| Categorias.DeleteButtonDisabled | src/components/CategoriasView.js:190 | disabled exactly when some product of the catalog has the category |
| Categorias.DeleteKeepsReferencedCategory | src/components/CategoriasView.js:190 | a category some product refers to has its delete button disabled |
| Categorias.CategoriasView.HandleDelete | src/components/CategoriasView.js:66-88 | rejected, before any dialog, exactly when the button is disabled; deleted exactly when also confirmed and successful; otherwise unchanged |
| Categorias.CategoriasView.HandleSubmit | src/components/CategoriasView.js:22-49 | thrown call: nothing changes; otherwise the list is SubmitList of the old one and the form is reset |
| Categorias.CategoriasView.HandleEdit | src/components/CategoriasView.js:57-64 | the category is being edited, the form holds its name and description, the modal is open |
| Categorias.CategoriasView.ResetForm | src/components/CategoriasView.js:51-55 | empty form, nothing being edited, modal closed |
| Categorias.CategoriasView.OpenNewCategoriaModal | src/components/CategoriasView.js:90-94 | empty form, nothing being edited, modal open |
| Categorias.DeleteRemovesExactlyOne | src/components/CategoriasView.js:80 | with unique ids, a delete removes exactly that category, the rest in order |
| Usuarios.EditForm | src/components/UsuariosView.js:58-67 | the form copies name, email and role, and the password is always blank |
| Usuarios.ShowDeleteButton | src/components/UsuariosView.js:183 | the delete button is hidden only on the current user's own row (see OnlyOwnRowHidesDelete and HandleDelete) |
| Usuarios.UsuariosView.HandleDelete | src/components/UsuariosView.js:69-88 | rejected, before any dialog, exactly on the row that shows no delete button (the own account), and nothing changes; deleted exactly for another id, confirmed and successful |
| Usuarios.UsuariosView.HandleSubmit | src/components/UsuariosView.js:23-50 | thrown call: nothing changes; otherwise the list is SubmitList of the old one and the form is reset |
| Usuarios.UsuariosView.HandleEdit | src/components/UsuariosView.js:58-67 | the user is being edited, the form is EditForm of them, the modal is open |
| Usuarios.UsuariosView.ResetForm | src/components/UsuariosView.js:52-56 | empty form with role vendedor, nothing being edited, modal closed |
| Usuarios.UsuariosView.OpenNewUserModal | src/components/UsuariosView.js:90-94 | empty form with role vendedor, nothing being edited, modal open |
| Usuarios.DeleteKeepsCurrentUser | src/components/UsuariosView.js:183 | a delete of any other id keeps the current user in the list |
| Usuarios.OnlyOwnRowHidesDelete | src/components/UsuariosView.js:183 | in a list with unique ids holding the current user, exactly one row lacks the delete button: the current user's own |
| Usuarios.DeleteRemovesExactlyOne | src/components/UsuariosView.js:80 | with unique ids, a delete removes exactly that user, the rest in order |
| App.CheckAccess | src/App.js:33-47 | 'login' always allowed; no user: only 'login'; admin: everything; other roles: all but 'usuarios' and 'proveedores' |
| App.DashboardAlwaysAllowed | src/App.js:50-55 | every logged-in user may open the dashboard the redirect sends them to |
| App.AppState.HandleViewChange | src/App.js:106-112 | the view changes to the requested one exactly when it is allowed; the consistent state is kept |
| App.AppState.RedirectIfDenied | src/App.js:50-55 | a logged-in user on a denied view other than login is sent to the dashboard; afterwards the current view is allowed |
| Sidebar.FilteredMenuItems | src/components/Sidebar.js:17-19 | exactly the menu entries whose roles include the user's role (membership both ways) |
| Sidebar.MenuKeepsOrder | src/components/Sidebar.js:17-19 | the shown entries keep menu order: for any split of the menu, those from the first part come first, then those from the rest |
| Sidebar.AdminSeesAll | src/components/Sidebar.js:5-19 | an administrator sees all 8 entries |
| Sidebar.VendedorSeesSix | src/components/Sidebar.js:5-19 | a seller sees 6 entries, none of them 'usuarios' or 'proveedores' |
| Sidebar.NonAdminSeesNoAdminView | src/components/Sidebar.js:7-9 | no non-admin is offered 'usuarios' or 'proveedores' |
| Sidebar.NoUserNoMenu | src/components/Sidebar.js:17-19 | with no user the menu is empty |
| Sidebar.MenuAgreesWithAccess | src/components/Sidebar.js:5-19 | every entry shown to a user leads to a view the access rule allows for them |

## Left out

- src/services/api.js is not part of this model. Each API call is a parameter: a boolean, or an answer that is saved, not saved, or thrown.
- src/components/LoginForm.js is not part of this model. Logging in is network I/O and form state.
- src/components/Navigation.js is not part of this model. Its logout writes `localStorage`; the cart it empties is the same `[]` that `LimpiarCarrito` produces.
- src/components/ProveedoresView.js is not part of this model. Its supplier list uses the same replace/append/remove updates that `Crud` models.
- src/components/common/Modal.js and LoadingSpinner.js are not part of this model. They are presentation only.
- JSX rendering, CSS, icons, `alert` and `console` output are not modelled. Only the rendered conditions that gate an action are: the cancel button, the delete buttons, the warning icon and the menu.
- Floating point is not modelled. Money is integer cents and the average and rate are exact `real`s. `toFixed`, and `parseFloat`/`isNaN` beyond "not a number counts as 0", are not modelled.
- String concatenation of totals is not modelled. The cancelled sum of `Historial.CalcularTotales` (line 82 adds `v.total || 0`) treats every total as a number; in the source a string total would be concatenated.
- Dashboard.EstadisticasDe, Dashboard.TotalDelDia, Dashboard.DashboardMatchesCierre and Dashboard.CancelledLeavesTotal hold only when every total of today's sales is a number. Dashboard.js:19-20 adds `v.total` as it comes, so a sale without a total makes the dashboard's sum NaN (shown as 0.00) and a string total is concatenated. CorteView.js:39-45 counts such a total as 0. The model counts it as 0 on both screens.
- The clock and time zone are not modelled. "Today" and each sale's day are given `Day` values. `new Date().toDateString()` equality is day equality. The initial `selectedDate` from `toISOString` is not modelled.
- `async`/`await` ordering, the `loading` flags and React's re-renders are not modelled. Each handler is one atomic step. The effects (the day filter, the redirect) are methods the caller runs after a change.
- The search box and product search results of the sales screen are not modelled. A product added to the cart is a parameter.
- The product form's text fields and the numeric parsing of a submitted product are not modelled. The form is "empty" or "filled from this product". The list stores the record the API answers with.
- The server's guarantees are not modelled: unique ids, one closing per day, and the `corteYaRealizado` value. They are inputs, or preconditions of the lemmas that need them.
- Ventas.VentasView.ActualizarCantidad: when the product is missing from the catalog and the quantity is positive, the source throws a `TypeError` on `producto.stock`. The model leaves the cart unchanged and reports `ProductMissing`.
