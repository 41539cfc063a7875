# Sabor Express ordering front end — a Dafny model

This project models the client-side logic of a restaurant ordering front end: a Next.js
application in which customers browse a menu, build a cart, sign up, log in, place and
cancel orders and see their invoices, and in which administrators manage every order and
invoice. Everything stateful lives in the browser (React state plus the `'cart'`,
`'usuario'` and `'token'` slots of `localStorage`); everything else comes from a REST back end.

The model covers:

- **Three divergent carts.**
  - The checkout page (`CrearPedido`) and the pending-order panel (`PedidoPendiente`) key lines by index. They ignore a change that would take a quantity to zero or below, and mirror every edit into the `'cart'` slot.
  - The menu page (`MenuPage`) merges additions by item name.
  - The landing page (`HomePage`) keys lines by name and clamps quantities at 1.
- **The session store** (`AuthContext`): hydration, login, sign-up, logout and profile update, over the cached user and the stored slots.
- **The route guard** (`ProtectedRoute`).
- **The form validators.**
  - The sign-up page (`Registro`) and the sign-up component (`Register`).
  - The login form (`LoginContent`).
  - The profile page (`Perfil`).
  - Shared pieces: `Text` (whitespace, `trim`, UTF-16 length, the e-mail pattern) and `Forms`.
- **The list views.**
  - The administrator's order list (`GestionPedidosAdmin`) and invoice list (`GestionFacturasAdmin`).
  - The customer's invoices (`MisFacturas`) and orders (`MisPedidos`), which share `AccountPages`.
  - The item list (`ListaItems`).
  - Shared pieces: `Catalog`, `Facturas`, `Sorting`.
- **The enumerations and display tables** (`Constants`).

Conventions:

- Money is integer cents, so the 5.00 delivery fee is `DELIVERY_FEE = 500`.
- Instants are integers.
- A remote call is an input of type `Remote<T>`, either `Ok(value)` or `Failed(status, message)`. Status 0 stands for "no HTTP response"; message `""` stands for "no message in the error body".
- Browser storage is a `map<string, Stored>`. JSON text is abstracted as `CartJson`, `UserJson` or `Raw` (text that does not parse), with a proved parse/stringify round trip.
- Classes are used where the source updates state step by step: the two index-keyed carts, the menu page's storage write and the session store. The rest are pure functions over a view record.

## Model

| member | source | states |
|---|---|---|
| Wrappers.MessageOr | components/pedido/CrearPedido.tsx:94 | `err.response?.data?.message \|\| fallback`: the server's message, or the fallback exactly when that message is empty |
| Constants.CategoriasAreFour | lib/constants.ts:3-8 | `Categoria` has exactly four distinct values |
| Constants.EstadosAreFive | lib/constants.ts:10-16 | `Estado` has exactly the five values PENDIENTE, EN_PROCESO, PREPARADO, ENTREGADO, CANCELADO, each once |
| Constants.ColorsTotal | lib/constants.ts:18-24 | `ESTADO_COLORS` has an entry for every `Estado` |
| Constants.LabelsTotalAndDistinct | lib/constants.ts:26-32 | `ESTADO_LABELS` has an entry for every `Estado`, and no two states share a label |
| Storage.ParseCart | components/pedido/CrearPedido.tsx:24-30 | parsing succeeds exactly on cart JSON, and what parses re-serialises to the same text |
| Storage.ParseUser | contexts/AuthContext.tsx:32-39 | parsing succeeds exactly on user JSON, and what parses re-serialises to the same text |
| Storage.CartRoundTrip | components/pedido/CrearPedido.tsx:42 | a stringified cart parses back to the same cart |
| Storage.UserRoundTrip | contexts/AuthContext.tsx:48 | a stringified user parses back to the same user |
| Storage.StoredUser | contexts/AuthContext.tsx:32-35 | a 'usuario' slot holding a user's JSON yields exactly that user; an absent slot or any other content yields none |
| Sorting.InsertDesc | app/mis-pedidos/page.tsx:45-47 | inserting into a newest-first list keeps it newest first and adds exactly that element |
| Sorting.SortDesc | app/mis-pedidos/page.tsx:45-47 | the sorted list is newest first and a permutation of the input |
| Sorting.SortSortedIsIdentity | components/admin/GestionPedidosAdmin.tsx:52 | sorting a list that is already newest first returns it unchanged |
| Seqs.Filter | app/page.tsx:116 | `filter` keeps exactly the elements that pass, at most as many as there were, and keeps everything when all pass |
| Seqs.FilterAppend | app/page.tsx:116 | filtering a concatenation filters each part in order |
| Seqs.FilterDeletesOne | components/pedido/CrearPedido.tsx:47 | when only position k fails the test, filtering deletes exactly position k |
| Routes.NatString | components/pedido/CrearPedido.tsx:91 | a natural number prints as decimal digits without leading zeros whose decimal value is that number |
| Routes.NumberString | components/pedido/CrearPedido.tsx:91 | a template literal prints a missing code as 'undefined', a non-negative code as its digits and a negative one as '-' and the digits of its magnitude, each denoting the code |
| Routes.NumberStringHead | components/pedido/CrearPedido.tsx:91 | the first character tells the three printed forms apart |
| Routes.PedidoPath | components/pedido/CrearPedido.tsx:91 | the confirmation route is '/pedido/' followed by exactly the printed order code |
| Routes.PedidoPathDeterminesCode | components/pedido/CrearPedido.tsx:91 | two orders sent to the same route have the same code |
| Text.Trim | app/registro/page.tsx:41-42 | `trim()` yields a slice `s[i..j]` such that everything cut off on either side is whitespace and the slice starts and ends with a non-whitespace character |
| Text.TrimEmptyIffBlank | app/registro/page.tsx:41-42 | `!s.trim()` holds exactly when every character of s is whitespace |
| Text.Utf16Length | app/registro/page.tsx:52 | `.length` counts between one and two code units per character |
| Text.ValidateEmail | app/registro/page.tsx:24-27 | the executable check holds exactly when the string matches `^[^\s@]+@[^\s@]+\.[^\s@]+$` |
| Text.EmailCheckIffRegex | components/auth/LoginContent.tsx:28-31 | no whitespace plus a sole non-initial '@' plus a later '.' with text on both sides is equivalent to the pattern |
| Text.RegexGivesCheck | app/registro/page.tsx:25 | a string matching the pattern has no whitespace, exactly one '@' and a dot after it |
| Text.CheckGivesRegex | app/registro/page.tsx:25 | a string passing the check splits as part '@' part '.' part |
| CartLines.Hydrated | components/pedido/CrearPedido.tsx:22-32 | an absent, empty or unparseable 'cart' slot gives the empty cart; a parseable one gives its lines |
| CartLines.AdjustAt | components/pedido/CrearPedido.tsx:34-44 | a positive new quantity sets line i's quantity and subtotal = quantity × unit price, nothing else changes; otherwise the cart is unchanged |
| CartLines.RemoveAt | components/pedido/CrearPedido.tsx:46-50 | removing index i deletes exactly line i and keeps the rest in order; an index outside the cart changes nothing |
| CartLines.SetNotesAt | components/pedido/CrearPedido.tsx:52-57 | only line i's notes change |
| CartLines.SumSubtotals | components/pedido/CrearPedido.tsx:59-61 | the reduce over subtotals is 0 for no lines and, when no subtotal is negative, non-negative and at least every line's subtotal |
| CartLines.SumAppend | components/pedido/CrearPedido.tsx:59-61 | the sum of subtotals is additive over concatenation |
| CartLines.SumReplace | components/pedido/CrearPedido.tsx:59-61 | replacing one line moves the sum by the difference of the two subtotals |
| CartLines.AdjustTotal | components/pedido/CrearPedido.tsx:34-44 | a quantity change moves the cart total by the line's subtotal change only |
| CartLines.RemoveTotal | components/pedido/CrearPedido.tsx:46-50 | removing line i lowers the total by exactly its subtotal |
| CartLines.NotesKeepTotal | components/pedido/CrearPedido.tsx:52-57 | a notes edit leaves the total unchanged |
| CartLines.EditsKeepPositive | components/pedido/CrearPedido.tsx:36-43 | every edit keeps every quantity at 1 or more |
| CartLines.EditsKeepConsistent | components/pedido/CrearPedido.tsx:39-40 | every edit keeps subtotal = quantity × unit price on every line |
| CrearPedido.Confirm | components/pedido/CrearPedido.tsx:63-83 | no user goes to login, an empty cart is refused, and otherwise a PENDIENTE order for that user whose lines are exactly the cart |
| CrearPedido.PayableTotal | components/pedido/CrearPedido.tsx:100-102 | the payable total is the sum of subtotals plus the 5.00 fee (the fee alone for an empty cart) |
| CrearPedido.CrearPedidoView.constructor | components/pedido/CrearPedido.tsx:22-32 | the cart starts as what the 'cart' slot hydrates to, with no error raised |
| CrearPedido.CrearPedidoView.UpdateQuantity | components/pedido/CrearPedido.tsx:34-44 | the cart becomes `AdjustAt`; on a positive result the slot mirrors the cart, otherwise storage is untouched; the shown total moves by the line's subtotal change |
| CrearPedido.CrearPedidoView.RemoveItem | components/pedido/CrearPedido.tsx:46-50 | the cart becomes `RemoveAt` and the slot mirrors it; removing line i lowers the shown total by its subtotal |
| CrearPedido.CrearPedidoView.UpdateObservaciones | components/pedido/CrearPedido.tsx:52-57 | the cart becomes `SetNotesAt` and the slot mirrors it; the shown total is unchanged |
| CrearPedido.CrearPedidoView.CalcularTotal | components/pedido/CrearPedido.tsx:59-61 | the subtotal shown is the payable total less the 5.00 fee: 0 for an empty cart and, when no subtotal is negative, at least every line's subtotal |
| CrearPedido.CrearPedidoView.ConfirmarPedido | components/pedido/CrearPedido.tsx:63-98 | login redirect or empty-cart error with no order sent; otherwise the order sent; on success the cart slot is removed and the route is '/pedido/<code>'; on failure the slot stays and the error is the server's message or the fallback |
| PedidoPendiente.PedidoPendienteView.constructor | components/pedido/PedidoPendiente.tsx:19-29 | `detalles` starts as what the 'cart' slot hydrates to; an unparseable slot leaves it empty |
| PedidoPendiente.PedidoPendienteView.UpdateCantidad | components/pedido/PedidoPendiente.tsx:31-41 | `detalles` becomes `AdjustAt`; on a positive result the slot mirrors it, otherwise nothing changes; the shown total moves by the line's subtotal change |
| PedidoPendiente.PedidoPendienteView.EliminarItem | components/pedido/PedidoPendiente.tsx:43-47 | `detalles` becomes `RemoveAt` and the slot mirrors it; removing line i lowers the shown total by its subtotal |
| PedidoPendiente.PedidoPendienteView.UpdateObservaciones | components/pedido/PedidoPendiente.tsx:49-54 | `detalles` becomes `SetNotesAt` and the slot mirrors it; the shown total is unchanged |
| PedidoPendiente.PedidoPendienteView.CalcularTotal | components/pedido/PedidoPendiente.tsx:56-58 | the panel shows the sum of subtotals with no fee, i.e. the checkout's payable total less 5.00; 0 when empty and, when no subtotal is negative, at least every line's subtotal |
| MenuPage.AddToCart | app/menu/page.tsx:17-36 | a present name bumps that line and adds none; a new name appends one line of quantity 1 at price = subtotal = the item's price, with empty notes |
| MenuPage.Badge | app/menu/page.tsx:95-99 | the badge shows only for a non-empty cart and counts lines, not units |
| MenuPage.BadgeCountsLines | app/menu/page.tsx:17-36 | adding a name already in the cart leaves the badge as it was; adding a new name raises it by one |
| MenuPage.AddKeepsUniqueNames | app/menu/page.tsx:17-35 | the cart never holds two lines with the same item name |
| MenuPage.AddMergesOneLine | app/menu/page.tsx:21-25 | a merge changes only the matching line: quantity + 1, subtotal (quantity + 1) × the passed price, unit price kept |
| MenuPage.MergedSubtotalUsesPassedPrice | app/menu/page.tsx:23 | after a merge, subtotal = quantity × unit price holds exactly when the passed price equals the stored unit price |
| MenuPage.AddTotal | app/menu/page.tsx:17-36 | adding moves the total by the new line's price, or by the merged line's subtotal change |
| MenuPage.HandOffRoundTrip | app/menu/page.tsx:38-41 | what the menu page writes is exactly what the checkout page hydrates |
| MenuPage.PizzaAddedTwice | app/menu/page.tsx:17-36 | a 16.99 pizza added twice is one line of two units, 33.98, and 38.98 with the fee |
| MenuPage.MenuPageView.constructor | app/menu/page.tsx:15 | the page's cart starts empty |
| MenuPage.MenuPageView.AddItem | app/menu/page.tsx:17-36 | the cart becomes `AddToCart` and storage is untouched |
| MenuPage.MenuPageView.VerCarrito | app/menu/page.tsx:38-42 | the whole cart is written to the slot, the slot hydrates back to the cart, and the route is '/pedido' |
| Catalog.FilterByCategory | components/menu/ListaItems.tsx:62-68 | 'TODOS' keeps all items; a category keeps exactly the items of that category |
| Catalog.FilterKeepsOrder | app/page.tsx:90-92 | the filter keeps items in the order they had |
| Catalog.FilterIdempotent | app/page.tsx:90-92 | filtering twice by the same category is filtering once |
| HomePage.FilteredItems | app/page.tsx:90-92 | 'TODOS' returns the whole built-in menu; a category keeps exactly its items |
| HomePage.AddToCart | app/page.tsx:94-105 | a present name gets one more unit with nothing else changed; otherwise one line of quantity 1 with empty notes is appended |
| HomePage.Clamped | app/page.tsx:107-111 | lines with that name get max(1, quantity + delta); other lines are unchanged |
| HomePage.UpdateQuantity | app/page.tsx:107-113 | every line left holds at least one unit and comes from the clamped map; on a cart of positive quantities nothing is filtered out |
| HomePage.UpdateQuantityRemovesNothing | app/page.tsx:107-113 | on a cart of positive quantities the trailing filter removes nothing, so no quantity drops below 1 |
| HomePage.RemoveFromCart | app/page.tsx:115-117 | every line with that name goes and every other line stays |
| HomePage.RemoveDeletesTheLine | app/page.tsx:115-117 | with one line per name, removal deletes exactly that line and keeps the rest in order |
| HomePage.SetNotes | app/page.tsx:381-386 | the notes edit changes only the notes of lines with that name |
| HomePage.Total | app/page.tsx:119-121 | `total` is `cartTotal` plus the 5.00 fee |
| HomePage.CartTotal | app/page.tsx:119 | `cartTotal` is 0 for an empty cart and, when no line's price x quantity is negative, non-negative and at least every line's amount |
| HomePage.CartTotalAppend | app/page.tsx:119 | `cartTotal` is additive over concatenation |
| HomePage.AddToCartTotal | app/page.tsx:94-105 | adding raises `cartTotal` by exactly one unit of the item's price |
| HomePage.BumpTotal | app/page.tsx:97-101 | bumping the only line of a name adds that line's price to the total |
| HomePage.AddKeepsInvariants | app/page.tsx:94-105 | adding keeps one line per name and every quantity at least 1 |
| HomePage.UpdateKeepsInvariants | app/page.tsx:107-113 | a quantity change keeps one line per name and every quantity at least 1 |
| HomePage.RemoveKeepsInvariants | app/page.tsx:115-117 | removal keeps one line per name and every quantity at least 1 |
| HomePage.NotesKeepInvariants | app/page.tsx:381-386 | a notes edit keeps one line per name and every quantity at least 1 |
| HomePage.FilterKeepsUnique | app/page.tsx:112 | filtering a cart with one line per name keeps one line per name |
| AuthContext.AuthProvider.constructor | contexts/AuthContext.tsx:27-28 | the store starts with no user and loading |
| AuthContext.AuthProvider.Hydrate | contexts/AuthContext.tsx:30-42 | a parseable slot becomes the user; an unparseable one is removed and the user stays none; loading ends and user and slot agree |
| AuthContext.AuthProvider.Login | contexts/AuthContext.tsx:44-53 | the call carries the given credentials; success makes the user and the slot the server's user; failure changes nothing and is rethrown |
| AuthContext.AuthProvider.Registro | contexts/AuthContext.tsx:55-64 | the call carries the given data unchanged; success logs the new user in exactly as login does; failure changes nothing and is rethrown |
| AuthContext.AuthProvider.Logout | contexts/AuthContext.tsx:66-77 | the remote call is made only for a user with an id; the user, 'usuario' and 'token' are always cleared |
| AuthContext.AuthProvider.UpdateUsuario | contexts/AuthContext.tsx:79-90 | a no-op without an id; otherwise success replaces and persists the user, and failure changes nothing and is rethrown |
| ProtectedRoute.Redirect | components/auth/ProtectedRoute.tsx:17-27 | no redirect while loading; '/login' exactly when loaded with no user; '/menu' exactly for a non-administrator when admin is required |
| ProtectedRoute.Render | components/auth/ProtectedRoute.tsx:29-45 | the loading view exactly while loading; the children exactly when loaded, logged in and meeting the admin requirement |
| ProtectedRoute.RenderDefault | components/auth/ProtectedRoute.tsx:13 | with the default `requireAdmin = false`, any loaded user gets the children |
| ProtectedRoute.RedirectAndRenderAgree | components/auth/ProtectedRoute.tsx:17-45 | the children render exactly when there is no redirect and loading is over; nothing renders exactly when a redirect fires |
| Forms.CheckNewPassword | components/auth/Register.tsx:37-45 | a mismatch is reported before a short password; it passes exactly when both match and the length is at least 6 |
| Feedback.ErrorToast | app/perfil/page.tsx:111-116 | a rejected action shows the destructive 'Error' toast with that description |
| Registro.Validate | app/registro/page.tsx:41-60 | blank fields, then the e-mail pattern, then length, then confirmation: exactly the first failing check is reported |
| Registro.Payload | app/registro/page.tsx:66-73 | the payload always has role 'CLIENTE', carries the form's fields and omits the confirmation |
| Registro.RegistroError | app/registro/page.tsx:83-89 | 409 gives the duplicate-email text; otherwise the server's message, or a fallback that depends on whether the status was 400 |
| Registro.HandleSubmit | app/registro/page.tsx:36-93 | a request is sent exactly when validation passes; success goes to '/login?registro=exitoso'; a route is set exactly when no error is shown |
| Register.Payload | components/auth/Register.tsx:50 | the payload is the form minus the confirmation |
| Register.HandleSubmit | components/auth/Register.tsx:32-58 | only the confirmation and length checks gate the call; success goes to '/menu'; failure shows the server's message or the fallback |
| LoginContent.Validate | components/auth/LoginContent.tsx:38-46 | a blank e-mail or password is reported first, then a malformed e-mail; it passes exactly when both are non-blank and the e-mail matches |
| LoginContent.RoleRedirect | components/auth/LoginContent.tsx:54-58 | '/admin' exactly when the resolved user's role is 'ADMIN', else '/menu' |
| LoginContent.LoginError | components/auth/LoginContent.tsx:62-69 | 400 gives the credentials text, 404 the user-not-found text, anything else the server's message or the fallback |
| LoginContent.HandleSubmit | components/auth/LoginContent.tsx:33-73 | login is called exactly when validation passes; the error is reset per submit; success routes by the resolved value |
| LoginContent.LoginNeverReachesAdmin | components/auth/LoginContent.tsx:51-58 | since `login` resolves with no value, a successful login always goes to '/menu' and never to '/admin' |
| LoginContent.SuccessBanner | components/auth/LoginContent.tsx:21-26 | the banner appears exactly when the `registro` parameter is 'exitoso' |
| Perfil.PageFor | app/perfil/page.tsx:37-44 | loading view while auth loads; '/login' when loaded with no user; the page otherwise |
| Perfil.InitialProfileForm | app/perfil/page.tsx:24-28 | the form is set once from the session the first render sees: the user's fields, or '' each when there is no user |
| Perfil.ProfileMerge | app/perfil/page.tsx:51-54 | the sent user is the cached one with name, e-mail and address from the form and everything else kept |
| Perfil.UntouchedFormSendsUserBack | app/perfil/page.tsx:24-54 | when the session had loaded before the page first rendered, submitting the untouched form sends the cached user unchanged |
| Perfil.FreshLoadForm | app/perfil/page.tsx:24-28 | on a fresh load the first render sees the store's initial state (contexts/AuthContext.tsx:27-28), so the form is blank |
| Perfil.FreshLoadSubmitBlanksProfile | app/perfil/page.tsx:51-54 | after a fresh load the untouched form sends the user with name, e-mail and address set to '', which differs from the user whenever it had a name |
| Perfil.ResyncedForm | app/perfil/page.tsx:24-28 | the corrected form is re-filled from the session whenever a user is present, and kept while there is none |
| Perfil.ResyncedUntouchedFormSendsUserBack | app/perfil/page.tsx:24-54 | with the corrected form an untouched submit sends back the cached user, whatever the first render saw |
| Perfil.UpdatePerfil | app/perfil/page.tsx:46-69 | the merged user is sent; the success toast exactly when the store resolves, else the server's message or the fallback |
| Perfil.CambiarContrasena | app/perfil/page.tsx:71-120 | mismatch before length, no call on failure; success clears all three fields; failure keeps them |
| GestionPedidosAdmin.QueryFor | components/admin/GestionPedidosAdmin.tsx:34-38 | 'TODOS' asks for all orders; an estado asks for the orders in that estado |
| GestionPedidosAdmin.WithTotals | components/admin/GestionPedidosAdmin.tsx:41-50 | each order gets its fetched total, or is kept as it was when that fetch fails; nothing but the total changes |
| GestionPedidosAdmin.LoadPedidos | components/admin/GestionPedidosAdmin.tsx:29-60 | the loaded list is newest first and a permutation of the orders with totals; a failed load keeps the list and sets the error |
| GestionPedidosAdmin.SetEstado | components/admin/GestionPedidosAdmin.tsx:68-72 | only orders with that code take the new estado; length and all other orders unchanged |
| GestionPedidosAdmin.SetEstadoKeepsOrder | components/admin/GestionPedidosAdmin.tsx:52-72 | the local update keeps a newest-first list newest first |
| GestionPedidosAdmin.SetEstadoIdempotent | components/admin/GestionPedidosAdmin.tsx:68-72 | applying the same update twice equals applying it once |
| GestionPedidosAdmin.BeginUpdate | components/admin/GestionPedidosAdmin.tsx:64 | during the call the order's code is held in `updatingPedido` and nothing else changes |
| GestionPedidosAdmin.FinishUpdate | components/admin/GestionPedidosAdmin.tsx:62-79 | success applies `SetEstado`; failure keeps the list and raises the alert; `updatingPedido` is null afterwards |
| GestionPedidosAdmin.UpdateKeepsLoadedOrder | components/admin/GestionPedidosAdmin.tsx:52-79 | a full update round keeps a newest-first list newest first |
| GestionPedidosAdmin.DisplayedTotal | components/admin/GestionPedidosAdmin.tsx:125 | a non-zero total is shown; a missing or zero total falls back to the sum of subtotals |
| Facturas.RangeCheck | components/admin/GestionFacturasAdmin.tsx:47-55 | both dates are required; a start after the end is refused; equal or unparseable dates pass |
| Facturas.SameDayIsAccepted | components/admin/GestionFacturasAdmin.tsx:52-55 | the same chosen date as start and end is accepted |
| Facturas.TotalFacturado | components/admin/GestionFacturasAdmin.tsx:82 | the reduce over amounts is 0 for no invoices and, when no amount is negative, non-negative and at least every invoice's amount |
| Facturas.TotalAppend | components/admin/GestionFacturasAdmin.tsx:82 | `totalFacturado` is additive over concatenation |
| Facturas.TotalWithout | components/admin/GestionFacturasAdmin.tsx:82 | the total is one invoice's amount plus the total of the others |
| Facturas.TotalOfPermutation | components/admin/GestionFacturasAdmin.tsx:82 | `totalFacturado` does not depend on the order of the invoices |
| Facturas.NewestFirst | components/admin/GestionFacturasAdmin.tsx:31-33 | sorted by `fechaEmision` newest first, the same invoices, the same total |
| Facturas.AverageOf | components/admin/GestionFacturasAdmin.tsx:114 | a ratio of total over count exactly when there is at least one invoice, else the '0.00' text |
| GestionFacturasAdmin.LoadFacturas | components/admin/GestionFacturasAdmin.tsx:27-42 | the fetched invoices newest first with the error cleared; a failed load keeps the list and sets the error |
| GestionFacturasAdmin.FiltrarPorRango | components/admin/GestionFacturasAdmin.tsx:44-70 | a query is sent exactly when the range check passes; results replace the list newest first; a failed query keeps the previous list |
| GestionFacturasAdmin.LimpiarFiltro | components/admin/GestionFacturasAdmin.tsx:72-76 | both dates are reset to '' and all invoices are reloaded |
| GestionFacturasAdmin.ClearedFilterIsRefused | components/admin/GestionFacturasAdmin.tsx:47-76 | right after clearing, filtering is refused for want of dates |
| GestionFacturasAdmin.Summary | components/admin/GestionFacturasAdmin.tsx:82-114 | the cards show the count, the sum of amounts, and the average only when the count is positive |
| GestionFacturasAdmin.LoadedTotalIsFetchedTotal | components/admin/GestionFacturasAdmin.tsx:31-34 | after a load the total billed is the total of the fetched invoices |
| AccountPages.MountEffect | app/mis-facturas/page.tsx:31-40 | redirect to '/login' exactly once loaded with no user; load exactly when the user has an id |
| MisFacturas.LoadFacturas | app/mis-facturas/page.tsx:42-60 | nothing at all without an id; otherwise the user's invoices newest first, or the previous list with the error |
| MisFacturas.AppliedToast | app/mis-facturas/page.tsx:90-93 | the success toast names the two chosen dates |
| MisFacturas.FiltrarPorRango | app/mis-facturas/page.tsx:62-103 | the same range guard, reported by toast; results newest first; a failed query keeps the list |
| MisFacturas.LimpiarFiltro | app/mis-facturas/page.tsx:105-109 | both dates are reset and the user's invoices reloaded |
| MisPedidos.LoadPedidos | app/mis-pedidos/page.tsx:38-56 | nothing without an id; otherwise the user's orders newest first, or the previous list with the error |
| MisPedidos.CanCancel | app/mis-pedidos/page.tsx:176-185 | Cancel is offered exactly for PENDIENTE orders |
| MisPedidos.CancelarPedido | app/mis-pedidos/page.tsx:58-75 | declining sends nothing; success toasts and reloads; failure toasts the server's message or the fallback and does not reload |
| MisPedidos.AfterCancel | app/mis-pedidos/page.tsx:67 | the list is reloaded only after a successful cancel |
| MisPedidos.ItemsLabel | app/mis-pedidos/page.tsx:150 | 'item' exactly for one line, else 'items' |
| MisPedidos.ShownTotal | app/mis-pedidos/page.tsx:153-158 | the total is shown exactly when the order carries one |
| ListaItems.LoadItems | components/menu/ListaItems.tsx:47-60 | the fetched items become both the full and the shown list; a failure sets the load error |
| ListaItems.FilterItems | components/menu/ListaItems.tsx:62-68 | the shown list becomes the selected category's items, nothing else changes |
| ListaItems.HandleSearch | components/menu/ListaItems.tsx:70-89 | a blank text filters with no call; results replace the shown list and reset the category to 'TODOS'; a failure sets the search error |
| ListaItems.ClearSearch | components/menu/ListaItems.tsx:91-94 | the text becomes '' and the category filter is reapplied |
| ListaItems.RefilterEffect | components/menu/ListaItems.tsx:41-45 | while the text is blank the filter is reapplied; otherwise the shown list is left alone |
| ListaItems.SearchResultsSurviveEffect | components/menu/ListaItems.tsx:41-82 | the category reset after a search does not overwrite its results |
| ListaItems.ClearThenEffectIsStable | components/menu/ListaItems.tsx:41-94 | after clearing, the effect computes the same list again |
| ListaItems.AddEnabled | components/menu/ListaItems.tsx:205 | the add button is enabled exactly for available items |
| ListaItems.EmptyMessage | components/menu/ListaItems.tsx:215-219 | under an empty list, the search wording exactly when the search text is non-empty |

## Findings

| source | as written | input that shows it | evidently intended | confidence | as-written member | corrected member |
|---|---|---|---|---|---|---|
| app/perfil/page.tsx:24-28 | the profile form takes its initial values from `usuario` on the page's first render only; on a fresh load or refresh that render happens while the session store still holds no user, so the form stays blank | reload '/perfil' with a stored user named 'Ana' and submit the profile form untouched: the update sends that user with `nombre`, `gmail` and `direccion` all '' | the form shows the signed-in user's data, so an untouched submit changes nothing | not executed; high that the first render sees no user, since the store starts empty and hydrates in an effect | Perfil.FreshLoadSubmitBlanksProfile | Perfil.ResyncedUntouchedFormSendsUserBack |

## Left out

- HTTP services are not part of this model (`lib/services/*.ts`, the unseen `lib/api`, and `calcularTotal`, `getFacturasByRango` and `updateDireccion`). Each call is an input: the `Remote` value it returns, or a function from order code to `Remote` for the per-order totals.
- Asynchrony is not modelled. Each handler is one atomic step; the `Promise.all` fan-out, late responses racing with loading flags, and the intermediate `loading = true` renders are not represented.
- Floating point is not modelled. Prices and totals are integer cents. `toFixed`, rounding and `toLocaleDateString` are left out; the average is the pair (total, count), since its real value is only displayed.
- JSON is abstract. Well-formed JSON of the wrong shape in a storage slot is treated like unparseable text. The source would instead accept such JSON and fail later during rendering.
- Router navigation is only the target path string. Alerts and toasts are values, not side effects.
- The line object is mutated in place after a shallow copy of the array (`CrearPedido.tsx:39-40`, `PedidoPendiente.tsx:36-37`). It is modelled as replacing the line value, since nothing else holds that object.
- CrearPedido.CrearPedidoView.UpdateQuantity: requires a valid index. In JavaScript an out-of-range index throws; the views only pass indices of rendered lines. The same applies to `UpdateObservaciones` and to `PedidoPendiente`'s `UpdateCantidad` and `UpdateObservaciones`.
- Sorting.SortDesc: proved newest-first and a permutation of its input. The stability of JavaScript's `sort` is modelled by the algorithm but not proved.
- AuthContext.AuthProvider.Logout: the result of the remote logout call is ignored by the source, so the model takes no response for it.
- AuthContext.AuthProvider.UpdateUsuario: `Partial<Usuario>` is modelled as a full `Usuario`.
- Perfil.UpdatePerfil: takes the form as an input, so it applies equally to the form as written (`InitialProfileForm`) and to the corrected one (`ResyncedForm`); re-rendering is not modelled.
- The date fields are modelled as their text plus the instant `new Date(text)` denotes. How the browser parses the text is not part of this model.
- Rendering-only files are not part of this model, nor are files that only sequence remote calls: administration of the menu, addresses, password recovery, headers, footers and the detail pages.
- Server-side rules are not part of this model: state transitions, invoice numbering, and what a range query returns (the customer page's range query carries no user id).
