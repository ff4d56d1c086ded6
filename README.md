# Wiki-IA in Dafny

Wiki-IA is a directory of AI tools. Users register and sign in. They
publish listings, which wait as *pendiente* until an admin approves or
rejects them. They also review approved listings with 1 to 5 stars and
keep favourites. Points are awarded for an approved listing (50) and for a
review (10). The backend is a set of Express routes over a relational
database. The browser scripts keep the session, sort and search cards,
run a chat widget and drive the admin's moderation panel.

This project models the following parts:

- **The request gate** (`AuthMiddleware`). It takes the bearer token out of
  the `Authorization` header, which has the shape of section 2.1 of
  RFC 6750. It verifies the token as a JWT (RFC 7519), lets only the
  `admin` role through to admin routes, and states the claims a token
  carries.
- **The database** (`Database`). A `Store` class holds one map per table,
  the moderation history and a log of the stored-procedure calls
  (`dar_puntos`, `actualizar_calificacion_ia`). Its invariant `Valid()`
  holds the uniqueness constraints and the invariants the lifecycle keeps:
  - fresh keys;
  - unique email and unique username;
  - one review per (user, listing);
  - exactly one history row per moderated listing;
  - exactly one 50-point award per approved listing;
  - exactly one 10-point award per review.

  `Schema` holds the rows and `Base` holds the JavaScript truthiness
  helpers.
- **The routes**, one method each:
  - `AdminRoutes`: approve, reject, category change, ban and unban, and
    the dashboard statistics;
  - `ResenasRoutes`: reviews;
  - `FavoritosRoutes`: favourites;
  - `IasRoutes`: listings and the queries the listing routes build;
  - `AuthRoutes`: registration, login and profile update.

  Every route method keeps `Valid()` and states, for each branch, the
  status, the message and the whole new state.
- **The browser scripts.** `Sorting` is the sort the scripts call. The
  other modules are classes over the page state:
  - `CategoriasPage`: the category page, with slug, truncation, stars,
    sort and search;
  - `CardFilters`: the home page's filter buttons;
  - `Chatbot`: the chat widget and its stored history;
  - `AdminDashboard`: the moderation panel;
  - `ClientSession`: the browser session and the request headers.

Foreign libraries and the outside world are parameters:

| Outside thing | Modelled as |
|---|---|
| `jwt.verify` | `verify: string -> Option<TokenPayload>` |
| `jwt.sign` | `sign: (TokenPayload, string) -> string` |
| bcrypt hash | `hash: string -> string` |
| bcrypt compare | `compare: (string, string) -> bool` |
| current time | `now: Timestamp` |
| date parser | `time: string -> real` |
| confirmation dialog | `confirmed: bool` |
| `fetch` answers | a `Response` value |
| column defaults | `UserDefaults`, `IaDefaults`, `ResenaDefaults` |
| `fecha_publicacion`, `fecha_actualizacion` of a new listing (the insert leaves them to the database) | taken as `now` and null |

The column defaults are not part of this model's sources, because the
database schema is not among them.

## Model

| member | source | states |
|---|---|---|
| AuthMiddleware.BearerToken | backend/middleware/auth.js:6-11 | A token is found only in a present header. It is the second piece of the header split on single spaces, never empty and never holding a space. |
| AuthMiddleware.BearerTokenShape | backend/middleware/auth.js:7 | Both directions: the token is `t` exactly when the header reads some space-free word, one space, `t`, then the end or a space. The scheme word is never checked. |
| AuthMiddleware.VerificarToken | backend/middleware/auth.js:5-20 | No token gives 401. A token that does not verify gives 403. `next()` is reached exactly when the token verifies, and it carries the decoded claims. |
| AuthMiddleware.VerificarAdmin | backend/middleware/auth.js:23-28 | `next()` is reached exactly when the role is `admin`; otherwise 403 with the fixed message. |
| AuthMiddleware.AdminGate | backend/routes/admin.js:6-8 | The admin routes are reached exactly when the token verifies and carries the `admin` role. The token gate's refusals pass through unchanged, and a non-admin gets 403. |
| AuthMiddleware.PayloadOf | backend/middleware/auth.js:31-38 | The signed claims are exactly `user_id`, `username`, `email` and `rol` of the user. |
| AuthMiddleware.GenerarToken | backend/middleware/auth.js:31-41 | The token is `sign` applied to the user's id, username, email and role, with nothing else in the payload, and an `expiresIn` of `7d`. |
| AuthMiddleware.IssuedTokenPasses | backend/middleware/auth.js:31-41 | Suppose `verify` accepts what `sign` produced and the token holds no space. Then, with any header scheme, the token reaches `next()` with the user's claims, and it passes the admin gate exactly when the user is an admin. |
| Database.SingleMatchUnique | backend/routes/resenas.js:58-65 | When at most one row can match, `.single()` yields a row exactly when some row matches. |
| Database.ModeratedOnce | backend/routes/admin.js:105-139 | Under the store's invariant, a pending listing has no history row. A moderated listing has exactly one history row, and no listing gets more than one approval award. |
| AdminRoutes.ModerationKeepsValid | backend/routes/admin.js:109-139 | The store's invariant survives moving a pending listing to its moderated row and appending its history row and, for an approval only, its 50-point award. |
| AdminRoutes.Aprobar | backend/routes/admin.js:90-149 | A missing listing gives 404 and one already moderated gives 400, both without change. Otherwise the listing becomes `aprobada`, moderated by the caller at `now`, its owner is awarded 50 points for `publicar_ia`, and one `pendiente -> aprobada` row is logged. If the owner's account is gone, the reply is 500 after these effects. |
| AdminRoutes.Rechazar | backend/routes/admin.js:152-207 | A missing reason gives 400 before any lookup. Then 404 and 400 as for approval. Otherwise the listing becomes `rechazada` with the reason, one history row with the reason as comment is logged, and no points are awarded. |
| AdminRoutes.CambiarCategoria | backend/routes/admin.js:210-254 | A missing category gives 400, and an unknown one gives 400 "Categoría no válida". A missing listing gives 500 without change. Otherwise only the listing's category and update time change, whatever its moderation state. |
| AdminRoutes.Baneado | backend/routes/admin.js:322-328 | The ban update leaves the row banned, with the given reason or the default text, and changes nothing else. |
| AdminRoutes.Desbaneado | backend/routes/admin.js:345-351 | The unban update leaves the row not banned and without a reason, and changes nothing else. |
| AdminRoutes.Banear | backend/routes/admin.js:317-338 | Sets `baneado` and the given reason, or the default text "Violación de términos de uso". A missing user still gets 200. Nothing else changes. |
| AdminRoutes.Desbanear | backend/routes/admin.js:341-361 | Clears `baneado` and the reason; nothing else changes. |
| AdminRoutes.BanThenUnban | backend/routes/admin.js:322-351 | Unbanning a freshly banned account gives the account back unchanged. |
| AdminRoutes.StatsReply | backend/routes/admin.js:43-58 | Every failed count shows as 0. `totalVisitas` is the left fold of the usage column, and 0 when the query fails or returns no rows. |
| AdminRoutes.UsosAprobadas | backend/routes/admin.js:38-41 | The usage query returns one value per approved row. |
| AdminRoutes.TotalVisitasIsApprovedUsage | backend/routes/admin.js:37-43 | `totalVisitas` equals the total usage of the approved listings, computed by an independent right fold, and is 0 when none is approved. |
| AdminRoutes.SumUsosPermutation | backend/routes/admin.js:38-43 | The order in which the database returns the rows does not change `totalVisitas`. |
| ResenasRoutes.ListedReviews | backend/routes/resenas.js:11-19 | GET /ia/:iaId lists only active reviews of that listing, and at most one per author. |
| ResenasRoutes.DeletedNotListed | backend/routes/resenas.js:166-170 | A soft-deleted review drops out of its listing's reviews, and no other review does. |
| ResenasRoutes.SingleReviewLookup | backend/routes/resenas.js:58-67 | With one review per pair, the duplicate check finds a row exactly when the caller has reviewed the listing, including reviews that were deleted. |
| ResenasRoutes.Crear | backend/routes/resenas.js:32-104 | 400 when the listing or score is missing or the score is outside 1 to 5. 404 unless the listing is approved. 400 if the caller already has a row for it. Otherwise a review is stored under a fresh key with the listing, the caller, the score and the comment or null, its `editado` and `activo` taken from the column defaults. A 10-point award for `resena` naming the listing follows, then a recomputation of the listing's average. The new review is among the listing's reviews exactly when `activo` defaults to true. |
| ResenasRoutes.ReviewKeepsValid | backend/routes/resenas.js:69-93 | The store's invariant survives inserting a review for a new pair together with its award and a recomputation. |
| ResenasRoutes.Editada | backend/routes/resenas.js:124-127 | The edit always sets `editado`. It changes the score only when truthy and the comment whenever the field is present (null included). The listing, the author and the active flag stay. |
| ResenasRoutes.EditNothing | backend/routes/resenas.js:125-127 | An edit with neither field only marks the review as edited. |
| ResenasRoutes.Editar | backend/routes/resenas.js:107-147 | Only the author's row is changed; any other case gives 404 without change. The row gets the edit and the listing's average is recomputed; nothing else changes. |
| ResenasRoutes.RowUpdateKeepsValid | backend/routes/resenas.js:129-139 | The store's invariant survives rewriting a review in place and logging the recomputation. |
| ResenasRoutes.Eliminar | backend/routes/resenas.js:150-181 | Only the author's row is changed, otherwise 404. The row stays but becomes inactive, and a recomputation is logged. |
| FavoritosRoutes.FavoritosDe | backend/routes/favoritos.js:7-26 | The caller's list holds only listings the caller marked. |
| FavoritosRoutes.FavoritosDeComplete | backend/routes/favoritos.js:9-25 | Every listing the caller marked is in the caller's list. |
| FavoritosRoutes.OtherUsersUnaffected | backend/routes/favoritos.js:72-103 | Adding or removing one user's favourite leaves every other user's list as it was. |
| FavoritosRoutes.Agregar | backend/routes/favoritos.js:39-92 | 400 without an id. 404 unless the listing is approved. 400 if already marked. Otherwise the pair is added, the reply names the listing, and nothing else changes. |
| FavoritosRoutes.Quitar | backend/routes/favoritos.js:95-113 | Afterwards the pair is absent, whether or not it was there, and the reply is always 200. |
| FavoritosRoutes.Check | backend/routes/favoritos.js:116-132 | Refused exactly when the gate refuses. Otherwise `esFavorito` is true exactly when the caller marked the listing. |
| FavoritosRoutes.AddRemoveCheck | backend/routes/favoritos.js:72-127 | After adding, the check says true; after removing, it says false. |
| IasRoutes.NuevaIa | backend/routes/ias.js:117-129 | The inserted row is pending and owned by the caller. Its logo is null exactly when none was given, and it carries no moderation data. |
| IasRoutes.NewListingKeepsValid | backend/routes/ias.js:116-129 | The store's invariant survives inserting a pending listing under a fresh key. |
| IasRoutes.Publicar | backend/routes/ias.js:96-142 | 400 when a required field is missing or the category does not exist. Otherwise one pending listing is stored under a fresh key, and there is no history row and no award. |
| IasRoutes.PublishedIsPending | backend/routes/ias.js:116-127 | A freshly published listing has no history row and no award yet. |
| IasRoutes.Detalle | backend/routes/ias.js:62-93 | Only an approved listing is shown; anything else gives 404 without change. Showing it adds one to its use count, and the reply carries the row as read before the increment. |
| IasRoutes.SortColumnFor | backend/routes/ias.js:36-47 | "recientes" sorts by date and "mejor-calificadas" by rating. Anything else, or nothing, sorts by use count. |
| IasRoutes.ConsultaListado | backend/routes/ias.js:7-47 | The list query asks for approved, active listings with the limit (50 by default) and the sort column. It filters by category only when exactly one category has the slug; an unknown slug adds no filter. |
| IasRoutes.ConsultaBusqueda | backend/routes/ias.js:167-180 | The search query asks for approved, active listings matching the term, at most 20, unordered. |
| IasRoutes.ListadoOnlyApprovedActive | backend/routes/ias.js:11-20 | Every answer to the list query holds only approved, active listings, and no more than the limit. |
| IasRoutes.BusquedaOnlyApprovedActive | backend/routes/ias.js:171-180 | Every answer to the search holds only approved, active, matching listings, at most 20. |
| IasRoutes.UnmoderatedNeverListed | backend/routes/ias.js:18-19 | A pending or rejected listing is in no answer of the public list or search query. |
| AuthRoutes.Publico | backend/routes/auth.js:48-58 | The user object sent back holds only the named columns, and `avatar` only for login. The password hash is never part of it. |
| AuthRoutes.ClashOf | backend/routes/auth.js:22-26 | The registration check sees nothing exactly when no account has that email or username. It sees an account exactly when exactly one does. |
| AuthRoutes.NuevoUsuario | backend/routes/auth.js:37-41 | The new row has the given name and email, the hashed password, and is not banned. |
| AuthRoutes.NewAccountKeepsValid | backend/routes/auth.js:36-41 | The store's invariant survives inserting an account whose email and username nobody has. |
| AuthRoutes.Registro | backend/routes/auth.js:8-65 | A missing field gives 400, and a password under 6 characters gives 400. One clashing account gives 400 without change. Two different clashing accounts give 500 without change. Otherwise one account is created and the reply is 201 with a token for it and its public view. |
| AuthRoutes.ConflictoMeansTwoAccounts | backend/routes/auth.js:22-43 | The 500 case happens only with two different accounts, one holding the email and another the username. |
| AuthRoutes.EmailTakenIsReported | backend/routes/auth.js:22-30 | With unique accounts, re-registering an existing account's email and username is reported as taken. |
| AuthRoutes.LoginLookup | backend/routes/auth.js:78-86 | With unique emails, the login lookup finds a row exactly when some account has the email. |
| AuthRoutes.Login | backend/routes/auth.js:68-126 | A missing field gives 400 and an unknown email gives 401. A banned account gives 403 with its ban reason, decided before the password is compared. A wrong password gives 401 with the unknown-email text. Otherwise only `ultima_actividad` changes, and the reply carries the token and the public view with the avatar. |
| AuthRoutes.ConCambios | backend/routes/auth.js:181-186 | The update sets the username and avatar only when truthy, and the biography whenever the field is present. No other column changes. |
| AuthRoutes.PerfilRespuestaTalCual | backend/routes/auth.js:188-197 | As written, the reply's user is the whole updated row, password hash included. |
| AuthRoutes.PerfilRespuestaExponeHash | backend/routes/auth.js:188-197 | As written, the reply carries the account's password hash. |
| AuthRoutes.PerfilDe | backend/routes/auth.js:131-146 | Corrected: the reply carries the public profile columns of the updated row. |
| AuthRoutes.PerfilDeHidesHash | backend/routes/auth.js:188-197 | Corrected: rows that differ only in their hash give the same reply. |
| AuthRoutes.ActualizarPerfil | backend/routes/auth.js:179-203 | Only the caller's row gets the partial update. A missing row, or a username another account holds, gives 500 without change. The reply carries the whole updated row, as the code sends it, password hash included. |
| Sorting.SortDescending | js/categorias.js:161-171 | The array ends in non-increasing key order and is a permutation of its old contents. |
| Sorting.InsertLeft | js/categorias.js:161-171 | Given a sorted prefix before `i`, the prefix through `i` ends sorted and the array holds the same elements. |
| Sorting.SortedCopy | js/categorias.js:159 | The copy is sorted, has the same elements, and the input stays as it was. |
| CategoriasPage.ObtenerSlugCategoria | js/categorias.js:6-10 | The slug holds no `/`. When the last path piece has no ".html", the slug is that piece. |
| CategoriasPage.SlugOfHtmlPage | js/categorias.js:7-9 | For a page `dirs/name.html` where `name` has no slash and no dot, the slug is `name`. |
| CategoriasPage.TruncarTexto | js/categorias.js:139-143 | A missing or empty text gives "", and a text that fits is returned unchanged. A longer one gives its first `maxLength` characters with end spaces trimmed, then "...". The result is at most `maxLength + 3` long. |
| CategoriasPage.Round | js/categorias.js:96 | `Math.round`: the result is within half of the input, halves going up. |
| CategoriasPage.Estrellas | js/categorias.js:95-96 | There is a star string exactly when the rounded rating is between 0 and 5. It is 5 characters: round(rating) full stars, then empty ones. |
| CategoriasPage.EstrellasOfValidRating | js/categorias.js:95-96 | Any rating from 0 to 5 gives five stars, and a missing rating gives five empty ones. |
| CategoriasPage.FiltroKey | js/categorias.js:161-171 | A sort key exists exactly for the three known filters. |
| CategoriasPage.FiltrarCoincidencias | js/categorias.js:227-230 | The filter keeps only matching listings from the input. |
| CategoriasPage.FiltrarCoincidenciasComplete | js/categorias.js:227-230 | Every matching listing is kept. |
| CategoriasPage.FiltrarCoincidenciasConcat | js/categorias.js:227-230 | Filtering distributes over concatenation, so the original order is kept. |
| CategoriasPage.Busqueda | js/categorias.js:221-232 | An all-space input shows every original. Otherwise a listing is shown exactly when it is an original whose lower-cased name or description holds the trimmed, lower-cased term. |
| CategoriasPage.Page.CargarCategoria | js/categorias.js:17-61 | A failed load changes nothing. Otherwise both globals are set, and the grid shows the listings, or is hidden behind the empty state when there are none. |
| CategoriasPage.Page.FiltrarIAs | js/categorias.js:158-174 | The grid shows a permutation of the originals, which stay as they were. It is sorted highest first by the filter's key, with missing use counts and ratings taken as 0. An unknown filter keeps the original order. |
| CategoriasPage.Page.Buscar | js/categorias.js:223-233 | The grid shows what `Busqueda` gives for the originals. |
| Chatbot.Saved | js/script.js:32-37 | Saving onto no history gives the greeting then the message. Saving onto a history keeps every entry and appends exactly one. |
| Chatbot.SaveAllAppends | js/script.js:32-37 | Saving messages one after another gives the old history (or the greeting) followed by all of them, in order. |
| Chatbot.Widget.LoadChatHistory | js/script.js:14-29 | A stored history replaces the chat body; otherwise the body stays. |
| Chatbot.Widget.SaveMessage | js/script.js:32-37 | The stored history becomes `Saved` of the old one. |
| Chatbot.Widget.LoadChatState | js/script.js:40-46 | A stored "open" opens the window and hides the button; otherwise nothing changes. |
| Chatbot.Widget.SendMessage | js/script.js:49-60 | A blank input changes nothing and stays in the box. Otherwise the trimmed text is shown and saved as the user's, and the box is cleared. Body and stored history stay in step. |
| Chatbot.Widget.KeyPress | js/script.js:81-85 | Only Enter sends, as `sendMessage` does: a blank input, or any other key, changes nothing; otherwise the trimmed text is appended to the body and saved as the user's, and the box is cleared. |
| Chatbot.Widget.OpenWindow | js/script.js:67-71 | The window opens, the button hides, and "open" is stored. |
| Chatbot.Widget.CloseWindow | js/script.js:73-77 | The window closes, the button shows, and "closed" is stored. |
| Chatbot.PageLoad | js/script.js:62-64 | After loading, the window is open exactly when the stored state is "open", and the body shows the stored history if there is one. |
| CardFilters.FilterTitle | js/script.js:112-132 | The three known filters have a title; any other sets an empty one. |
| CardFilters.CardKey | js/script.js:138-146 | A key exists exactly for the three known filters. |
| CardFilters.FilterBar.Click | js/script.js:118-153 | Exactly the clicked button is active and the title is the filter's. The cards are a permutation of the old ones, sorted highest first by the filter's key, or left in order for an unknown filter. |
| CardFilters.FilterBar.ApplyDefault | js/script.js:156-160 | With a "most-used" button, the first such button alone ends active and the cards end sorted by use count under its title; without one, nothing changes. |
| AdminDashboard.FindIndex | js/admin-dashboard.js:233 | Gives the first position with the id, or none exactly when no entry has it. |
| AdminDashboard.FindCategory | js/admin-dashboard.js:313 | Gives a category with the id, or none exactly when none has it. |
| AdminDashboard.KnownCategories | js/admin-dashboard.js:143-153 | Every id from 1 to 9 finds the category at position `id - 1`. |
| AdminDashboard.RemoveAt | js/admin-dashboard.js:235 | `splice(i, 1)` drops exactly the element at `i`, keeps the others in order, and removes one copy of it from the multiset. |
| AdminDashboard.CountIdRemoveAt | js/admin-dashboard.js:233-236 | Removing a position lowers the count of its id by one and leaves every other id's count alone. |
| AdminDashboard.RenderAsWritten | js/admin-dashboard.js:158-224 | As written, a non-empty list is shown with its count. An empty list shows the message but keeps the old counter. |
| AdminDashboard.RenderAsWrittenStaleCount | js/admin-dashboard.js:162-166 | As written, after the last pending listing is removed, the counter still shows 1 beside the no-pending message. |
| AdminDashboard.Render | js/admin-dashboard.js:158-224 | Corrected: the panel always shows the list. The counter is its length, the message shows exactly when it is empty, and the cards are its entries. |
| AdminDashboard.RenderAsWrittenVersusRender | js/admin-dashboard.js:158-224 | On a non-empty list the page's render and the corrected one agree; on an empty one they differ only in the counter, which the page leaves as it was. Both keep what the panel keeps as written: a non-empty list shown with its count, or for an empty one the message shown and the cards hidden. |
| AdminDashboard.Panel.constructor | js/admin-dashboard.js:331-332 | The page loads with the given list, nothing remembered and both modals closed, rendered as the page renders it. An empty list keeps the initial counter. |
| AdminDashboard.Panel.ApproveIA | js/admin-dashboard.js:227-242 | When not confirmed, or when the id is absent, nothing changes. Otherwise exactly the first entry with the id is removed, the others keep their order, and the list is rendered as the page renders it. Approving the last entry leaves the counter as it was. |
| AdminDashboard.Panel.OpenRejectModal | js/admin-dashboard.js:245-249 | The modal opens with an empty reason and remembers the id. |
| AdminDashboard.Panel.CloseRejectModal | js/admin-dashboard.js:252-255 | The modal closes and the id is forgotten. |
| AdminDashboard.Panel.ConfirmReject | js/admin-dashboard.js:258-279 | A blank reason, or a remembered id that is absent, changes nothing. Otherwise that entry is removed and the list rendered as the page renders it, so rejecting the last entry leaves the counter as it was; the modal closes and the id is reset. |
| AdminDashboard.Panel.RemoveCurrent | js/admin-dashboard.js:269-274 | An absent remembered id changes nothing. Otherwise exactly its first entry is removed, the list is rendered as the page renders it (the last entry removed leaves the counter as it was), and the modal closes. |
| AdminDashboard.Panel.OpenCategoryModal | js/admin-dashboard.js:282-301 | The id is always remembered. The select is emptied first. For an absent id the page then throws `TypeError`: the select stays empty and the modal stays closed. Otherwise the modal opens with the listing's category selected, or with the first category (id 1) when the listing's category is not among the nine. |
| AdminDashboard.Panel.CloseCategoryModal | js/admin-dashboard.js:304-307 | The modal closes and the id is forgotten. |
| AdminDashboard.Panel.ConfirmChangeCategory | js/admin-dashboard.js:310-328 | When both the listing and the category exist, only that entry's category id and name change, the length stays, the non-empty list is shown with its count, and the modal closes. Otherwise nothing changes. |
| ClientSession.HeaderFor | js/auth.js:204-221 | The header shows a user exactly when one is stored, with their name and their points (0 when missing). |
| ClientSession.ErrorText | js/auth.js:103-107 | A thrown error shows its message, and a refused answer shows the server's error or the fallback text. |
| ClientSession.Session.ObtenerToken | js/auth.js:228-230 | Gives the stored token. |
| ClientSession.Session.EstaAutenticado | js/auth.js:239-241 | True exactly when a non-empty token is stored. |
| ClientSession.Session.EsAdmin | js/auth.js:244-247 | True exactly when a stored user has the `admin` role. |
| ClientSession.Session.ObtenerHeaders | js/auth.js:250-261 | Always the JSON content type. `Authorization` is `Bearer <token>` exactly when signed in, and there are no other keys. |
| ClientSession.Session.HandleLogin | js/auth.js:79-127 | Posts the two fields. A failure shows its text and stores nothing. Success stores both the token and the user, closes the modal and updates the header. |
| ClientSession.Session.HandleRegistro | js/auth.js:130-187 | Differing passwords show an error, post nothing and store nothing. Otherwise it posts the three fields and stores the session as login does. |
| ClientSession.Session.CerrarSesion | js/auth.js:190-198 | Both entries are removed, and the header shows the sign-in buttons. |
| ClientSession.HeadersCarryToken | js/auth.js:255-258 | The header the browser builds reaches the server's gate as the stored token, when the token holds no space. |
| ClientSession.NoTokenNoHeader | js/auth.js:255-258 | Without a token no `Authorization` header is sent, and the server answers 401. |

## Left out

- Database failures: every `if (error) throw error` path, and the 500 a route reports for them, are left out because their cause is outside the code. The 500s that follow from the code's own logic are modelled: the missing owner in approval, the missing listing in category change, the registration clash, and the profile update.
- Atomicity: the steps of a route run one after another in the model. A failure halfway is not modelled, nor is a race between two requests (two admins approving the same listing).
- The bodies of the stored procedures `dar_puntos` and `actualizar_calificacion_ia` are not part of this model. Their calls are logged events, and the points, levels and average ratings they compute are not modelled.
- bcrypt, jsonwebtoken and the salt rounds are parameters; so are token expiry checking and the server secret.
- The database's ordering, `limit` and `ilike` are not interpreted. `AnswerOf` states what any answer must satisfy: admitted rows, distinct, within the limit. The sort order of an answer is left to the database.
- The `.or(...)` text of registration and search is built from user input. Injection through that text is not modelled. The filter is taken as the two equalities, or the two `ilike`s, it is meant to be.
- Timestamps are opaque values; the date parse of the client scripts is a parameter `time`.
- Rendering: HTML, CSS classes, notifications, `alert`, number formatting (`formatearNumero`, `toFixed`) and the `innerHTML` escaping of user text are left out as DOM work. Pages show their lists as sequences of entries.
- JSON: browser storage keeps values, not JSON text. A stored entry that does not parse is not modelled.
- Strings: JavaScript lengths count UTF-16 units while Dafny counts characters. `toLowerCase` is modelled for ASCII and Latin-1 letters only. `trim` uses the whitespace set of `Strings.IsSpace`.
- Sorting: sort stability is not stated. A comparator that yields NaN (an unparsable number or date) is not modelled, since card data attributes are taken as parsed numbers.
- A review score is an integer; a fractional score sent in the body is not modelled.
- GET routes that only read through to the database are not modelled: `/ias/pendientes`, admin `/ias`, `/usuarios`, `/historial`, `/actividad-reciente`, `/ias/usuario/mis-ias`, GET `/perfil` (its niveles and medallas joins), and the rows of GET `/favoritos`. Their filters are single equalities and their order and joins are database work. Shown instead are the reviews list (`ResenasDeIa`) and the favourites list (`FavoritosDe`).
- `toggleFavorito` and the category page's filter-button wiring are not modelled. They call the favourite routes and `filtrarIAs`, which are.
- The admin dashboard's mock statistics, recent listings, activity and top-user tables are not modelled: they are constant data (js/admin-dashboard.js:6-103).
- The Codespaces API-URL rewrite and the modal helpers of js/auth.js (lines 7-72) are not modelled: they are page wiring.
- The chatbot's canned replies are not modelled: the source has none, since it only stores what the user types.
- The chatbot's initial body comes from the page's HTML, which is not part of this model, so it is a constructor parameter.
- `AdminDashboard.Panel.OpenCategoryModal`: the select's option elements are not modelled, only the value it holds (none once emptied). That a single-choice select with no option marked holds its first option is browser behaviour, stated rather than derived.

## Notes on the code

The code differs from a plain reading of the routes in several ways; the model follows the code.

- The bearer scheme word is never checked: any one word before the token works.
- GET `/ias/:id` shows an approved listing even when it is not `activa`. The list and search routes require both flags.
- Editing a review does not check the score against 1 to 5 again; any truthy score is stored.
- Edit and delete find a review whether or not it was soft-deleted, and the duplicate check of POST `/resenas` counts deleted reviews too.
- The registration check uses `.single()` over an OR of email and username. Two different accounts, one holding the email and another the username, make `.single()` yield nothing. The insert then breaks a uniqueness constraint, giving 500 rather than the intended 400.
- A category change does not check the listing first. For a missing listing the update matches no row, and building the reply fails: 500.

## Findings

| source | as written | input that shows it | evidently intended | confidence | as-written member | corrected member |
|---|---|---|---|---|---|---|
| js/admin-dashboard.js:162-166 | `renderPendingIAs` returns on an empty list before it writes `pendingCount` | a list holding one pending listing, which the admin approves | the counter shows 0 once the list is empty, as line 223 does for every other length | high (not executed) | AdminDashboard.RenderAsWrittenStaleCount | AdminDashboard.Render |
| backend/routes/auth.js:188-197 | PUT `/perfil` replies with the whole updated row (`.select()`), password hash included | any signed-in user updating their biography | the reply carries only the public profile, as GET `/perfil` selects it and as registration and login build it | high (not executed) | AuthRoutes.PerfilRespuestaExponeHash | AuthRoutes.PerfilDeHidesHash |

The panel and PUT `/perfil` follow the code as written. `Render` and `PerfilDe` are the corrected definitions, with the intended properties proved about them; `RenderAsWrittenVersusRender` states exactly where the two renders part.
