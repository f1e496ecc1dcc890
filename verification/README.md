# AlzConnect admin console — access and data-shaping rules

The AlzConnect console is a React single-page application. Administrators
and logistics staff use it to manage orders, delivery routes, carriers,
customers, technical documents ("fichas") and users. Its screens hold little
logic beyond fetch calls and JSX. The logic they do hold is a set of small
decision rules written inline, and this project models those rules in Dafny:

* **Role gate.**
  * The route guard decides between the loading indicator, a redirect to
    `/login` and the nested page (`PrivateRoute`).
  * The path table gives `/admin/*` to admins and `/logistica/*` to
    logistics users (`AppRouter`).
  * The login screen picks a landing page by role and builds its messages
    (`LoginAdmin`).
  * The orders, routes, carriers and documents screens also show actions
    and fields by role; the customers, users and dashboard screens do not
    look at the role.
* **Candidate filters and lookups.**
  * Active customers only, in the order and assignment pickers.
  * Available carriers only, in the route picker.
  * Id lookups that fall back to "N/A".
  * Case-insensitive substring searches.
* **Payload shaping.**
  * A route update leaves out its four write-once fields.
  * A user update leaves out a password that was not typed.
  * A user cannot delete themselves.
  * List responses are normalised.
* **Labels and counts.**
  * Order and carrier state texts and badge classes.
  * Shortened document links.
  * Per-state order counts and bar percentages.

One module per page or routing file. Fetched data, the token decoder, the
answer to a confirmation dialog and the locale date renderer are parameters.
Several screens' forms are modelled as a sequence of user steps folded over
the screen state (`Step`/`Run`), with an invariant that every reachable
state keeps. These include the order and route modals, the carrier screen
and its delete dialog. Requests are `Request(verb, path, body)` values, with
paths relative to the API's origin. JSON bodies are maps from keys to
`Value`s.

The two payloads that the source builds by copying an object and then
deleting keys from the copy are modelled as methods that do exactly that:
`Routes.BuildPayload` and `Users.BuildPayload`. Each is proved equal to a
declarative map function whose own properties are proved as lemmas.

Shared modules:

* `Common`: `Option`, `Value`, requests, and decimal rendering of ids, with
  its inverse.
* `Seqs`: JavaScript's `filter` and `find`.
* `Text`: ASCII lower-casing and substring containment.
* `Entities`: the fetched records and the two role predicates.

Where the code is inconsistent, the model keeps it as written:

* The user form's option captioned "Logística" saves the role "user", which
  no other check accepts (`Users.LogisticsCaptionIsNotLogisticsRole`).
* The carrier screen reserves every change to admins, while the other
  screens also allow logistics users.

## Model

| member | source | states |
|---|---|---|
| Common.IdText | src/pages/admin/Routes.jsx:137 | an id is written as a non-empty run of decimal digits, with no leading zero except for 0 itself |
| Common.ParseIdText | src/pages/admin/Routes.jsx:137 | the decimal text an id is written as in a request path reads back as that id |
| Common.IdTextInjective | src/pages/admin/Routes.jsx:137 | two different ids never give the same path segment |
| Seqs.Filter | src/pages/logistica/Orders.jsx:104 | the result keeps exactly the elements satisfying the predicate (both directions) and is no longer than the input |
| Seqs.FilterMultiplicity | src/pages/logistica/Orders.jsx:104 | filtering keeps every copy of a satisfying element and no copy of any other |
| Seqs.FilterIsSubsequence | src/pages/logistica/Orders.jsx:104 | filtering keeps the survivors in their original order |
| Seqs.FilterConcat | src/pages/DashboardAdmin.jsx:42-44 | filtering distributes over concatenation |
| Seqs.Find | src/pages/admin/Routes.jsx:233 | `find` gives nothing exactly when no element satisfies the predicate, otherwise the first one that does |
| Text.Lower | src/pages/admin/Sheet.jsx:426 | lower-casing keeps the length and lower-cases each character |
| Text.LowerIdempotent | src/pages/admin/Sheet.jsx:426 | lower-casing twice is lower-casing once |
| Text.ContainsAt | src/pages/admin/Sheet.jsx:426 | `includes` holds exactly when the term occurs at some position |
| Entities.ActiveCustomers | src/pages/logistica/Orders.jsx:104 | the picker holds exactly the active customers, each as often as fetched, in fetched order |
| PrivateRoute.Decide | src/routes/PrivateRoute.jsx:6-21 | the indicator is shown iff the session is loading; once loaded, a missing user or a user whose role is not allowed is redirected to /login, and the page renders iff a user is present and its role is allowed |
| PrivateRoute.DecideDependsOnlyOnMembership | src/routes/PrivateRoute.jsx:6-21 | the decision depends only on loading, user presence and role membership |
| PrivateRoute.DecideMonotone | src/routes/PrivateRoute.jsx:15-17 | allowing more roles never takes a rendered page away |
| AppRouter.Match | src/routes/AppRouter.jsx:13-25 | /login is open, /admin/* is guarded by ["admin"], /logistica/* by ["logistica"], everything else redirects to /login |
| AppRouter.Navigate | src/routes/AppRouter.jsx:13-25 | every redirect the router produces goes to /login |
| AppRouter.LoginIsOpen | src/routes/AppRouter.jsx:13 | /login shows the login screen whatever the session |
| AppRouter.AdminAreaOnlyForAdmin | src/routes/AppRouter.jsx:16-18 | an /admin path shows the admin area iff not loading and the user is an admin; once loaded, a missing user or any other role is redirected to /login |
| AppRouter.LogisticaAreaOnlyForLogistica | src/routes/AppRouter.jsx:20-22 | a /logistica path shows the logistics area iff not loading and the user is a logistics user; once loaded, a missing user or any other role is redirected to /login |
| AppRouter.OtherPathsRedirect | src/routes/AppRouter.jsx:25 | any other path redirects to /login |
| AppRouter.AreasSeparated | src/routes/AppRouter.jsx:16-22 | only admins ever see the admin area and only logistics users the logistics area |
| LoginAdmin.LandingPath | src/pages/LoginAdmin.jsx:29-35 | admin lands on /admin/dashboard, logistica on /logistica/dashboard, anyone else on / |
| LoginAdmin.FailureText | src/pages/LoginAdmin.jsx:38 | the failure text is "✗ " followed by the error's message, or by "Credenciales inválidas" when it is empty |
| LoginAdmin.Submit | src/pages/LoginAdmin.jsx:18-39 | each attempt first clears the message; success shows the success text and navigates by role; failure shows the error text, type "error", and navigates nowhere |
| LoginAdmin.LandingAgreesWithRouter | src/pages/LoginAdmin.jsx:29-35 | an admin's and a logistics user's landing pages are shown to them by the router |
| Orders.Offers | src/pages/logistica/Orders.jsx:412-463 | "Ver" is offered to every role; creating, adding an event and editing only to admin and logistica |
| Orders.Prefill | src/pages/logistica/Orders.jsx:297-304 | the edit form copies the order, "" for a missing customer, tracking code or description and "pending" for a missing state |
| Orders.FormBody | src/pages/logistica/Orders.jsx:209 | the body carries exactly the four form fields |
| Orders.RunKeepsInv | src/pages/logistica/Orders.jsx:178-183 | through any sequence of steps, a closed modal holds the empty form, a new order keeps state "pending", an edited order keeps its pre-filled customer and tracking code, and a role offered neither "Nuevo pedido" nor "Editar" never opens the modal |
| Orders.SaveRequest | src/pages/logistica/Orders.jsx:197-201 | PUT /api/orders/{id} when editing, POST /api/orders otherwise, with the form as body |
| Orders.SavedFormsFromAnySession | src/pages/logistica/Orders.jsx:494-514 | in every session a create sends state "pending" and an update sends the edited order's own customer and tracking code; a user who is neither admin nor logistica never has the modal open |
| Orders.UpdatePathsDistinct | src/pages/logistica/Orders.jsx:198 | updates of different orders go to different paths |
| Orders.EstadoTexto | src/pages/logistica/Orders.jsx:371-379 | the four known states map to Pendiente, En tránsito, Entregado and Cancelado; any other value is returned unchanged |
| Orders.EstadoTextoPassThrough | src/pages/logistica/Orders.jsx:371-379 | the text equals the state iff the state is not one of the four |
| Orders.EstadoBadgeClass | src/pages/logistica/Orders.jsx:356-369 | "pending", "in_transit", "delivered" and "cancelled" get "estado-badge pending", "estado-badge in-transit", "estado-badge delivered" and "estado-badge cancelled"; every class starts with "estado-badge", and is exactly that iff the state is unknown |
| Orders.EstadoBadgeClassDistinct | src/pages/logistica/Orders.jsx:356-369 | different known states get different classes |
| Orders.EventOptionValuesDistinct | src/pages/logistica/Orders.jsx:30-39 | the eight event options have distinct values |
| Orders.EventStyle | src/pages/logistica/Orders.jsx:624-632 | a matching option's colour (with "20" alpha as background) or the #eee/#333 fallback when none matches |
| Orders.ResetSelectsFirstOption | src/pages/logistica/Orders.jsx:282-285 | the reset event type is the first option |
| Orders.EventBody | src/pages/logistica/Orders.jsx:254-260 | the event body holds exactly the event type and the note, as chosen and typed |
| Orders.SubmitEvent | src/pages/logistica/Orders.jsx:248-260 | no request and the "no order selected" error iff no order or an id of 0; otherwise POST /api/orders/{id}/event with the event form |
| Routes.CostValue | src/pages/admin/Routes.jsx:145 | the cost is null iff its text is empty, otherwise the number written in it |
| Routes.RoutePayload | src/pages/admin/Routes.jsx:143-154 | an update has only the four editable keys and none of the write-once ones; a create has all eight; cost converted, every other field its text |
| Routes.UpdateIsCreateWithoutWriteOnce | src/pages/admin/Routes.jsx:149-154 | the update payload is the create payload minus the write-once keys |
| Routes.BuildPayload | src/pages/admin/Routes.jsx:143-154 | copying the form and deleting the four keys when editing yields the payload above |
| Routes.BeforeT | src/pages/admin/Routes.jsx:200-201 | the date part is the prefix before the first 'T', the whole text when there is none |
| Routes.DatePart | src/pages/admin/Routes.jsx:200-201 | "" for an absent or empty date; otherwise a 'T'-free prefix of the date that ends at its first 'T', or the whole date when it has none |
| Routes.Prefill | src/pages/admin/Routes.jsx:193-204 | ids and addresses copied; each date is the stored date cut at its first 'T' ("" if absent); comment and cost "" when absent |
| Routes.UnchangedEditPayload | src/pages/admin/Routes.jsx:193-204 | saving an untouched edit form sends the route's destination, its day-cut estimated date, its comment and its cost (null when absent) |
| Routes.TableHeaders | src/pages/admin/Routes.jsx:350-358 | the "Costo" column appears iff the role is admin or logistica |
| Routes.EmptyRowSpansHeader | src/pages/admin/Routes.jsx:363 | the empty row spans 7 columns for admin/logistica and 6 otherwise, exactly the header's width |
| Routes.EditButtonFor | src/pages/admin/Routes.jsx:331-339 | "Editar" only for admins, disabled exactly on a cancelled route |
| Routes.AvailableCarriers | src/pages/admin/Routes.jsx:448-450 | the picker holds exactly the available carriers, each as often as fetched, in order |
| Routes.OrderTracking | src/pages/admin/Routes.jsx:232-235 | the first order with the id gives its tracking code; "N/A" when none has it |
| Routes.CarrierName | src/pages/admin/Routes.jsx:237-240 | the first carrier with the id gives its name; "N/A" when none has it |
| Routes.OrderTrackingOfListed | src/pages/admin/Routes.jsx:232-235 | with distinct ids, a listed order's id finds its own tracking code |
| Routes.CarrierNameOfListed | src/pages/admin/Routes.jsx:237-240 | with distinct ids, a listed carrier's id finds its own name |
| Routes.RunKeepsInv | src/pages/admin/Routes.jsx:418-520 | through any steps, a closed modal is empty, only an admin edits and never a cancelled route, and a non-staff user never has a cost |
| Routes.SaveRequest | src/pages/admin/Routes.jsx:136-140 | PUT /api/router/{id} when editing, POST /api/router otherwise, with the shaped payload |
| Routes.SessionPayloads | src/pages/admin/Routes.jsx:143-154 | in every session an update never targets a cancelled route nor carries a write-once field, and a non-staff user always sends a null cost |
| Sheets.CustomerPicker | src/pages/admin/Sheet.jsx:41-43 | only admin/logistica get candidates, and only the active customers of a successful fetch |
| Sheets.AssignSubmit | src/pages/admin/Sheet.jsx:218-225 | refused with "Selecciona una ficha y un cliente" iff no document or no customer; otherwise a body-less POST to /api/customersheets/{customer}/sheets/{sheet} |
| Sheets.AssignPathInjective | src/pages/admin/Sheet.jsx:225 | different (customer, document) pairs never share an assignment path |
| Sheets.PickerValuesAreDigits | src/pages/admin/Sheet.jsx:613 | the picker's values are non-empty decimal ids |
| Sheets.SearchSheets | src/pages/admin/Sheet.jsx:425-427 | exactly the documents whose lower-cased name contains the lower-cased term, each as often as fetched, in order |
| Sheets.EmptySearchKeepsAll | src/pages/admin/Sheet.jsx:425-427 | an empty term keeps every document |
| Sheets.SearchIgnoresTermCase | src/pages/admin/Sheet.jsx:425-427 | the result does not depend on the term's case |
| Sheets.Shorten | src/pages/admin/Sheet.jsx:480-482 | up to 40 characters unchanged; longer ones are their first 40 plus "..." |
| Sheets.ShortenIdempotent | src/pages/admin/Sheet.jsx:480-482 | shortening a shortened link changes nothing |
| Sheets.Offers | src/pages/admin/Sheet.jsx:497-528 | "Ver" for everyone; creating, assigning and listing assignments for admin/logistica; editing, deleting and deleting assignments for admins |
| Sheets.AdminControlsIncludeStaffControls | src/pages/admin/Sheet.jsx:497-528 | whoever may edit may use every control |
| Sheets.OthersOnlyView | src/pages/admin/Sheet.jsx:497-528 | a role that is neither admin nor logistica gets only "Ver" |
| Sheets.FormatDate | src/pages/admin/Sheet.jsx:398-399 | "N/A" for an absent or empty date, the renderer's text otherwise |
| Sheets.Prefill | src/pages/admin/Sheet.jsx:355-360 | the edit form copies the document's name and link |
| Sheets.SaveRequest | src/pages/admin/Sheet.jsx:165-167 | PUT /api/sheets/{id} when editing, POST /api/sheets otherwise, with name and url |
| Carriers.StateText | src/pages/logistica/Carrier.jsx:197-204 | available, on trip and not available map to Disponible, En viaje and No disponible |
| Carriers.StateTextPassThrough | src/pages/logistica/Carrier.jsx:197-204 | the text equals the state iff the state is unknown |
| Carriers.StateBadgeClass | src/pages/logistica/Carrier.jsx:188-195 | every class starts with "state-badge"; each known state has its modifier; plain "state-badge" iff unknown |
| Carriers.StateBadgeClassDistinct | src/pages/logistica/Carrier.jsx:188-195 | different known states get different classes |
| Carriers.TableHeaders | src/pages/logistica/Carrier.jsx:239-243 | the "Acciones" column appears iff the role is admin |
| Carriers.EmptyRowSpansHeader | src/pages/logistica/Carrier.jsx:249 | the empty row spans 5 columns for admins and 4 otherwise, exactly the header's width |
| Carriers.Prefill | src/pages/logistica/Carrier.jsx:123-131 | the edit form copies name, contact and state exactly |
| Carriers.RunKeepsInv | src/pages/logistica/Carrier.jsx:133-185 | through any steps, a closed modal holds name "", contact "" and state "available"; the delete dialog is open iff a carrier is chosen; a non-admin never leaves the initial screen |
| Carriers.SaveRequest | src/pages/logistica/Carrier.jsx:77-81 | PUT /api/carriers/{id} when editing, POST /api/carriers otherwise, with the form as body |
| Carriers.DeleteRequest | src/pages/logistica/Carrier.jsx:138-140 | a DELETE of the chosen carrier, and no request iff none is chosen |
| Carriers.DeleteTargetsClickedCarrier | src/pages/logistica/Carrier.jsx:133-180 | confirming deletes the carrier whose "Eliminar" was clicked; cancelling leaves nothing to delete |
| Carriers.NonAdminNeverMutates | src/pages/logistica/Carrier.jsx:224 | a non-admin never has a modal or a deletion open, whatever they do |
| Customers.SearchCustomers | src/pages/admin/Customers.jsx:119-123 | exactly the customers whose lower-cased name or e-mail contains the lower-cased term, each as often as fetched, in order |
| Customers.EmptySearchKeepsAll | src/pages/admin/Customers.jsx:119-123 | an empty term keeps every customer |
| Customers.SearchIgnoresTermCase | src/pages/admin/Customers.jsx:119-123 | the result does not depend on the term's case |
| Customers.Edit | src/pages/admin/Customers.jsx:93-101 | the form copies name, e-mail, phone and status, the password is "", and the customer's id is being edited |
| Customers.AfterSave | src/pages/admin/Customers.jsx:61-68 | the form is emptied with status "active" and nothing is being edited |
| Customers.FormBody | src/pages/admin/Customers.jsx:46-53 | the body holds exactly name, email, password, phone and status, each as typed in the form |
| Customers.SaveRequest | src/pages/admin/Customers.jsx:40-59 | PUT .../profile/{id} when editing (a truthy id), POST .../profile otherwise; the body is the whole form, password included |
| Customers.SaveAfterEdit | src/pages/admin/Customers.jsx:93-101 | saving right after "Editar" updates that customer with its own fields and an empty password |
| Customers.CancelEdit | src/pages/admin/Customers.jsx:178-181 | after "Cancelar Edición" nothing is being edited and the form keeps its contents |
| Customers.SaveAfterCancelledEdit | src/pages/admin/Customers.jsx:178-181 | saving after "Editar" then "Cancelar Edición" creates a new customer (POST) carrying the edited customer's fields and an empty password |
| Customers.Toggle | src/pages/admin/Customers.jsx:105-111 | collapses iff the clicked customer is the expanded one, otherwise expands the clicked one |
| Customers.ToggleTwice | src/pages/admin/Customers.jsx:105-111 | from a closed panel or the same customer's, two clicks restore the panel |
| Customers.ToggleTwiceFromOther | src/pages/admin/Customers.jsx:105-111 | from another customer's panel, two clicks close every panel |
| Customers.StatusLabel | src/pages/admin/Customers.jsx:204 | "Activo" iff the status is "active", "Inactivo" otherwise |
| Customers.OrderCount | src/pages/admin/Customers.jsx:235 | the number of orders, 0 when the list is missing |
| Customers.SheetCount | src/pages/admin/Customers.jsx:322-324 | the number of documents, 0 when the list is missing |
| Users.AuthenticatedId | src/pages/admin/Users.jsx:25-29 | no id without a (non-empty) token, otherwise the decoder's id |
| Users.DeleteDecision | src/pages/admin/Users.jsx:113-118 | the own id is refused with the alert before any confirmation; otherwise cancelled iff not confirmed, else DELETE /api/users/{id} |
| Users.NeverDeletesSelf | src/pages/admin/Users.jsx:212-216 | the own user is never deleted, and the rows showing "Eliminar" are exactly those the guard lets through |
| Users.UserPayload | src/pages/admin/Users.jsx:84-89 | the password is left out iff editing with an empty password; every other key carries its form field |
| Users.PasswordRule | src/pages/admin/Users.jsx:84-89 | a create always sends the password, and an update never sends an empty one |
| Users.BuildPayload | src/pages/admin/Users.jsx:84-89 | copying the form and deleting an empty password when editing yields the payload above |
| Users.SaveRequest | src/pages/admin/Users.jsx:91-97 | PUT /api/users/{id} when editing, POST /api/users otherwise, with the shaped payload |
| Users.Prefill | src/pages/admin/Users.jsx:205-206 | the form copies the user with an empty password and edits that user's id |
| Users.EditWithoutPasswordKeepsIt | src/pages/admin/Users.jsx:84-89 | the submit handler, given an edited user with an empty password, sends no password (the form itself blocks this case, see Users.PrefilledFormIsBlocked) |
| Users.SubmittedFormSendsPassword | src/pages/admin/Users.jsx:140-173 | a form whose required fields are filled always sends all five fields, its password included, on a create and an update alike |
| Users.PrefilledFormIsBlocked | src/pages/admin/Users.jsx:170-173 | a form just filled in by "Editar" has an empty required password and cannot be submitted |
| Users.AfterSave | src/pages/admin/Users.jsx:100-101 | the form is emptied with role "user" and nothing is being edited |
| Users.LogisticsCaptionIsNotLogisticsRole | src/pages/admin/Users.jsx:164 | the option captioned "Logística" saves a role that is not staff, lands on / and never reaches the logistics area |
| Users.NormaliseUsers | src/pages/admin/Users.jsx:52-68 | an array is kept, one object becomes a one-user list, anything else or a failure the empty list |
| Dashboard.AfterFetch | src/pages/DashboardAdmin.jsx:17-28 | loading always ends; an array is used, else the `orders` field, else []; a failure or a null answer keeps the previous list |
| Dashboard.FirstFetchOfUnusableAnswer | src/pages/DashboardAdmin.jsx:6 | from the initial empty list, an unusable answer shows no orders |
| Dashboard.CountState | src/pages/DashboardAdmin.jsx:42-44 | a count never exceeds the total |
| Dashboard.CountIsNumberOfPositions | src/pages/DashboardAdmin.jsx:42-44 | each count is the number of orders in exactly that state |
| Dashboard.CountsPartitionTotal | src/pages/DashboardAdmin.jsx:41-44 | the three counts plus the orders in any other state make up the total |
| Dashboard.CountsWithinTotal | src/pages/DashboardAdmin.jsx:41-44 | the three counts sum to at most the total |
| Dashboard.OtherOrderOnlyAddsToTotal | src/pages/DashboardAdmin.jsx:41-44 | a delivered or unknown order adds to the total only |
| Dashboard.CalcPercent | src/pages/DashboardAdmin.jsx:47 | 0 with no orders; 100 for the total when there are orders; between 0 and 100 for any count |
| Dashboard.BarsWithinChart | src/pages/DashboardAdmin.jsx:106-139 | every bar is between 0 and 100 percent and the total's bar is full whenever there are orders |

## Left out

- Network and storage: every `fetch`/`axios` call, the HTML-sniffing and JSON-parsing error branches, Bearer headers, `localStorage` and `jwtDecode` are left out. Fetched data, the token decoder and request outcomes are parameters.
- The API's base URLs (`https://alzconnect-server.onrender.com`, `REACT_APP_API_URL`, `window.location.origin`) are left out: paths are relative to the origin.
- React rendering, spinners, mobile cards, resize handling and layouts are left out. Only the role predicates and column headers that decide what is shown are modelled.
- `window.confirm` is a boolean input and `alert` an output text. The 700 ms delay before the login navigation and the 4 s success message of the user screen are left out.
- Float and locale formatting are left out: `parseFloat` keeps the cost's text as `Num(text)`, and `Intl.NumberFormat`, `toLocaleDateString` and the route screen's `formatCurrency` are not modelled. `Sheets.FormatDate` takes the renderer as a parameter.
- Sheets.SearchSheets and Customers.SearchCustomers: `toLowerCase` is modelled over ASCII letters only, not full Unicode case mapping.
- AppRouter.Match: paths are segment lists compared exactly; react-router's case-insensitive matching and trailing-slash handling are not modelled.
- Users.Prefill: `{...u, password: ""}` also copies the user's other fields (id, timestamps) into the form, and so into the next payload; the model keeps the five form fields only.
- Routes.Prefill: the form holds the order and carrier ids as their decimal text, where the source keeps the numbers the API sent.
- Orders.Prefill and Orders.FormBody: the customer id is the text of the form's input and is sent as text; the source pre-fills it with whatever the API sent (a number) and sends that back unchanged until it is typed over.
- Orders.FormBody: the `required` customer, tracking-code and description inputs (Orders.jsx:493, 513, 526) are not modelled; the browser refuses to submit the order form while one of them is empty.
- Routes.CostValue and Routes.RoutePayload: the cost input's `type="number"` and `min="0"` (Routes.jsx:513, 519) are not modelled, so the model sends a negative or non-numeric cost text that the browser would refuse; the `required` order, carrier, addresses, dates and comment inputs (Routes.jsx:427, 445, 466, 478, 492, 504, 533) are not modelled either.
- Carriers.SaveRequest: the `required` name and contact inputs (Carrier.jsx:355, 367) are not modelled.
- Sheets.SaveRequest: the `required` name and url inputs (Sheet.jsx:559, 572) and the url input's `type="url"` check (Sheet.jsx:567) are not modelled.
- Sheets.AssignSubmit: the customer picker is `required` (Sheet.jsx:609), so the browser already blocks submitting without a customer; the model keeps the handler's own refusal of that case, which the form does not reach.
- Sheets.Shorten: lengths count Unicode characters, where JavaScript's `length` and `substring` count UTF-16 code units; a link with a character outside the Basic Multilingual Plane (an emoji) among its first 40 is cut at a different place, and JavaScript may split a surrogate pair there.
- Customers.SaveRequest: the `required` name, e-mail and phone inputs (Customers.jsx:145, 152, 159) are not modelled; the browser refuses to submit the form while one of them is empty. The user form's required fields are modelled by Users.SubmitAllowed.
- Absent ids: every record's id is present; an id of 0 stands for the falsy id that `!selectedPedido.id` and `if (editing)` reject.
- The detail, history and assignment-list modals and their fetches, the delete requests of documents, assignments and customers, and the fetching and listing of an order's event history are plain requests with no decision logic and are not part of this model; the colours of the history's event badges are modelled by Orders.EventStyle.
- Server-side rules (tracking-code uniqueness, state transitions, route field immutability, duplicate assignments) are not implemented by the client and are not modelled; the client lets any order state be chosen.
- src/routes/AdminRouter.jsx, src/routes/LogisticaRouter.jsx, src/components/AdminLayout.jsx, src/components/LogisticaLayout.jsx, src/context/AuthContext.jsx and src/api/auth.js are not part of this model.
