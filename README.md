# AgrOcean client: sessions, menu, routes and the supply-request screens

This project models the core of the AgrOcean Angular client in Dafny and
proves properties of the model. The client is the web front end of a
stock, sales and procurement back office.

What is modelled:

- **`Auth`**: the session kept by `AuthService`.
  - Two storage keys (the token and the serialised user) and the
    current-user subject.
  - Login, logout and profile answers as state transitions.
  - The role predicates.
- **`Routing`**: the static route table.
  - The unguarded login page, the guarded shell with its feature areas and
    their declared role sets, and the two redirects to `dashboard`.
- **`Layout`**: the role-gated side menu that `LayoutComponent` builds.
  - The alert bell and the role label.
  - Proofs that the menu agrees with the route table.
- **`DemandeDetail`**: the detail screen of a supply request.
  - The action guards for each status and the status and priority colours.
  - The quantity total.
  - The send and reject dialogs.
- **`DemandeCreate`**: the creation form of a supply request.
  - Its line array, the stock-check pre-fill and the recommended
    quantities.
  - The stock badge, the total and the submit step.
- **`CommandeAchatCreate`**: the purchase-order form.
  - Re-pricing from the catalogue after every change of the line array.
  - Pre-filling from a supply request, the line and order totals, and the
    submit step.
- **`DemandesList`**: the list of supply requests.
  - Filter and paging state, and the query parameters built from it.
  - The send dialog.
- **`LivraisonsList`**: the deliveries screen.
  - The status filter and the normalisation of list answers.
  - The edit draft and the address filled in from the chosen sale.
  - The choice between update and create on save.
- **`Login`**: the login screen.
  - The return URL.
  - The submit sequence: the CSRF cookie first, then the login request with
    the credentials captured at submit time.
  - The choice of the error message.
- **`Common`** and **`Models`**: shared JavaScript semantics and the wire
  entities.
  - JavaScript truthiness of numbers and strings, and `Array.find`.
  - `String.prototype.trim`, with the full ECMAScript white-space set.
  - `FormArray.removeAt` with `splice`'s index normalisation.
  - The closed unions of statuses and priorities, each with a round trip to
    its wire code.

Components whose fields change become classes whose methods declare what
they modify. Form arrays are sequence fields. Loops in the source (the
total getters, `updatePrix`, the clearing `while` loops and the push loops)
are loops here, proved against specification functions.

Each HTTP exchange is split in two. One method issues the request and
returns it. A second method reacts to the answer, which arrives as
`Reply<T>`: `Ok(body)` or `Failed(status)`. A navigation is returned as
its path segments, or as the id of the page it opens.

## Model

| member | source | states |
|---|---|---|
| Common.Find | src/app/features/livraisons/livraisons-list/livraisons-list.component.ts:83 | `Array.find`: a found element is in the list and satisfies the predicate; `None` only when no element does |
| Common.FindIndex | src/app/features/demandes-approvisionnement/demande-create/demande-create.component.ts:136 | the index found is the first whose element satisfies the predicate; `None` only when none does |
| Common.TrimEmptyIffBlank | src/app/features/demandes-approvisionnement/demande-detail/demande-detail.component.ts:199 | `trim()` gives the empty string exactly when every character is JavaScript white space |
| Common.SpliceStart | src/app/features/demandes-approvisionnement/demande-create/demande-create.component.ts:72-76 | the start index `removeAt` uses: in range as given, a negative index counted from the end, clamped to 0 below and to the length above |
| Common.RemoveAt | src/app/features/demandes-approvisionnement/demande-create/demande-create.component.ts:72-76 | removing at an in-range start drops exactly that element and shifts the rest down; a start at the end changes nothing |
| Models.StatutCodeRoundTrip | src/app/core/models/index.ts:260 | the six supply-request statuses and their wire codes are in one-to-one correspondence |
| Models.PrioriteCodeRoundTrip | src/app/core/models/index.ts:259 | the three priorities and their wire codes are in one-to-one correspondence |
| Auth.HasAnyRoleFacts | src/app/core/services/auth.service.ts:92-95 | `hasRole` is false without a user and for an empty list; for a singleton it is equality of roles; when true, the role is in the list |
| Auth.LoginEffect | src/app/core/services/auth.service.ts:61-67 | an answer with a non-empty token and a user stores both, emits the user and authenticates; any other answer changes nothing |
| Auth.LogoutIdempotent | src/app/core/services/auth.service.ts:76-82 | logout leaves no session and no current user; a second logout changes nothing |
| Auth.ProfileUpdateEffect | src/app/core/services/auth.service.ts:117-126 | a profile answer never touches the token; it replaces stored and current user exactly when it carries a user |
| Auth.MirroredInvariant | src/app/core/services/auth.service.ts:36-126 | start-up, login, logout and profile update all keep the subject's value equal to the stored user |
| Auth.ReloadRoundTrip | src/app/core/services/auth.service.ts:36-39 | re-hydrating from storage gives back any session the service can reach |
| Auth.PairedInvariant | src/app/core/services/auth.service.ts:61-82 | login and logout write or clear token and user together; a profile answer keeps the pair while a token is stored |
| Auth.ProfileAfterLogoutUnpairs | src/app/core/services/auth.service.ts:117-126 | a profile answer arriving after logout stores a user with no token, and the session stays unauthenticated |
| Auth.AuthService.constructor | src/app/core/services/auth.service.ts:36-41 | the subject starts from the stored user; the token stays in storage |
| Auth.AuthService.Login | src/app/core/services/auth.service.ts:56-69 | the new state is the login transition of the old one on an answer, unchanged on an error; the stream gains the user only when accepted |
| Auth.AuthService.Logout | src/app/core/services/auth.service.ts:76-82 | both keys cleared, `null` emitted, navigation to the login page |
| Auth.AuthService.UpdateProfile | src/app/core/services/auth.service.ts:117-126 | the new state is the profile transition of the old one; the stream gains the user only when the answer has one |
| Auth.SingleRolePredicates | src/app/core/services/auth.service.ts:97-115 | each `isX()` holds exactly when the current user's role is X; at most one holds; none without a user |
| Routing.AdministrateurEverywhere | src/app/app-routing.module.ts:17-95 | every child route that declares roles admits `Administrateur` |
| Routing.AdmitsAdministrationAreas | src/app/app-routing.module.ts:17-90 | `utilisateurs` and `rapports` admit exactly the administrator; `dashboard`, `produits` and `profile` declare no roles |
| Routing.AdmitsCommercialAreas | src/app/app-routing.module.ts:27-86 | clients, sales and deliveries admit exactly administrator and sales staff; finances exactly administrator and accountant |
| Routing.AdmitsStockAreas | src/app/app-routing.module.ts:36-81 | the role set of each stock and procurement area, as an if-and-only-if |
| Routing.OnlyLoginUnguarded | src/app/app-routing.module.ts:8-101 | only the URL `login` escapes the guarded shell; the empty URL and unknown paths redirect to `dashboard`, and so does every redirect |
| Routing.FeatureResolves | src/app/app-routing.module.ts:17-90 | a one-segment feature URL reaches that area under the guard with its declared roles |
| Layout.Labels | src/app/shared/layout/layout.component.ts:62-280 | the top-level labels of a menu, one per entry, in order |
| Layout.MenuLinksAdmitted | src/app/shared/layout/layout.component.ts:62-280 | every link the menu shows to a role leads into an area whose declared roles admit that role |
| Layout.MenuLabels | src/app/shared/layout/layout.component.ts:62-280 | the menu's labels for any role, section by section, each gated by its role list |
| Layout.MenuStartsWithDashboard | src/app/shared/layout/layout.component.ts:65-70 | every menu starts with the Dashboard entry linking to `dashboard` |
| Layout.AdministrateurOnlyEntries | src/app/shared/layout/layout.component.ts:74-108 | Utilisateurs and Rapports are shown exactly to the administrator |
| Layout.ReceptionOnlyForAgent | src/app/shared/layout/layout.component.ts:195-233 | the reception entry is shown exactly to the procurement agent; the administrator still sees suppliers and purchase orders |
| Layout.AdministrateurMenu | src/app/shared/layout/layout.component.ts:62-280 | the administrator's fourteen top-level entries, in order |
| Layout.NarrowMenus | src/app/shared/layout/layout.component.ts:62-280 | the accountant sees Dashboard and Finances; an unknown role sees Dashboard alone |
| Layout.LayoutComponent.OnCurrentUser | src/app/shared/layout/layout.component.ts:27-31 | each user the stream emits is recorded and the menu rebuilt for that user's role |
| Layout.LayoutComponent.BuildMenu | src/app/shared/layout/layout.component.ts:62-280 | without a user the menu is left as it was; otherwise, built step by step, it is exactly the menu for that role |
| Layout.LayoutComponent.ToggleSidebar | src/app/shared/layout/layout.component.ts:286-288 | the sidebar's visibility is negated |
| Layout.AlertesFollowStocksMenu | src/app/shared/layout/layout.component.ts:295-297 | the alert bell is offered exactly to the users whose menu holds the Stocks group |
| Layout.RoleDisplayFacts | src/app/shared/layout/layout.component.ts:300-312 | empty without a user; a non-empty readable label for the five roles; the raw role otherwise |
| DemandeDetail.GuardTable | src/app/features/demandes-approvisionnement/demande-detail/demande-detail.component.ts:232-255 | for a loaded request, each action's guard as an if-and-only-if over role flag and status |
| DemandeDetail.NothingLoaded | src/app/features/demandes-approvisionnement/demande-detail/demande-detail.component.ts:232-255 | with nothing loaded only cancel can be enabled, and exactly for the stock manager |
| DemandeDetail.TerminalNoAction | src/app/features/demandes-approvisionnement/demande-detail/demande-detail.component.ts:232-255 | a processed, rejected or cancelled request enables no action |
| DemandeDetail.RoleFlags | src/app/features/demandes-approvisionnement/demande-detail/demande-detail.component.ts:37-39 | no user has both the stock manager's and the agent's actions; an administrator has none |
| DemandeDetail.UnknownStatut | src/app/features/demandes-approvisionnement/demande-detail/demande-detail.component.ts:257-279 | an unknown status code is shown as `info`, under its own text |
| DemandeDetail.StatutDisplay | src/app/features/demandes-approvisionnement/demande-detail/demande-detail.component.ts:257-279 | only `EnCours` is labelled differently from its code; the six colours are pairwise distinct |
| DemandeDetail.PrioriteDisplay | src/app/features/demandes-approvisionnement/demande-detail/demande-detail.component.ts:281-288 | `success` exactly for Normale, `danger` exactly for Critique, `success` for an unknown code |
| DemandeDetail.SumQuantitesAppend | src/app/features/demandes-approvisionnement/demande-detail/demande-detail.component.ts:290-293 | the `reduce` of a concatenation is the sum of the two reductions |
| DemandeDetail.SumQuantitesBounds | src/app/features/demandes-approvisionnement/demande-detail/demande-detail.component.ts:290-293 | with non-negative quantities the total is non-negative and bounds each line |
| DemandeDetail.TotalQuantiteExtend | src/app/features/demandes-approvisionnement/demande-detail/demande-detail.component.ts:290-293 | one more line adds its quantity; no request, or no lines, gives 0 |
| DemandeDetail.DemandeDetailComponent.InitFlags | src/app/features/demandes-approvisionnement/demande-detail/demande-detail.component.ts:37-49 | the flags are the service's predicates, never both set; the agent list is fetched exactly for the stock manager |
| DemandeDetail.DemandeDetailComponent.LoadDemande | src/app/features/demandes-approvisionnement/demande-detail/demande-detail.component.ts:51-53 | the spinner goes on and the request for that id goes out |
| DemandeDetail.DemandeDetailComponent.OnDemandeLoaded | src/app/features/demandes-approvisionnement/demande-detail/demande-detail.component.ts:53-67 | the spinner stops; the request is shown, or on error the screen goes back to the list |
| DemandeDetail.DemandeDetailComponent.EnvoyerDemande | src/app/features/demandes-approvisionnement/demande-detail/demande-detail.component.ts:86-89 | the recipient is reset and the send dialog opens |
| DemandeDetail.DemandeDetailComponent.ConfirmerEnvoi | src/app/features/demandes-approvisionnement/demande-detail/demande-detail.component.ts:91-95 | nothing without a request; otherwise a send for it, the recipient present exactly when it is truthy |
| DemandeDetail.DemandeDetailComponent.OnActionReply | src/app/features/demandes-approvisionnement/demande-detail/demande-detail.component.ts:96-115 | success closes the dialog of that action and reloads the request; an error stops the spinner and keeps the dialogs |
| DemandeDetail.DemandeDetailComponent.OuvrirDialogRejeter | src/app/features/demandes-approvisionnement/demande-detail/demande-detail.component.ts:191-194 | the comment is emptied and the reject dialog opens |
| DemandeDetail.DemandeDetailComponent.ConfirmerRejeter | src/app/features/demandes-approvisionnement/demande-detail/demande-detail.component.ts:196-209 | a rejection goes out exactly when a request is loaded and the comment is not blank, with the comment untrimmed; a blank one only warns |
| DemandeCreate.RecommendedBounds | src/app/features/demandes-approvisionnement/demande-create/demande-create.component.ts:101-104 | the recommendation is at least the threshold; exactly the threshold for a non-negative stock; threshold minus stock for a negative one |
| DemandeCreate.RuptureLines | src/app/features/demandes-approvisionnement/demande-create/demande-create.component.ts:100-111 | one line per flagged product |
| DemandeCreate.RuptureLinesShape | src/app/features/demandes-approvisionnement/demande-create/demande-create.component.ts:82-111 | each flagged product, out-of-stock ones first, gets its line at its position: its id, a quantity at least its threshold, the fixed justification |
| DemandeCreate.SumQuantiteAppend | src/app/features/demandes-approvisionnement/demande-create/demande-create.component.ts:180-186 | the total of a concatenation is the sum of the totals |
| DemandeCreate.RuptureTotal | src/app/features/demandes-approvisionnement/demande-create/demande-create.component.ts:99-111 | the pre-filled lines ask for at least the sum of the flagged thresholds |
| DemandeCreate.StockSeverityCases | src/app/features/demandes-approvisionnement/demande-create/demande-create.component.ts:165-178 | `danger` exactly for a found product at zero stock; any colour but green needs a found product; no product or an unknown one is green |
| DemandeCreate.PatchMeansShortage | src/app/features/demandes-approvisionnement/demande-create/demande-create.component.ts:131-147 | a quantity is patched only for a found product whose known stock is below its threshold, and it is at least that threshold |
| DemandeCreate.RuptureLineValidity | src/app/features/demandes-approvisionnement/demande-create/demande-create.component.ts:106-110 | a pre-filled line passes the validators exactly when its quantity is at least 1, which a threshold of at least 1 ensures; a new empty line does not pass |
| DemandeCreate.DemandeCreateComponent.constructor | src/app/features/demandes-approvisionnement/demande-create/demande-create.component.ts:39-54 | one default line, priority Normale, the date set |
| DemandeCreate.DemandeCreateComponent.OnProduitsLoaded | src/app/features/demandes-approvisionnement/demande-create/demande-create.component.ts:56-62 | the catalogue is replaced by the answer; an error changes nothing |
| DemandeCreate.DemandeCreateComponent.AjouterLigne | src/app/features/demandes-approvisionnement/demande-create/demande-create.component.ts:68-70 | one default line appended, the line list stays non-empty |
| DemandeCreate.DemandeCreateComponent.SupprimerLigne | src/app/features/demandes-approvisionnement/demande-create/demande-create.component.ts:72-76 | removal at the index only while more than one line is left, so the list stays non-empty |
| DemandeCreate.DemandeCreateComponent.AjouterProduitsRupture | src/app/features/demandes-approvisionnement/demande-create/demande-create.component.ts:78-80 | the stock-check spinner goes on |
| DemandeCreate.DemandeCreateComponent.OnStockCheck | src/app/features/demandes-approvisionnement/demande-create/demande-create.component.ts:81-128 | nothing flagged or an error keeps the lines; otherwise the lines become exactly one per flagged product, in order; the spinner stops |
| DemandeCreate.DemandeCreateComponent.OnProduitChange | src/app/features/demandes-approvisionnement/demande-create/demande-create.component.ts:131-147 | only the edited line may change, only in its quantity, and exactly when a patch applies |
| DemandeCreate.DemandeCreateComponent.GetTotalQuantite | src/app/features/demandes-approvisionnement/demande-create/demande-create.component.ts:180-186 | the loop returns the sum of the quantities, a cleared one counting 0 |
| DemandeCreate.DemandeCreateComponent.OnSubmit | src/app/features/demandes-approvisionnement/demande-create/demande-create.component.ts:188-215 | a request goes out exactly when the form is valid and has a line, carrying the form's values; an invalid form is marked touched |
| DemandeCreate.DemandeCreateComponent.OnCreated | src/app/features/demandes-approvisionnement/demande-create/demande-create.component.ts:216-234 | the spinner stops; success opens the created request |
| DemandeCreate.AjouterLigneTotal | src/app/features/demandes-approvisionnement/demande-create/demande-create.component.ts:48-54 | adding a default line raises the total by exactly 1 |
| CommandeAchatCreate.Selected | src/app/features/commandes-achat/commande-achat-create/commande-achat-create.component.ts:139-141 | a selected product is in the catalogue with the line's truthy id; none selected means no product has that id |
| CommandeAchatCreate.Refresh | src/app/features/commandes-achat/commande-achat-create/commande-achat-create.component.ts:137-149 | re-pricing keeps the number of lines |
| CommandeAchatCreate.RefreshEffect | src/app/features/commandes-achat/commande-achat-create/commande-achat-create.component.ts:137-149 | re-pricing keeps product and quantity, sets the catalogue price on lines whose product is found, leaves the others, and is idempotent |
| CommandeAchatCreate.TotalAppend | src/app/features/commandes-achat/commande-achat-create/commande-achat-create.component.ts:158-164 | the total of a concatenation is the sum of the totals |
| CommandeAchatCreate.TotalNonNegative | src/app/features/commandes-achat/commande-achat-create/commande-achat-create.component.ts:151-164 | with non-negative quantities and prices the total is non-negative and bounds each subtotal |
| CommandeAchatCreate.PrefillLines | src/app/features/commandes-achat/commande-achat-create/commande-achat-create.component.ts:66-74 | one line per handed-over item |
| CommandeAchatCreate.PrefillPriced | src/app/features/commandes-achat/commande-achat-create/commande-achat-create.component.ts:66-74 | pre-filled lines are already priced: re-pricing them changes nothing |
| CommandeAchatCreate.PrefillShape | src/app/features/commandes-achat/commande-achat-create/commande-achat-create.component.ts:66-74 | each item becomes the line at its position with its product and quantity; a product not loaded is priced 0 |
| CommandeAchatCreate.CommandeAchatCreateComponent.constructor | src/app/features/commandes-achat/commande-achat-create/commande-achat-create.component.ts:31-37 | the supply-request flag and number come from the navigation state; the form starts with one default line and today's date |
| CommandeAchatCreate.CommandeAchatCreateComponent.OnProduitsLoaded | src/app/features/commandes-achat/commande-achat-create/commande-achat-create.component.ts:115-121 | the catalogue is replaced by the answer and the lines are not re-priced |
| CommandeAchatCreate.CommandeAchatCreateComponent.UpdatePrix | src/app/features/commandes-achat/commande-achat-create/commande-achat-create.component.ts:137-149 | the loop leaves the lines equal to their re-pricing |
| CommandeAchatCreate.CommandeAchatCreateComponent.AjouterLigne | src/app/features/commandes-achat/commande-achat-create/commande-achat-create.component.ts:127-129 | a default line is appended, then every line is re-priced |
| CommandeAchatCreate.CommandeAchatCreateComponent.SupprimerLigne | src/app/features/commandes-achat/commande-achat-create/commande-achat-create.component.ts:131-135 | removal, then re-pricing, only while more than one line is left |
| CommandeAchatCreate.CommandeAchatCreateComponent.OnLineEdited | src/app/features/commandes-achat/commande-achat-create/commande-achat-create.component.ts:94-96 | a user edit of a line triggers re-pricing of every line |
| CommandeAchatCreate.CommandeAchatCreateComponent.PreRemplir | src/app/features/commandes-achat/commande-achat-create/commande-achat-create.component.ts:51-84 | with handed-over items (even none) the lines become exactly the pre-filled lines; without, nothing changes |
| CommandeAchatCreate.CommandeAchatCreateComponent.PreRemplirIfFlagged | src/app/features/commandes-achat/commande-achat-create/commande-achat-create.component.ts:46-48 | the pre-fill runs only when the constructor saw the flag |
| CommandeAchatCreate.CommandeAchatCreateComponent.MontantTotal | src/app/features/commandes-achat/commande-achat-create/commande-achat-create.component.ts:158-164 | the getter's loop returns the total of the subtotals |
| CommandeAchatCreate.CommandeAchatCreateComponent.OnSubmit | src/app/features/commandes-achat/commande-achat-create/commande-achat-create.component.ts:166-187 | an order goes out exactly when the form is valid, with its supplier, lines and optional delivery date; otherwise the form is marked touched |
| CommandeAchatCreate.CommandeAchatCreateComponent.OnCreated | src/app/features/commandes-achat/commande-achat-create/commande-achat-create.component.ts:188-206 | the spinner stops; success opens the created order |
| CommandeAchatCreate.EmptyPrefillNoLines | src/app/features/commandes-achat/commande-achat-create/commande-achat-create.component.ts:55-74 | an empty handed-over list leaves no line, and that form still passes the line validators |
| CommandeAchatCreate.DefaultLineTotal | src/app/features/commandes-achat/commande-achat-create/commande-achat-create.component.ts:99-105 | adding a default line leaves the total unchanged |
| DemandesList.RequestParamsFacts | src/app/features/demandes-approvisionnement/demandes-list/demandes-list.component.ts:82-95 | page and page size always sent; each filter sent exactly when set, with its value; no other key |
| DemandesList.ClearedParams | src/app/features/demandes-approvisionnement/demandes-list/demandes-list.component.ts:217-221 | with both filters cleared only the paging keys go out |
| DemandesList.SharedSeverities | src/app/features/demandes-approvisionnement/demandes-list/demandes-list.component.ts:229-248 | the list's colour maps are those of the detail screen: `danger` only for Rejetée, `warning` only for EnCours, the same fallbacks |
| DemandesList.DemandesListComponent.constructor | src/app/features/demandes-approvisionnement/demandes-list/demandes-list.component.ts:14-28 | page 1 of 20 rows, no filter, no dialog |
| DemandesList.DemandesListComponent.LoadDemandes | src/app/features/demandes-approvisionnement/demandes-list/demandes-list.component.ts:82-97 | the spinner goes on and the query is the parameters of the current paging and filters |
| DemandesList.DemandesListComponent.OnLoaded | src/app/features/demandes-approvisionnement/demandes-list/demandes-list.component.ts:97-111 | the spinner stops; a page replaces the rows and the total; an error keeps them |
| DemandesList.DemandesListComponent.ApplyFilters | src/app/features/demandes-approvisionnement/demandes-list/demandes-list.component.ts:212-215 | back to page 1 with the filters kept, and reload |
| DemandesList.DemandesListComponent.ClearFilters | src/app/features/demandes-approvisionnement/demandes-list/demandes-list.component.ts:217-221 | both filters emptied, back to page 1, and reload |
| DemandesList.DemandesListComponent.OnPageChange | src/app/features/demandes-approvisionnement/demandes-list/demandes-list.component.ts:223-227 | the paginator's 0-based page becomes the 1-based page, with its size, and reload |
| DemandesList.DemandesListComponent.EnvoyerDemande | src/app/features/demandes-approvisionnement/demandes-list/demandes-list.component.ts:122-126 | the request is selected, the recipient reset, the dialog opened |
| DemandesList.DemandesListComponent.ConfirmerEnvoi | src/app/features/demandes-approvisionnement/demandes-list/demandes-list.component.ts:128-132 | nothing without a selection; otherwise a send for it, the recipient present exactly when it is truthy |
| DemandesList.DemandesListComponent.OnEnvoiReply | src/app/features/demandes-approvisionnement/demandes-list/demandes-list.component.ts:133-152 | success closes the dialog and reloads with the current state; an error stops the spinner |
| LivraisonsList.LivraisonCodeRoundTrip | src/app/core/models/index.ts:147 | the four delivery statuses and their wire codes are in one-to-one correspondence |
| LivraisonsList.StatutSeverityFacts | src/app/features/livraisons/livraisons-list/livraisons-list.component.ts:231-239 | four distinct colours; `info` exactly for Planifiée among them, and for any unknown code |
| LivraisonsList.LivraisonParamsFacts | src/app/features/livraisons/livraisons-list/livraisons-list.component.ts:39-44 | the status is sent exactly when one is chosen, and nothing else |
| LivraisonsList.NormaliseFacts | src/app/features/livraisons/livraisons-list/livraisons-list.component.ts:48 | a bare array and a wrapped one give the same rows; a wrapper without data gives none |
| LivraisonsList.SelectedVente | src/app/features/livraisons/livraisons-list/livraisons-list.component.ts:241-246 | a sale is returned only for a truthy sale id and is a loaded sale with that id; none returned means none loaded has it |
| LivraisonsList.AutoAdresseFacts | src/app/features/livraisons/livraisons-list/livraisons-list.component.ts:80-98 | the address is filled in exactly when a loaded sale with a client is chosen, and then it is that client's address or `''` |
| LivraisonsList.SaveDispatch | src/app/features/livraisons/livraisons-list/livraisons-list.component.ts:108-148 | an update exactly for a draft with a truthy id, otherwise a creation; the draft goes out unchanged |
| LivraisonsList.LivraisonsListComponent.LoadLivraisons | src/app/features/livraisons/livraisons-list/livraisons-list.component.ts:39-46 | the spinner goes on and the query holds the status filter when set |
| LivraisonsList.LivraisonsListComponent.OnLivraisonsLoaded | src/app/features/livraisons/livraisons-list/livraisons-list.component.ts:46-59 | the spinner stops; the rows are the normalised answer; an error keeps them |
| LivraisonsList.LivraisonsListComponent.OnVentesLoaded | src/app/features/livraisons/livraisons-list/livraisons-list.component.ts:62-68 | the sales are the normalised answer; an error changes nothing |
| LivraisonsList.LivraisonsListComponent.OpenNew | src/app/features/livraisons/livraisons-list/livraisons-list.component.ts:70-78 | a fresh draft with no id, no sale, today's date and empty address and driver; the dialog opens |
| LivraisonsList.LivraisonsListComponent.EditLivraison | src/app/features/livraisons/livraisons-list/livraisons-list.component.ts:100-106 | the draft is the delivery to edit; the dialog opens |
| LivraisonsList.LivraisonsListComponent.OnVenteChange | src/app/features/livraisons/livraisons-list/livraisons-list.component.ts:80-98 | only the draft's address changes, and only to the chosen sale's client address |
| LivraisonsList.LivraisonsListComponent.SaveLivraison | src/app/features/livraisons/livraisons-list/livraisons-list.component.ts:108-129 | the draft is sent as an update or a creation, as the dispatch decides |
| LivraisonsList.LivraisonsListComponent.OnSaveReply | src/app/features/livraisons/livraisons-list/livraisons-list.component.ts:110-146 | success closes the dialog and reloads; an error keeps the dialog open |
| Login.ErrorPrecedence | src/app/features/auth/login/login.component.ts:111-117 | a non-empty server `message` wins, then a non-empty `error`, else the default text; the message shown is never empty |
| Login.ChooseErrorMessage | src/app/features/auth/login/login.component.ts:111-117 | the variable reassigned step by step ends as the chosen message |
| Login.LoginComponent.constructor | src/app/features/auth/login/login.component.ts:19-21 | the return URL starts as `/dashboard`, with no request issued |
| Login.LoginComponent.NgOnInit | src/app/features/auth/login/login.component.ts:60-74 | an authenticated user goes to the current return URL with no form; otherwise the form is built and the return URL is the query's when non-empty, else `/dashboard` |
| Login.LoginComponent.OnSubmit | src/app/features/auth/login/login.component.ts:80-92 | an invalid form is marked touched; a valid one turns the spinner on and issues a CSRF request capturing the credentials |
| Login.LoginComponent.OnCsrfResponse | src/app/features/auth/login/login.component.ts:92-95 | each CSRF answer issues one login request with the credentials captured for it |
| Login.LoginComponent.OnLoginOutcome | src/app/features/auth/login/login.component.ts:95-125 | success runs the service's login and navigates to the return URL when a user is present; failure stops the spinner and shows the chosen message |
| Login.LoginsBoundedByCsrf | src/app/features/auth/login/login.component.ts:80-95 | login requests answer distinct CSRF requests, so there are never more of them than CSRF requests |

## Left out

- `AuthService.register`, `refreshToken`, `changePassword`: plain HTTP calls with no client logic; `getCsrfCookie` is only the request the login screen issues.
- `AuthGuard` is not part of this model; the route table records that the shell is guarded, not how the guard decides.
- JSON serialisation of the stored user: the user record is stored and read back as a value.
- Timers: the 30-second alert polling of the layout, the half-second delay before the post-login navigation (logged when the answer arrives) and the delay before the purchase-order pre-fill (run against the catalogue loaded by then).
- Toasts, confirmation dialogs, date and currency formatting, and the agent and statistics lists (`loadAgents`, `loadStatistiques`): display only.
- The confirm-driven actions `annulerDemande` and `prendrEnCharge` on both supply-request screens, and `demarrerLivraison`, `confirmerLivraison` and `annulerLivraison`: each is a confirmation dialog around one HTTP call and a reload.
- `getStockActuel` and `getSeuilMinimum`: text formatting of a product field.
- Angular's email validator: its verdict enters `Login.LoginComponent.FormValid` and `OnSubmit` as a parameter.
- JavaScript object-map lookups with prototype keys (`severityMap['constructor']`): the maps are modelled over their own keys only.
- Navigation to a created request or order is returned as its id, not as a URL.
- LivraisonsList.LivraisonsListComponent.SaveLivraison: requires a draft; the source would throw on a null draft, which its dialog never allows.
- DemandeCreate.DemandeCreateComponent.OnProduitChange: requires an in-range index, as the template only calls it for an existing line.
- CommandeAchatCreate.CommandeAchatCreateComponent.OnLineEdited: requires an in-range index, for the same reason.
- DemandeDetail.DemandeDetailComponent.OnActionReply: requires a loaded request, since a reply only follows a request issued for one.
- Login.LoginComponent.OnCsrfResponse: requires that the answer belongs to an issued CSRF request not yet answered, as each request is answered once.
- The recommended quantity `Math.max(seuil - stock, seuil)` equals the threshold for every non-negative stock; the model keeps the source's formula (`DemandeCreate.RecommendedBounds` states it).
