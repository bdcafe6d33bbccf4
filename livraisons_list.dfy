/** The deliveries screen
    (src/app/features/livraisons/livraisons-list/livraisons-list.component.ts):
    the status filter, the normalisation of list answers, the edit dialog's
    draft, the address filled in from the chosen sale, and the choice
    between update and create on save. */
module LivraisonsList {
  import opened Common
  import Models

  /** Status of a delivery (src/app/core/models/index.ts:147). */
  datatype LivraisonStatut = Planifiee | EnCours | Livree | Annulee

  function LivraisonCode(s: LivraisonStatut): string
  {
    match s
    case Planifiee => "Planifiée"
    case EnCours => "EnCours"
    case Livree => "Livrée"
    case Annulee => "Annulée"
  }

  function ParseLivraison(code: string): Option<LivraisonStatut>
  {
    if code == "Planifiée" then Some(Planifiee)
    else if code == "EnCours" then Some(EnCours)
    else if code == "Livrée" then Some(Livree)
    else if code == "Annulée" then Some(Annulee)
    else None
  }

  lemma LivraisonCodeRoundTrip(s: LivraisonStatut, code: string)
    ensures ParseLivraison(LivraisonCode(s)) == Some(s)
    ensures ParseLivraison(code) == Some(s) ==> code == LivraisonCode(s)
  {
  }

  /** `getStatutSeverity`: `'info'` for a planned delivery and for any code
      outside the four. */
  function StatutSeverity(code: string): Models.Severity
  {
    match ParseLivraison(code)
    case None => Models.Info
    case Some(s) =>
      match s
      case Planifiee => Models.Info
      case EnCours => Models.Warning
      case Livree => Models.Success
      case Annulee => Models.Danger
  }

  /** The four statuses get four distinct colours; only a planned delivery
      shares its colour with the fallback. */
  lemma StatutSeverityFacts(s: LivraisonStatut, t: LivraisonStatut, code: string)
    ensures StatutSeverity(LivraisonCode(s)) == StatutSeverity(LivraisonCode(t)) ==> s == t
    ensures ParseLivraison(code).None? ==> StatutSeverity(code) == Models.Info
    ensures StatutSeverity(LivraisonCode(s)) == Models.Info <==> s == Planifiee
  {
    LivraisonCodeRoundTrip(s, LivraisonCode(s));
    LivraisonCodeRoundTrip(t, LivraisonCode(t));
  }

  /** The query of `loadLivraisons`: the status only when one is chosen. */
  function LivraisonParams(selectedStatut: string): (r: map<string, string>)
  {
    if selectedStatut != "" then map["statut" := selectedStatut] else map[]
  }

  lemma LivraisonParamsFacts(selectedStatut: string)
    ensures "statut" in LivraisonParams(selectedStatut) <==> selectedStatut != ""
    ensures "statut" in LivraisonParams(selectedStatut) ==> LivraisonParams(selectedStatut)["statut"] == selectedStatut
    ensures LivraisonParams(selectedStatut).Keys <= {"statut"}
  {
  }

  /** A list answer is either a bare array or an object whose `data` field
      may be missing. */
  datatype ListResponse<T> = Bare(items: seq<T>) | Wrapped(data: Option<seq<T>>)

  /** `Array.isArray(r) ? r : (r.data || [])`. */
  function Normalise<T>(r: ListResponse<T>): seq<T>
  {
    match r
    case Bare(items) => items
    case Wrapped(data) => if data.Some? then data.value else []
  }

  /** Both shapes of the same rows normalise to those rows, and a wrapper
      without data to no rows. */
  lemma NormaliseFacts<T>(rows: seq<T>)
    ensures Normalise(Bare(rows)) == rows
    ensures Normalise(Wrapped(Some(rows))) == rows
    ensures Normalise(ListResponse<T>.Wrapped(None)) == []
  {
  }

  datatype Client = Client(nom: string, adresse: Option<string>)

  datatype Vente = Vente(id: int, client: Option<Client>)

  /** A delivery as the edit dialog holds it. The planned date is carried as
      given; its conversion to a `Date` is not modelled. */
  datatype LivraisonDraft = LivraisonDraft(
    id: Option<int>, venteId: Option<int>, datePrevue: string, adresse: string, livreur: string)

  /** The sale a draft points to: none without a truthy sale id, otherwise
      the first loaded sale with that id. */
  function SelectedVente(draft: Option<LivraisonDraft>, ventes: seq<Vente>): (r: Option<Vente>)
    ensures r.Some? ==> draft.Some? && TruthyNum(draft.value.venteId) && r.value in ventes && r.value.id == draft.value.venteId.value
    ensures draft.Some? && TruthyNum(draft.value.venteId) && r.None? ==> forall v :: v in ventes ==> v.id != draft.value.venteId.value
  {
    if draft.Some? && TruthyNum(draft.value.venteId) then Find(ventes, (v: Vente) => v.id == draft.value.venteId.value) else None
  }

  /** The address `onVenteChange` writes, if any: the client's address (or
      `''`) when the chosen sale is loaded and has a client. */
  function AutoAdresse(draft: Option<LivraisonDraft>, ventes: seq<Vente>): Option<string>
  {
    var v := SelectedVente(draft, ventes);
    if v.Some? && v.value.client.Some? then
      Some(if v.value.client.value.adresse.Some? then v.value.client.value.adresse.value else "")
    else None
  }

  /** The address is filled in exactly when a loaded sale with a client is
      chosen, and then it is that client's address. */
  lemma AutoAdresseFacts(draft: Option<LivraisonDraft>, ventes: seq<Vente>)
    ensures AutoAdresse(draft, ventes).Some? <==>
      SelectedVente(draft, ventes).Some? && SelectedVente(draft, ventes).value.client.Some?
    ensures AutoAdresse(draft, ventes).Some? ==>
      exists v :: v in ventes && v.id == draft.value.venteId.value && v.client.Some? &&
        AutoAdresse(draft, ventes).value == (if v.client.value.adresse.Some? then v.client.value.adresse.value else "")
    ensures draft.None? || !TruthyNum(draft.value.venteId) ==> AutoAdresse(draft, ventes).None?
  {
    var v := SelectedVente(draft, ventes);
    if v.Some? {
      assert v.value in ventes;
    }
  }

  /** The request `saveLivraison` sends. */
  datatype SaveRequest = Update(id: int, draft: LivraisonDraft) | Create(draft: LivraisonDraft)

  /** `saveLivraison`'s dispatch: an update for a draft with a truthy id, a
      creation otherwise; the draft goes out unchanged. */
  function SaveDispatch(draft: LivraisonDraft): (r: SaveRequest)
    ensures r.Update? <==> TruthyNum(draft.id)
    ensures r.Update? ==> Some(r.id) == draft.id
    ensures r.draft == draft
  {
    if TruthyNum(draft.id) then Update(draft.id.value, draft) else Create(draft)
  }

  class LivraisonsListComponent {
    var livraisons: seq<LivraisonDraft>
    var loading: bool
    var displayDialog: bool
    var selectedLivraison: Option<LivraisonDraft>
    var ventes: seq<Vente>
    var selectedStatut: string

    constructor ()
      ensures livraisons == [] && !loading && !displayDialog && selectedLivraison.None?
      ensures ventes == [] && selectedStatut == ""
    {
      livraisons := [];
      loading := false;
      displayDialog := false;
      selectedLivraison := None;
      ventes := [];
      selectedStatut := "";
    }

    method LoadLivraisons() returns (params: map<string, string>)
      modifies this`loading
      ensures loading
      ensures params == LivraisonParams(selectedStatut)
    {
      loading := true;
      params := map[];
      if selectedStatut != "" {
        params := params["statut" := selectedStatut];
      }
    }

    method OnLivraisonsLoaded(reply: Reply<ListResponse<LivraisonDraft>>)
      modifies this`livraisons, this`loading
      ensures !loading
      ensures livraisons == if reply.Ok? then Normalise(reply.body) else old(livraisons)
    {
      if reply.Ok? {
        livraisons := Normalise(reply.body);
      }
      loading := false;
    }

    /** The validated sales; an error is not handled. */
    method OnVentesLoaded(reply: Reply<ListResponse<Vente>>)
      modifies this`ventes
      ensures ventes == if reply.Ok? then Normalise(reply.body) else old(ventes)
    {
      if reply.Ok? {
        ventes := Normalise(reply.body);
      }
    }

    /** A fresh draft: no sale, empty address and driver, today's date. */
    method OpenNew(today: string)
      modifies this`selectedLivraison, this`displayDialog
      ensures selectedLivraison == Some(LivraisonDraft(None, None, today, "", ""))
      ensures displayDialog
    {
      selectedLivraison := Some(LivraisonDraft(None, None, today, "", ""));
      displayDialog := true;
    }

    /** A copy of an existing delivery for editing. */
    method EditLivraison(livraison: LivraisonDraft)
      modifies this`selectedLivraison, this`displayDialog
      ensures selectedLivraison == Some(livraison) && displayDialog
    {
      selectedLivraison := Some(livraison);
      displayDialog := true;
    }

    /** `onVenteChange`: the address alone changes, and only when the
        chosen sale is loaded and has a client. */
    method OnVenteChange()
      modifies this`selectedLivraison
      ensures AutoAdresse(old(selectedLivraison), ventes).None? ==> selectedLivraison == old(selectedLivraison)
      ensures AutoAdresse(old(selectedLivraison), ventes).Some? ==>
        selectedLivraison == Some(old(selectedLivraison).value.(adresse := AutoAdresse(old(selectedLivraison), ventes).value))
    {
      if selectedLivraison.Some? && TruthyNum(selectedLivraison.value.venteId) {
        var venteId := selectedLivraison.value.venteId.value;
        var vente := Find(ventes, (v: Vente) => v.id == venteId);
        if vente.Some? && vente.value.client.Some? {
          var adresse := vente.value.client.value.adresse;
          selectedLivraison := Some(selectedLivraison.value.(adresse := if adresse.Some? then adresse.value else ""));
        }
      }
    }

    /** `saveLivraison`: the dialog's draft is sent as an update or a
        creation. */
    method SaveLivraison() returns (request: SaveRequest)
      requires selectedLivraison.Some?
      ensures request == SaveDispatch(selectedLivraison.value)
    {
      if TruthyNum(selectedLivraison.value.id) {
        request := Update(selectedLivraison.value.id.value, selectedLivraison.value);
      } else {
        request := Create(selectedLivraison.value);
      }
    }

    /** The reply to a save: success closes the dialog and reloads; an error
        leaves the dialog open. */
    method OnSaveReply(reply: Reply<()>) returns (reload: Option<map<string, string>>)
      modifies this`displayDialog, this`loading
      ensures reply.Ok? ==> !displayDialog && loading && reload == Some(LivraisonParams(selectedStatut))
      ensures reply.Failed? ==> displayDialog == old(displayDialog) && loading == old(loading) && reload.None?
    {
      if reply.Ok? {
        displayDialog := false;
        var params := LoadLivraisons();
        reload := Some(params);
      } else {
        reload := None;
      }
    }

    function GetSelectedVente(): Option<Vente>
      reads this
    {
      SelectedVente(selectedLivraison, ventes)
    }
  }

  /** A client of the screen: a new draft is always a creation, and picking
      a sale whose client has no address writes the empty address. */
  method NewDeliveryScenario(c: LivraisonsListComponent, today: string, v: Vente)
    requires v.id != 0 && v.client.Some? && v.client.value.adresse.None?
    modifies c
  {
    c.ventes := [v];
    c.OpenNew(today);
    var r := c.SaveLivraison();
    assert r.Create?;
    c.selectedLivraison := Some(c.selectedLivraison.value.(venteId := Some(v.id)));
    c.OnVenteChange();
    assert c.selectedLivraison.value.adresse == "";
  }
}
