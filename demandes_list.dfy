/** The list screen of supply requests
    (src/app/features/demandes-approvisionnement/demandes-list/demandes-list.component.ts):
    filter and paging state, the query parameters built from it, the load
    cycle, and the send dialog. */
module DemandesList {
  import opened Common
  import opened Models
  import DemandeDetail

  /** A query parameter's value. */
  datatype ParamValue = Num(n: int) | Text(s: string)

  /** The query of `loadDemandes`: page and page size always, each filter
      only when it is not the empty string. */
  function RequestParams(page: int, perPage: int, statut: string, priorite: string): map<string, ParamValue>
  {
    var base := map["page" := Num(page), "per_page" := Num(perPage)];
    var withStatut := if statut != "" then base["statut" := Text(statut)] else base;
    if priorite != "" then withStatut["priorite" := Text(priorite)] else withStatut
  }

  /** The parameters carry the paging state, and a filter exactly when it is
      set. */
  lemma RequestParamsFacts(page: int, perPage: int, statut: string, priorite: string)
    ensures var p := RequestParams(page, perPage, statut, priorite);
      "page" in p && p["page"] == Num(page) && "per_page" in p && p["per_page"] == Num(perPage)
      && ("statut" in p <==> statut != "") && ("statut" in p ==> p["statut"] == Text(statut))
      && ("priorite" in p <==> priorite != "") && ("priorite" in p ==> p["priorite"] == Text(priorite))
      && p.Keys <= {"page", "per_page", "statut", "priorite"}
  {
  }

  /** With both filters cleared, only the paging parameters go out. */
  lemma ClearedParams(page: int, perPage: int)
    ensures RequestParams(page, perPage, "", "").Keys == {"page", "per_page"}
  {
  }

  /** A page of the list as the API answers it. */
  datatype PageResponse = PageResponse(data: seq<Demande>, total: int)

  /** The paginator's event: a 0-based page index and a page size. */
  datatype PageEvent = PageEvent(page: int, rows: int)

  /** The list shows the same status colours and priority colours as the
      detail screen: one map each, shared. */
  lemma SharedSeverities(s: DemandeStatut, code: string)
    ensures DemandeDetail.StatutSeverity(StatutCode(s)) == Danger <==> s == Rejetee
    ensures DemandeDetail.StatutSeverity(StatutCode(s)) == Warning <==> s == EnCours
    ensures ParseStatut(code).None? ==> DemandeDetail.StatutSeverity(code) == Info
    ensures ParsePriorite(code).None? ==> DemandeDetail.PrioriteSeverity(code) == Success
  {
    StatutCodeRoundTrip(s, StatutCode(s));
  }

  class DemandesListComponent {
    var demandes: seq<Demande>
    var loading: bool
    var isGestionnaireStock: bool
    var totalRecords: int
    var currentPage: int
    var pageSize: int
    var selectedStatut: string
    var selectedPriorite: string
    var showEnvoiDialog: bool
    var selectedDemande: Option<Demande>
    var selectedDestinataire: Option<int>

    constructor ()
      ensures demandes == [] && !loading && !isGestionnaireStock && totalRecords == 0
      ensures currentPage == 1 && pageSize == 20 && selectedStatut == "" && selectedPriorite == ""
      ensures !showEnvoiDialog && selectedDemande.None? && selectedDestinataire.None?
    {
      demandes := [];
      loading := false;
      isGestionnaireStock := false;
      totalRecords := 0;
      currentPage := 1;
      pageSize := 20;
      selectedStatut := "";
      selectedPriorite := "";
      showEnvoiDialog := false;
      selectedDemande := None;
      selectedDestinataire := None;
    }

    /** `loadDemandes`: the spinner goes on and the query is built step by
        step from the paging and filter state. */
    method LoadDemandes() returns (params: map<string, ParamValue>)
      modifies this`loading
      ensures loading
      ensures params == RequestParams(currentPage, pageSize, selectedStatut, selectedPriorite)
    {
      loading := true;
      params := map["page" := Num(currentPage), "per_page" := Num(pageSize)];
      if selectedStatut != "" {
        params := params["statut" := Text(selectedStatut)];
      }
      if selectedPriorite != "" {
        params := params["priorite" := Text(selectedPriorite)];
      }
    }

    /** The answer to the list query: the spinner stops either way; a page
        replaces the rows and the total. */
    method OnLoaded(reply: Reply<PageResponse>)
      modifies this`demandes, this`totalRecords, this`loading
      ensures !loading
      ensures reply.Ok? ==> demandes == reply.body.data && totalRecords == reply.body.total
      ensures reply.Failed? ==> demandes == old(demandes) && totalRecords == old(totalRecords)
    {
      if reply.Ok? {
        demandes := reply.body.data;
        totalRecords := reply.body.total;
      }
      loading := false;
    }

    /** Back to the first page, filters kept, and reload. */
    method ApplyFilters() returns (params: map<string, ParamValue>)
      modifies this`currentPage, this`loading
      ensures currentPage == 1 && loading
      ensures params == RequestParams(1, pageSize, selectedStatut, selectedPriorite)
    {
      currentPage := 1;
      params := LoadDemandes();
    }

    /** Both filters emptied, back to the first page, and reload. */
    method ClearFilters() returns (params: map<string, ParamValue>)
      modifies this`selectedStatut, this`selectedPriorite, this`currentPage, this`loading
      ensures selectedStatut == "" && selectedPriorite == "" && currentPage == 1 && loading
      ensures params == RequestParams(1, pageSize, "", "")
    {
      selectedStatut := "";
      selectedPriorite := "";
      params := ApplyFilters();
    }

    /** The paginator's 0-based index becomes the API's 1-based page. */
    method OnPageChange(event: PageEvent) returns (params: map<string, ParamValue>)
      modifies this`currentPage, this`pageSize, this`loading
      ensures currentPage == event.page + 1 && pageSize == event.rows && loading
      ensures params == RequestParams(event.page + 1, event.rows, selectedStatut, selectedPriorite)
    {
      currentPage := event.page + 1;
      pageSize := event.rows;
      params := LoadDemandes();
    }

    method EnvoyerDemande(d: Demande)
      modifies this`selectedDemande, this`selectedDestinataire, this`showEnvoiDialog
      ensures selectedDemande == Some(d) && selectedDestinataire.None? && showEnvoiDialog
    {
      selectedDemande := Some(d);
      selectedDestinataire := None;
      showEnvoiDialog := true;
    }

    /** `confirmerEnvoi`: nothing without a selected request; otherwise the
        send request, a recipient `0` being sent as absent. */
    method ConfirmerEnvoi() returns (request: Option<DemandeDetail.EnvoiRequest>)
      modifies this`loading
      ensures selectedDemande.None? ==> request.None? && loading == old(loading)
      ensures selectedDemande.Some? ==> loading && request.Some? && request.value.demandeId == selectedDemande.value.id
      ensures request.Some? && request.value.destinataire.Some? ==>
                request.value.destinataire == selectedDestinataire && selectedDestinataire.value != 0
      ensures request.Some? && TruthyNum(selectedDestinataire) ==> request.value.destinataire == selectedDestinataire
    {
      if selectedDemande.None? {
        return None;
      }
      loading := true;
      var destinataire := if TruthyNum(selectedDestinataire) then selectedDestinataire else None;
      request := Some(DemandeDetail.EnvoiRequest(selectedDemande.value.id, destinataire));
    }

    /** The reply to a send: on success the dialog closes and the list is
        reloaded with the current state (statistics too, not modelled); on
        error the spinner stops. */
    method OnEnvoiReply(reply: Reply<()>) returns (reload: Option<map<string, ParamValue>>)
      modifies this`showEnvoiDialog, this`loading
      ensures reply.Ok? ==> !showEnvoiDialog && loading
      ensures reply.Ok? ==> reload == Some(RequestParams(currentPage, pageSize, selectedStatut, selectedPriorite))
      ensures reply.Failed? ==> !loading && reload.None? && showEnvoiDialog == old(showEnvoiDialog)
    {
      if reply.Ok? {
        showEnvoiDialog := false;
        loading := false;
        var params := LoadDemandes();
        reload := Some(params);
      } else {
        loading := false;
        reload := None;
      }
    }
  }

  /** A client of the list: paging keeps the filters, applying them goes
      back to page 1, clearing them drops them from the query. */
  method PagingScenario(c: DemandesListComponent)
    modifies c
  {
    c.selectedStatut := "Envoyée";
    var p1 := c.OnPageChange(PageEvent(2, 50));
    RequestParamsFacts(3, 50, "Envoyée", c.selectedPriorite);
    assert p1["page"] == Num(3) && p1["statut"] == Text("Envoyée");
    var p2 := c.ApplyFilters();
    assert c.currentPage == 1 && c.pageSize == 50;
    var p3 := c.ClearFilters();
    ClearedParams(1, 50);
    assert p3.Keys == {"page", "per_page"};
  }
}
