/** The detail screen of a supply request
    (src/app/features/demandes-approvisionnement/demande-detail/demande-detail.component.ts):
    the status-dependent action guards, the status and priority display maps,
    the quantity total, and the dialog state around sending and rejecting.

    The role flags are read from `AuthService` once, at initialisation; the
    HTTP exchanges are split into the method that issues a request (and
    returns it) and the method that reacts to its reply. */
module DemandeDetail {
  import opened Common
  import opened Models
  import Auth

  /** The three statuses from which the workflow goes nowhere. */
  predicate Terminal(s: DemandeStatut)
  {
    s == Traitee || s == Rejetee || s == Annulee
  }

  /** `demande?.statut === code`: false when no request is loaded. */
  predicate StatutIs(d: Option<Demande>, s: DemandeStatut)
  {
    d.Some? && d.value.statut == s
  }

  predicate CanEnvoyer(isGestionnaireStock: bool, d: Option<Demande>)
  {
    isGestionnaireStock && StatutIs(d, Brouillon)
  }

  /** Three `!==` tests: each holds when no request is loaded. */
  predicate CanAnnuler(isGestionnaireStock: bool, d: Option<Demande>)
  {
    isGestionnaireStock && !StatutIs(d, Traitee) && !StatutIs(d, Rejetee) && !StatutIs(d, Annulee)
  }

  predicate CanPrendreEnCharge(isAgentApprovisionnement: bool, d: Option<Demande>)
  {
    isAgentApprovisionnement && StatutIs(d, Envoyee)
  }

  predicate CanTraiter(isAgentApprovisionnement: bool, d: Option<Demande>)
  {
    isAgentApprovisionnement && (StatutIs(d, Envoyee) || StatutIs(d, EnCours))
  }

  predicate CanRejeter(isAgentApprovisionnement: bool, d: Option<Demande>)
  {
    isAgentApprovisionnement && (StatutIs(d, Envoyee) || StatutIs(d, EnCours))
  }

  /** Some action button is enabled. */
  predicate AnyAction(gs: bool, agent: bool, d: Option<Demande>)
  {
    CanEnvoyer(gs, d) || CanAnnuler(gs, d) || CanPrendreEnCharge(agent, d) || CanTraiter(agent, d) || CanRejeter(agent, d)
  }

  /** The guard table, status by status, for a loaded request. */
  lemma GuardTable(gs: bool, agent: bool, dem: Demande)
    ensures CanEnvoyer(gs, Some(dem)) <==> gs && dem.statut == Brouillon
    ensures CanAnnuler(gs, Some(dem)) <==> gs && dem.statut in {Brouillon, Envoyee, EnCours}
    ensures CanPrendreEnCharge(agent, Some(dem)) <==> agent && dem.statut == Envoyee
    ensures CanTraiter(agent, Some(dem)) <==> agent && dem.statut in {Envoyee, EnCours}
    ensures CanRejeter(agent, Some(dem)) <==> CanTraiter(agent, Some(dem))
  {
  }

  /** With no request loaded, cancelling reduces to the stock-manager flag and
      every other action is off. */
  lemma NothingLoaded(gs: bool, agent: bool)
    ensures CanAnnuler(gs, None) <==> gs
    ensures !CanEnvoyer(gs, None) && !CanPrendreEnCharge(agent, None)
    ensures !CanTraiter(agent, None) && !CanRejeter(agent, None)
  {
  }

  /** A loaded request in a terminal status enables no action, whatever the
      flags. */
  lemma TerminalNoAction(gs: bool, agent: bool, dem: Demande)
    requires Terminal(dem.statut)
    ensures !AnyAction(gs, agent, Some(dem))
  {
  }

  /** The flags come from the single-role predicates, so no user has both
      the stock manager's and the agent's actions, and an administrator has
      none at all. */
  lemma RoleFlags(a: Auth.AuthService, d: Option<Demande>)
    ensures !(a.IsGestionnaireStock() && a.IsAgentApprovisionnement())
    ensures a.IsAdmin() ==> !AnyAction(a.IsGestionnaireStock(), a.IsAgentApprovisionnement(), d)
    ensures !a.IsGestionnaireStock() ==> !CanEnvoyer(a.IsGestionnaireStock(), d) && !CanAnnuler(a.IsGestionnaireStock(), d)
  {
    Auth.SingleRolePredicates(a);
  }

  /** `getStatutSeverity`: the colour of a status code; `'info'` for a code
      outside the six. */
  function StatutSeverity(code: string): Severity
  {
    match ParseStatut(code)
    case None => Info
    case Some(s) =>
      match s
      case Brouillon => Secondary
      case Envoyee => Info
      case EnCours => Warning
      case Traitee => Success
      case Rejetee => Danger
      case Annulee => Contrast
  }

  /** `getStatutLabel`: the text of a status code; the code itself when it
      is outside the six. */
  function StatutLabel(code: string): string
  {
    match ParseStatut(code)
    case None => code
    case Some(s) => if s == EnCours then "En Cours" else StatutCode(s)
  }

  /** `getPrioriteSeverity`; `'success'` for a code outside the three. */
  function PrioriteSeverity(code: string): Severity
  {
    match ParsePriorite(code)
    case None => Success
    case Some(p) =>
      match p
      case Normale => Success
      case Urgente => Warning
      case Critique => Danger
  }

  /** The maps are total: an unknown code falls back to `'info'` and keeps
      its text. */
  lemma UnknownStatut(code: string)
    requires ParseStatut(code).None?
    ensures StatutSeverity(code) == Info && StatutLabel(code) == code
  {
  }

  /** Among the six statuses, only `EnCours` is displayed differently from
      its code, and the six colours are pairwise distinct. */
  lemma StatutDisplay(s: DemandeStatut, t: DemandeStatut)
    ensures StatutLabel(StatutCode(s)) != StatutCode(s) <==> s == EnCours
    ensures StatutLabel(StatutCode(s)) != ""
    ensures StatutSeverity(StatutCode(s)) == StatutSeverity(StatutCode(t)) ==> s == t
  {
    StatutCodeRoundTrip(s, StatutCode(s));
    StatutCodeRoundTrip(t, StatutCode(t));
  }

  /** Priority colours grow with urgency; anything else is shown as
      `'success'`. */
  lemma PrioriteDisplay(p: Priorite, code: string)
    ensures PrioriteSeverity(PrioriteCode(p)) == Success <==> p == Normale
    ensures PrioriteSeverity(PrioriteCode(p)) == Danger <==> p == Critique
    ensures ParsePriorite(code).None? ==> PrioriteSeverity(code) == Success
  {
    PrioriteCodeRoundTrip(p, PrioriteCode(p));
  }

  /** The `reduce` over the detail lines. */
  function SumQuantites(details: seq<DetailDemande>): int
  {
    if details == [] then 0 else details[0].quantiteDemandee + SumQuantites(details[1..])
  }

  lemma {:induction false} SumQuantitesAppend(a: seq<DetailDemande>, b: seq<DetailDemande>)
    ensures SumQuantites(a + b) == SumQuantites(a) + SumQuantites(b)
  {
    if a == [] {
      assert a + b == b;
    } else {
      assert (a + b)[1..] == a[1..] + b;
      SumQuantitesAppend(a[1..], b);
    }
  }

  lemma {:induction false} SumQuantitesBounds(details: seq<DetailDemande>)
    requires forall i :: 0 <= i < |details| ==> details[i].quantiteDemandee >= 0
    ensures SumQuantites(details) >= 0
    ensures forall i :: 0 <= i < |details| ==> details[i].quantiteDemandee <= SumQuantites(details)
  {
    if details != [] {
      SumQuantitesBounds(details[1..]);
      forall i | 1 <= i < |details|
        ensures details[i].quantiteDemandee <= SumQuantites(details)
      {
        assert details[i] == details[1..][i - 1];
      }
    }
  }

  /** `getTotalQuantite`: 0 without a request or without detail lines. */
  function TotalQuantite(d: Option<Demande>): int
  {
    if d.None? || d.value.details.None? then 0 else SumQuantites(d.value.details.value)
  }

  /** Adding a line adds its quantity to the total. */
  lemma TotalQuantiteExtend(dem: Demande, line: DetailDemande)
    requires dem.details.Some?
    ensures TotalQuantite(Some(dem.(details := Some(dem.details.value + [line]))))
            == TotalQuantite(Some(dem)) + line.quantiteDemandee
    ensures TotalQuantite(None) == 0 && TotalQuantite(Some(dem.(details := None))) == 0
  {
    SumQuantitesAppend(dem.details.value, [line]);
  }

  /** `envoyer(id, destinataire)`: a send request, addressed or not. */
  datatype EnvoiRequest = EnvoiRequest(demandeId: int, destinataire: Option<int>)

  /** `rejeter(id, commentaire)`. */
  datatype RejetRequest = RejetRequest(demandeId: int, commentaire: string)

  class DemandeDetailComponent {
    var demande: Option<Demande>
    var loading: bool
    var isGestionnaireStock: bool
    var isAgentApprovisionnement: bool
    var showRejeterDialog: bool
    var showEnvoiDialog: bool
    var commentaireRejet: string
    var selectedDestinataire: Option<int>

    constructor ()
      ensures demande.None? && !loading && !isGestionnaireStock && !isAgentApprovisionnement
      ensures !showRejeterDialog && !showEnvoiDialog && commentaireRejet == "" && selectedDestinataire.None?
    {
      demande := None;
      loading := false;
      isGestionnaireStock := false;
      isAgentApprovisionnement := false;
      showRejeterDialog := false;
      showEnvoiDialog := false;
      commentaireRejet := "";
      selectedDestinataire := None;
    }

    /** The role flags of `ngOnInit`, and whether the agent list is fetched. */
    method InitFlags(auth: Auth.AuthService) returns (loadAgents: bool)
      modifies this`isGestionnaireStock, this`isAgentApprovisionnement
      ensures isGestionnaireStock == auth.IsGestionnaireStock()
      ensures isAgentApprovisionnement == auth.IsAgentApprovisionnement()
      ensures loadAgents == isGestionnaireStock
      ensures !(isGestionnaireStock && isAgentApprovisionnement)
    {
      Auth.SingleRolePredicates(auth);
      isGestionnaireStock := auth.IsGestionnaireStock();
      isAgentApprovisionnement := auth.IsAgentApprovisionnement();
      loadAgents := isGestionnaireStock;
    }

    /** `loadDemande(id)`: the request goes out with the spinner on. */
    method LoadDemande(id: int) returns (request: int)
      modifies this`loading
      ensures loading && request == id
    {
      loading := true;
      request := id;
    }

    /** The reply to `getById`: the request is shown, or the screen goes back
        to the list. */
    method OnDemandeLoaded(reply: Reply<Demande>) returns (navigateTo: Option<seq<string>>)
      modifies this`demande, this`loading
      ensures !loading
      ensures reply.Ok? ==> demande == Some(reply.body) && navigateTo.None?
      ensures reply.Failed? ==> demande == old(demande) && navigateTo == Some(["demandes-approvisionnement"])
    {
      loading := false;
      if reply.Ok? {
        demande := Some(reply.body);
        navigateTo := None;
      } else {
        navigateTo := Some(["demandes-approvisionnement"]);
      }
    }

    method EnvoyerDemande()
      modifies this`selectedDestinataire, this`showEnvoiDialog
      ensures selectedDestinataire.None? && showEnvoiDialog
    {
      selectedDestinataire := None;
      showEnvoiDialog := true;
    }

    /** `confirmerEnvoi`: nothing without a request; otherwise a send request
        whose recipient is the selected one, a recipient `0` being falsy and
        so sent as absent. */
    method ConfirmerEnvoi() returns (request: Option<EnvoiRequest>)
      modifies this`loading
      ensures demande.None? ==> request.None? && loading == old(loading)
      ensures demande.Some? ==> loading && request.Some? && request.value.demandeId == demande.value.id
      ensures request.Some? && request.value.destinataire.Some? ==>
                request.value.destinataire == selectedDestinataire && selectedDestinataire.value != 0
      ensures request.Some? && TruthyNum(selectedDestinataire) ==> request.value.destinataire == selectedDestinataire
    {
      if demande.None? {
        return None;
      }
      loading := true;
      var destinataire := if TruthyNum(selectedDestinataire) then selectedDestinataire else None;
      request := Some(EnvoiRequest(demande.value.id, destinataire));
    }

    /** The reply to a send or reject request: on success the dialog closes
        and the request is reloaded; on error the spinner stops and the
        dialog stays open. */
    method OnActionReply(reply: Reply<()>, rejet: bool) returns (reload: Option<int>)
      requires demande.Some?
      modifies this`loading, this`showEnvoiDialog, this`showRejeterDialog
      ensures reply.Ok? ==> loading && reload == Some(demande.value.id)
      ensures reply.Ok? ==> (if rejet then !showRejeterDialog && showEnvoiDialog == old(showEnvoiDialog)
                             else !showEnvoiDialog && showRejeterDialog == old(showRejeterDialog))
      ensures reply.Failed? ==> !loading && reload.None?
      ensures reply.Failed? ==> showEnvoiDialog == old(showEnvoiDialog) && showRejeterDialog == old(showRejeterDialog)
    {
      if reply.Ok? {
        if rejet {
          showRejeterDialog := false;
        } else {
          showEnvoiDialog := false;
        }
        loading := false;
        var id := LoadDemande(demande.value.id);
        reload := Some(id);
      } else {
        loading := false;
        reload := None;
      }
    }

    method OuvrirDialogRejeter()
      modifies this`commentaireRejet, this`showRejeterDialog
      ensures commentaireRejet == "" && showRejeterDialog
    {
      commentaireRejet := "";
      showRejeterDialog := true;
    }

    /** `confirmerRejeter`: a reject request goes out exactly when a request
        is loaded and the comment holds a character other than white space;
        the comment is sent as typed, untrimmed. A blank comment only raises
        the warning. */
    method ConfirmerRejeter() returns (request: Option<RejetRequest>, warned: bool)
      modifies this`loading
      ensures request.Some? <==> demande.Some? && !IsBlank(commentaireRejet)
      ensures request.Some? ==> request.value == RejetRequest(demande.value.id, commentaireRejet) && loading
      ensures request.None? ==> loading == old(loading)
      ensures warned <==> demande.Some? && IsBlank(commentaireRejet)
    {
      TrimEmptyIffBlank(commentaireRejet);
      if demande.None? {
        return None, false;
      }
      if Trim(commentaireRejet) == "" {
        return None, true;
      }
      loading := true;
      request := Some(RejetRequest(demande.value.id, commentaireRejet));
      warned := false;
    }

    predicate CanEnvoyerNow()
      reads this
    {
      CanEnvoyer(isGestionnaireStock, demande)
    }

    predicate CanAnnulerNow()
      reads this
    {
      CanAnnuler(isGestionnaireStock, demande)
    }

    predicate CanPrendreEnChargeNow()
      reads this
    {
      CanPrendreEnCharge(isAgentApprovisionnement, demande)
    }

    predicate CanTraiterNow()
      reads this
    {
      CanTraiter(isAgentApprovisionnement, demande)
    }

    predicate CanRejeterNow()
      reads this
    {
      CanRejeter(isAgentApprovisionnement, demande)
    }

    function GetTotalQuantite(): int
      reads this
    {
      TotalQuantite(demande)
    }
  }

  /** A client of the screen: an administrator opens a draft and sees no
      action; a blank rejection comment sends nothing. */
  method AdministrateurScenario(auth: Auth.AuthService, c: DemandeDetailComponent, dem: Demande)
    requires auth.IsAdmin() && dem.statut == Brouillon
    modifies c
  {
    var _ := c.InitFlags(auth);
    var _ := c.OnDemandeLoaded(Ok(dem));
    RoleFlags(auth, c.demande);
    assert !c.CanEnvoyerNow() && !c.CanAnnulerNow() && !c.CanRejeterNow();
    c.OuvrirDialogRejeter();
    var request, warned := c.ConfirmerRejeter();
    assert request.None? && warned;
  }
}
