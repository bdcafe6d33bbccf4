/** The entities the client exchanges with the API (src/app/core/models and
    the `User` record of the authentication service), and the closed unions of
    role labels, supply-request statuses and priorities. */
module Models {
  import opened Common

  // The role labels of the wire contract (case-sensitive strings).
  const ADMINISTRATEUR := "Administrateur"
  const COMMERCIAL := "Commercial"
  const GESTIONNAIRE_STOCK := "GestionnaireStock"
  const COMPTABLE := "Comptable"
  const AGENT_APPROVISIONNEMENT := "AgentApprovisionnement"

  const KnownRoles: seq<string> :=
    [ADMINISTRATEUR, COMMERCIAL, GESTIONNAIRE_STOCK, COMPTABLE, AGENT_APPROVISIONNEMENT]

  /** The authenticated identity. `role` is kept as the string the server
      sent, since the client only ever compares it with role labels. */
  datatype User = User(
    id: int,
    nom: string,
    prenom: string,
    email: string,
    telephone: Option<string>,
    role: string,
    isActive: bool)

  /** The PrimeNG tag severities the screens choose between. */
  datatype Severity = Success | Secondary | Info | Warning | Danger | Contrast

  /** Status of a supply request (demande d'approvisionnement). */
  datatype DemandeStatut = Brouillon | Envoyee | EnCours | Traitee | Rejetee | Annulee

  function StatutCode(s: DemandeStatut): string
  {
    match s
    case Brouillon => "Brouillon"
    case Envoyee => "Envoyée"
    case EnCours => "EnCours"
    case Traitee => "Traitée"
    case Rejetee => "Rejetée"
    case Annulee => "Annulée"
  }

  function ParseStatut(code: string): Option<DemandeStatut>
  {
    if code == "Brouillon" then Some(Brouillon)
    else if code == "Envoyée" then Some(Envoyee)
    else if code == "EnCours" then Some(EnCours)
    else if code == "Traitée" then Some(Traitee)
    else if code == "Rejetée" then Some(Rejetee)
    else if code == "Annulée" then Some(Annulee)
    else None
  }

  /** The wire codes and the datatype are in one-to-one correspondence. */
  lemma StatutCodeRoundTrip(s: DemandeStatut, code: string)
    ensures ParseStatut(StatutCode(s)) == Some(s)
    ensures ParseStatut(code) == Some(s) ==> code == StatutCode(s)
  {
  }

  /** Priority of a supply request. */
  datatype Priorite = Normale | Urgente | Critique

  function PrioriteCode(p: Priorite): string
  {
    match p
    case Normale => "Normale"
    case Urgente => "Urgente"
    case Critique => "Critique"
  }

  function ParsePriorite(code: string): Option<Priorite>
  {
    if code == "Normale" then Some(Normale)
    else if code == "Urgente" then Some(Urgente)
    else if code == "Critique" then Some(Critique)
    else None
  }

  lemma PrioriteCodeRoundTrip(p: Priorite, code: string)
    ensures ParsePriorite(PrioriteCode(p)) == Some(p)
    ensures ParsePriorite(code) == Some(p) ==> code == PrioriteCode(p)
  {
  }

  /** A catalogue product; prices are whole FCFA. `stockTotal` is optional in
      the API's answer. */
  datatype Produit = Produit(
    id: int,
    nom: string,
    prixAchat: int,
    seuilMinimum: int,
    stockTotal: Option<int>)

  /** One line of a stored supply request. */
  datatype DetailDemande = DetailDemande(produitId: int, quantiteDemandee: int)

  /** A stored supply request; `details` is absent when the API omits it. */
  datatype Demande = Demande(
    id: int,
    numero: string,
    priorite: Priorite,
    statut: DemandeStatut,
    details: Option<seq<DetailDemande>>)
}
