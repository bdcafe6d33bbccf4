/** The static route table of src/app/app-routing.module.ts.

    The top level has the unguarded `login` page, the `LayoutComponent` shell
    at the empty path (guarded by `AuthGuard`) whose children are the feature
    areas, and a wildcard that redirects to `dashboard`. The children's paths
    are distinct, so the table is kept as a map from path to route. A URL is a
    sequence of path segments; the role set of a feature is attached to its
    first segment. */
module Routing {
  import opened Common
  import opened Models

  /** A child of the guarded shell: a feature area (a leaf component when
      `lazy` is false, a lazily loaded module otherwise) with the role set of
      its `data.roles` if it declares one; or a redirect. */
  datatype ChildRoute =
    | Feature(lazy: bool, roles: Option<seq<string>>)
    | RedirectChild(redirectTo: string)

  const ShellChildren: map<string, ChildRoute> := map[
    "dashboard" := Feature(false, None),
    "utilisateurs" := Feature(true, Some([ADMINISTRATEUR])),
    "clients" := Feature(true, Some([ADMINISTRATEUR, COMMERCIAL])),
    "produits" := Feature(true, None),
    "stocks" := Feature(true, Some([ADMINISTRATEUR, GESTIONNAIRE_STOCK])),
    "ventes" := Feature(true, Some([ADMINISTRATEUR, COMMERCIAL])),
    "commandes-achat" := Feature(true, Some([ADMINISTRATEUR, AGENT_APPROVISIONNEMENT])),
    "fournisseurs" := Feature(true, Some([ADMINISTRATEUR, AGENT_APPROVISIONNEMENT])),
    "finances" := Feature(true, Some([ADMINISTRATEUR, COMPTABLE])),
    "rapports" := Feature(true, Some([ADMINISTRATEUR])),
    "entrepots" := Feature(true, Some([ADMINISTRATEUR, GESTIONNAIRE_STOCK])),
    "categories" := Feature(true, Some([ADMINISTRATEUR, GESTIONNAIRE_STOCK])),
    "demandes-approvisionnement" := Feature(true, Some([ADMINISTRATEUR, GESTIONNAIRE_STOCK, AGENT_APPROVISIONNEMENT])),
    "livraisons" := Feature(true, Some([ADMINISTRATEUR, COMMERCIAL])),
    "profile" := Feature(true, None),
    "" := RedirectChild("dashboard")
  ]

  /** Where a URL lands. */
  datatype Resolution =
    | LoginPage
    | Guarded(feature: string, roles: Option<seq<string>>)
    | Redirect(to: string)

  /** The role set a path declares; `None` when the path is not a feature or
      declares no roles. */
  function RequiredRoles(path: string): Option<seq<string>>
  {
    if path in ShellChildren && ShellChildren[path].Feature? then ShellChildren[path].roles else None
  }

  /** A role may enter a feature area: the path is a feature, and it declares
      no roles or its roles include this one. */
  predicate Admits(path: string, role: string)
  {
    path in ShellChildren && ShellChildren[path].Feature? &&
    (ShellChildren[path].roles.None? || role in ShellChildren[path].roles.value)
  }

  /** Angular's matching of the table: `login` only as a whole URL; the empty
      URL hits the shell's empty child, which redirects to `dashboard`; a
      feature is reached under the shell's guard (the leaf `dashboard` only
      as a whole URL); anything else hits the wildcard, which redirects to
      `dashboard`. */
  function Resolve(url: seq<string>): Resolution
  {
    if url == [] then Redirect(ShellChildren[""].redirectTo)
    else if url == ["login"] then LoginPage
    else if url[0] in ShellChildren && ShellChildren[url[0]].Feature? then
      var child := ShellChildren[url[0]];
      if !child.lazy && |url| > 1 then Redirect("dashboard") else Guarded(url[0], child.roles)
    else Redirect("dashboard")
  }

  /** Every child route that declares roles admits `Administrateur`. */
  lemma AdministrateurEverywhere(path: string)
    requires RequiredRoles(path).Some?
    ensures ADMINISTRATEUR in RequiredRoles(path).value
    ensures Admits(path, ADMINISTRATEUR)
  {
  }

  /** `utilisateurs` and `rapports` are for `Administrateur` alone;
      `dashboard`, `produits` and `profile` declare no role requirement. */
  lemma AdmitsAdministrationAreas(role: string)
    ensures RequiredRoles("utilisateurs") == Some([ADMINISTRATEUR])
    ensures RequiredRoles("rapports") == Some([ADMINISTRATEUR])
    ensures Admits("utilisateurs", role) <==> role == ADMINISTRATEUR
    ensures Admits("rapports", role) <==> role == ADMINISTRATEUR
    ensures RequiredRoles("dashboard").None? && Admits("dashboard", role)
    ensures RequiredRoles("produits").None? && Admits("produits", role)
    ensures RequiredRoles("profile").None? && Admits("profile", role)
  {
  }

  /** The sales, delivery and finance areas. */
  lemma AdmitsCommercialAreas(role: string)
    ensures Admits("clients", role) <==> role == ADMINISTRATEUR || role == COMMERCIAL
    ensures Admits("ventes", role) <==> role == ADMINISTRATEUR || role == COMMERCIAL
    ensures Admits("livraisons", role) <==> role == ADMINISTRATEUR || role == COMMERCIAL
    ensures Admits("finances", role) <==> role == ADMINISTRATEUR || role == COMPTABLE
  {
  }

  /** The stock and procurement areas; the supply-request area admits exactly
      the administrator, the stock manager and the procurement agent. */
  lemma AdmitsStockAreas(role: string)
    ensures Admits("stocks", role) <==> role == ADMINISTRATEUR || role == GESTIONNAIRE_STOCK
    ensures Admits("entrepots", role) <==> role == ADMINISTRATEUR || role == GESTIONNAIRE_STOCK
    ensures Admits("categories", role) <==> role == ADMINISTRATEUR || role == GESTIONNAIRE_STOCK
    ensures Admits("commandes-achat", role) <==> role == ADMINISTRATEUR || role == AGENT_APPROVISIONNEMENT
    ensures Admits("fournisseurs", role) <==> role == ADMINISTRATEUR || role == AGENT_APPROVISIONNEMENT
    ensures Admits("demandes-approvisionnement", role) <==>
              role == ADMINISTRATEUR || role == GESTIONNAIRE_STOCK || role == AGENT_APPROVISIONNEMENT
  {
  }

  /** Only the exact URL `login` escapes the guarded shell; every redirect
      goes to `dashboard`, in particular that of the empty URL and of every
      path outside the table. */
  lemma OnlyLoginUnguarded(url: seq<string>)
    ensures Resolve(url) == LoginPage <==> url == ["login"]
    ensures url == [] ==> Resolve(url) == Redirect("dashboard")
    ensures |url| > 0 && url != ["login"] && url[0] !in ShellChildren ==> Resolve(url) == Redirect("dashboard")
    ensures Resolve(url).Redirect? ==> Resolve(url).to == "dashboard"
  {
  }

  /** A one-segment feature URL reaches its area, under the guard, with the
      roles the table declares for it. */
  lemma FeatureResolves(url: seq<string>)
    requires |url| == 1 && url[0] in ShellChildren && ShellChildren[url[0]].Feature?
    ensures Resolve(url) == Guarded(url[0], RequiredRoles(url[0]))
  {
  }
}
