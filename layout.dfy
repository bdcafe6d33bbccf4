/** The role-gated side menu of `LayoutComponent`
    (src/app/shared/layout/layout.component.ts), and its agreement with the
    route table.

    `MenuFor` is the menu the component builds for a role; the component's
    `BuildMenu` assembles it step by step, as the source does, and is proved
    to produce exactly `MenuFor`. A router link is kept as its path segments
    (`'/rapports/financier'` is `["rapports", "financier"]`). */
module Layout {
  import opened Common
  import opened Models
  import opened Auth
  import Routing

  /** A child of a menu group. */
  datatype MenuLink = MenuLink(caption: string, icon: string, routerLink: seq<string>)

  /** A top-level menu entry: a direct link, or a group of links. */
  datatype MenuItem =
    | Entry(caption: string, icon: string, routerLink: seq<string>)
    | Group(caption: string, icon: string, items: seq<MenuLink>)

  const Dashboard: MenuItem := Entry("Dashboard", "pi pi-home", ["dashboard"])

  const AdministrateurSection: seq<MenuItem> := [
    Entry("Utilisateurs", "pi pi-users", ["utilisateurs"]),
    Group("Rapports", "pi pi-chart-bar", [
      MenuLink("Rapport Financier", "pi pi-dollar", ["rapports", "financier"]),
      MenuLink("Rapport Stocks", "pi pi-box", ["rapports", "stocks"]),
      MenuLink("Rapport Ventes", "pi pi-shopping-cart", ["rapports", "ventes"]),
      MenuLink("Performances", "pi pi-chart-line", ["rapports", "performances"])])
  ]

  const CommercialSection: seq<MenuItem> := [
    Entry("Clients", "pi pi-users", ["clients"]),
    Group("Ventes", "pi pi-shopping-cart", [
      MenuLink("Liste des ventes", "pi pi-list", ["ventes"]),
      MenuLink("Nouvelle vente", "pi pi-plus", ["ventes", "create"]),
      MenuLink("Devis", "pi pi-file", ["ventes", "devis"])])
  ]

  const StockSection: seq<MenuItem> := [
    Entry("Produits", "pi pi-tag", ["produits"]),
    Group("Stocks", "pi pi-box", [
      MenuLink("Vue des stocks", "pi pi-eye", ["stocks"]),
      MenuLink("Entrées/Sorties", "pi pi-arrow-right-arrow-left", ["stocks", "mouvements"]),
      MenuLink("Inventaire", "pi pi-list-check", ["stocks", "inventaire"]),
      MenuLink("Alertes", "pi pi-bell", ["stocks", "alertes"])]),
    Entry("Catégories", "pi pi-th-large", ["categories"]),
    Entry("Entrepôts", "pi pi-building", ["entrepots"]),
    Entry("Demandes d'Approvisionnement", "pi pi-inbox", ["demandes-approvisionnement"])
  ]

  const ApprovisionnementSection: seq<MenuItem> := [
    Entry("Fournisseurs", "pi pi-truck", ["fournisseurs"]),
    Group("Commandes Achat", "pi pi-shopping-bag", [
      MenuLink("Liste des commandes", "pi pi-list", ["commandes-achat"]),
      MenuLink("Nouvelle commande", "pi pi-plus", ["commandes-achat", "create"]),
      MenuLink("Réceptions", "pi pi-inbox", ["commandes-achat", "receptions"])])
  ]

  /** The one entry with a narrower predicate than its section. */
  const ReceptionDemandeAppro: MenuItem :=
    Entry("Reception demande Appro", "pi pi-inbox", ["demandes-approvisionnement"])

  const ComptableSection: seq<MenuItem> := [
    Group("Finances", "pi pi-dollar", [
      MenuLink("Paiements", "pi pi-money-bill", ["finances", "paiements"]),
      MenuLink("Factures", "pi pi-file", ["finances", "factures"]),
      MenuLink("Créances", "pi pi-clock", ["finances", "creances"]),
      MenuLink("Factures fournisseurs", "pi pi-file", ["finances", "factures-fournisseurs"]),
      MenuLink("Trésorerie", "pi pi-wallet", ["finances", "tresorerie"])])
  ]

  const LivraisonsSection: seq<MenuItem> := [
    Entry("Livraisons", "pi pi-car", ["livraisons"])
  ]

  /** The menu shown to a user with this role: the sections in their fixed
      order, each gated by its role list, and the reception entry only for the
      procurement agent. */
  function MenuFor(role: string): seq<MenuItem>
  {
    [Dashboard]
    + (if role in [ADMINISTRATEUR] then AdministrateurSection else [])
    + (if role in [ADMINISTRATEUR, COMMERCIAL] then CommercialSection else [])
    + (if role in [ADMINISTRATEUR, GESTIONNAIRE_STOCK] then StockSection else [])
    + (if role in [ADMINISTRATEUR, AGENT_APPROVISIONNEMENT]
       then ApprovisionnementSection + (if role == AGENT_APPROVISIONNEMENT then [ReceptionDemandeAppro] else [])
       else [])
    + (if role in [ADMINISTRATEUR, COMPTABLE] then ComptableSection else [])
    + (if role in [ADMINISTRATEUR, COMMERCIAL] then LivraisonsSection else [])
  }

  /** The top-level labels of a menu, in order. */
  function Labels(menu: seq<MenuItem>): (r: seq<string>)
    ensures |r| == |menu|
    ensures forall i :: 0 <= i < |menu| ==> r[i] == menu[i].caption
  {
    if menu == [] then [] else [menu[0].caption] + Labels(menu[1..])
  }

  lemma {:induction false} LabelsAppend(a: seq<MenuItem>, b: seq<MenuItem>)
    ensures Labels(a + b) == Labels(a) + Labels(b)
  {
    assert forall i :: 0 <= i < |a + b| ==> Labels(a + b)[i] == (Labels(a) + Labels(b))[i];
  }

  /** The router links an entry leads to. */
  function Links(item: MenuItem): seq<seq<string>>
  {
    match item
    case Entry(_, _, link) => [link]
    case Group(_, _, children) => seq(|children|, i requires 0 <= i < |children| => children[i].routerLink)
  }

  /** Every link of the entry points into a feature area the role may enter. */
  predicate ItemAdmitted(item: MenuItem, role: string)
  {
    forall k :: 0 <= k < |Links(item)| ==> |Links(item)[k]| > 0 && Routing.Admits(Links(item)[k][0], role)
  }

  predicate AllAdmitted(menu: seq<MenuItem>, role: string)
  {
    forall i :: 0 <= i < |menu| ==> ItemAdmitted(menu[i], role)
  }

  lemma AllAdmittedAppend(a: seq<MenuItem>, b: seq<MenuItem>, role: string)
    requires AllAdmitted(a, role) && AllAdmitted(b, role)
    ensures AllAdmitted(a + b, role)
  {
    forall i | 0 <= i < |a + b| ensures ItemAdmitted((a + b)[i], role) {
      if i < |a| { assert (a + b)[i] == a[i]; } else { assert (a + b)[i] == b[i - |a|]; }
    }
  }

  /** The route-table facts the menu relies on, one section at a time. */
  lemma DashboardAdmitted(role: string)
    ensures AllAdmitted([Dashboard], role)
  {
    Routing.AdmitsAdministrationAreas(role);
  }

  lemma AdministrateurSectionAdmitted(role: string)
    requires role == ADMINISTRATEUR
    ensures AllAdmitted(AdministrateurSection, role)
  {
    Routing.AdmitsAdministrationAreas(role);
    assert ItemAdmitted(AdministrateurSection[1], role);
  }

  lemma CommercialSectionAdmitted(role: string)
    requires role == ADMINISTRATEUR || role == COMMERCIAL
    ensures AllAdmitted(CommercialSection, role)
    ensures AllAdmitted(LivraisonsSection, role)
  {
    Routing.AdmitsCommercialAreas(role);
    assert ItemAdmitted(CommercialSection[1], role);
  }

  lemma StocksGroupAdmitted(role: string)
    requires role == ADMINISTRATEUR || role == GESTIONNAIRE_STOCK
    ensures ItemAdmitted(StockSection[1], role)
  {
    Routing.AdmitsStockAreas(role);
    var links := Links(StockSection[1]);
    assert links == [["stocks"], ["stocks", "mouvements"], ["stocks", "inventaire"], ["stocks", "alertes"]];
  }

  lemma EntryAdmitted(item: MenuItem, role: string)
    requires item.Entry? && |item.routerLink| == 1 && Routing.Admits(item.routerLink[0], role)
    ensures ItemAdmitted(item, role)
  {
  }

  lemma StockSectionAdmitted(role: string)
    requires role == ADMINISTRATEUR || role == GESTIONNAIRE_STOCK
    ensures AllAdmitted(StockSection, role)
  {
    forall i | 0 <= i < |StockSection| ensures ItemAdmitted(StockSection[i], role) {
      if i == 0 {
        Routing.AdmitsAdministrationAreas(role);
        EntryAdmitted(StockSection[0], role);
      } else if i == 1 {
        StocksGroupAdmitted(role);
      } else {
        Routing.AdmitsStockAreas(role);
        EntryAdmitted(StockSection[i], role);
      }
    }
  }

  lemma ApprovisionnementSectionAdmitted(role: string)
    requires role == ADMINISTRATEUR || role == AGENT_APPROVISIONNEMENT
    ensures AllAdmitted(ApprovisionnementSection, role)
    ensures role == AGENT_APPROVISIONNEMENT ==> AllAdmitted([ReceptionDemandeAppro], role)
  {
    Routing.AdmitsStockAreas(role);
    assert ItemAdmitted(ApprovisionnementSection[1], role);
  }

  lemma ComptableSectionAdmitted(role: string)
    requires role == ADMINISTRATEUR || role == COMPTABLE
    ensures AllAdmitted(ComptableSection, role)
  {
    Routing.AdmitsCommercialAreas(role);
    assert ItemAdmitted(ComptableSection[0], role);
  }

  /** The menu and the route table agree: every link the menu shows to a role
      leads into an area whose declared roles admit that role (or that
      declares none). */
  lemma MenuLinksAdmitted(role: string)
    ensures AllAdmitted(MenuFor(role), role)
  {
    var m: seq<MenuItem> := [Dashboard];
    DashboardAdmitted(role);
    if role in [ADMINISTRATEUR] {
      AdministrateurSectionAdmitted(role);
      AllAdmittedAppend(m, AdministrateurSection, role);
      m := m + AdministrateurSection;
    }
    if role in [ADMINISTRATEUR, COMMERCIAL] {
      CommercialSectionAdmitted(role);
      AllAdmittedAppend(m, CommercialSection, role);
      m := m + CommercialSection;
    }
    if role in [ADMINISTRATEUR, GESTIONNAIRE_STOCK] {
      StockSectionAdmitted(role);
      AllAdmittedAppend(m, StockSection, role);
      m := m + StockSection;
    }
    if role in [ADMINISTRATEUR, AGENT_APPROVISIONNEMENT] {
      ApprovisionnementSectionAdmitted(role);
      AllAdmittedAppend(m, ApprovisionnementSection, role);
      m := m + ApprovisionnementSection;
      if role == AGENT_APPROVISIONNEMENT {
        AllAdmittedAppend(m, [ReceptionDemandeAppro], role);
        m := m + [ReceptionDemandeAppro];
      }
    }
    if role in [ADMINISTRATEUR, COMPTABLE] {
      ComptableSectionAdmitted(role);
      AllAdmittedAppend(m, ComptableSection, role);
      m := m + ComptableSection;
    }
    if role in [ADMINISTRATEUR, COMMERCIAL] {
      CommercialSectionAdmitted(role);
      AllAdmittedAppend(m, LivraisonsSection, role);
      m := m + LivraisonsSection;
    }
    assert m == MenuFor(role);
  }

  /** The top-level labels of each section. */
  lemma SectionLabels()
    ensures Labels([Dashboard]) == ["Dashboard"]
    ensures Labels(AdministrateurSection) == ["Utilisateurs", "Rapports"]
    ensures Labels(CommercialSection) == ["Clients", "Ventes"]
    ensures Labels(StockSection) == ["Produits", "Stocks", "Catégories", "Entrepôts", "Demandes d'Approvisionnement"]
    ensures Labels(ApprovisionnementSection) == ["Fournisseurs", "Commandes Achat"]
    ensures Labels([ReceptionDemandeAppro]) == ["Reception demande Appro"]
    ensures Labels(ComptableSection) == ["Finances"]
    ensures Labels(LivraisonsSection) == ["Livraisons"]
  {
  }

  /** The labels of a section shown under a condition. */
  lemma GatedLabels(b: bool, section: seq<MenuItem>)
    ensures Labels(if b then section else []) == if b then Labels(section) else []
  {
  }

  /** The top-level labels of the menu, section by section. */
  lemma MenuLabels(role: string)
    ensures Labels(MenuFor(role)) ==
      ["Dashboard"]
      + (if role in [ADMINISTRATEUR] then ["Utilisateurs", "Rapports"] else [])
      + (if role in [ADMINISTRATEUR, COMMERCIAL] then ["Clients", "Ventes"] else [])
      + (if role in [ADMINISTRATEUR, GESTIONNAIRE_STOCK]
         then ["Produits", "Stocks", "Catégories", "Entrepôts", "Demandes d'Approvisionnement"] else [])
      + (if role in [ADMINISTRATEUR, AGENT_APPROVISIONNEMENT]
         then ["Fournisseurs", "Commandes Achat"] + (if role == AGENT_APPROVISIONNEMENT then ["Reception demande Appro"] else [])
         else [])
      + (if role in [ADMINISTRATEUR, COMPTABLE] then ["Finances"] else [])
      + (if role in [ADMINISTRATEUR, COMMERCIAL] then ["Livraisons"] else [])
  {
    var a := if role in [ADMINISTRATEUR] then AdministrateurSection else [];
    var c := if role in [ADMINISTRATEUR, COMMERCIAL] then CommercialSection else [];
    var s := if role in [ADMINISTRATEUR, GESTIONNAIRE_STOCK] then StockSection else [];
    var r := if role == AGENT_APPROVISIONNEMENT then [ReceptionDemandeAppro] else [];
    var p := if role in [ADMINISTRATEUR, AGENT_APPROVISIONNEMENT] then ApprovisionnementSection + r else [];
    var f := if role in [ADMINISTRATEUR, COMPTABLE] then ComptableSection else [];
    var l := if role in [ADMINISTRATEUR, COMMERCIAL] then LivraisonsSection else [];
    assert MenuFor(role) == [Dashboard] + a + c + s + p + f + l;
    SectionLabels();
    GatedLabels(role in [ADMINISTRATEUR], AdministrateurSection);
    GatedLabels(role in [ADMINISTRATEUR, COMMERCIAL], CommercialSection);
    GatedLabels(role in [ADMINISTRATEUR, GESTIONNAIRE_STOCK], StockSection);
    GatedLabels(role == AGENT_APPROVISIONNEMENT, [ReceptionDemandeAppro]);
    LabelsAppend(ApprovisionnementSection, r);
    GatedLabels(role in [ADMINISTRATEUR, AGENT_APPROVISIONNEMENT], ApprovisionnementSection + r);
    GatedLabels(role in [ADMINISTRATEUR, COMPTABLE], ComptableSection);
    GatedLabels(role in [ADMINISTRATEUR, COMMERCIAL], LivraisonsSection);
    LabelsAppend([Dashboard] + a + c + s + p + f, l);
    LabelsAppend([Dashboard] + a + c + s + p, f);
    LabelsAppend([Dashboard] + a + c + s, p);
    LabelsAppend([Dashboard] + a + c, s);
    LabelsAppend([Dashboard] + a, c);
    LabelsAppend([Dashboard], a);
  }

  /** With a user, the first entry is always Dashboard. */
  lemma MenuStartsWithDashboard(role: string)
    ensures |MenuFor(role)| > 0 && MenuFor(role)[0] == Dashboard
    ensures MenuFor(role)[0].routerLink == ["dashboard"]
  {
  }

  /** Utilisateurs and Rapports are shown exactly to the administrator. */
  lemma AdministrateurOnlyEntries(role: string)
    ensures "Utilisateurs" in Labels(MenuFor(role)) <==> role == ADMINISTRATEUR
    ensures "Rapports" in Labels(MenuFor(role)) <==> role == ADMINISTRATEUR
  {
    MenuLabels(role);
    var u, r := "Utilisateurs", "Rapports";
    assert u !in ["Dashboard"] && u !in ["Clients", "Ventes"] && r !in ["Dashboard"] && r !in ["Clients", "Ventes"];
    assert u !in ["Produits", "Stocks", "Catégories", "Entrepôts", "Demandes d'Approvisionnement"];
    assert r !in ["Produits", "Stocks", "Catégories", "Entrepôts", "Demandes d'Approvisionnement"];
    assert u !in ["Fournisseurs", "Commandes Achat", "Reception demande Appro"] && u !in ["Finances"] && u !in ["Livraisons"];
    assert r !in ["Fournisseurs", "Commandes Achat", "Reception demande Appro"] && r !in ["Finances"] && r !in ["Livraisons"];
  }

  /** 'Reception demande Appro' is shown exactly to the procurement agent;
      the administrator sees the Fournisseurs and Commandes Achat section
      without it. */
  lemma ReceptionOnlyForAgent(role: string)
    ensures "Reception demande Appro" in Labels(MenuFor(role)) <==> role == AGENT_APPROVISIONNEMENT
    ensures role == ADMINISTRATEUR ==>
      "Fournisseurs" in Labels(MenuFor(role)) && "Commandes Achat" in Labels(MenuFor(role))
  {
    MenuLabels(role);
    var x := "Reception demande Appro";
    assert x !in ["Dashboard"] && x !in ["Utilisateurs", "Rapports"] && x !in ["Clients", "Ventes"];
    assert x !in ["Produits", "Stocks", "Catégories", "Entrepôts", "Demandes d'Approvisionnement"];
    assert x !in ["Fournisseurs", "Commandes Achat"] && x !in ["Finances"] && x !in ["Livraisons"];
  }

  /** The administrator passes every gate except the agent's own entry. */
  lemma AdministrateurMenuShape()
    ensures MenuFor(ADMINISTRATEUR) ==
      ([Dashboard] + AdministrateurSection + CommercialSection + StockSection)
      + (ApprovisionnementSection + ComptableSection + LivraisonsSection)
  {
    var role := ADMINISTRATEUR;
    assert role in [ADMINISTRATEUR] && role in [ADMINISTRATEUR, COMMERCIAL];
    assert role in [ADMINISTRATEUR, GESTIONNAIRE_STOCK] && role in [ADMINISTRATEUR, AGENT_APPROVISIONNEMENT];
    assert role in [ADMINISTRATEUR, COMPTABLE] && role != AGENT_APPROVISIONNEMENT;
    assert ApprovisionnementSection + [] == ApprovisionnementSection;
  }

  lemma UpperMenuLabels()
    ensures Labels([Dashboard] + AdministrateurSection + CommercialSection + StockSection) ==
      ["Dashboard", "Utilisateurs", "Rapports", "Clients", "Ventes", "Produits", "Stocks",
       "Catégories", "Entrepôts", "Demandes d'Approvisionnement"]
  {
    SectionLabels();
    LabelsAppend([Dashboard], AdministrateurSection);
    LabelsAppend([Dashboard] + AdministrateurSection, CommercialSection);
    LabelsAppend([Dashboard] + AdministrateurSection + CommercialSection, StockSection);
  }

  lemma LowerMenuLabels()
    ensures Labels(ApprovisionnementSection + ComptableSection + LivraisonsSection) ==
      ["Fournisseurs", "Commandes Achat", "Finances", "Livraisons"]
  {
    SectionLabels();
    LabelsAppend(ApprovisionnementSection, ComptableSection);
    LabelsAppend(ApprovisionnementSection + ComptableSection, LivraisonsSection);
  }

  /** The administrator's menu, in order: fourteen top-level entries. */
  lemma AdministrateurMenu()
    ensures Labels(MenuFor(ADMINISTRATEUR)) ==
      ["Dashboard", "Utilisateurs", "Rapports", "Clients", "Ventes", "Produits", "Stocks",
       "Catégories", "Entrepôts", "Demandes d'Approvisionnement", "Fournisseurs",
       "Commandes Achat", "Finances", "Livraisons"]
    ensures |MenuFor(ADMINISTRATEUR)| == 14
  {
    AdministrateurMenuShape();
    UpperMenuLabels();
    LowerMenuLabels();
    LabelsAppend([Dashboard] + AdministrateurSection + CommercialSection + StockSection,
                 ApprovisionnementSection + ComptableSection + LivraisonsSection);
  }

  /** The accountant sees exactly Dashboard and Finances; a role outside the
      five labels sees Dashboard alone. */
  lemma NarrowMenus(role: string)
    ensures Labels(MenuFor(COMPTABLE)) == ["Dashboard", "Finances"]
    ensures role !in KnownRoles ==> MenuFor(role) == [Dashboard]
  {
    MenuLabels(COMPTABLE);
  }

  class LayoutComponent {
    var currentUser: Option<User>
    var menuItems: seq<MenuItem>
    var sidebarVisible: bool

    constructor ()
      ensures currentUser.None? && menuItems == [] && sidebarVisible
    {
      currentUser := None;
      menuItems := [];
      sidebarVisible := true;
    }

    /** The subscription to the current-user stream: record the user and
        rebuild the menu. */
    method OnCurrentUser(user: Option<User>)
      modifies this
      ensures currentUser == user && sidebarVisible == old(sidebarVisible)
      ensures menuItems == if user.Some? then MenuFor(user.value.role) else old(menuItems)
    {
      currentUser := user;
      BuildMenu();
    }

    /** Without a user the menu is left as it was (not cleared); otherwise it
        is rebuilt from scratch, so two calls give the same menu. */
    method BuildMenu()
      modifies this`menuItems
      ensures currentUser.None? ==> menuItems == old(menuItems)
      ensures currentUser.Some? ==> menuItems == MenuFor(currentUser.value.role)
    {
      if currentUser.None? {
        return;
      }
      menuItems := [Dashboard];
      if HasAnyRole(currentUser, [ADMINISTRATEUR]) {
        menuItems := menuItems + AdministrateurSection;
      }
      if HasAnyRole(currentUser, [ADMINISTRATEUR, COMMERCIAL]) {
        menuItems := menuItems + CommercialSection;
      }
      if HasAnyRole(currentUser, [ADMINISTRATEUR, GESTIONNAIRE_STOCK]) {
        menuItems := menuItems + StockSection;
      }
      if HasAnyRole(currentUser, [ADMINISTRATEUR, AGENT_APPROVISIONNEMENT]) {
        menuItems := menuItems + ApprovisionnementSection;
        if currentUser.value.role == AGENT_APPROVISIONNEMENT {
          menuItems := menuItems + [ReceptionDemandeAppro];
        }
      }
      if HasAnyRole(currentUser, [ADMINISTRATEUR, COMPTABLE]) {
        menuItems := menuItems + ComptableSection;
      }
      if HasAnyRole(currentUser, [ADMINISTRATEUR, COMMERCIAL]) {
        menuItems := menuItems + LivraisonsSection;
      }
    }

    method ToggleSidebar()
      modifies this`sidebarVisible
      ensures sidebarVisible == !old(sidebarVisible)
    {
      sidebarVisible := !sidebarVisible;
    }

    predicate CanViewAlertes()
      reads this
    {
      HasAnyRole(currentUser, [ADMINISTRATEUR, GESTIONNAIRE_STOCK])
    }

    function GetRoleDisplay(): string
      reads this
    {
      if currentUser.None? then ""
      else
        var role := currentUser.value.role;
        if role == ADMINISTRATEUR then "Administrateur"
        else if role == COMMERCIAL then "Commercial"
        else if role == GESTIONNAIRE_STOCK then "Gestionnaire de Stock"
        else if role == COMPTABLE then "Comptable"
        else if role == AGENT_APPROVISIONNEMENT then "Agent d'Approvisionnement"
        else role
    }
  }

  /** The alert bell is offered exactly to the users whose menu holds the
      Stocks group, which is where the alert screen is linked. */
  lemma AlertesFollowStocksMenu(c: LayoutComponent)
    ensures c.CanViewAlertes() <==> c.currentUser.Some? && "Stocks" in Labels(MenuFor(c.currentUser.value.role))
    ensures c.CanViewAlertes() <==>
      c.currentUser.Some? && (c.currentUser.value.role == ADMINISTRATEUR || c.currentUser.value.role == GESTIONNAIRE_STOCK)
  {
    if c.currentUser.Some? {
      MenuLabels(c.currentUser.value.role);
    }
  }

  /** The role shown in the header: empty without a user, a readable label
      for the five known roles (distinct and never empty), the raw role
      otherwise. */
  lemma RoleDisplayFacts(c: LayoutComponent)
    ensures c.currentUser.None? ==> c.GetRoleDisplay() == ""
    ensures c.currentUser.Some? && c.currentUser.value.role in KnownRoles ==> c.GetRoleDisplay() != ""
    ensures c.currentUser.Some? && c.currentUser.value.role == GESTIONNAIRE_STOCK ==> c.GetRoleDisplay() == "Gestionnaire de Stock"
    ensures c.currentUser.Some? && c.currentUser.value.role == AGENT_APPROVISIONNEMENT ==> c.GetRoleDisplay() == "Agent d'Approvisionnement"
    ensures c.currentUser.Some? && c.currentUser.value.role !in KnownRoles ==> c.GetRoleDisplay() == c.currentUser.value.role
  {
  }

  /** A client of the component: rebuilding the menu for the same user is
      idempotent, and toggling the sidebar twice restores it. */
  method RebuildScenario(c: LayoutComponent, u: User)
    modifies c
  {
    c.OnCurrentUser(Some(u));
    var first := c.menuItems;
    c.BuildMenu();
    assert c.menuItems == first;
    c.OnCurrentUser(None);
    assert c.menuItems == first;
    var visible := c.sidebarVisible;
    c.ToggleSidebar();
    c.ToggleSidebar();
    assert c.sidebarVisible == visible;
  }
}
