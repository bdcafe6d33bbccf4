/** The creation form of a supply request
    (src/app/features/demandes-approvisionnement/demande-create/demande-create.component.ts).

    The form's line array is a sequence field that the methods change in
    place, as the `FormArray` is. A line's product control starts empty
    (`''`), so it is an optional number; its quantity control can be cleared
    by the user, so it is optional too. */
module DemandeCreate {
  import opened Common
  import opened Models

  datatype DemandeLine = DemandeLine(produitId: Option<int>, quantite: Option<int>, justification: string)

  /** `createLigneProduit()`: no product, quantity 1, no justification. */
  const DefaultLine := DemandeLine(None, Some(1), "")

  const RuptureJustification := "Stock faible ou en rupture"

  /** The body of the stock check: both lists may be absent. */
  datatype StockCheck = StockCheck(rupture: Option<seq<Produit>>, faibleStock: Option<seq<Produit>>)

  /** `[...(rupture || []), ...(faible_stock || [])]`. */
  function Flagged(data: StockCheck): seq<Produit>
  {
    (if data.rupture.Some? then data.rupture.value else [])
    + (if data.faibleStock.Some? then data.faibleStock.value else [])
  }

  /** `Math.max(seuil - (stock || 0), seuil)`. */
  function Recommended(seuil: int, stock: Option<int>): int
  {
    if seuil - OrZero(stock) > seuil then seuil - OrZero(stock) else seuil
  }

  /** The recommendation never goes below the threshold, and for a
      non-negative stock it is exactly the threshold: the deficit term only
      wins for a negative stock. */
  lemma RecommendedBounds(seuil: int, stock: Option<int>)
    ensures Recommended(seuil, stock) >= seuil
    ensures OrZero(stock) >= 0 ==> Recommended(seuil, stock) == seuil
    ensures OrZero(stock) < 0 ==> Recommended(seuil, stock) == seuil - OrZero(stock)
    ensures Recommended(seuil, stock) >= seuil - OrZero(stock)
  {
  }

  /** The line the stock check adds for one flagged product. */
  function RuptureLine(p: Produit): DemandeLine
  {
    DemandeLine(Some(p.id), Some(Recommended(p.seuilMinimum, p.stockTotal)), RuptureJustification)
  }

  /** One line per flagged product, in order. */
  function RuptureLines(ps: seq<Produit>): (r: seq<DemandeLine>)
    ensures |r| == |ps|
  {
    seq(|ps|, i requires 0 <= i < |ps| => RuptureLine(ps[i]))
  }

  /** Each flagged product gets its line at its own position, with a
      quantity at least its threshold and the fixed justification. */
  lemma RuptureLinesShape(data: StockCheck, i: int)
    requires 0 <= i < |Flagged(data)|
    ensures RuptureLines(Flagged(data))[i].produitId == Some(Flagged(data)[i].id)
    ensures OrZero(RuptureLines(Flagged(data))[i].quantite) >= Flagged(data)[i].seuilMinimum
    ensures RuptureLines(Flagged(data))[i].justification == RuptureJustification
    ensures data.rupture.Some? && i < |data.rupture.value| ==> Flagged(data)[i] == data.rupture.value[i]
  {
    RecommendedBounds(Flagged(data)[i].seuilMinimum, Flagged(data)[i].stockTotal);
  }

  /** `getTotalQuantite`: quantities summed, a cleared one counting as 0. */
  function SumQuantite(lines: seq<DemandeLine>): int
  {
    if lines == [] then 0 else SumQuantite(lines[..|lines| - 1]) + OrZero(lines[|lines| - 1].quantite)
  }

  lemma {:induction false} SumQuantiteAppend(a: seq<DemandeLine>, b: seq<DemandeLine>)
    ensures SumQuantite(a + b) == SumQuantite(a) + SumQuantite(b)
    decreases |b|
  {
    if b == [] {
      assert a + b == a;
    } else {
      assert (a + b)[..|a + b| - 1] == a + b[..|b| - 1];
      SumQuantiteAppend(a, b[..|b| - 1]);
    }
  }

  function SumSeuils(ps: seq<Produit>): int
  {
    if ps == [] then 0 else SumSeuils(ps[..|ps| - 1]) + ps[|ps| - 1].seuilMinimum
  }

  /** The lines added by the stock check ask for at least the sum of the
      flagged products' thresholds. */
  lemma {:induction false} RuptureTotal(ps: seq<Produit>)
    ensures SumQuantite(RuptureLines(ps)) >= SumSeuils(ps)
    decreases |ps|
  {
    if ps != [] {
      var init := ps[..|ps| - 1];
      assert RuptureLines(ps)[..|ps| - 1] == RuptureLines(init);
      RuptureTotal(init);
      RecommendedBounds(ps[|ps| - 1].seuilMinimum, ps[|ps| - 1].stockTotal);
    }
  }

  /** `getStockSeverity` for a line's product control: `'success'` without a
      product or when it is not in the catalogue; then `'danger'` at zero
      stock (a missing stock counts as zero), `'warning'` below the
      threshold, `'success'` otherwise. */
  function StockSeverity(produitId: Option<int>, produits: seq<Produit>): Severity
  {
    if !TruthyNum(produitId) then Success
    else
      match Find(produits, (p: Produit) => p.id == produitId.value)
      case None => Success
      case Some(p) =>
        var stock := OrZero(p.stockTotal);
        if stock == 0 then Danger
        else if stock < p.seuilMinimum then Warning
        else Success
  }

  /** The three colours in terms of the catalogue. */
  lemma StockSeverityCases(produitId: Option<int>, produits: seq<Produit>)
    ensures StockSeverity(produitId, produits) == Danger <==>
      TruthyNum(produitId) &&
      (exists p :: p in produits && p.id == produitId.value && OrZero(p.stockTotal) == 0 &&
                   Find(produits, (q: Produit) => q.id == produitId.value) == Some(p))
    ensures StockSeverity(produitId, produits) != Success ==>
      TruthyNum(produitId) && (exists p :: p in produits && p.id == produitId.value)
    ensures !TruthyNum(produitId) ==> StockSeverity(produitId, produits) == Success
    ensures (forall p :: p in produits ==> p.id != OrZero(produitId)) ==> StockSeverity(produitId, produits) == Success
  {
    if TruthyNum(produitId) {
      var f := Find(produits, (q: Produit) => q.id == produitId.value);
      if f.Some? {
        assert f.value in produits;
      }
    }
  }

  /** The quantity `onProduitChange` patches in, if any: only for a product
      found in the catalogue whose stock is known and below its threshold. */
  function ProduitPatch(produitId: Option<int>, produits: seq<Produit>): Option<int>
  {
    if !TruthyNum(produitId) then None
    else
      match Find(produits, (p: Produit) => p.id == produitId.value)
      case None => None
      case Some(p) =>
        if p.stockTotal.Some? && p.stockTotal.value < p.seuilMinimum
        then Some(Recommended(p.seuilMinimum, p.stockTotal))
        else None
  }

  /** A patch happens only on a line whose badge is not green, and the
      patched quantity is never below the product's threshold. */
  lemma PatchMeansShortage(produitId: Option<int>, produits: seq<Produit>)
    requires ProduitPatch(produitId, produits).Some?
    ensures StockSeverity(produitId, produits) != Success
    ensures exists p :: p in produits && p.id == produitId.value && p.stockTotal.Some? &&
              p.stockTotal.value < p.seuilMinimum && ProduitPatch(produitId, produits).value >= p.seuilMinimum
  {
    var p := Find(produits, (q: Produit) => q.id == produitId.value).value;
    assert p in produits;
    RecommendedBounds(p.seuilMinimum, p.stockTotal);
  }

  /** `Validators.required` and `Validators.min(1)` on a line. */
  predicate LineValid(l: DemandeLine)
  {
    l.produitId.Some? && l.quantite.Some? && l.quantite.value >= 1
  }

  /** A line from the stock check passes the validators exactly when its
      recommended quantity is at least 1: a threshold of 0 yields an invalid
      line. */
  lemma RuptureLineValidity(p: Produit)
    ensures LineValid(RuptureLine(p)) <==> Recommended(p.seuilMinimum, p.stockTotal) >= 1
    ensures p.seuilMinimum >= 1 ==> LineValid(RuptureLine(p))
    ensures !LineValid(DemandeLine(None, Some(1), ""))
  {
    RecommendedBounds(p.seuilMinimum, p.stockTotal);
  }

  /** The request `onSubmit` sends (the date is formatted by the browser and
      is not part of this model). */
  datatype CreateRequest = CreateRequest(priorite: string, motif: string, lines: seq<DemandeLine>)

  class DemandeCreateComponent {
    var lines: seq<DemandeLine>
    var priorite: string
    var motif: string
    var dateDemandeSet: bool
    var produits: seq<Produit>
    var loading: bool
    var loadingRupture: bool
    var touched: bool

    /** At least one line, the invariant every line operation keeps. */
    predicate Valid()
      reads this
    {
      |lines| >= 1
    }

    /** `initForm()`: one empty line, priority Normale, today's date. */
    constructor ()
      ensures Valid()
      ensures lines == [DefaultLine] && priorite == "Normale" && motif == "" && dateDemandeSet
      ensures produits == [] && !loading && !loadingRupture && !touched
    {
      lines := [DefaultLine];
      priorite := "Normale";
      motif := "";
      dateDemandeSet := true;
      produits := [];
      loading := false;
      loadingRupture := false;
      touched := false;
    }

    /** The catalogue answer; an error is not handled and changes nothing. */
    method OnProduitsLoaded(reply: Reply<seq<Produit>>)
      modifies this`produits
      ensures produits == if reply.Ok? then reply.body else old(produits)
    {
      if reply.Ok? {
        produits := reply.body;
      }
    }

    method AjouterLigne()
      requires Valid()
      modifies this`lines
      ensures Valid()
      ensures lines == old(lines) + [DefaultLine]
    {
      lines := lines + [DefaultLine];
    }

    /** Removes the indexed line (with `splice`'s reading of the index) only
        while there is more than one line. */
    method SupprimerLigne(index: int)
      requires Valid()
      modifies this`lines
      ensures Valid()
      ensures |old(lines)| > 1 ==> lines == RemoveAt(old(lines), index)
      ensures |old(lines)| <= 1 ==> lines == old(lines)
    {
      if |lines| > 1 {
        lines := RemoveAt(lines, index);
      }
    }

    method AjouterProduitsRupture()
      modifies this`loadingRupture
      ensures loadingRupture
    {
      loadingRupture := true;
    }

    /** The stock-check answer: with nothing flagged, or on error, the lines
        stay; otherwise every line is removed and one line per flagged
        product is pushed, in order. */
    method OnStockCheck(reply: Reply<StockCheck>)
      requires Valid()
      modifies this`lines, this`loadingRupture
      ensures Valid()
      ensures !loadingRupture
      ensures reply.Failed? || Flagged(reply.body) == [] ==> lines == old(lines)
      ensures reply.Ok? && Flagged(reply.body) != [] ==> lines == RuptureLines(Flagged(reply.body))
    {
      if reply.Failed? {
        loadingRupture := false;
        return;
      }
      var flagged := Flagged(reply.body);
      if |flagged| == 0 {
        loadingRupture := false;
        return;
      }
      while |lines| > 0
        invariant |lines| <= |old(lines)|
        decreases |lines|
      {
        lines := RemoveAt(lines, 0);
      }
      var i := 0;
      while i < |flagged|
        invariant 0 <= i <= |flagged|
        invariant lines == RuptureLines(flagged[..i])
      {
        lines := lines + [RuptureLine(flagged[i])];
        i := i + 1;
        assert flagged[..i] == flagged[..i - 1] + [flagged[i - 1]];
      }
      assert flagged[..i] == flagged;
      loadingRupture := false;
    }

    /** `onProduitChange(index)`: patches the recommended quantity into the
        line when its product is short, and leaves everything else. */
    method OnProduitChange(index: int)
      requires 0 <= index < |lines|
      modifies this`lines
      ensures |lines| == |old(lines)|
      ensures forall j :: 0 <= j < |lines| && j != index ==> lines[j] == old(lines)[j]
      ensures ProduitPatch(old(lines)[index].produitId, produits).None? ==> lines == old(lines)
      ensures ProduitPatch(old(lines)[index].produitId, produits).Some? ==>
        lines[index] == old(lines)[index].(quantite := ProduitPatch(old(lines)[index].produitId, produits))
    {
      var ligne := lines[index];
      var produitId := ligne.produitId;
      if TruthyNum(produitId) {
        var produit := Find(produits, (p: Produit) => p.id == produitId.value);
        if produit.Some? && produit.value.stockTotal.Some? && produit.value.stockTotal.value < produit.value.seuilMinimum {
          var quantiteRecommandee := Recommended(produit.value.seuilMinimum, produit.value.stockTotal);
          lines := lines[index := ligne.(quantite := Some(quantiteRecommandee))];
        }
      }
    }

    function GetStockSeverity(index: int): Severity
      requires 0 <= index < |lines|
      reads this
    {
      StockSeverity(lines[index].produitId, produits)
    }

    /** The `for` loop of `getTotalQuantite`. */
    method GetTotalQuantite() returns (total: int)
      ensures total == SumQuantite(lines)
    {
      total := 0;
      var i := 0;
      while i < |lines|
        invariant 0 <= i <= |lines|
        invariant total == SumQuantite(lines[..i])
      {
        assert lines[..i + 1][..i] == lines[..i];
        total := total + OrZero(lines[i].quantite);
        i := i + 1;
      }
      assert lines[..i] == lines;
    }

    predicate FormValid()
      reads this`dateDemandeSet, this`priorite, this`lines
    {
      dateDemandeSet && priorite != "" && forall i :: 0 <= i < |lines| ==> LineValid(lines[i])
    }

    /** `onSubmit`: an invalid form marks its controls touched and sends
        nothing; an empty line list only warns; otherwise the request goes
        out with the spinner on. */
    method OnSubmit() returns (request: Option<CreateRequest>)
      modifies this`touched, this`loading
      ensures request.Some? <==> FormValid() && |lines| > 0
      ensures request.Some? ==> request.value == CreateRequest(priorite, motif, lines) && loading
      ensures request.None? ==> loading == old(loading)
      ensures touched == (old(touched) || !FormValid())
    {
      if !FormValid() {
        touched := true;
        return None;
      }
      if |lines| == 0 {
        return None;
      }
      loading := true;
      request := Some(CreateRequest(priorite, motif, lines));
    }

    /** The reply to the create request: success opens the new request's
        page, `/demandes-approvisionnement/<id>`, given here by its id. */
    method OnCreated(reply: Reply<int>) returns (openDemande: Option<int>)
      modifies this`loading
      ensures !loading
      ensures openDemande == if reply.Ok? then Some(reply.body) else None
    {
      loading := false;
      openDemande := if reply.Ok? then Some(reply.body) else None;
    }
  }

  /** Adding a default line raises the total by one. */
  lemma AjouterLigneTotal(lines: seq<DemandeLine>)
    ensures SumQuantite(lines + [DefaultLine]) == SumQuantite(lines) + 1
  {
    SumQuantiteAppend(lines, [DefaultLine]);
  }

  /** A client of the form: the line list survives removals. */
  method LinesScenario(c: DemandeCreateComponent)
    requires c.Valid()
    modifies c
  {
    c.SupprimerLigne(0);
    c.SupprimerLigne(0);
    assert |c.lines| >= 1;
    c.AjouterLigne();
    var total := c.GetTotalQuantite();
    AjouterLigneTotal(c.lines[..|c.lines| - 1]);
  }
}
