/** The creation form of a purchase order
    (src/app/features/commandes-achat/commande-achat-create/commande-achat-create.component.ts).

    The line array is a sequence field changed in place. The form subscribes
    to the array's value changes and re-prices every line from the catalogue
    on each change; the price patch itself emits no event. So every line
    operation here ends with `UpdatePrix`, as the subscription makes it. */
module CommandeAchatCreate {
  import opened Common
  import opened Models

  datatype AchatLine = AchatLine(produitId: Option<int>, quantite: Option<int>, prixUnitaire: Option<int>)

  /** `createLigneProduit()`: no product, quantity 1, price 0. */
  const DefaultLine := AchatLine(None, Some(1), Some(0))

  /** The catalogue product a line's control selects, when its value is
      truthy and the product is loaded. */
  function Selected(produitId: Option<int>, produits: seq<Produit>): (r: Option<Produit>)
    ensures r.Some? ==> TruthyNum(produitId) && r.value in produits && r.value.id == produitId.value
    ensures r.None? && TruthyNum(produitId) ==> forall p :: p in produits ==> p.id != produitId.value
  {
    if TruthyNum(produitId) then Find(produits, (p: Produit) => p.id == produitId.value) else None
  }

  /** One line after `updatePrix`: the purchase price of its product when
      that product is found, the line unchanged otherwise. */
  function Repriced(l: AchatLine, produits: seq<Produit>): AchatLine
  {
    var p := Selected(l.produitId, produits);
    if p.Some? then l.(prixUnitaire := Some(p.value.prixAchat)) else l
  }

  /** Every line re-priced. */
  function Refresh(lines: seq<AchatLine>, produits: seq<Produit>): (r: seq<AchatLine>)
    ensures |r| == |lines|
  {
    seq(|lines|, i requires 0 <= i < |lines| => Repriced(lines[i], produits))
  }

  /** Re-pricing keeps product and quantity of every line, sets the
      catalogue price on the lines whose product is found and leaves the
      other lines alone; doing it twice is doing it once. */
  lemma RefreshEffect(lines: seq<AchatLine>, produits: seq<Produit>, i: int)
    requires 0 <= i < |lines|
    ensures Refresh(lines, produits)[i].produitId == lines[i].produitId
    ensures Refresh(lines, produits)[i].quantite == lines[i].quantite
    ensures Selected(lines[i].produitId, produits).Some? ==>
              Refresh(lines, produits)[i].prixUnitaire == Some(Selected(lines[i].produitId, produits).value.prixAchat)
    ensures Selected(lines[i].produitId, produits).None? ==> Refresh(lines, produits)[i] == lines[i]
    ensures Refresh(Refresh(lines, produits), produits) == Refresh(lines, produits)
  {
  }

  /** `calculerSousTotal`: quantity times price, a missing value counting
      as 0. */
  function SousTotal(l: AchatLine): int
  {
    OrZero(l.quantite) * OrZero(l.prixUnitaire)
  }

  /** `montantTotal`. */
  function Total(lines: seq<AchatLine>): int
  {
    if lines == [] then 0 else Total(lines[..|lines| - 1]) + SousTotal(lines[|lines| - 1])
  }

  lemma {:induction false} TotalAppend(a: seq<AchatLine>, b: seq<AchatLine>)
    ensures Total(a + b) == Total(a) + Total(b)
    decreases |b|
  {
    if b == [] {
      assert a + b == a;
    } else {
      assert (a + b)[..|a + b| - 1] == a + b[..|b| - 1];
      TotalAppend(a, b[..|b| - 1]);
    }
  }

  /** Lines with non-negative quantities and prices (as the validators
      demand) give a non-negative total that bounds every line's subtotal. */
  lemma {:induction false} TotalNonNegative(lines: seq<AchatLine>)
    requires forall i :: 0 <= i < |lines| ==> OrZero(lines[i].quantite) >= 0 && OrZero(lines[i].prixUnitaire) >= 0
    ensures Total(lines) >= 0
    ensures forall i :: 0 <= i < |lines| ==> SousTotal(lines[i]) <= Total(lines)
    decreases |lines|
  {
    if lines != [] {
      var init := lines[..|lines| - 1];
      TotalNonNegative(init);
      forall i | 0 <= i < |lines|
        ensures SousTotal(lines[i]) <= Total(lines)
      {
        if i < |lines| - 1 {
          assert lines[i] == init[i];
        }
      }
    }
  }

  /** An item of a supply request handed over in the navigation state. */
  datatype PrefillItem = PrefillItem(produitId: int, quantite: Option<int>)

  /** The navigation state the supply-request screen passes along. */
  datatype NavState = NavState(fromDemandeAppro: bool, demandeNumero: Option<string>, produits: Option<seq<PrefillItem>>)

  /** The line pushed for one handed-over item: its product and quantity,
      priced at the product's purchase price, or 0 when the product is not
      loaded (`produit?.prix_achat || 0`). */
  function PrefillLine(item: PrefillItem, produits: seq<Produit>): AchatLine
  {
    var p := Find(produits, (q: Produit) => q.id == item.produitId);
    AchatLine(Some(item.produitId), item.quantite, Some(if p.Some? then p.value.prixAchat else 0))
  }

  function PrefillLines(items: seq<PrefillItem>, produits: seq<Produit>): (r: seq<AchatLine>)
    ensures |r| == |items|
  {
    seq(|items|, i requires 0 <= i < |items| => PrefillLine(items[i], produits))
  }

  /** Pre-filled lines are already priced: the re-pricing that follows every
      push changes nothing. */
  lemma PrefillPriced(items: seq<PrefillItem>, produits: seq<Produit>)
    ensures Refresh(PrefillLines(items, produits), produits) == PrefillLines(items, produits)
  {
    forall i | 0 <= i < |items|
      ensures Repriced(PrefillLines(items, produits)[i], produits) == PrefillLines(items, produits)[i]
    {
      var l := PrefillLines(items, produits)[i];
      var p := Find(produits, (q: Produit) => q.id == items[i].produitId);
      if TruthyNum(l.produitId) {
        assert Selected(l.produitId, produits) == p;
      }
    }
  }

  /** Each handed-over item becomes the line at its own position, with its
      product and quantity, and an unknown product is priced 0. */
  lemma PrefillShape(items: seq<PrefillItem>, produits: seq<Produit>, i: int)
    requires 0 <= i < |items|
    ensures PrefillLines(items, produits)[i].produitId == Some(items[i].produitId)
    ensures PrefillLines(items, produits)[i].quantite == items[i].quantite
    ensures (forall p :: p in produits ==> p.id != items[i].produitId) ==>
              PrefillLines(items, produits)[i].prixUnitaire == Some(0)
    ensures PrefillLines([], produits) == []
  {
  }

  /** Form validity: supplier and order date required; each line needs a
      product, a quantity of at least 1 and a price of at least 0. An empty
      line list is valid. */
  predicate LineValid(l: AchatLine)
  {
    l.produitId.Some? && l.quantite.Some? && l.quantite.value >= 1 && l.prixUnitaire.Some? && l.prixUnitaire.value >= 0
  }

  /** The request `onSubmit` sends; the dates are formatted by the browser,
      here they are carried as given. */
  datatype CreateRequest = CreateRequest(
    fournisseurId: int, dateCommande: string, dateLivraisonPrevue: Option<string>, lines: seq<AchatLine>)

  class CommandeAchatCreateComponent {
    var lines: seq<AchatLine>
    var fournisseurId: Option<int>
    var dateCommande: Option<string>
    var dateLivraisonPrevue: Option<string>
    var produits: seq<Produit>
    var fromDemandeAppro: bool
    var demandeApproNumero: Option<string>
    var loading: bool
    var touched: bool

    /** The constructor reads the navigation state; `initForm` then builds
        the form with one default line and today's date. */
    constructor (state: Option<NavState>, today: string)
      ensures fromDemandeAppro <==> state.Some? && state.value.fromDemandeAppro
      ensures demandeApproNumero == if fromDemandeAppro then state.value.demandeNumero else Some("")
      ensures lines == [DefaultLine] && fournisseurId.None? && dateCommande == Some(today) && dateLivraisonPrevue.None?
      ensures produits == [] && !loading && !touched
    {
      fromDemandeAppro := false;
      demandeApproNumero := Some("");
      if state.Some? && state.value.fromDemandeAppro {
        fromDemandeAppro := true;
        demandeApproNumero := state.value.demandeNumero;
      }
      lines := [DefaultLine];
      fournisseurId := None;
      dateCommande := Some(today);
      dateLivraisonPrevue := None;
      produits := [];
      loading := false;
      touched := false;
    }

    /** The catalogue answer; an error is not handled. The lines are not
        re-priced here: only a change of the line array triggers that. */
    method OnProduitsLoaded(reply: Reply<seq<Produit>>)
      modifies this`produits
      ensures produits == if reply.Ok? then reply.body else old(produits)
    {
      if reply.Ok? {
        produits := reply.body;
      }
    }

    /** `updatePrix`: the `forEach` over the lines, patching in place. */
    method UpdatePrix()
      modifies this`lines
      ensures lines == Refresh(old(lines), produits)
    {
      var i := 0;
      while i < |lines|
        invariant 0 <= i <= |lines| == |old(lines)|
        invariant forall j :: 0 <= j < i ==> lines[j] == Repriced(old(lines)[j], produits)
        invariant forall j :: i <= j < |lines| ==> lines[j] == old(lines)[j]
      {
        var produitId := lines[i].produitId;
        if TruthyNum(produitId) {
          var produit := Find(produits, (p: Produit) => p.id == produitId.value);
          if produit.Some? {
            lines := lines[i := lines[i].(prixUnitaire := Some(produit.value.prixAchat))];
          }
        }
        i := i + 1;
      }
    }

    method AjouterLigne()
      modifies this`lines
      ensures lines == Refresh(old(lines) + [DefaultLine], produits)
      ensures |lines| == |old(lines)| + 1 && lines[|lines| - 1] == DefaultLine
    {
      lines := lines + [DefaultLine];
      UpdatePrix();
    }

    /** Removes a line only while more than one is left. */
    method SupprimerLigne(index: int)
      modifies this`lines
      ensures |old(lines)| > 1 ==> lines == Refresh(RemoveAt(old(lines), index), produits)
      ensures |old(lines)| > 1 ==> |lines| >= 1
      ensures |old(lines)| <= 1 ==> lines == old(lines)
    {
      if |lines| > 1 {
        lines := RemoveAt(lines, index);
        UpdatePrix();
      }
    }

    /** The user edits a line's controls; the change re-prices the lines. */
    method OnLineEdited(index: int, line: AchatLine)
      requires 0 <= index < |lines|
      modifies this`lines
      ensures lines == Refresh(old(lines)[index := line], produits)
    {
      lines := lines[index := line];
      UpdatePrix();
    }

    /** `preRemplirDepuisDemandeAppro`, run against the catalogue loaded by
        then: with handed-over items (an empty list included, since an array
        is truthy) every line is removed and one priced line per item is
        pushed; without, nothing changes. */
    method PreRemplir(state: Option<NavState>)
      modifies this`lines
      ensures state.Some? && state.value.produits.Some? ==>
                lines == PrefillLines(state.value.produits.value, produits)
      ensures !(state.Some? && state.value.produits.Some?) ==> lines == old(lines)
    {
      if !(state.Some? && state.value.produits.Some?) {
        return;
      }
      var items := state.value.produits.value;
      while |lines| > 0
        decreases |lines|
      {
        lines := RemoveAt(lines, 0);
        UpdatePrix();
      }
      var i := 0;
      while i < |items|
        invariant 0 <= i <= |items|
        invariant lines == PrefillLines(items[..i], produits)
      {
        lines := lines + [PrefillLine(items[i], produits)];
        assert lines == PrefillLines(items[..i + 1], produits);
        PrefillPriced(items[..i + 1], produits);
        UpdatePrix();
        i := i + 1;
      }
      assert items[..i] == items;
    }

    /** `ngOnInit`'s pre-fill step: only when the constructor saw the flag. */
    method PreRemplirIfFlagged(state: Option<NavState>)
      modifies this`lines
      ensures !fromDemandeAppro ==> lines == old(lines)
      ensures fromDemandeAppro && state.Some? && state.value.produits.Some? ==>
                lines == PrefillLines(state.value.produits.value, produits)
    {
      if fromDemandeAppro {
        PreRemplir(state);
      }
    }

    function CalculerSousTotal(index: int): int
      requires 0 <= index < |lines|
      reads this
    {
      SousTotal(lines[index])
    }

    /** The `for` loop of the `montantTotal` getter. */
    method MontantTotal() returns (total: int)
      ensures total == Total(lines)
    {
      total := 0;
      var i := 0;
      while i < |lines|
        invariant 0 <= i <= |lines|
        invariant total == Total(lines[..i])
      {
        assert lines[..i + 1][..i] == lines[..i];
        total := total + CalculerSousTotal(i);
        i := i + 1;
      }
      assert lines[..i] == lines;
    }

    predicate FormValid()
      reads this`fournisseurId, this`dateCommande, this`lines
    {
      fournisseurId.Some? && dateCommande.Some? && forall i :: 0 <= i < |lines| ==> LineValid(lines[i])
    }

    /** `onSubmit`: an invalid form marks its controls touched and sends
        nothing; a valid one sends the order, with no delivery date when
        none was picked. There is no separate check for an empty line
        list. */
    method OnSubmit() returns (request: Option<CreateRequest>)
      modifies this`touched, this`loading
      ensures request.Some? <==> FormValid()
      ensures request.Some? ==> loading && request.value.lines == lines && request.value.fournisseurId == fournisseurId.value
      ensures request.Some? ==> request.value.dateLivraisonPrevue == dateLivraisonPrevue
      ensures request.None? ==> loading == old(loading) && touched
    {
      if !FormValid() {
        touched := true;
        return None;
      }
      loading := true;
      request := Some(CreateRequest(fournisseurId.value, dateCommande.value,
                                    if dateLivraisonPrevue.Some? then dateLivraisonPrevue else None, lines));
    }

    /** The reply to the create request: success opens the new order's
        page, given here by its id. */
    method OnCreated(reply: Reply<int>) returns (openCommande: Option<int>)
      modifies this`loading
      ensures !loading
      ensures openCommande == if reply.Ok? then Some(reply.body) else None
    {
      loading := false;
      openCommande := if reply.Ok? then Some(reply.body) else None;
    }
  }

  /** The pre-fill with an empty item list leaves the form with no line at
      all, and such a form is still valid. */
  lemma EmptyPrefillNoLines(produits: seq<Produit>)
    ensures PrefillLines([], produits) == []
    ensures forall i :: 0 <= i < |PrefillLines([], produits)| ==> LineValid(PrefillLines([], produits)[i])
  {
  }

  /** Adding a default line leaves the total unchanged: its price is 0
      until a product is chosen. */
  lemma DefaultLineTotal(lines: seq<AchatLine>)
    ensures Total(lines + [DefaultLine]) == Total(lines)
  {
    TotalAppend(lines, [DefaultLine]);
  }
}
